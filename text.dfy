/** The parts of Python's string handling the pipelines depend on:
    `str.split(sep)` with a one-character separator, its inverse `sep.join`,
    and the tokenisation of a command line by `shlex.split`: when it raises, and the
    argument vector it gives for a command line without quotes. */
module Text {

  /** Number of occurrences of `c` in `s`. */
  function Count(s: string, c: char): (n: nat)
    ensures n <= |s|
    ensures n == 0 <==> c !in s
  {
    if |s| == 0 then 0 else (if s[0] == c then 1 else 0) + Count(s[1..], c)
  }

  /** `s.split(sep)`: the fields between consecutive separators, empty fields kept. */
  function Split(s: string, sep: char): seq<string>
    decreases |s|
  {
    if |s| == 0 then [""]
    else
      var rest := Split(s[1..], sep);
      if s[0] == sep then [""] + rest
      else [[s[0]] + rest[0]] + rest[1..]
  }

  /** `sep.join(fields)`. */
  function Join(fields: seq<string>, sep: char): string
    requires |fields| >= 1
  {
    if |fields| == 1 then fields[0] else fields[0] + [sep] + Join(fields[1..], sep)
  }

  /** The non-empty strings of `fields`, in order. */
  function NonEmpty(fields: seq<string>): seq<string> {
    if |fields| == 0 then []
    else if fields[0] == "" then NonEmpty(fields[1..])
    else [fields[0]] + NonEmpty(fields[1..])
  }

  /** Splitting on blanks and dropping empty fields: the tokenisation of a command line
      that contains no quotes, tabs or newlines. */
  function Words(s: string): seq<string> {
    NonEmpty(Split(s, ' '))
  }

  /** `s.split(sep)` has one field more than `s` has separators, and no field
      contains the separator. */
  lemma {:induction false} SplitFields(s: string, sep: char)
    ensures |Split(s, sep)| == Count(s, sep) + 1
    ensures forall k :: 0 <= k < |Split(s, sep)| ==> sep !in Split(s, sep)[k]
    decreases |s|
  {
    if |s| > 0 {
      SplitFields(s[1..], sep);
    }
  }

  lemma {:induction false} CountAppend(a: string, b: string, c: char)
    ensures Count(a + b, c) == Count(a, c) + Count(b, c)
  {
    if |a| > 0 {
      assert (a + b)[1..] == a[1..] + b;
      CountAppend(a[1..], b, c);
    } else {
      assert a + b == b;
    }
  }

  /** Splitting then joining gives back the original string. */
  lemma {:induction false} JoinSplit(s: string, sep: char)
    ensures Join(Split(s, sep), sep) == s
    decreases |s|
  {
    if |s| > 0 {
      JoinSplit(s[1..], sep);
      var rest := Split(s[1..], sep);
      if s[0] == sep {
        assert ([""] + rest)[1..] == rest;
      } else {
        if |rest| > 1 {
          assert ([[s[0]] + rest[0]] + rest[1..])[1..] == rest[1..];
          assert Join(rest, sep) == rest[0] + [sep] + Join(rest[1..], sep);
        }
      }
    }
  }

  /** A string without the separator is a single field. */
  lemma {:induction false} SplitNoSep(s: string, sep: char)
    requires sep !in s
    ensures Split(s, sep) == [s]
  {
    assert Count(s, sep) == 0;
    var f := Split(s, sep);
    JoinSplit(s, sep);
  }

  /** A field followed by the separator splits off as the first field. */
  lemma {:induction false} SplitAppend(p: string, sep: char, rest: string)
    requires sep !in p
    ensures Split(p + [sep] + rest, sep) == [p] + Split(rest, sep)
    decreases |p|
  {
    var s := p + [sep] + rest;
    if |p| == 0 {
      assert s[1..] == rest;
    } else {
      assert s[1..] == p[1..] + [sep] + rest;
      SplitAppend(p[1..], sep, rest);
      assert [s[0]] + p[1..] == p;
    }
  }

  /** Joining fields that contain no separator, then splitting, gives back the fields. */
  lemma {:induction false} SplitJoin(fields: seq<string>, sep: char)
    requires |fields| >= 1
    requires forall k :: 0 <= k < |fields| ==> sep !in fields[k]
    ensures Split(Join(fields, sep), sep) == fields
    decreases |fields|
  {
    if |fields| == 1 {
      SplitNoSep(fields[0], sep);
    } else {
      SplitJoin(fields[1..], sep);
      SplitAppend(fields[0], sep, Join(fields[1..], sep));
    }
  }

  /** The first field of `s.split(sep)` is the part of `s` up to its first separator. */
  lemma {:induction false} SplitHead(s: string, sep: char)
    ensures var h := Split(s, sep)[0];
            h <= s && sep !in h && (|h| == |s| || s[|h|] == sep)
    decreases |s|
  {
    if |s| > 0 && s[0] != sep {
      SplitHead(s[1..], sep);
    }
  }

  lemma {:induction false} NonEmptyCons(w: string, fields: seq<string>)
    requires w != ""
    ensures NonEmpty([w] + fields) == [w] + NonEmpty(fields)
  {
    assert ([w] + fields)[1..] == fields;
  }

  /** The first token of a command line that starts with a blank-free word and a blank is that word. */
  lemma WordsHead(w: string, rest: string)
    requires w != "" && ' ' !in w
    ensures |Words(w + " " + rest)| >= 1 && Words(w + " " + rest)[0] == w
  {
    SplitAppend(w, ' ', rest);
    NonEmptyCons(w, Split(rest, ' '));
  }
  /** The states of the `shlex.split` scanner (POSIX mode, no comment characters) that
      decide whether it raises: outside quotes, inside single or inside double quotes,
      or just after a backslash (outside quotes, or inside double quotes). Inside
      single quotes a backslash is an ordinary character. */
  datatype Scan = Outside | InSingle | InDouble | Escaped(inDouble: bool)

  /** The scanner state after reading the character `c` in state `st`. */
  function ScanChar(st: Scan, c: char): Scan {
    match st
    case Outside =>
      if c == '\\' then Escaped(false) else if c == '\'' then InSingle else if c == '"' then InDouble else Outside
    case InSingle => if c == '\'' then Outside else InSingle
    case InDouble => if c == '"' then Outside else if c == '\\' then Escaped(true) else InDouble
    case Escaped(inDouble) => if inDouble then InDouble else Outside
  }

  /** The scanner state after reading `s` from state `st`. */
  function ScanFrom(st: Scan, s: string): Scan
    decreases |s|
  {
    if |s| == 0 then st else ScanFrom(ScanChar(st, s[0]), s[1..])
  }

  /** `shlex.split(s)` returns instead of raising `ValueError`: the text ends outside
      quotes and not just after a backslash ("No closing quotation", "No escaped
      character"). */
  predicate Tokenizes(s: string) {
    ScanFrom(Outside, s) == Outside
  }

  /** The characters that open a quote or escape the next character. */
  predicate Quoting(c: char) {
    c == '\'' || c == '"' || c == '\\'
  }

  predicate Unquoted(s: string) {
    forall k :: 0 <= k < |s| ==> !Quoting(s[k])
  }

  /** Scanning `a + b` is scanning `a`, then `b` from where `a` left off. */
  lemma {:induction false} ScanAppend(st: Scan, a: string, b: string)
    ensures ScanFrom(st, a + b) == ScanFrom(ScanFrom(st, a), b)
    decreases |a|
  {
    if |a| == 0 {
      assert a + b == b;
    } else {
      assert (a + b)[0] == a[0];
      assert (a + b)[1..] == a[1..] + b;
      ScanAppend(ScanChar(st, a[0]), a[1..], b);
    }
  }

  /** Text without quotes or backslashes leaves the scanner outside quotes. */
  lemma {:induction false} UnquotedScan(s: string)
    requires Unquoted(s)
    ensures ScanFrom(Outside, s) == Outside
    decreases |s|
  {
    if |s| > 0 {
      assert !Quoting(s[0]);
      UnquotedScan(s[1..]);
    }
  }

  lemma UnquotedAppend(a: string, b: string)
    ensures Unquoted(a + b) <==> Unquoted(a) && Unquoted(b)
  {
    if Unquoted(a + b) {
      assert forall k :: 0 <= k < |a| ==> (a + b)[k] == a[k];
      assert forall k :: 0 <= k < |b| ==> (a + b)[|a| + k] == b[k];
    }
  }

  /** After a piece without quotes or backslashes, the rest of a command line decides
      alone whether it tokenises. */
  lemma TokenizesAfter(a: string, b: string)
    requires Unquoted(a)
    ensures Tokenizes(a + b) <==> Tokenizes(b)
  {
    ScanAppend(Outside, a, b);
    UnquotedScan(a);
  }

  /** Every quote of `s` is closed: scanning it ends outside quotes, possibly just after
      a backslash that will escape whatever follows. */
  predicate QuotesClosed(s: string) {
    ScanFrom(Outside, s) == Outside || ScanFrom(Outside, s) == Escaped(false)
  }

  /** Between two non-empty pieces without quotes or backslashes, a piece of text
      leaves the command line tokenisable exactly when it closes its quotes. */
  lemma TokenizesBetween(a: string, b: string, c: string)
    requires Unquoted(a) && Unquoted(c) && |c| > 0
    ensures Tokenizes(a + b + c) <==> QuotesClosed(b)
  {
    ScanAppend(Outside, a + b, c);
    ScanAppend(Outside, a, b);
    UnquotedScan(a);
    var st := ScanFrom(Outside, b);
    if st == Outside {
      UnquotedScan(c);
    } else if st == Escaped(false) {
      assert !Quoting(c[0]);
      assert c == [c[0]] + c[1..];
      ScanAppend(st, [c[0]], c[1..]);
      assert ScanFrom(st, [c[0]]) == Outside;
      UnquotedScan(c[1..]);
    } else {
      UnquotedStays(st, c);
    }
  }

  /** Text without quotes or backslashes leaves an open quote open. */
  lemma {:induction false} UnquotedStays(st: Scan, s: string)
    requires Unquoted(s) && (st.InSingle? || st.InDouble? || st == Escaped(true))
    ensures ScanFrom(st, s) != Outside
    decreases |s|
  {
    if |s| > 0 {
      assert !Quoting(s[0]);
      UnquotedStays(ScanChar(st, s[0]), s[1..]);
    }
  }

  /** A single quote that is never closed makes `shlex.split` raise. */
  lemma UnclosedQuote(a: string, b: string)
    requires Tokenizes(a) && '\'' !in b
    ensures !Tokenizes(a + "'" + b)
  {
    ScanAppend(Outside, a + "'", b);
    ScanAppend(Outside, a, "'");
    StaysInSingle(b);
  }

  lemma {:induction false} StaysInSingle(s: string)
    requires '\'' !in s
    ensures ScanFrom(InSingle, s) == InSingle
    decreases |s|
  {
    if |s| > 0 {
      assert s[0] in s;
      assert forall c | c in s[1..] :: c in s;
      StaysInSingle(s[1..]);
    }
  }
}
