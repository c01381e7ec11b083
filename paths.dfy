/** The part of Python's `pathlib` (POSIX flavour) that the build and publish
    pipelines rely on: parsing a string into a path, rendering it back, `/`,
    `.parent`, `.name` and `.stem`. Paths are pure values; whether one exists
    on disk is a question the pipelines receive as an input. */
module Paths {
  import opened Text

  /** A path: whether it starts at the root, and its components in order. */
  datatype Path = Path(absolute: bool, parts: seq<string>)

  /** Components as pathlib keeps them: non-empty, not ".", and free of '/'. */
  predicate AreParts(ws: seq<string>) {
    forall k :: 0 <= k < |ws| ==> ws[k] != "" && ws[k] != "." && '/' !in ws[k]
  }

  predicate WellFormed(p: Path) {
    AreParts(p.parts)
  }

  /** `Path()`: the current directory. */
  const Cwd := Path(false, [])

  /** Drops the empty and "." fields of a '/'-split string (pathlib ignores repeated
      slashes and "." components; ".." is kept). */
  function Parts(fields: seq<string>): (r: seq<string>)
    requires forall k :: 0 <= k < |fields| ==> '/' !in fields[k]
    ensures AreParts(r)
  {
    if |fields| == 0 then []
    else if fields[0] == "" || fields[0] == "." then Parts(fields[1..])
    else [fields[0]] + Parts(fields[1..])
  }

  /** `Path(s)`. */
  function Parse(s: string): (p: Path)
    ensures WellFormed(p)
    ensures p.absolute <==> (|s| > 0 && s[0] == '/')
  {
    SplitFields(s, '/');
    Path(|s| > 0 && s[0] == '/', Parts(Split(s, '/')))
  }

  /** `str(p)`. */
  function Show(p: Path): string {
    if |p.parts| == 0 then (if p.absolute then "/" else ".")
    else (if p.absolute then "/" else "") + Join(p.parts, '/')
  }

  /** `p.name`: the final component, or "" for the current directory and the root. */
  function Name(p: Path): string {
    if |p.parts| == 0 then "" else p.parts[|p.parts| - 1]
  }

  /** `p.parent`: the path without its final component (the current directory and
      the root are their own parents). */
  function Parent(p: Path): Path {
    if |p.parts| == 0 then p else Path(p.absolute, p.parts[..|p.parts| - 1])
  }

  /** `s.rfind(c)`: the index of the last occurrence of `c` in `s`, or -1. */
  function RFind(s: string, c: char): (i: int)
    ensures -1 <= i < |s|
    ensures i == -1 ==> c !in s
    ensures 0 <= i ==> s[i] == c
    ensures forall j :: i < j < |s| ==> s[j] != c
  {
    if |s| == 0 then -1
    else if s[|s| - 1] == c then |s| - 1
    else RFind(s[..|s| - 1], c)
  }

  /** `p.stem`: the final component without its last suffix; a leading dot or a
      trailing dot does not start a suffix. */
  function Stem(p: Path): string {
    var n := Name(p);
    var i := RFind(n, '.');
    if 0 < i < |n| - 1 then n[..i] else n
  }

  /** `p / s`: an absolute `s` replaces `p`, a relative one is appended to it. */
  function Div(p: Path, s: string): Path {
    var q := Parse(s);
    if q.absolute then q else Path(p.absolute, p.parts + q.parts)
  }

  lemma {:induction false} PartsOfParts(fields: seq<string>)
    requires AreParts(fields)
    ensures Parts(fields) == fields
  {
    if |fields| > 0 {
      PartsOfParts(fields[1..]);
    }
  }

  /** Rendering a path and parsing the text gives back the same path. */
  lemma ParseShow(p: Path)
    requires WellFormed(p)
    ensures Parse(Show(p)) == p
  {
    if |p.parts| == 0 {
      if p.absolute {
        assert Show(p) == "" + ['/'] + "";
        SplitAppend("", '/', "");
        SplitNoSep("", '/');
      } else {
        SplitNoSep(".", '/');
      }
    } else {
      var j := Join(p.parts, '/');
      SplitJoin(p.parts, '/');
      PartsOfParts(p.parts);
      if p.absolute {
        assert Show(p) == "" + ['/'] + j;
        SplitAppend("", '/', j);
        assert ([""] + p.parts)[1..] == p.parts;
      } else {
        JoinHead(p.parts);
        assert Show(p) == j;
        assert Parse(j).parts == p.parts;
        assert !Parse(j).absolute;
      }
    }
  }

  /** A joined path starts with its first component. */
  lemma JoinHead(parts: seq<string>)
    requires |parts| >= 1 && parts[0] != ""
    ensures |Join(parts, '/')| > 0 && Join(parts, '/')[0] == parts[0][0]
  {
  }

  /** The archive path `dir / "<name>.sif"`: it lies directly in `dir`, its file
      name is `<name>.sif`, and its stem is `name` again. */
  lemma SifPath(dir: Path, name: string)
    requires WellFormed(dir)
    requires name != "" && '/' !in name
    ensures var t := Div(dir, name + ".sif");
            Parent(t) == dir && Name(t) == name + ".sif" && Stem(t) == name
  {
    var s := name + ".sif";
    assert s[0] == name[0];
    SplitNoSep(s, '/');
    assert Parts([s]) == [s] by {
      assert s != "." by { assert |s| > 1; }
      assert [s][1..] == [];
    }
    var t := Div(dir, s);
    assert t.parts == dir.parts + [s];
    assert t.parts[..|t.parts| - 1] == dir.parts;
    assert s[|name|] == '.';
    assert forall j :: |name| < j < |s| ==> s[j] != '.';
    assert RFind(s, '.') == |name|;
    assert s[..|name|] == name;
  }

  /** A single file name, with or without a leading "./", parses to a one-component
      relative path. */
  lemma ParseFileName(name: string)
    requires name != "" && name != "." && '/' !in name
    ensures Parse(name) == Path(false, [name])
    ensures Parse("./" + name) == Path(false, [name])
  {
    ParseName(name);
    ParseDotName(name);
  }

  lemma ParseName(name: string)
    requires name != "" && name != "." && '/' !in name
    ensures Parse(name) == Path(false, [name])
  {
    SplitNoSep(name, '/');
    assert [name][1..] == [];
    assert Parts([name]) == [name] + Parts([]);
    assert name[0] != '/' by { assert name[0] in name; }
  }

  lemma ParseDotName(name: string)
    requires name != "" && name != "." && '/' !in name
    ensures Parse("./" + name) == Path(false, [name])
  {
    assert "./" + name == "." + ['/'] + name;
    SplitAppend(".", '/', name);
    SplitNoSep(name, '/');
    assert (["."] + [name])[1..] == [name];
    assert [name][1..] == [];
    assert Parts([name]) == [name] + Parts([]);
    assert Parts(["."] + [name]) == Parts([name]);
  }

  /** `p.stem` is the name up to its last dot when that dot is neither its first nor its
      last character, and the whole name otherwise. */
  lemma StemBeforeLastDot(p: Path)
    ensures var n := Name(p);
            var stem := Stem(p);
            && stem <= n
            && (stem != n ==> 0 < |stem| < |n| - 1 && n[|stem|] == '.' && '.' !in n[|stem| + 1..])
            && (stem == n && |n| > 0 ==> n[|n| - 1] == '.' || '.' !in n[1..])
  {
    var n := Name(p);
    var i := RFind(n, '.');
    if 0 < i < |n| - 1 {
      var rest := n[i + 1..];
      assert '.' !in rest by {
        forall j | 0 <= j < |rest| ensures rest[j] != '.' {
          assert rest[j] == n[i + 1 + j];
        }
      }
    } else if |n| > 0 && n[|n| - 1] != '.' {
      var rest := n[1..];
      assert '.' !in rest by {
        forall j | 0 <= j < |rest| ensures rest[j] != '.' {
          assert rest[j] == n[1 + j];
        }
      }
    }
  }

  /** Every path is its parent joined with its name; for the current directory and
      the root the name is "", and joining "" changes nothing. */
  lemma ParentDivName(p: Path)
    requires WellFormed(p)
    ensures Div(Parent(p), Name(p)) == p
  {
    if |p.parts| == 0 {
      SplitNoSep("", '/');
      assert Parse("") == Cwd;
    } else {
      var last := p.parts[|p.parts| - 1];
      assert last != "" && last != "." && '/' !in last;
      ParseName(last);
      assert p.parts[..|p.parts| - 1] + [last] == p.parts;
    }
  }
}
