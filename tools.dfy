/** The process executor: tokenise a command line, launch it, drain the child's
    standard error while it runs, remember the most recent line, and turn a non-zero
    exit code into an error naming the program and that line.

    The child process is given as data: the results its successive `readline()`
    calls on standard error return (an empty string is end of stream, and reads
    beyond the listed ones keep returning it), how many `poll()` calls still find
    it running, and its exit code. Standard output is piped but never read, so it
    is not part of the child's description. */
module Tools {
  import opened Wrappers
  import opened Text

  datatype Child = Child(stderr: seq<string>, livePolls: nat, returnCode: int)

  datatype ProcessError =
    | Untokenizable                                 // `shlex.split` raised: an unclosed quote or a trailing backslash
    | CannotLaunch                                  // an empty argument vector: nothing to start
    | Subprocess(program: string, lastLine: string) // the child exited with a non-zero code
  {
    /** The text of the raised error. */
    function Message(): (m: string)
      requires Subprocess?
      ensures |m| == 19 + |program| + |lastLine|
      ensures m[..11] == "Subprocess " && m[11..11 + |program|] == program
      ensures m[|m| - |lastLine|..] == lastLine
    {
      "Subprocess " + program + " error: " + lastLine
    }
  }

  /** The answer of the `k`-th call to `poll()` (counting from 0): none while the
      child still runs, then its exit code. */
  function Poll(child: Child, k: nat): Option<int> {
    if k < child.livePolls then None else Some(child.returnCode)
  }

  /** `stderr.readline()` when `pos` lines have been consumed: the line read and the
      new position. At end of the listed results it returns "" and consumes nothing. */
  function ReadLine(child: Child, pos: nat): (string, nat)
    requires pos <= |child.stderr|
  {
    if pos < |child.stderr| then (child.stderr[pos], pos + 1) else ("", pos)
  }

  /** Where one drain that starts at `pos` stops: just after the first empty read. */
  function DrainEnd(s: seq<string>, pos: nat): (e: nat)
    requires pos <= |s|
    ensures pos <= e <= |s|
    decreases |s| - pos
  {
    if pos == |s| then pos
    else if s[pos] == "" then pos + 1
    else DrainEnd(s, pos + 1)
  }

  /** A drain reads something unless the results are exhausted, reads only
      non-empty lines before its last read, and, unless it ran off the end of the
      results, its last read was the empty one (end of stream). */
  lemma {:induction false} DrainStopsAtFirstEof(s: seq<string>, pos: nat)
    requires pos <= |s|
    ensures var e := DrainEnd(s, pos);
      && (e == pos <==> pos == |s|)
      && (forall k :: pos <= k < e - 1 ==> s[k] != "")
      && (e < |s| ==> s[e - 1] == "")
    decreases |s| - pos
  {
    if pos < |s| && s[pos] != "" {
      DrainStopsAtFirstEof(s, pos + 1);
    }
  }

  /** How many results of `s` have been read after `n` drains. */
  function Consumed(s: seq<string>, n: nat): (pos: nat)
    ensures pos <= |s|
  {
    if n == 0 then 0 else DrainEnd(s, Consumed(s, n - 1))
  }

  /** The most recent non-empty line of `lines`, or "" when there is none. */
  function LastLine(lines: seq<string>): string {
    if |lines| == 0 then ""
    else if lines[|lines| - 1] != "" then lines[|lines| - 1]
    else LastLine(lines[..|lines| - 1])
  }

  /** The diagnostic line the executor reports for `child`. */
  function Diagnostic(child: Child): string {
    LastLine(child.stderr[..Consumed(child.stderr, child.livePolls)])
  }

  /** `LastLine` is "" exactly when no line is non-empty; otherwise it is a line that
      was read and every line read after it is empty. */
  lemma {:induction false} LastLineIsMostRecent(lines: seq<string>)
    ensures LastLine(lines) == "" <==> forall k :: 0 <= k < |lines| ==> lines[k] == ""
    ensures LastLine(lines) != "" ==>
      exists k :: 0 <= k < |lines| && lines[k] == LastLine(lines) &&
        forall j :: k < j < |lines| ==> lines[j] == ""
    decreases |lines|
  {
    if |lines| > 0 && lines[|lines| - 1] == "" {
      var init := lines[..|lines| - 1];
      LastLineIsMostRecent(init);
      if LastLine(lines) != "" {
        var k :| 0 <= k < |init| && init[k] == LastLine(init) &&
          forall j :: k < j < |init| ==> init[j] == "";
        assert lines[k] == LastLine(lines);
      }
    }
  }

  /** The diagnostic is "" or one of the lines the child wrote to standard error, and
      it is "" when the child had already exited at the first poll. */
  lemma DiagnosticIsStderrLine(child: Child)
    ensures Diagnostic(child) == "" || Diagnostic(child) in child.stderr
    ensures child.livePolls == 0 ==> Diagnostic(child) == ""
  {
    var lines := child.stderr[..Consumed(child.stderr, child.livePolls)];
    LastLineIsMostRecent(lines);
    if Diagnostic(child) != "" {
      var k :| 0 <= k < |lines| && lines[k] == LastLine(lines) && forall j :: k < j < |lines| ==> lines[j] == "";
      assert lines[k] == child.stderr[k];
    }
  }

  /** Lines read later replace the remembered one only when one of them is non-empty:
      an earlier non-empty line is never lost to empty reads. */
  lemma {:induction false} LastLineAppend(a: seq<string>, b: seq<string>)
    ensures LastLine(a + b) == if LastLine(b) != "" then LastLine(b) else LastLine(a)
    decreases |b|
  {
    if |b| == 0 {
      assert a + b == a;
    } else {
      assert (a + b)[..|a + b| - 1] == a + b[..|b| - 1];
      LastLineAppend(a, b[..|b| - 1]);
    }
  }

  /** Reading one more line updates the most recent line only when that line is non-empty. */
  lemma LastLineStep(s: seq<string>, pos: nat)
    requires pos < |s|
    ensures LastLine(s[..pos + 1]) == if s[pos] != "" then s[pos] else LastLine(s[..pos])
  {
    assert s[..pos + 1][..pos] == s[..pos];
  }

  /** Runs the command line `command` and reports whether it succeeded. A command
      line that does not tokenise starts no process. Otherwise the result depends only
      on the exit code and on the lines read from standard error; an exit code of 0
      succeeds whatever was read. */
  method RunCommandLogged(command: string, child: Child) returns (r: Outcome<ProcessError>)
    ensures r.Pass? <==> Tokenizes(command) && |Words(command)| > 0 && child.returnCode == 0
    ensures !Tokenizes(command) ==> r == Fail(Untokenizable)
    ensures Tokenizes(command) && |Words(command)| == 0 ==> r == Fail(CannotLaunch)
    ensures Tokenizes(command) && |Words(command)| > 0 && child.returnCode != 0 ==>
              r == Fail(Subprocess(Words(command)[0], Diagnostic(child)))
    ensures Tokenizes(command) && |Words(command)| > 0 && child.returnCode != 0 && child.livePolls == 0 ==>
              r == Fail(Subprocess(Words(command)[0], ""))
  {
    if !Tokenizes(command) {
      return Fail(Untokenizable);
    }
    var argv := Words(command);
    if |argv| == 0 {
      return Fail(CannotLaunch);
    }
    var procName := argv[0];
    var lastErrLine := "";
    var polls, pos := 0, 0;
    while Poll(child, polls).None?
      invariant polls <= child.livePolls
      invariant pos == Consumed(child.stderr, polls)
      invariant lastErrLine == LastLine(child.stderr[..pos])
      decreases child.livePolls - polls
    {
      ghost var start := pos;
      while true
        invariant start <= pos <= |child.stderr|
        invariant DrainEnd(child.stderr, pos) == DrainEnd(child.stderr, start)
        invariant lastErrLine == LastLine(child.stderr[..pos])
        decreases |child.stderr| - pos
      {
        var (stderrLine, next) := ReadLine(child, pos);
        if pos < |child.stderr| {
          LastLineStep(child.stderr, pos);
        }
        pos := next;
        if stderrLine != "" {
          lastErrLine := stderrLine;
        } else {
          break;
        }
      }
      assert pos == DrainEnd(child.stderr, start);
      polls := polls + 1;
    }
    var returnCode := Poll(child, polls).value;
    if returnCode != 0 {
      return Fail(Subprocess(procName, lastErrLine));
    }
    return Pass;
  }
}
