/** What runs of lines do: composition, blank input, and failures that stop the parse. */
module NoteParseRuns {
  import opened GoText
  import opened NoteNode
  import NoteDsl
  import opened NoteParse
  import opened NoteParseLines

  /** Running two pieces of input is running the first and then, from where it left off, the
      second. */
  lemma {:induction false} RunAppend(st: PState, a: seq<string>, b: seq<string>)
    requires st.Valid()
    ensures st.Run(a + b) == match st.Run(a) { case Err(e) => Err(e) case Ok(s) => s.Run(b) }
    decreases |a|
  {
    if a == [] {
      assert a + b == b;
    } else {
      assert (a + b)[0] == a[0] && (a + b)[1..] == a[1..] + b;
      match st.ConsumeLine(a[0])
      case Err(e) =>
      case Ok(s) => RunAppend(s, a[1..], b);
    }
  }

  /** A line that succeeds hands the rest of the input to the state it produces. */
  lemma {:induction false} RunCons(st: PState, line: string, rest: seq<string>, s: PState)
    requires st.Valid() && st.ConsumeLine(line) == Ok(s)
    ensures s.Valid() && st.Run([line] + rest) == s.Run(rest)
  {
    assert ([line] + rest)[0] == line && ([line] + rest)[1..] == rest;
  }

  /** A single line runs as that line. */
  lemma {:induction false} RunOne(st: PState, line: string)
    requires st.Valid()
    ensures st.Run([line]) == st.ConsumeLine(line)
  {
    assert [line][1..] == [];
  }

  /** Input that succeeds hands what follows it to the state it produces. */
  lemma {:induction false} RunThen(st: PState, a: seq<string>, b: seq<string>, s: PState)
    requires st.Valid() && st.Run(a) == Ok(s)
    ensures s.Valid() && st.Run(a + b) == s.Run(b)
  {
    RunAppend(st, a, b);
  }

  /** A line that is empty once trimmed changes only the line count. */
  lemma {:induction false} BlankLine(st: PState, lines: seq<string>)
    requires !st.inHTML && lines != [] && TrimSpace(lines[0]) == ""
    ensures st.Run(lines) == Counted(st).Run(lines[1..])
  {
    TrimmedLine(st, lines[0]);
  }

  /** Lines that are empty once trimmed change nothing but the line count. */
  lemma {:induction false} BlankRun(st: PState, lines: seq<string>)
    requires !st.inHTML
    requires forall i :: 0 <= i < |lines| ==> TrimSpace(lines[i]) == ""
    ensures st.Run(lines) == Ok(st.(lineNumber := st.lineNumber + |lines|))
    decreases |lines|
  {
    if lines == [] {
      assert st.Run(lines) == Ok(st);
    } else {
      BlankLine(st, lines);
      var rest := lines[1..];
      assert forall i :: 0 <= i < |rest| ==> rest[i] == lines[i + 1];
      BlankRun(Counted(st), rest);
      assert Counted(st).(lineNumber := Counted(st).lineNumber + |rest|) == st.(lineNumber := st.lineNumber + |lines|);
    }
  }

  /** Input with no visible character parses to an empty article. */
  lemma {:induction false} BlankInput(lines: seq<string>)
    requires forall i :: 0 <= i < |lines| ==> TrimSpace(lines[i]) == ""
    ensures Parsed(lines) == Ok(NoteDsl.Document("", "", DocumentArticle, []))
  {
    BlankRun(Start, lines);
  }

  /** A line that fails stops the run with its error. */
  lemma {:induction false} RunStops(st: PState, line: string, rest: seq<string>)
    requires st.Valid() && st.ConsumeLine(line).Err?
    ensures st.Run([line] + rest) == Err(st.ConsumeLine(line).error)
  {
    assert ([line] + rest)[0] == line;
  }

  /** When the line after a prefix fails, the parse fails with that line's error. */
  lemma {:induction false} ParseStops(prefix: seq<string>, line: string, rest: seq<string>, e: ParseError)
    requires Start.Run(prefix).Ok? && Start.Run(prefix).value.ConsumeLine(line) == Err(e)
    ensures Parsed(prefix + [line] + rest) == Err(e)
  {
    var s := Start.Run(prefix).value;
    RunStops(s, line, rest);
    RunAppend(Start, prefix, [line] + rest);
    assert prefix + [line] + rest == prefix + ([line] + rest);
  }

  /** The parser never sets `inTex`, so after any prefix of the input a `$$` line opens a new
      display tex block instead of closing one. */
  lemma {:induction false} DollarsAlwaysOpen(prefix: seq<string>, line: string)
    requires Start.Run(prefix).Ok? && !Start.Run(prefix).value.inHTML
    requires TrimSpace(line) == "$$"
    ensures var s := Start.Run(prefix).value;
      Start.Run(prefix + [line]) == Ok(Counted(s).Push(TexBlock))
  {
    var s := Start.Run(prefix).value;
    TrimmedLine(s, line);
    RunAppend(Start, prefix, [line]);
    assert [line][1..] == [];
  }

  lemma {:induction false} UnknownCommandStep(st: PState, line: string)
    requires !st.inHTML
    requires TrimSpace(line) != "" && TrimSpace(line)[0] == '.'
    requires Args(TrimSpace(line)) != [] && Args(TrimSpace(line))[0] !in KnownCommands
    ensures st.ConsumeLine(line) == Err(UnknownCommand(st.lineNumber + 1, Args(TrimSpace(line))[0]))
  {
    var t := TrimSpace(line);
    var e := UnknownCommand(st.lineNumber + 1, Args(t)[0]);
    var c := Counted(st);
    assert c.lineNumber == st.lineNumber + 1;
    UnknownTrimmed(c, t);
    TrimmedResult(st, line, e);
  }

  /** An unknown command fails, with the number of the line it is on. */
  lemma {:induction false} UnknownCommandLine(prefix: seq<string>, line: string, rest: seq<string>)
    requires Start.Run(prefix).Ok? && !Start.Run(prefix).value.inHTML
    requires TrimSpace(line) != "" && TrimSpace(line)[0] == '.'
    requires Args(TrimSpace(line)) != [] && Args(TrimSpace(line))[0] !in KnownCommands
    ensures Parsed(prefix + [line] + rest) ==
            Err(UnknownCommand(|prefix| + 1, Args(TrimSpace(line))[0]))
  {
    var s := Start.Run(prefix).value;
    var e := UnknownCommand(|prefix| + 1, Args(TrimSpace(line))[0]);
    UnknownCommandStep(s, line);
    assert s.ConsumeLine(line) == Err(e);
    ParseStops(prefix, line, rest, e);
  }
}
