/** Raw HTML capture: from a `.html` line to the line that trims to `}}}`. */
module NoteParseHTML {
  import opened GoText
  import opened NoteNode
  import opened NoteParse
  import opened NoteParseLines
  import opened NoteParseRuns

  /** The lines that are kept: the empty ones are dropped. */
  function NonEmpty(lines: seq<string>): (r: seq<string>)
    ensures |r| <= |lines|
  {
    if lines == [] then [] else Kept(lines[0]) + NonEmpty(lines[1..])
  }

  /** One captured line as it is kept: an empty line is dropped. */
  function Kept(line: string): (r: seq<string>)
    ensures |r| <= 1
  {
    if line == "" then [] else [line]
  }

  /** Lines of which none ends the capture. */
  predicate CaptureBody(body: seq<string>) {
    forall i :: 0 <= i < |body| ==> TrimSpace(body[i]) != "}}}"
  }

  /** The open HTML frame with `extra` appended to its lines. */
  function WithHTML(st: PState, extra: seq<string>): PState
    requires st.Valid() && st.inHTML
  {
    var top := st.stack[|st.stack| - 1];
    st.(stack := st.stack[..|st.stack| - 1] + [Node(NodeHTML(top.kind.lines + extra), top.children)])
  }

  /** Appending lines one batch after another is appending them together. */
  lemma {:induction false} WithHTMLThen(st: PState, a: seq<string>, b: seq<string>)
    requires st.Valid() && st.inHTML
    ensures WithHTML(st, a).Valid() && WithHTML(WithHTML(st, a), b) == WithHTML(st, a + b)
  {
    var top := st.stack[|st.stack| - 1];
    var s1 := WithHTML(st, a);
    assert s1.stack[..|s1.stack| - 1] == st.stack[..|st.stack| - 1];
    assert top.kind.lines + a + b == top.kind.lines + (a + b);
  }

  /** While capturing, a line that does not trim to `}}}` is appended as it is, untrimmed, and
      an empty line is dropped; either way it is counted. */
  lemma {:induction false} HTMLLine(st: PState, line: string)
    requires st.Valid() && st.inHTML && TrimSpace(line) != "}}}"
    ensures st.ConsumeLine(line) == Ok(Counted(WithHTML(st, Kept(line))))
  {
    if line == "" {
      var top := st.stack[|st.stack| - 1];
      assert top.kind.lines + [] == top.kind.lines;
      assert WithHTML(st, []).stack == st.stack;
    }
  }

  /** A line that trims to `}}}` ends the capture and closes the HTML frame. */
  lemma {:induction false} HTMLEnd(st: PState, line: string)
    requires st.Valid() && st.inHTML && TrimSpace(line) == "}}}"
    ensures st.ConsumeLine(line) == Counted(st).(inHTML := false).Pop()
  {
  }

  /** The lines of a capture, up to the end line, are collected in order without the empty
      ones. */
  lemma {:induction false} HTMLRun(st: PState, body: seq<string>)
    requires st.Valid() && st.inHTML
    requires CaptureBody(body)
    ensures st.Run(body) == Ok(WithHTML(st, NonEmpty(body)).(lineNumber := st.lineNumber + |body|))
    decreases |body|
  {
    if body == [] {
      NoLines(st);
    } else {
      CaptureTail(body);
      var rest := body[1..];
      var s1 := Counted(WithHTML(st, Kept(body[0])));
      HTMLLine(st, body[0]);
      RunFirst(st, body, s1);
      HTMLRun(s1, rest);
      HTMLThen(st, body, s1, WithHTML(s1, NonEmpty(rest)).(lineNumber := s1.lineNumber + |rest|));
    }
  }

  /** A first line that succeeds hands the rest of the lines to the state it produces. */
  lemma RunFirst(st: PState, body: seq<string>, s1: PState)
    requires st.Valid() && body != [] && st.ConsumeLine(body[0]) == Ok(s1)
    ensures s1.Valid() && st.Run(body) == s1.Run(body[1..])
  {
  }

  /** Collecting the first line of a capture and then the rest of it is collecting them all. */
  lemma HTMLThen(st: PState, body: seq<string>, s1: PState, s2: PState)
    requires st.Valid() && st.inHTML && body != []
    requires s1 == Counted(WithHTML(st, Kept(body[0])))
    requires s2 == WithHTML(s1, NonEmpty(body[1..])).(lineNumber := s1.lineNumber + |body[1..]|)
    ensures s2 == WithHTML(st, NonEmpty(body)).(lineNumber := st.lineNumber + |body|)
  {
    LinesThen(st, body);
  }

  /** The first line of a capture body and the body after it. */
  lemma CaptureTail(body: seq<string>)
    requires CaptureBody(body) && body != []
    ensures TrimSpace(body[0]) != "}}}" && CaptureBody(body[1..])
  {
    var rest := body[1..];
    assert forall i :: 0 <= i < |rest| ==> rest[i] == body[i + 1];
  }

  lemma {:induction false} NoLines(st: PState)
    requires st.Valid() && st.inHTML
    ensures WithHTML(st, NonEmpty([])).(lineNumber := st.lineNumber + 0) == st
  {
    var top := st.stack[|st.stack| - 1];
    assert top.kind.lines + [] == top.kind.lines;
    assert WithHTML(st, []).stack == st.stack;
  }

  /** Collecting the first line and then the rest is collecting them all. */
  lemma {:induction false} LinesThen(st: PState, body: seq<string>)
    requires st.Valid() && st.inHTML && body != []
    ensures var s1 := Counted(WithHTML(st, Kept(body[0])));
      s1.Valid() && s1.inHTML &&
      WithHTML(s1, NonEmpty(body[1..])).(lineNumber := s1.lineNumber + |body[1..]|) ==
      WithHTML(st, NonEmpty(body)).(lineNumber := st.lineNumber + |body|)
  {
    var rest := body[1..];
    WithHTMLThen(st, Kept(body[0]), NonEmpty(rest));
    assert NonEmpty(body) == Kept(body[0]) + NonEmpty(rest);
  }

  /** A `.html` line opens an HTML frame and starts the capture. */
  lemma {:induction false} HTMLOpen(st: PState, line: string)
    requires !st.inHTML && TrimSpace(line) == ".html"
    ensures st.ConsumeLine(line) == Ok(Counted(st).(inHTML := true).Push(Node(NodeHTML([]), [])))
  {
    var t := ".html";
    assert t[1..] == "html";
    FieldsOfWord("html");
    assert Args(t) == ["html"];
    CommandLine(Counted(st), t);
    assert Counted(st).ConsumeTrimmed(t) == Counted(st).Switch(["html"]);
    TrimmedLine(st, line);
  }

  /** A whole capture attaches one HTML node, holding the non-empty lines between `.html` and
      `}}}` untrimmed, to the frame that was open, and leaves capture mode. */
  lemma {:induction false} HTMLBlock(st: PState, open: string, body: seq<string>, close: string)
    requires !st.inHTML && |st.stack| > 0
    requires TrimSpace(open) == ".html" && TrimSpace(close) == "}}}"
    requires CaptureBody(body)
    ensures st.Run([open] + body + [close]) ==
      Ok(PState(st.stack[..|st.stack| - 1] + [Attach(st.stack[|st.stack| - 1], Node(NodeHTML(NonEmpty(body)), []))],
                st.lineNumber + |body| + 2, st.inTex, false))
  {
    var s1 := Counted(st).(inHTML := true).Push(Node(NodeHTML([]), []));
    HTMLOpen(st, open);
    RunCons(st, open, body + [close], s1);
    assert [open] + body + [close] == [open] + (body + [close]);
    HTMLCaptured(s1, body, close);
    CapturedFrames(st, s1, NonEmpty(body));
  }

  /** The part of `HTMLBlock` after the `.html` line. */
  lemma {:induction false} HTMLCaptured(s1: PState, body: seq<string>, close: string)
    requires |s1.stack| > 1 && s1.inHTML && s1.stack[|s1.stack| - 1] == Node(NodeHTML([]), [])
    requires TrimSpace(close) == "}}}" && CaptureBody(body)
    ensures var n := |s1.stack|;
      s1.Run(body + [close]) ==
      Ok(PState(s1.stack[..n - 2] + [Attach(s1.stack[n - 2], Node(NodeHTML(NonEmpty(body)), []))],
                s1.lineNumber + |body| + 1, s1.inTex, false))
  {
    HTMLRun(s1, body);
    var s2 := WithHTML(s1, NonEmpty(body)).(lineNumber := s1.lineNumber + |body|);
    RunThen(s1, body, [close], s2);
    RunOne(s2, close);
    HTMLEnd(s2, close);
    ClosedFrames(s1, NonEmpty(body), s2);
  }

  /** The frames once the HTML frame that started empty, with `lines` collected, is closed. */
  lemma ClosedFrames(s1: PState, lines: seq<string>, s2: PState)
    requires |s1.stack| > 1 && s1.inHTML && s1.stack[|s1.stack| - 1] == Node(NodeHTML([]), [])
    requires s2 == WithHTML(s1, lines).(lineNumber := s2.lineNumber)
    ensures var n := |s1.stack|;
      Counted(s2).(inHTML := false).Pop() ==
      Ok(PState(s1.stack[..n - 2] + [Attach(s1.stack[n - 2], Node(NodeHTML(lines), []))], s2.lineNumber + 1, s1.inTex, false))
  {
    var n := |s1.stack|;
    assert |s2.stack| == n;
    assert s2.stack[..n - 2] == s1.stack[..n - 2];
    assert [] + lines == lines;
  }

  /** The frames after the `.html` line, in terms of the frames before it. */
  lemma CapturedFrames(st: PState, s1: PState, lines: seq<string>)
    requires |st.stack| > 0 && s1 == Counted(st).(inHTML := true).Push(Node(NodeHTML([]), []))
    ensures var n := |s1.stack|;
      n == |st.stack| + 1 &&
      s1.stack[..n - 2] + [Attach(s1.stack[n - 2], Node(NodeHTML(lines), []))] ==
      st.stack[..|st.stack| - 1] + [Attach(st.stack[|st.stack| - 1], Node(NodeHTML(lines), []))]
  {
    assert s1.stack[..|s1.stack| - 2] == st.stack[..|st.stack| - 1];
  }
}
