/** What the inline scanner of `consumeText` makes of a content line. */
module NoteParseScan {
  import opened NoteNode
  import NoteDsl
  import opened NoteParse

  /** Exactly `$`, `*` and `_` select a mode. */
  lemma Delimiters(c: char)
    ensures ModeFor(c) != Plain <==> c == '$' || c == '*' || c == '_'
    ensures ModeFor(c) == TexMode <==> c == '$'
  {
  }

  /** Characters that are ordinary in a span of the given mode: every non-delimiter, and inside
      tex also `*` and `_`. */
  predicate Literal(x: string, mode: LineMode) {
    forall i :: 0 <= i < |x| ==> ModeFor(x[i]) == Plain || (mode == TexMode && x[i] != '$')
  }

  /** A run of ordinary characters only grows the open span. */
  lemma {:induction false} LiteralRun(x: string, tail: string, ls: LineState)
    requires Literal(x, ls.mode)
    ensures ScanFrom(x + tail, ls) == ScanFrom(tail, ls.(b := ls.b + x))
    decreases |x|
  {
    if x == [] {
      assert x + tail == tail && ls.b + x == ls.b;
    } else {
      var c := x[0];
      assert (x + tail)[0] == c && (x + tail)[1..] == x[1..] + tail;
      assert Literal(x[1..], ls.mode) by {
        forall i | 0 <= i < |x[1..]| ensures ModeFor(x[1..][i]) == Plain || (ls.mode == TexMode && x[1..][i] != '$') {
          assert x[1..][i] == x[i + 1];
        }
      }
      assert ScanFrom(x + tail, ls) == ScanFrom(x[1..] + tail, ls.Append(c));
      LiteralRun(x[1..], tail, ls.Append(c));
      assert ls.b + [c] + x[1..] == ls.b + x;
    }
  }

  /** The node a closed span of a mode becomes; tex spans are inline tex. */
  function SpanOf(mode: LineMode, x: string): Node {
    LineState([], mode, x).SpanNode()
  }

  /** From plain text a delimiter finishes the open text and opens its mode; a `$` does so
      only when no `$` follows it. */
  lemma {:induction false} OpenDelimiter(d: char, y: string, ls: LineState)
    requires ModeFor(d) != Plain && ls.mode == Plain
    requires d == '$' ==> y == [] || y[0] != '$'
    ensures ScanFrom([d] + y, ls) == ScanFrom(y, LineState(ls.children + [NoteDsl.Text(ls.b)], ModeFor(d), ""))
  {
    var r := [d] + y;
    assert r[0] == d && r[1..] == y;
    if |r| >= 2 {
      assert r[1] == y[0];
    }
  }

  /** A delimiter of the open mode finishes its span and returns to plain text. */
  lemma {:induction false} CloseDelimiter(d: char, y: string, ls: LineState)
    requires ModeFor(d) != Plain && ls.mode == ModeFor(d)
    requires d == '$' ==> y == [] || y[0] != '$'
    ensures ScanFrom([d] + y, ls) == ScanFrom(y, LineState(ls.children + [SpanOf(ls.mode, ls.b)], Plain, ""))
  {
    var r := [d] + y;
    assert r[0] == d && r[1..] == y;
    if |r| >= 2 {
      assert r[1] == y[0];
    }
  }

  /** A delimited span between two runs of plain text yields three children: the text before,
      the span, and the text after, each of them present even when empty. */
  lemma {:induction false} DelimitedSpan(a: string, d: char, x: string, z: string)
    requires ModeFor(d) != Plain && Literal(a, Plain) && Literal(x, ModeFor(d)) && Literal(z, Plain)
    requires d == '$' ==> x != []
    ensures Scan(a + [d] + x + [d] + z) ==
      Spans([NoteDsl.Text(a), SpanOf(ModeFor(d), x), NoteDsl.Text(z)])
  {
    OpenLine(a, d, x, z);
    ClosedSpan(d, x, z, LineState([NoteDsl.Text(a)], ModeFor(d), ""));
  }

  /** Plain text from the start of a line up to an opening delimiter. */
  lemma OpenLine(a: string, d: char, x: string, z: string)
    requires ModeFor(d) != Plain && Literal(a, Plain) && Literal(x, ModeFor(d))
    requires d == '$' ==> x != []
    ensures ScanFrom(a + [d] + x + [d] + z, EmptyLine) == ScanFrom(x + ([d] + z), LineState([NoteDsl.Text(a)], ModeFor(d), ""))
  {
    var rest := x + ([d] + z);
    assert a + [d] + x + [d] + z == a + ([d] + rest);
    assert d == '$' ==> rest[0] == x[0];
    OpenSpan(a, d, rest, EmptyLine);
    assert [] + [NoteDsl.Text(a)] == [NoteDsl.Text(a)];
    assert "" + a == a;
  }

  /** The part of `DelimitedSpan` up to the opening delimiter. */
  lemma {:induction false} OpenSpan(a: string, d: char, rest: string, ls: LineState)
    requires ModeFor(d) != Plain && ls.mode == Plain && Literal(a, Plain)
    requires d == '$' ==> rest == [] || rest[0] != '$'
    ensures ScanFrom(a + ([d] + rest), ls) ==
      ScanFrom(rest, LineState(ls.children + [NoteDsl.Text(ls.b + a)], ModeFor(d), ""))
  {
    LiteralRun(a, [d] + rest, ls);
    OpenDelimiter(d, rest, ls.(b := ls.b + a));
  }

  /** The part of `DelimitedSpan` after the opening delimiter. */
  lemma {:induction false} ClosedSpan(d: char, x: string, z: string, ls: LineState)
    requires ModeFor(d) != Plain && ls.mode == ModeFor(d) && ls.b == ""
    requires Literal(x, ModeFor(d)) && Literal(z, Plain)
    ensures ScanFrom(x + ([d] + z), ls) ==
      Spans(ls.children + [SpanOf(ModeFor(d), x), NoteDsl.Text(z)])
  {
    ClosingRun(d, x, z, ls);
    var s4 := LineState(ls.children + [SpanOf(ModeFor(d), x)], Plain, "");
    PlainLineEnd(z, s4);
    assert s4.b + z == z;
    assert s4.children + [NoteDsl.Text(z)] == ls.children + [SpanOf(ModeFor(d), x), NoteDsl.Text(z)];
  }

  /** A span's text and its closing delimiter. */
  lemma {:induction false} ClosingRun(d: char, x: string, z: string, ls: LineState)
    requires ModeFor(d) != Plain && ls.mode == ModeFor(d) && ls.b == ""
    requires Literal(x, ModeFor(d)) && Literal(z, Plain)
    ensures ScanFrom(x + ([d] + z), ls) == ScanFrom(z, LineState(ls.children + [SpanOf(ModeFor(d), x)], Plain, ""))
  {
    LiteralRun(x, [d] + z, ls);
    assert ls.(b := ls.b + x) == ls.(b := x);
    CloseDelimiter(d, z, ls.(b := x));
  }

  /** Plain text up to the end of the line is the last child. */
  lemma {:induction false} PlainLineEnd(z: string, ls: LineState)
    requires ls.mode == Plain && Literal(z, Plain)
    ensures ScanFrom(z, ls) == Spans(ls.children + [NoteDsl.Text(ls.b + z)])
  {
    LiteralRun(z, [], ls);
    assert z + [] == z;
  }

  /** `*a*` scans to an empty text, the bold span and another empty text. */
  lemma {:induction false} BoldWord(x: string)
    requires Literal(x, Plain)
    ensures Scan("*" + x + "*") == Spans([NoteDsl.Text(""), NoteDsl.Bold(x), NoteDsl.Text("")])
  {
    DelimitedSpan("", '*', x, "");
    assert "" + ['*'] + x + ['*'] + "" == "*" + x + "*";
  }

  /** Inside `$…$` the bold and italics delimiters are ordinary characters. */
  lemma {:induction false} TexKeepsDelimiters(x: string)
    requires x != [] && forall i :: 0 <= i < |x| ==> x[i] != '$'
    ensures Scan("$" + x + "$") == Spans([NoteDsl.Text(""), NoteDsl.TexInline(x), NoteDsl.Text("")])
  {
    assert Literal(x, TexMode);
    DelimitedSpan("", '$', x, "");
    assert "" + ['$'] + x + ['$'] + "" == "$" + x + "$";
  }

  /** Of a `$$` pair only the first `$` is skipped; the second one is a delimiter. */
  lemma {:induction false} DollarPairSkipped(rest: string, ls: LineState)
    ensures ScanFrom("$$" + rest, ls) == ScanFrom("$" + rest, ls)
  {
    var t := "$$" + rest;
    assert t[0] == '$' && t[1] == '$' && t[1..] == "$" + rest;
  }

  /** A node as the scanner produces it: a text leaf, or a bold, italics or inline tex node
      with one text child. */
  predicate IsSpan(n: Node) {
    (n.kind.NodeText? && n.children == []) ||
    ((n.kind.NodeBold? || n.kind.NodeItalics? || n.kind == NodeTex(false)) &&
     |n.children| == 1 && n.children[0].kind.NodeText? && n.children[0].children == [])
  }

  lemma {:induction false} SpanNodeIsSpan(ls: LineState)
    ensures IsSpan(ls.SpanNode())
    ensures ls.mode == Plain ==> ls.SpanNode() == NoteDsl.Text(ls.b)
  {
  }

  /** One character keeps the finished spans, and adds at most a span. */
  lemma {:induction false} StepShapes(rest: string, ls: LineState)
    requires rest != [] && forall i :: 0 <= i < |ls.children| ==> IsSpan(ls.children[i])
    ensures var n := Step(rest, ls);
      |n.children| >= |ls.children| && n.children[..|ls.children|] == ls.children &&
      forall i :: 0 <= i < |n.children| ==> IsSpan(n.children[i])
  {
    SpanNodeIsSpan(ls);
    var e := ls.Emit();
    assert e.children[..|ls.children|] == ls.children;
  }

  /** The scan keeps the spans finished so far, and on success every child is a span and the
      last one is a text. */
  lemma {:induction false} ScanShapes(rest: string, ls: LineState)
    requires forall i :: 0 <= i < |ls.children| ==> IsSpan(ls.children[i])
    ensures match ScanFrom(rest, ls)
      case Unfinished(_) => true
      case Spans(ns) =>
        |ns| > |ls.children| && ns[..|ls.children|] == ls.children &&
        (forall i :: 0 <= i < |ns| ==> IsSpan(ns[i])) && ns[|ns| - 1].kind.NodeText?
    decreases |rest|
  {
    if rest == [] {
      SpanNodeIsSpan(ls);
      var ns := ls.children + [ls.SpanNode()];
      assert ns[..|ls.children|] == ls.children;
    } else {
      var n := Step(rest, ls);
      StepShapes(rest, ls);
      ScanShapes(rest[1..], n);
      PrefixOfPrefix(ScanFrom(rest[1..], n), ls.children, n.children);
    }
  }

  lemma {:induction false} PrefixOfPrefix(r: Scanned, a: seq<Node>, b: seq<Node>)
    requires |a| <= |b| && b[..|a|] == a
    requires r.Spans? ==> |r.nodes| > |b| && r.nodes[..|b|] == b
    ensures r.Spans? ==> |r.nodes| > |a| && r.nodes[..|a|] == a
  {
    if r.Spans? {
      assert r.nodes[..|a|] == r.nodes[..|b|][..|a|];
    }
  }

  /** On success every child of a scanned line is a span and the last one is a text. */
  lemma {:induction false} ScannedSpans(text: string)
    ensures match Scan(text)
      case Unfinished(_) => true
      case Spans(ns) => ns != [] && (forall i :: 0 <= i < |ns| ==> IsSpan(ns[i])) && ns[|ns| - 1].kind.NodeText?
  {
    ScanShapes(text, EmptyLine);
  }

  /** Whether the first character of `rest` finishes a span when the open mode is `mode`: a
      delimiter that is not the first of a `$$` and that, inside tex, is a `$`. */
  predicate Toggled(rest: string, mode: LineMode)
    requires rest != []
  {
    var m := ModeFor(rest[0]);
    m != Plain && !(m == TexMode && |rest| >= 2 && ModeFor(rest[1]) == TexMode) &&
    (mode == m || mode != TexMode)
  }

  /** The open mode after the first character of `rest`: a delimiter of the open mode closes
      it, any other that finishes a span opens its own. */
  function NextMode(rest: string, mode: LineMode): LineMode
    requires rest != []
  {
    if !Toggled(rest, mode) then mode
    else if mode == ModeFor(rest[0]) then Plain
    else ModeFor(rest[0])
  }

  /** The number of delimiters in `rest` that finish a span, following the open mode from
      `mode`. */
  function Toggles(rest: string, mode: LineMode): nat
    decreases |rest|
  {
    if rest == [] then 0 else (if Toggled(rest, mode) then 1 else 0) + Toggles(rest[1..], NextMode(rest, mode))
  }

  /** One character moves the scanner to the next mode and finishes a span exactly when it
      toggles. */
  lemma StepToggle(rest: string, ls: LineState)
    requires rest != []
    ensures var n := Step(rest, ls);
      n.mode == NextMode(rest, ls.mode) && |n.children| == |ls.children| + (if Toggled(rest, ls.mode) then 1 else 0)
  {
  }

  /** Every delimiter that toggles finishes one span, and the end of the line one more. */
  lemma {:induction false} ToggleCount(rest: string, ls: LineState)
    ensures match ScanFrom(rest, ls)
      case Unfinished(_) => true
      case Spans(ns) => |ns| == |ls.children| + Toggles(rest, ls.mode) + 1
    decreases |rest|
  {
    if rest != [] {
      StepToggle(rest, ls);
      ToggleCount(rest[1..], Step(rest, ls));
    }
  }

  /** A line that scans successfully yields one child more than it has delimiters that toggle
      a mode. */
  lemma SpansPerToggle(text: string)
    ensures Scan(text).Spans? ==> |Scan(text).nodes| == Toggles(text, Plain) + 1
  {
    ToggleCount(text, EmptyLine);
  }

  /** The number of bold and italics delimiters in a string. */
  function Switches(s: string): nat {
    if s == [] then 0 else (if s[0] == '*' || s[0] == '_' then 1 else 0) + Switches(s[1..])
  }

  /** Without `$`, outside tex, every `*` and `_` toggles and no mode is tex. */
  lemma {:induction false} TogglesSwitches(rest: string, mode: LineMode)
    requires mode != TexMode && forall i :: 0 <= i < |rest| ==> rest[i] != '$'
    ensures Toggles(rest, mode) == Switches(rest)
    decreases |rest|
  {
    if rest != [] {
      assert forall i :: 0 <= i < |rest[1..]| ==> rest[1..][i] == rest[i + 1];
      TogglesSwitches(rest[1..], NextMode(rest, mode));
    }
  }

  /** A line with no `$` that scans successfully yields one child more than it has `*` and `_`
      delimiters. */
  lemma SpansPerSwitch(text: string)
    requires forall i :: 0 <= i < |text| ==> text[i] != '$'
    ensures Scan(text).Spans? ==> |Scan(text).nodes| == Switches(text) + 1
  {
    SpansPerToggle(text);
    TogglesSwitches(text, Plain);
  }

  /** A line with no delimiter is one text child. */
  lemma {:induction false} PlainLineScan(text: string)
    requires Literal(text, Plain)
    ensures Scan(text) == Spans([NoteDsl.Text(text)])
  {
    PlainLineEnd(text, EmptyLine);
    assert EmptyLine.b + text == text;
    assert EmptyLine.children + [NoteDsl.Text(text)] == [NoteDsl.Text(text)];
  }
}
