/** What a render walk does as a whole: indentation comes back to where it was, the writer is
    only appended to, the kinds the renderer does not know stop it, and inline nodes share one
    line. */
module NoteRenderWalk {
  import opened GoText
  import opened NoteNode
  import NoteDsl
  import opened NoteRender

  /** How many levels `pre` indents and `post` takes back. */
  function Opens(k: Kind): int {
    if k.NodeHTML? || Opener(k).Some? then 1 else 0
  }

  /** `pre` indents by `Opens` and only appends to the writer. */
  lemma {:induction false} PreNests(st: RState, n: Node)
    ensures PreStep(st, n).Some? ==>
      var s := PreStep(st, n).value; s.indentCount == st.indentCount + Opens(n.kind) && st.out <= s.out
  {
    if n.kind.NodeHTML? || n.kind.NodeDocument? || n.kind.NodeTex? || n.kind.NodeComment? {
      PreNestsLine(st, n);
    } else if n.kind.NodeText? || n.kind.NodeBold? || n.kind.NodeItalics? {
      PreNestsInline(st, n);
    } else {
      PreNestsBlock(st, n);
    }
  }

  lemma PreNestsLine(st: RState, n: Node)
    requires n.kind.NodeHTML? || n.kind.NodeDocument? || n.kind.NodeTex? || n.kind.NodeComment?
    ensures PreStep(st, n).Some? ==>
      var s := PreStep(st, n).value; s.indentCount == st.indentCount + Opens(n.kind) && st.out <= s.out
  {
    if n.kind.NodeHTML? {
      assert Opens(n.kind) == 1;
    }
  }

  lemma PreNestsInline(st: RState, n: Node)
    requires n.kind.NodeText? || n.kind.NodeBold? || n.kind.NodeItalics?
    ensures PreStep(st, n).Some? ==>
      var s := PreStep(st, n).value; s.indentCount == st.indentCount + Opens(n.kind) && st.out <= s.out
  {
  }

  lemma PreNestsBlock(st: RState, n: Node)
    requires !(n.kind.NodeHTML? || n.kind.NodeDocument? || n.kind.NodeTex? || n.kind.NodeComment?)
    requires !(n.kind.NodeText? || n.kind.NodeBold? || n.kind.NodeItalics?)
    ensures PreStep(st, n).Some? ==>
      var s := PreStep(st, n).value; s.indentCount == st.indentCount + Opens(n.kind) && st.out <= s.out
  {
  }

  /** A block opening: the inline line ended, the optional empty line, the command at the
      current indentation and one brace, and one level deeper. */
  lemma BlockShape(st: RState, blank: bool, c: string)
    ensures var s := st.Block(blank, c);
      s.out == st.out + (if st.inlining then "\n" else "") + (if blank then "\n" else "") +
               Repeat("  ", st.indentCount) + c + " {\n" &&
      s.indentCount == st.indentCount + 1 && !s.inlining
  {
  }

  /** `post` takes back what `pre` indented and only appends to the writer. */
  lemma {:induction false} PostNests(st: RState, n: Node)
    ensures PostStep(st, n).Some? ==>
      var s := PostStep(st, n).value; s.indentCount == st.indentCount - Opens(n.kind) && st.out <= s.out
  {
  }

  lemma PrefixTrans(a: string, b: string, c: string)
    requires a <= b && b <= c
    ensures a <= c
  {
    assert c[..|b|][..|a|] == c[..|a|];
  }

  /** A walk that does not panic ends at the indentation it started from, and only appends
      to what was written. */
  lemma {:induction false} RenderNests(n: Node, st: RState)
    ensures RenderFrom(n, st).Some? ==>
      var s := RenderFrom(n, st).value; s.indentCount == st.indentCount && st.out <= s.out
    decreases n
  {
    WalkWithUnfold(n, PreCall, PostCall, Some(st));
    PreNests(st, n);
    match PreStep(st, n)
    case None =>
      RenderNone(WalkAll(n.children));
    case Some(s1) =>
      RenderAllNests(n.children, s1);
      match RenderAll(n.children, s1)
      case None =>
      case Some(s2) =>
        PostNests(s2, n);
        if PostStep(s2, n).Some? {
          PrefixTrans(st.out, s1.out, s2.out);
          PrefixTrans(st.out, s2.out, PostStep(s2, n).value.out);
        }
  }

  lemma {:induction false} RenderAllNests(cs: seq<Node>, st: RState)
    ensures RenderAll(cs, st).Some? ==>
      var s := RenderAll(cs, st).value; s.indentCount == st.indentCount && st.out <= s.out
    decreases cs
  {
    if cs != [] {
      WalkAllUnfold(cs, PreCall, PostCall, Some(st));
      RenderNests(cs[0], st);
      match RenderFrom(cs[0], st)
      case None =>
        RenderNone(WalkAll(cs[1..]));
      case Some(s1) =>
        RenderAllNests(cs[1..], s1);
        if RenderAll(cs[1..], s1).Some? {
          PrefixTrans(st.out, s1.out, RenderAll(cs[1..], s1).value.out);
        }
    }
  }

  /** A walk that gets through `pre` and the children ends with `post`. */
  lemma RenderSteps(n: Node, st: RState, s1: RState, s2: RState)
    requires PreStep(st, n) == Some(s1) && RenderAll(n.children, s1) == Some(s2)
    ensures RenderFrom(n, st) == PostStep(s2, n)
  {
    WalkWithUnfold(n, PreCall, PostCall, Some(st));
  }

  /** The children after a first child that renders go on from where it ended. */
  lemma RenderAllCons(cs: seq<Node>, st: RState, s1: RState)
    requires cs != [] && RenderFrom(cs[0], st) == Some(s1)
    ensures RenderAll(cs, st) == RenderAll(cs[1..], s1)
  {
    WalkAllUnfold(cs, PreCall, PostCall, Some(st));
  }

  // ---- panics ----

  /** The kinds that neither callback has a case for. */
  predicate Stuck(k: Kind) {
    k.NodeQuote? || k.NodeRef? || k.NodeTerm? || k.NodeTable? || k.NodeUntyped?
  }

  /** `pre` panics exactly on the kinds it has no case for and on HTML while inlining;
      `post` exactly on the kinds it has no case for. */
  lemma {:induction false} PanicsExactly(st: RState, n: Node)
    ensures PreStep(st, n).None? <==> Stuck(n.kind) || (n.kind.NodeHTML? && st.inlining)
    ensures PostStep(st, n).None? <==> Stuck(n.kind)
  {
  }

  /** Some node of the tree has a kind the renderer does not know. */
  predicate Unrenderable(n: Node)
    decreases n
  {
    Stuck(n.kind) || exists i :: 0 <= i < |n.children| && Unrenderable(n.children[i])
  }

  /** One such node anywhere makes the whole render panic, whatever the state. */
  lemma {:induction false} StuckRender(n: Node, st: RState)
    requires Unrenderable(n)
    ensures RenderFrom(n, st).None?
    decreases n
  {
    WalkWithUnfold(n, PreCall, PostCall, Some(st));
    PanicsExactly(st, n);
    match PreStep(st, n)
    case None =>
      RenderNone(WalkAll(n.children));
    case Some(s1) =>
      StuckRenderAll(n.children, s1);
  }

  lemma {:induction false} StuckRenderAll(cs: seq<Node>, st: RState)
    requires exists i :: 0 <= i < |cs| && Unrenderable(cs[i])
    ensures RenderAll(cs, st).None?
    decreases cs
  {
    WalkAllUnfold(cs, PreCall, PostCall, Some(st));
    if Unrenderable(cs[0]) {
      StuckRender(cs[0], st);
      RenderNone(WalkAll(cs[1..]));
    } else {
      match RenderFrom(cs[0], st)
      case None =>
        RenderNone(WalkAll(cs[1..]));
      case Some(s1) =>
        var i :| 0 <= i < |cs| && Unrenderable(cs[i]);
        assert cs[1..][i - 1] == cs[i];
        StuckRenderAll(cs[1..], s1);
    }
  }

  /** A node rendered after inline text on the same line: an HTML node there panics. */
  lemma {:induction false} HTMLAfterText(t: string, lines: seq<string>, st: RState)
    ensures RenderAll([NoteDsl.Text(t), Node(NodeHTML(lines), [])], st).None?
  {
    var h := Node(NodeHTML(lines), []);
    var cs := [NoteDsl.Text(t), h];
    WalkAllUnfold(cs, PreCall, PostCall, Some(st));
    TextRender(t, st);
    assert cs[1..] == [h];
    HTMLInline(lines, st.Inline(t));
  }

  /** An HTML node met while a line of inline text is open panics. */
  lemma {:induction false} HTMLInline(lines: seq<string>, s: RState)
    requires s.inlining
    ensures RenderAll([Node(NodeHTML(lines), [])], s).None?
  {
    var h := Node(NodeHTML(lines), []);
    WalkAllUnfold([h], PreCall, PostCall, Some(s));
    WalkWithUnfold(h, PreCall, PostCall, Some(s));
    assert PreStep(s, h) == None;
    RenderNone(WalkAll(h.children));
    RenderNone(WalkAll([h][1..]));
  }

  // ---- inline nodes ----

  lemma {:induction false} TextRender(t: string, st: RState)
    ensures RenderFrom(NoteDsl.Text(t), st) == Some(st.Inline(t))
  {
    WalkWithUnfold(NoteDsl.Text(t), PreCall, PostCall, Some(st));
  }

  /** A text, or a bold or italics node around one text. */
  predicate InlineNode(c: Node) {
    (c.kind.NodeText? && c.children == []) ||
    ((c.kind.NodeBold? || c.kind.NodeItalics?) && |c.children| == 1 &&
     c.children[0].kind.NodeText? && c.children[0].children == [])
  }

  /** The markup an inline node is written as. */
  function Markup(c: Node): string
    requires InlineNode(c)
  {
    if c.kind.NodeText? then c.kind.text
    else
      var d := if c.kind.NodeBold? then "*" else "_";
      d + c.children[0].kind.text + d
  }

  function InlineText(cs: seq<Node>): string
    requires forall i :: 0 <= i < |cs| ==> InlineNode(cs[i])
  {
    if cs == [] then "" else Markup(cs[0]) + InlineText(cs[1..])
  }

  lemma InlineThen(st: RState, a: string, b: string)
    ensures st.Inline(a).Inline(b) == st.Inline(a + b)
  {
    var s := if st.inlining then st else st.Indent();
    assert s.out + a + b == s.out + (a + b);
  }

  /** An inline node is written where the line is, indented only if it starts the line, and
      leaves the line open. */
  lemma {:induction false} InlineRender(c: Node, st: RState)
    requires InlineNode(c)
    ensures RenderFrom(c, st) == Some(st.Inline(Markup(c)))
  {
    if c.kind.NodeText? {
      TextRender(c.kind.text, st);
    } else {
      var d := if c.kind.NodeBold? then "*" else "_";
      var t := c.children[0].kind.text;
      WalkWithUnfold(c, PreCall, PostCall, Some(st));
      var s1 := st.Inline(d);
      assert PreStep(st, c) == Some(s1);
      WalkAllUnfold(c.children, PreCall, PostCall, Some(s1));
      assert c.children[0] == NoteDsl.Text(t);
      TextRender(t, s1);
      InlineThen(st, d, t);
      var s2 := st.Inline(d + t);
      assert c.children[1..] == [];
      assert RenderAll(c.children, s1) == Some(s2);
      assert PostStep(s2, c) == Some(s2.Write(d));
      assert s2.Write(d) == s2.Inline(d);
      InlineThen(st, d + t, d);
    }
  }

  /** Inline tex is written between dollars and leaves the line open; unlike the other inline
      nodes, when it starts the line it first writes a new line, and only then the
      indentation. */
  lemma {:induction false} TexInlineRender(t: string, st: RState)
    ensures RenderFrom(NoteDsl.TexInline(t), st) ==
      Some((if st.inlining then st else st.Nl().Indent()).(inlining := true).Write("$" + t + "$"))
  {
    var c := NoteDsl.TexInline(t);
    var s0 := (if st.inlining then st else st.Nl().Indent()).(inlining := true);
    WalkWithUnfold(c, PreCall, PostCall, Some(st));
    var s1 := s0.Write("$");
    assert PreStep(st, c) == Some(s1);
    WalkAllUnfold(c.children, PreCall, PostCall, Some(s1));
    TextRender(t, s1);
    assert s1.Inline(t) == s0.Write("$" + t);
    assert c.children[1..] == [];
    assert RenderAll(c.children, s1) == Some(s0.Write("$" + t));
    assert s0.out + ("$" + t) + "$" == s0.out + ("$" + t + "$");
  }

  /** Inline nodes one after another are written on one line, indented once. */
  lemma {:induction false} InlineRun(cs: seq<Node>, st: RState)
    requires cs != [] && forall i :: 0 <= i < |cs| ==> InlineNode(cs[i])
    ensures RenderAll(cs, st) == Some(st.Inline(InlineText(cs)))
    decreases |cs|
  {
    WalkAllUnfold(cs, PreCall, PostCall, Some(st));
    InlineRender(cs[0], st);
    var s1 := st.Inline(Markup(cs[0]));
    if |cs| == 1 {
      assert cs[1..] == [];
      assert InlineText(cs[1..]) == "";
      assert Markup(cs[0]) + "" == Markup(cs[0]);
    } else {
      InlineRun(cs[1..], s1);
      InlineThen(st, Markup(cs[0]), InlineText(cs[1..]));
    }
  }

  /** A comment writes its marker where it is, without indentation, and its text then starts
      the line again: inside a block the indentation ends up between `//` and the text. */
  lemma {:induction false} CommentRender(x: string, st: RState)
    ensures RenderFrom(Node(NodeComment, [NoteDsl.Text(x)]), st) ==
      Some(RState(st.Flush().out + "//" + Repeat("  ", st.indentCount) + x, st.indentCount, true))
  {
    var c := Node(NodeComment, [NoteDsl.Text(x)]);
    WalkWithUnfold(c, PreCall, PostCall, Some(st));
    var s1 := st.Flush().Write("//");
    WalkAllUnfold(c.children, PreCall, PostCall, Some(s1));
    TextRender(x, s1);
    assert c.children[1..] == [];
  }
}
