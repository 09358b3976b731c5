/** The renderer writes the blocks of the round trip as the lines `NoteShape` lists. */
module NoteRenderLines {
  import opened GoText
  import opened NoteNode
  import NoteDsl
  import opened NoteRender
  import opened NoteRenderWalk
  import opened NoteShape

  /** A block's `pre` ends the inline line, if there is one, writes its opening lines and
      goes one level deeper. */
  lemma HeadRender(st: RState, b: Node)
    requires Heading(b.kind)
    ensures PreStep(st, b) == Some(RState(st.Flush().out + JoinLines(HeadLines(b.kind, st.indentCount)), st.indentCount + 1, false))
  {
    HeadStep(st, b);
    var f := st.Flush();
    assert f.Flush() == f;
    OpenOut(f, BlankBefore(b.kind), Opener(b.kind).value);
  }

  lemma HeadStep(st: RState, b: Node)
    requires Heading(b.kind)
    ensures PreStep(st, b) == Some(st.Block(BlankBefore(b.kind), Opener(b.kind).value))
  {
  }

  /** The text of a block opening outside inline text. */
  lemma OpenOut(st: RState, blank: bool, c: string)
    requires !st.inlining
    ensures st.Block(blank, c) ==
      RState(st.out + JoinLines((if blank then [""] else []) + [Pad(st.indentCount) + c + " {"]), st.indentCount + 1, false)
  {
    assert Repeat("{", 1) == "{";
    assert st.Flush() == st;
    OpenText(st.out, Pad(st.indentCount), c);
  }

  lemma OpenText(x: string, p: string, c: string)
    ensures x + p + c + (" " + "{" + "\n") == x + JoinLines([] + [p + c + " {"])
    ensures x + "\n" + p + c + (" " + "{" + "\n") == x + JoinLines([""] + [p + c + " {"])
  {
    var l := p + c + " {";
    JoinOne(l);
    assert [] + [l] == [l];
    JoinLinesAppend([""], [l]);
    JoinOne("");
  }

  /** A block's `post` ends the inline line, if there is one, and writes its closing brace
      one level back. */
  lemma CloseRender(s: RState, b: Node, d: int)
    requires Heading(b.kind) && s.indentCount == d + 1
    ensures PostStep(s, b) == Some(RState(s.Flush().out + JoinLines([Pad(d) + "}"]), d, false))
  {
    CloseStep(s, b);
    CloseOut(s, d);
  }

  lemma CloseStep(s: RState, b: Node)
    requires Heading(b.kind)
    ensures PostStep(s, b) == Some(s.CloseBlock(1))
  {
  }

  lemma CloseOut(s: RState, d: int)
    requires s.indentCount == d + 1
    ensures s.CloseBlock(1) == RState(s.Flush().out + JoinLines([Pad(d) + "}"]), d, false)
  {
    assert Repeat("}", 1) == "}";
    var f := s.(indentCount := d).Flush();
    assert f.out == s.Flush().out;
    assert s.CloseBlock(1).out == f.out + Pad(d) + "}" + "\n";
    JoinOne(Pad(d) + "}");
  }

  /** A block ends the inline line, if there is one, writes its lines and leaves the depth
      as it was. */
  lemma {:induction false} RenderBlock(b: Node, st: RState)
    requires Block(b)
    ensures RenderFrom(b, st) == Some(RState(st.Flush().out + JoinLines(BlockLines(b, st.indentCount)), st.indentCount, false))
    decreases b, 1
  {
    var d := st.indentCount;
    HeadRender(st, b);
    var s1 := RState(st.Flush().out + JoinLines(HeadLines(b.kind, d)), d + 1, false);
    RenderChildren(b.children, s1);
    var s2 := RenderAll(b.children, s1).value;
    RenderSteps(b, st, s1, s2);
    BlockClose(b, st, s2);
  }

  /** Closing a block whose opening and body are written. */
  lemma BlockClose(b: Node, st: RState, s2: RState)
    requires Block(b) && s2.indentCount == st.indentCount + 1
    requires s2.Flush().out ==
             st.Flush().out + JoinLines(HeadLines(b.kind, st.indentCount)) + JoinLines(ChildLines(b.children, st.indentCount + 1))
    ensures PostStep(s2, b) == Some(RState(st.Flush().out + JoinLines(BlockLines(b, st.indentCount)), st.indentCount, false))
  {
    var d := st.indentCount;
    CloseRender(s2, b, d);
    JoinThree(st.Flush().out, HeadLines(b.kind, d), ChildLines(b.children, d + 1), [Pad(d) + "}"]);
  }

  /** A text is written inline and leaves its line open; a block is written as its lines. */
  lemma {:induction false} RenderPart(c: Node, st: RState)
    requires Leaf(c) || Block(c)
    requires Leaf(c) ==> !st.inlining
    ensures RenderFrom(c, st).Some?
    ensures var s := RenderFrom(c, st).value;
      s.indentCount == st.indentCount && s.inlining == Leaf(c) &&
      s.Flush().out == st.Flush().out + JoinLines(PartLines(c, st.indentCount))
    decreases c, 2
  {
    if Leaf(c) {
      var t := c.kind.text;
      assert c == NoteDsl.Text(t);
      TextRender(t, st);
      JoinOne(Pad(st.indentCount) + t);
    } else {
      RenderBlock(c, st);
    }
  }

  /** A body is written item after item; the line of a last text is left open. */
  lemma {:induction false} RenderChildren(cs: seq<Node>, st: RState)
    requires Body(cs)
    requires cs != [] && Leaf(cs[0]) ==> !st.inlining
    ensures RenderAll(cs, st).Some?
    ensures var s := RenderAll(cs, st).value;
      s.indentCount == st.indentCount &&
      s.inlining == (if cs == [] then st.inlining else Leaf(cs[|cs| - 1])) &&
      s.Flush().out == st.Flush().out + JoinLines(ChildLines(cs, st.indentCount))
    decreases cs, 0
  {
    var d := st.indentCount;
    if cs == [] {
      assert st.Flush().out + "" == st.Flush().out;
    } else {
      BodyTail(cs);
      RenderPart(cs[0], st);
      var s1 := RenderFrom(cs[0], st).value;
      RenderAllCons(cs, st, s1);
      RenderChildren(cs[1..], s1);
      JoinTwo(st.Flush().out, PartLines(cs[0], d), ChildLines(cs[1..], d));
      if cs[1..] != [] {
        assert cs[1..][|cs[1..]| - 1] == cs[|cs| - 1];
      }
    }
  }

  /** An article is written as its lines from the zero state. */
  lemma {:induction false} RenderArticle(doc: Node)
    requires Article(doc)
    ensures Rendered(doc) == Some(JoinLines(DocLines(doc)))
  {
    var line := DocLine(doc.kind);
    var kids := ChildLines(doc.children, 0);
    var s1 := RState(line + "\n", 0, false);
    DocStep(doc);
    RenderChildren(doc.children, s1);
    var s2 := RenderAll(doc.children, s1).value;
    RenderSteps(doc, Zero, s1, s2);
    assert PostStep(s2, doc) == Some(s2.Nl());
    DocJoin(line, kids);
  }

  lemma DocStep(doc: Node)
    requires doc.kind.NodeDocument?
    ensures PreStep(Zero, doc) == Some(RState(DocLine(doc.kind) + "\n", 0, false))
  {
    assert Repeat("  ", 0) == "";
    assert "" + "" + DocLine(doc.kind) == DocLine(doc.kind);
  }

  lemma DocJoin(line: string, kids: seq<string>)
    ensures line + "\n" + JoinLines(kids) + "\n" == JoinLines([line] + kids + [""])
    ensures line + "\n" + JoinLines(kids) == JoinLines([line] + kids + [])
  {
    assert [line] + kids + [] == [line] + kids;
    JoinLinesAppend([line] + kids, [""]);
    JoinLinesAppend([line], kids);
    JoinOne(line);
    JoinOne("");
  }
}
