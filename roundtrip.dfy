/** Rendering a document and parsing the text back gives the document again, for the documents
    of `NoteShape`. */
module NoteRoundTrip {
  import opened GoText
  import opened NoteNode
  import opened NoteParse
  import opened NoteRender
  import opened NoteShape
  import opened NoteRenderLines
  import opened NoteParseBack

  // ---- the rendered lines are whole lines ----

  predicate NoBreak(s: string) {
    forall i :: 0 <= i < |s| ==> s[i] != '\n'
  }

  predicate AllPlain(ls: seq<string>) {
    forall i :: 0 <= i < |ls| ==> PlainLine(ls[i])
  }

  lemma BreakFree(a: string, b: string)
    requires NoBreak(a) && NoBreak(b)
    ensures NoBreak(a + b)
  {
    forall i | 0 <= i < |a + b| ensures (a + b)[i] != '\n' {
      if i >= |a| {
        assert (a + b)[i] == b[i - |a|];
      }
    }
  }

  /** Indentation and then a non-empty line that does not end in a carriage return. */
  lemma PlainAfter(a: string, b: string)
    requires NoBreak(a) && NoBreak(b) && b != [] && b[|b| - 1] != '\r'
    ensures PlainLine(a + b)
  {
    BreakFree(a, b);
    assert (a + b)[|a + b| - 1] == b[|b| - 1];
  }

  lemma AllPlainAppend(a: seq<string>, b: seq<string>)
    requires AllPlain(a) && AllPlain(b)
    ensures AllPlain(a + b)
  {
    forall i | 0 <= i < |a + b| ensures PlainLine((a + b)[i]) {
      if i < |a| {
        assert (a + b)[i] == a[i];
      } else {
        assert (a + b)[i] == b[i - |a|];
      }
    }
  }

  lemma {:induction false} WordsNoBreak(ws: seq<string>)
    requires forall i :: 0 <= i < |ws| ==> NoSpace(ws[i])
    ensures NoBreak(Unwords(ws))
    decreases |ws|
  {
    if |ws| == 1 {
      assert IsSpace('\n');
    } else if |ws| > 1 {
      var rest := ws[1..];
      assert forall i :: 0 <= i < |rest| ==> rest[i] == ws[i + 1];
      WordsNoBreak(rest);
      assert IsSpace('\n');
      assert NoBreak(ws[0]);
      BreakFree(ws[0], " ");
      BreakFree(ws[0] + " ", Unwords(rest));
    }
  }

  lemma PadNoBreak(d: int)
    ensures NoBreak(Pad(d))
  {
    PadSpaces(d);
  }

  /** A dot and words: no line break. */
  lemma DotWordsNoBreak(c: string, ws: seq<string>)
    requires c == "." + Unwords(ws) && forall i :: 0 <= i < |ws| ==> NoSpace(ws[i])
    ensures NoBreak(c)
  {
    WordsNoBreak(ws);
    BreakFree(".", Unwords(ws));
  }

  lemma HeadPlain(k: Kind, d: int)
    requires Heading(k)
    ensures AllPlain(HeadLines(k, d))
  {
    var c := Opener(k).value;
    OpenerWords(k);
    WordsAreWords(k);
    DotWordsNoBreak(c, Words(k));
    PadNoBreak(d);
    BreakFree(Pad(d), c);
    PlainAfter(Pad(d) + c, " {");
  }

  lemma BracePlain(d: int)
    ensures AllPlain([Pad(d) + "}"])
  {
    PadNoBreak(d);
    PlainAfter(Pad(d), "}");
  }

  lemma {:induction false} BlockPlain(b: Node, d: int)
    requires Block(b)
    ensures AllPlain(BlockLines(b, d))
    decreases b, 1
  {
    HeadPlain(b.kind, d);
    ChildrenPlain(b.children, d + 1);
    BracePlain(d);
    AllPlainAppend(HeadLines(b.kind, d), ChildLines(b.children, d + 1));
    AllPlainAppend(HeadLines(b.kind, d) + ChildLines(b.children, d + 1), [Pad(d) + "}"]);
  }

  lemma {:induction false} PartPlain(c: Node, d: int)
    requires Leaf(c) || Block(c)
    ensures AllPlain(PartLines(c, d))
    decreases c, 2
  {
    if Leaf(c) {
      var t := c.kind.text;
      PadNoBreak(d);
      assert NoBreak(t);
      PlainAfter(Pad(d), t);
    } else {
      BlockPlain(c, d);
    }
  }

  lemma {:induction false} ChildrenPlain(cs: seq<Node>, d: int)
    requires Parts(cs)
    ensures AllPlain(ChildLines(cs, d))
    decreases cs, 0
  {
    if cs != [] {
      PartsTail(cs);
      PartPlain(cs[0], d);
      ChildrenPlain(cs[1..], d);
      AllPlainAppend(PartLines(cs[0], d), ChildLines(cs[1..], d));
    }
  }

  lemma DocLinePlain(k: Kind)
    requires k.NodeDocument? && Word(k.symbol) && Title(k.text) && Word(k.docType)
    ensures PlainLine(DocLine(k))
  {
    var t := DocLine(k);
    DocLineWords(k);
    LabelOfTitle(k.text);
    assert Word("doc");
    DotWordsNoBreak(t, DocWords(k));
    assert t[|t| - 1] == k.docType[|k.docType| - 1];
    assert IsSpace('\r');
  }

  /** Every line the renderer writes for an article is a whole line. */
  lemma ArticlePlain(doc: Node)
    requires Article(doc)
    ensures AllPlain(DocLines(doc))
  {
    DocLinePlain(doc.kind);
    ChildrenPlain(doc.children, 0);
    AllPlainAppend([DocLine(doc.kind)], ChildLines(doc.children, 0));
    AllPlainAppend([DocLine(doc.kind)] + ChildLines(doc.children, 0), if EndsInText(doc.children) then [] else [""]);
  }

  // ---- the round trip ----

  /** The renderer's text, cut into lines as `bufio.Scanner` cuts it and parsed, is the
      article again. */
  lemma RoundTrip(doc: Node)
    requires Article(doc)
    ensures Rendered(doc).Some? && Parsed(SplitLines(Rendered(doc).value)) == Ok(doc)
  {
    RenderArticle(doc);
    ArticlePlain(doc);
    SplitJoinLines(DocLines(doc));
    ReadArticle(doc);
  }

  /** The text of an article has no `%` for `printf` to mangle. */
  lemma {:induction false} BlockPrintable(b: Node)
    requires Block(b)
    ensures Printable(b)
    decreases b, 0
  {
    forall i | 0 <= i < |b.children| ensures Printable(b.children[i]) {
      PartPrintable(b.children[i]);
    }
  }

  lemma {:induction false} PartPrintable(c: Node)
    requires Leaf(c) || Block(c)
    ensures Printable(c)
    decreases c, 1
  {
    if Block(c) {
      BlockPrintable(c);
    }
  }

  lemma ArticlePrintable(doc: Node)
    requires Article(doc)
    ensures Printable(doc)
  {
    forall i | 0 <= i < |doc.children| ensures Printable(doc.children[i]) {
      PartPrintable(doc.children[i]);
    }
  }

  /** The renderer object and the parser object, one after the other, give an article back. */
  method RenderThenParse(doc: Node) returns (r: Result<Node>)
    requires Article(doc)
    ensures r == Ok(doc)
  {
    ArticlePrintable(doc);
    var text := Render(doc);
    RoundTrip(doc);
    r := Parse(SplitLines(text.value));
  }
}
