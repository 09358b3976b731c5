/** The documents that survive a render and a parse unchanged, and the lines the renderer
    writes for them. */
module NoteShape {
  import opened GoText
  import opened NoteNode
  import opened NoteRender

  /** A field the parser splits off as one word. */
  predicate Word(w: string) {
    w != "" && NoSpace(w)
  }

  /** A title whose only white space is single spaces and that has no dash: the renderer turns
      its spaces into dashes and the parser turns them back. */
  predicate Title(t: string) {
    t != "" && forall i :: 0 <= i < |t| ==> t[i] != '-' && (t[i] == ' ' || !IsSpace(t[i]))
  }

  /** Text that, on a line of its own, the parser keeps as one text node: no inline markup, no
      format verb, no line break, visible at both ends, and not read as a command, a comment
      or a closing brace. */
  predicate PlainText(t: string) {
    t != "" && !IsSpace(t[0]) && !IsSpace(t[|t| - 1]) && t[0] != '.' && t[0] != '/' && t != "}" &&
    forall i :: 0 <= i < |t| ==> t[i] != '*' && t[i] != '_' && t[i] != '$' && t[i] != '%' && t[i] != '\n' && t[i] != '\r'
  }

  /** The kinds opened by a command with a symbol and a title. */
  predicate Titled(k: Kind) {
    k.NodeSection? || k.NodeExample? || k.NodeDefinition? || k.NodeCorollary? ||
    k.NodeTheorem? || k.NodeAlgorithm? || k.NodeProposition? || k.NodeProblem?
  }

  /** The block kinds of the round trip: kinds the renderer opens with a command line, with
      payloads that line carries faithfully. Images and links are not among them: see
      `NoteParseBack.ImageLineRejected`. */
  predicate Heading(k: Kind) {
    Opener(k).Some? && Carried(k)
  }

  predicate Carried(k: Kind) {
    k.NodeParagraph? || k.NodeListItem? || k.NodeVStack? || k.NodeHStack? ||
    (k.NodeTex? && k.display) ||
    (k.NodeEquation? && Word(k.symbol)) ||
    (Titled(k) && Word(k.symbol) && Title(k.text)) ||
    (k.NodeHeader? && MinInt64 <= k.level <= MaxInt64) ||
    (k.NodeList? && (k.listType == ListOrdered || k.listType == ListUnordered))
  }

  /** A text node of plain text: one line of the body it sits in. */
  predicate Leaf(c: Node) {
    c.kind.NodeText? && c.children == [] && PlainText(c.kind.text)
  }

  /** A block whose children form a `Body` of plain texts and such blocks. */
  predicate Block(b: Node)
    decreases b, 1
  {
    Heading(b.kind) && Parts(b.children) && Spaced(b.children)
  }

  /** Plain texts and blocks, no two texts next to each other: two texts in a row would be
      written on one line and read back as one. */
  predicate Body(cs: seq<Node>) {
    Parts(cs) && Spaced(cs)
  }

  predicate Spaced(cs: seq<Node>) {
    forall i :: 0 < i < |cs| ==> !(Leaf(cs[i - 1]) && Leaf(cs[i]))
  }

  /** Plain texts and blocks, in any order. */
  predicate Parts(cs: seq<Node>)
    decreases cs, 0
  {
    forall i :: 0 <= i < |cs| ==> Leaf(cs[i]) || Block(cs[i])
  }

  /** Whether the last of `cs` is a text, which leaves its line open. */
  predicate EndsInText(cs: seq<Node>) {
    cs != [] && Leaf(cs[|cs| - 1])
  }

  /** A document of such a body, whose header fields are one word each. */
  predicate Article(doc: Node) {
    doc.kind.NodeDocument? && Word(doc.kind.symbol) && Title(doc.kind.text) && Word(doc.kind.docType) &&
    Body(doc.children)
  }

  function Pad(d: int): string {
    Repeat("  ", d)
  }

  /** The opening lines of a block at depth `d`. */
  function HeadLines(k: Kind, d: int): seq<string>
    requires Opener(k).Some?
  {
    (if BlankBefore(k) then [""] else []) + [Pad(d) + Opener(k).value + " {"]
  }

  /** The lines of a block at depth `d`: its opening, its body one level deeper, its brace. */
  function BlockLines(b: Node, d: int): seq<string>
    requires Block(b)
    decreases b, 1
  {
    HeadLines(b.kind, d) + ChildLines(b.children, d + 1) + [Pad(d) + "}"]
  }

  /** A text is one line at depth `d`. */
  function PartLines(c: Node, d: int): seq<string>
    requires Leaf(c) || Block(c)
    decreases c, 2
  {
    if Leaf(c) then [Pad(d) + c.kind.text] else BlockLines(c, d)
  }

  function ChildLines(cs: seq<Node>, d: int): seq<string>
    requires Parts(cs)
    decreases cs, 0
  {
    if cs == [] then [] else PartLines(cs[0], d) + ChildLines(cs[1..], d)
  }

  function DocLine(k: Kind): string
    requires k.NodeDocument?
  {
    ".doc " + UnderscoreIfNot(k.symbol) + " " + Label(k.text) + " " + UnderscoreIfNot(k.docType)
  }

  /** The lines of a document: its command line, its body, and the new line `post` ends it
      with, which is an empty line unless it ends a last line of text. */
  function DocLines(doc: Node): seq<string>
    requires Article(doc)
  {
    [DocLine(doc.kind)] + ChildLines(doc.children, 0) + (if EndsInText(doc.children) then [] else [""])
  }

  lemma JoinOne(l: string)
    ensures JoinLines([l]) == l + "\n"
  {
    assert [l][1..] == [];
  }

  /** Joining two runs of lines after some text. */
  lemma JoinTwo(x: string, a: seq<string>, b: seq<string>)
    ensures x + JoinLines(a + b) == x + JoinLines(a) + JoinLines(b)
  {
    JoinLinesAppend(a, b);
  }

  /** Joining three runs of lines after some text. */
  lemma JoinThree(x: string, a: seq<string>, b: seq<string>, c: seq<string>)
    ensures x + JoinLines(a + b + c) == x + JoinLines(a) + JoinLines(b) + JoinLines(c)
  {
    JoinLinesAppend(a + b, c);
    JoinLinesAppend(a, b);
  }

  lemma PartsTail(cs: seq<Node>)
    requires cs != [] && Parts(cs)
    ensures Leaf(cs[0]) || Block(cs[0])
    ensures Parts(cs[1..])
  {
    forall i | 0 <= i < |cs[1..]| ensures Leaf(cs[1..][i]) || Block(cs[1..][i]) {
      assert cs[1..][i] == cs[i + 1];
    }
  }

  /** The rest of a body is a body, and a text is never followed by a text. */
  lemma BodyTail(cs: seq<Node>)
    requires cs != [] && Body(cs)
    ensures Leaf(cs[0]) || Block(cs[0])
    ensures Body(cs[1..])
    ensures |cs| > 1 && Leaf(cs[0]) ==> !Leaf(cs[1])
  {
    PartsTail(cs);
    forall i | 0 < i < |cs[1..]| ensures !(Leaf(cs[1..][i - 1]) && Leaf(cs[1..][i])) {
      assert cs[1..][i - 1] == cs[i] && cs[1..][i] == cs[i + 1];
    }
  }
}
