/** The constructors of components/notes/note/dsl.go: each builds a fresh node of one kind
    from its payload and, for the container kinds, the given children in order. */
module NoteDsl {
  import opened NoteNode

  function Document(symbol: string, text: string, t: string, children: seq<Node>): (r: Node)
    ensures r.kind == NodeDocument(symbol, text, t) && r.children == children
  {
    Node(NodeDocument(symbol, text, t), children)
  }

  /** A document counts the list items of its children. */
  lemma DocumentItems(symbol: string, text: string, t: string, children: seq<Node>)
    ensures Items(Document(symbol, text, t, children)) == ChildItems(children)
  {
    CollectItems(Document(symbol, text, t, children), 0);
  }

  /** A document lists the assets of its children, in order. */
  lemma DocumentAssets(symbol: string, text: string, t: string, children: seq<Node>)
    ensures AssetPaths(Document(symbol, text, t, children)) == ChildAssetPaths(children)
  {
    var d := Document(symbol, text, t, children);
    assert d.kind.NodeDocument? && d.children == children;
    CollectAssets(d, []);
  }

  function Header(level: int, children: seq<Node>): (r: Node)
    ensures r.kind == NodeHeader(level) && r.children == children
  {
    Node(NodeHeader(level), children)
  }

  /** A text leaf; `TextWalk`: its walk is one `pre` and one `post` call. */
  function Text(text: string): (r: Node)
    ensures r.kind == NodeText(text) && r.children == []
  {
    Node(NodeText(text), [])
  }

  lemma TextWalk(text: string)
    ensures Walk(Text(text)) == [Pre(Text(text)), Post(Text(text))]
  {
  }

  function TexInline(tex: string): (r: Node)
    ensures r.kind == NodeTex(false) && r.children == [Text(tex)]
  {
    Node(NodeTex(false), [Text(tex)])
  }

  function TexDisplay(tex: string): (r: Node)
    ensures r.kind == NodeTex(true) && r.children == [Text(tex)]
  {
    Node(NodeTex(true), [Text(tex)])
  }

  /** The list items `OrderedList` and `UnorderedList` fill a fresh slice with. */
  function TextItems(items: seq<string>): (r: seq<Node>)
    ensures |r| == |items|
    ensures forall i :: 0 <= i < |items| ==> r[i] == Node(NodeListItem, [Text(items[i])])
  {
    seq(|items|, i requires 0 <= i < |items| => Node(NodeListItem, [Text(items[i])]))
  }

  function OrderedList(items: seq<string>): (r: Node)
    ensures r.kind == NodeList(ListOrdered) && r.children == TextItems(items)
  {
    Node(NodeList(ListOrdered), TextItems(items))
  }

  function UnorderedList(items: seq<string>): (r: Node)
    ensures r.kind == NodeList(ListUnordered) && r.children == TextItems(items)
  {
    Node(NodeList(ListUnordered), TextItems(items))
  }

  function ListItem(children: seq<Node>): (r: Node)
    ensures r.kind == NodeListItem && r.children == children
  {
    Node(NodeListItem, children)
  }

  /** A list item counts itself and the items below it. */
  lemma ListItemCounts(children: seq<Node>)
    ensures Items(ListItem(children)) == 1 + ChildItems(children)
  {
    CollectItems(ListItem(children), 0);
  }

  function Italics(text: string): (r: Node)
    ensures r.kind == NodeItalics && r.children == [Text(text)]
  {
    Node(NodeItalics, [Text(text)])
  }

  function Bold(text: string): (r: Node)
    ensures r.kind == NodeBold && r.children == [Text(text)]
  {
    Node(NodeBold, [Text(text)])
  }

  /** `Quote` builds a bold node, not a `NodeQuote` one. */
  function Quote(text: string): (r: Node)
    ensures r == Bold(text) && !r.kind.NodeQuote?
  {
    Node(NodeBold, [Text(text)])
  }

  function Section(symbol: string, text: string, children: seq<Node>): (r: Node)
    ensures r.kind == NodeSection(symbol, text) && r.children == children
  {
    Node(NodeSection(symbol, text), children)
  }

  function Image(symbol: string, text: string, path: string): (r: Node)
    ensures r.kind == NodeImage(symbol, text, path) && r.children == []
  {
    Node(NodeImage(symbol, text, path), [])
  }

  /** An image leaf's only asset is its path. */
  lemma ImageAssets(symbol: string, text: string, path: string)
    ensures AssetPaths(Image(symbol, text, path)) == [path]
  {
    CollectAssets(Image(symbol, text, path), []);
  }

  function VStack(children: seq<Node>): (r: Node)
    ensures r.kind == NodeVStack && r.children == children
  {
    Node(NodeVStack, children)
  }

  function HStack(children: seq<Node>): (r: Node)
    ensures r.kind == NodeHStack && r.children == children
  {
    Node(NodeHStack, children)
  }

  function Paragraph(text: string): (r: Node)
    ensures r.kind == NodeParagraph && r.children == [Text(text)]
  {
    Node(NodeParagraph, [Text(text)])
  }

  /** A list built from strings counts one list item per string. */
  lemma ListItemsCount(items: seq<string>)
    ensures Items(OrderedList(items)) == |items|
    ensures Items(UnorderedList(items)) == |items|
  {
    TextItemsCount(items);
    CollectItems(OrderedList(items), 0);
    CollectItems(UnorderedList(items), 0);
  }

  lemma {:induction false} TextItemsCount(items: seq<string>)
    ensures ChildItems(TextItems(items)) == |items|
  {
    if items != [] {
      var cs := TextItems(items);
      assert cs[1..] == TextItems(items[1..]);
      TextItemsCount(items[1..]);
      var t := Text(items[0]);
      CollectItems(cs[0], 0);
      CollectItems(t, 0);
      assert ChildItems(t.children) == 0;
    }
  }
}
