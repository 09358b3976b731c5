/** The document tree of the note engine (components/notes/note/node.go): a node kind with
    the payload that kind carries, an ordered list of children, the pre/post depth-first walk,
    and the two walk-based queries `AssetPaths` and `Items`. */
module NoteNode {
  import opened GoText

  /** One variant per `NodeType` constant, carrying the one payload struct the source
      populates for that type. `NodeTable` and `NodeTableRow` are the same string, "table",
      so a single variant stands for both. `NodeUntyped` is a node whose `Type` is the empty
      string: the parser's sentinel root. */
  datatype Kind =
    | NodeDocument(symbol: string, text: string, docType: string)
    | NodeComment
    | NodeHeader(level: int)
    | NodeText(text: string)
    | NodeTex(display: bool)
    | NodeEquation(symbol: string)
    | NodeList(listType: string)
    | NodeListItem
    | NodeItalics
    | NodeBold
    | NodeQuote
    | NodeTable
    | NodeLink(ref: string, text: string)
    | NodeRef(ref: string, text: string)
    | NodeParagraph
    | NodeDefinition(symbol: string, text: string)
    | NodeTheorem(symbol: string, text: string)
    | NodeCorollary(symbol: string, text: string)
    | NodeExample(symbol: string, text: string)
    | NodeSection(symbol: string, text: string)
    | NodeImage(symbol: string, text: string, path: string)
    | NodeVStack
    | NodeHStack
    | NodeTerm
    | NodeAlgorithm(symbol: string, text: string)
    | NodeProposition(symbol: string, text: string)
    | NodeProblem(symbol: string, text: string)
    | NodeHTML(lines: seq<string>)
    | NodeUntyped

  datatype Node = Node(kind: Kind, children: seq<Node>)

  const DocumentArticle: string := "article"
  const DocumentSlides: string := "slides"
  const ListOrdered: string := "ordered"
  const ListUnordered: string := "unordered"
  /** `ListCheck` is declared without a value inside a constant block, so it repeats the
      expression before it. */
  const ListCheck: string := ListUnordered

  /** The `NodeType` string of a kind. */
  function TypeName(k: Kind): string {
    match k
    case NodeDocument(_, _, _) => "doc"
    case NodeComment => "comment"
    case NodeHeader(_) => "header"
    case NodeText(_) => "text"
    case NodeTex(_) => "tex"
    case NodeEquation(_) => "equation"
    case NodeList(_) => "list"
    case NodeListItem => "list-item"
    case NodeItalics => "italics"
    case NodeBold => "bold"
    case NodeQuote => "quote"
    case NodeTable => "table"
    case NodeLink(_, _) => "link"
    case NodeRef(_, _) => "ref"
    case NodeParagraph => "paragraph"
    case NodeDefinition(_, _) => "definition"
    case NodeTheorem(_, _) => "theorem"
    case NodeCorollary(_, _) => "corollary"
    case NodeExample(_, _) => "example"
    case NodeSection(_, _) => "section"
    case NodeImage(_, _, _) => "image"
    case NodeVStack => "vstack"
    case NodeHStack => "hstack"
    case NodeTerm => "term"
    case NodeAlgorithm(_, _) => "algorithm"
    case NodeProposition(_, _) => "proposition"
    case NodeProblem(_, _) => "problem"
    case NodeHTML(_) => "html"
    case NodeUntyped => ""
  }

  /** The kinds `Debug` describes. */
  predicate HasDebugInfo(k: Kind) {
    k.NodeDocument? || k.NodeHeader? || k.NodeItalics? || k.NodeList? || k.NodeText? ||
    k.NodeListItem?
  }

  /** `(*Node).Debug`: the type name, followed for a document, header, list or text by its
      payload; a fixed message for every other kind. */
  function Debug(n: Node): (r: string)
    ensures HasDebugInfo(n.kind) ==>
      |TypeName(n.kind)| <= |r| && r[..|TypeName(n.kind)|] == TypeName(n.kind)
    ensures !HasDebugInfo(n.kind) ==> r == "no debug info available"
    ensures n.kind.NodeDocument? ==> r == "doc:" + n.kind.symbol + "," + n.kind.text + "," + n.kind.docType
    ensures n.kind.NodeHeader? ==> r == "header:" + IntToString(n.kind.level)
    ensures n.kind.NodeItalics? ==> r == "italics"
    ensures n.kind.NodeList? ==> r == "list:" + n.kind.listType
    ensures n.kind.NodeText? ==> r == "text:" + n.kind.text
    ensures n.kind.NodeListItem? ==> r == "list-item"
  {
    match n.kind
    case NodeDocument(sym, text, t) => "doc:" + sym + "," + text + "," + t
    case NodeHeader(level) => "header:" + IntToString(level)
    case NodeItalics => "italics"
    case NodeList(t) => "list:" + t
    case NodeText(text) => "text:" + text
    case NodeListItem => "list-item"
    case _ => "no debug info available"
  }

  /** The description names the kind: two described nodes with the same description have
      the same kind of node, and two texts the same text. */
  lemma DebugNamesKind(a: Node, b: Node)
    requires HasDebugInfo(a.kind) && HasDebugInfo(b.kind) && Debug(a) == Debug(b)
    ensures TypeName(a.kind) == TypeName(b.kind)
    ensures a.kind.NodeText? ==> a.kind == b.kind
  {
    var r := Debug(a);
    assert r[0] == Debug(b)[0];
    if a.kind.NodeList? || a.kind.NodeListItem? {
      assert r[4] == Debug(b)[4];
    }
    if a.kind.NodeText? {
      assert b.kind.NodeText?;
      assert r[5..] == a.kind.text && Debug(b)[5..] == b.kind.text;
    }
  }

  // ---- the walk ----

  /** One call of a walk callback: `pre(n)` or `post(n)`. */
  datatype Visit = Pre(node: Node) | Post(node: Node)

  /** The callbacks `walk` makes, in order: `pre(n)`, the walks of the children in stored
      order, `post(n)`. */
  function Walk(n: Node): (r: seq<Visit>)
    ensures |r| >= 2 && r[0] == Pre(n) && r[|r| - 1] == Post(n)
    decreases n
  {
    [Pre(n)] + WalkAll(n.children) + [Post(n)]
  }

  function WalkAll(cs: seq<Node>): seq<Visit>
    decreases cs
  {
    if cs == [] then [] else Walk(cs[0]) + WalkAll(cs[1..])
  }

  /** The state a callback sees after another callback ran: the source's closures update
      captured variables, which is a state passed from call to call. */
  function Apply<S>(v: Visit, pre: (S, Node) -> S, post: (S, Node) -> S, s: S): S {
    match v
    case Pre(n) => pre(s, n)
    case Post(n) => post(s, n)
  }

  /** Runs the callbacks of a visit sequence in order. */
  function Replay<S>(vs: seq<Visit>, pre: (S, Node) -> S, post: (S, Node) -> S, s: S): S
    decreases |vs|
  {
    if vs == [] then s else Replay(vs[1..], pre, post, Apply(vs[0], pre, post, s))
  }

  /** `(*Node).Walk(pre, post)` with callbacks that thread a state of type `S`. */
  function WalkWith<S>(n: Node, pre: (S, Node) -> S, post: (S, Node) -> S, s: S): S {
    Replay(Walk(n), pre, post, s)
  }

  lemma {:induction false} ReplayAppend<S>(a: seq<Visit>, b: seq<Visit>,
                                           pre: (S, Node) -> S, post: (S, Node) -> S, s: S)
    ensures Replay(a + b, pre, post, s) == Replay(b, pre, post, Replay(a, pre, post, s))
    decreases |a|
  {
    if a == [] {
      assert a + b == b;
    } else {
      assert (a + b)[0] == a[0] && (a + b)[1..] == a[1..] + b;
      ReplayAppend(a[1..], b, pre, post, Apply(a[0], pre, post, s));
    }
  }

  /** A walk runs `pre` on the node, then the walks of its children in order, then `post`. */
  lemma WalkWithUnfold<S>(n: Node, pre: (S, Node) -> S, post: (S, Node) -> S, s: S)
    ensures WalkWith(n, pre, post, s) ==
            post(Replay(WalkAll(n.children), pre, post, pre(s, n)), n)
  {
    var w := WalkAll(n.children);
    ReplayAppend([Pre(n)], w + [Post(n)], pre, post, s);
    ReplayAppend(w, [Post(n)], pre, post, pre(s, n));
    assert Walk(n) == [Pre(n)] + (w + [Post(n)]);
  }

  lemma WalkAllUnfold<S>(cs: seq<Node>, pre: (S, Node) -> S, post: (S, Node) -> S, s: S)
    requires cs != []
    ensures Replay(WalkAll(cs), pre, post, s) ==
            Replay(WalkAll(cs[1..]), pre, post, WalkWith(cs[0], pre, post, s))
  {
    ReplayAppend(Walk(cs[0]), WalkAll(cs[1..]), pre, post, s);
  }

  // ---- orders and bracket structure of the walk ----

  function PreOrder(n: Node): seq<Node>
    decreases n
  {
    [n] + PreOrderAll(n.children)
  }

  function PreOrderAll(cs: seq<Node>): seq<Node>
    decreases cs
  {
    if cs == [] then [] else PreOrder(cs[0]) + PreOrderAll(cs[1..])
  }

  function PostOrder(n: Node): seq<Node>
    decreases n
  {
    PostOrderAll(n.children) + [n]
  }

  function PostOrderAll(cs: seq<Node>): seq<Node>
    decreases cs
  {
    if cs == [] then [] else PostOrder(cs[0]) + PostOrderAll(cs[1..])
  }

  /** The nodes passed to `pre`, in call order. */
  function Pres(vs: seq<Visit>): seq<Node> {
    if vs == [] then [] else (if vs[0].Pre? then [vs[0].node] else []) + Pres(vs[1..])
  }

  /** The nodes passed to `post`, in call order. */
  function Posts(vs: seq<Visit>): seq<Node> {
    if vs == [] then [] else (if vs[0].Post? then [vs[0].node] else []) + Posts(vs[1..])
  }

  /** Calls to `pre` minus calls to `post`: the number of nodes entered and not yet left. */
  function Nesting(vs: seq<Visit>): int {
    if vs == [] then 0 else (if vs[0].Pre? then 1 else -1) + Nesting(vs[1..])
  }

  lemma {:induction false} VisitsAppend(a: seq<Visit>, b: seq<Visit>)
    ensures Pres(a + b) == Pres(a) + Pres(b)
    ensures Posts(a + b) == Posts(a) + Posts(b)
    ensures Nesting(a + b) == Nesting(a) + Nesting(b)
  {
    PresAppend(a, b);
    PostsAppend(a, b);
    NestingAppend(a, b);
  }

  lemma {:induction false} PresAppend(a: seq<Visit>, b: seq<Visit>)
    ensures Pres(a + b) == Pres(a) + Pres(b)
  {
    if a == [] {
      assert a + b == b;
    } else {
      assert (a + b)[0] == a[0] && (a + b)[1..] == a[1..] + b;
      PresAppend(a[1..], b);
    }
  }

  lemma {:induction false} PostsAppend(a: seq<Visit>, b: seq<Visit>)
    ensures Posts(a + b) == Posts(a) + Posts(b)
  {
    if a == [] {
      assert a + b == b;
    } else {
      assert (a + b)[0] == a[0] && (a + b)[1..] == a[1..] + b;
      PostsAppend(a[1..], b);
    }
  }

  lemma {:induction false} NestingAppend(a: seq<Visit>, b: seq<Visit>)
    ensures Nesting(a + b) == Nesting(a) + Nesting(b)
  {
    if a == [] {
      assert a + b == b;
    } else {
      assert (a + b)[0] == a[0] && (a + b)[1..] == a[1..] + b;
      NestingAppend(a[1..], b);
    }
  }

  /** A walk calls `pre` on the nodes in pre-order and `post` on them in post-order, so every
      node of the tree is entered once and left once. */
  lemma {:induction false} WalkOrders(n: Node)
    ensures Pres(Walk(n)) == PreOrder(n)
    ensures Posts(Walk(n)) == PostOrder(n)
    ensures |PreOrder(n)| == |PostOrder(n)|
    decreases n
  {
    var w := WalkAll(n.children);
    WalkAllOrders(n.children);
    VisitsAppend([Pre(n)], w);
    VisitsAppend([Pre(n)] + w, [Post(n)]);
  }

  lemma {:induction false} WalkAllOrders(cs: seq<Node>)
    ensures Pres(WalkAll(cs)) == PreOrderAll(cs)
    ensures Posts(WalkAll(cs)) == PostOrderAll(cs)
    ensures |PreOrderAll(cs)| == |PostOrderAll(cs)|
    decreases cs
  {
    if cs != [] {
      WalkOrders(cs[0]);
      WalkAllOrders(cs[1..]);
      VisitsAppend(Walk(cs[0]), WalkAll(cs[1..]));
    }
  }

  /** Every proper, non-empty prefix of a walk is inside the root, and the whole walk leaves
      it: the calls form one balanced bracket sequence. */
  predicate Balanced(vs: seq<Visit>) {
    Nesting(vs) == 0 && forall k :: 0 < k < |vs| ==> Nesting(vs[..k]) > 0
  }

  /** A sequence of balanced walks: no prefix leaves more nodes than it entered. */
  predicate BalancedForest(vs: seq<Visit>) {
    Nesting(vs) == 0 && forall k :: 0 <= k <= |vs| ==> Nesting(vs[..k]) >= 0
  }

  lemma {:induction false} WalkBalanced(n: Node)
    ensures Balanced(Walk(n))
    decreases n
  {
    var w := WalkAll(n.children);
    var vs := Walk(n);
    WalkAllBalanced(n.children);
    VisitsAppend([Pre(n)], w);
    VisitsAppend([Pre(n)] + w, [Post(n)]);
    forall k | 0 < k < |vs|
      ensures Nesting(vs[..k]) > 0
    {
      assert vs[..k] == [Pre(n)] + w[..k - 1];
      VisitsAppend([Pre(n)], w[..k - 1]);
    }
  }

  lemma {:induction false} WalkAllBalanced(cs: seq<Node>)
    ensures BalancedForest(WalkAll(cs))
    decreases cs
  {
    if cs == [] {
      var w: seq<Visit> := WalkAll(cs);
      assert w == [] && w[..0] == [];
    } else {
      var a, b := Walk(cs[0]), WalkAll(cs[1..]);
      WalkBalanced(cs[0]);
      WalkAllBalanced(cs[1..]);
      VisitsAppend(a, b);
      forall k | 0 <= k <= |a + b|
        ensures Nesting((a + b)[..k]) >= 0
      {
        if k <= |a| {
          assert (a + b)[..k] == a[..k];
          assert k == |a| ==> a[..k] == a;
        } else {
          assert (a + b)[..k] == a + b[..k - |a|];
          VisitsAppend(a, b[..k - |a|]);
        }
      }
    }
  }

  // ---- AssetPaths ----

  /** What the `AssetPaths` callback appends for one node. */
  function AssetOf(n: Node): seq<string> {
    match n.kind
    case NodeImage(_, _, path) => [path]
    case NodeLink(ref, _) => [ref]
    case _ => []
  }

  function AddAsset(acc: seq<string>, n: Node): seq<string> {
    acc + AssetOf(n)
  }

  function KeepAssets(acc: seq<string>, n: Node): seq<string> {
    acc
  }

  /** `AssetPaths`: a walk whose `pre` appends image paths and link refs to a captured slice. */
  function AssetPaths(n: Node): seq<string> {
    WalkWith(n, AddAsset, KeepAssets, [])
  }

  /** The children's `AssetPaths`, concatenated in order. */
  function ChildAssetPaths(cs: seq<Node>): seq<string> {
    if cs == [] then [] else AssetPaths(cs[0]) + ChildAssetPaths(cs[1..])
  }

  lemma {:induction false} CollectAssets(n: Node, acc: seq<string>)
    ensures WalkWith(n, AddAsset, KeepAssets, acc) == acc + AssetPaths(n)
    ensures AssetPaths(n) == AssetOf(n) + ChildAssetPaths(n.children)
    decreases n
  {
    var own := AssetOf(n);
    var kids := ChildAssetPaths(n.children);
    WalkWithUnfold(n, AddAsset, KeepAssets, acc);
    CollectChildAssets(n.children, acc + own);
    WalkWithUnfold(n, AddAsset, KeepAssets, []);
    assert [] + own == own;
    CollectChildAssets(n.children, own);
    assert acc + own + kids == acc + (own + kids);
  }

  lemma {:induction false} CollectChildAssets(cs: seq<Node>, acc: seq<string>)
    ensures Replay(WalkAll(cs), AddAsset, KeepAssets, acc) == acc + ChildAssetPaths(cs)
    decreases cs
  {
    if cs != [] {
      WalkAllUnfold(cs, AddAsset, KeepAssets, acc);
      CollectAssets(cs[0], acc);
      CollectChildAssets(cs[1..], acc + AssetPaths(cs[0]));
    }
  }

  /** What `AssetOf` gives for each node of a sequence, concatenated. */
  function AssetsOfAll(ns: seq<Node>): seq<string> {
    if ns == [] then [] else AssetOf(ns[0]) + AssetsOfAll(ns[1..])
  }

  lemma {:induction false} AssetsOfAllAppend(a: seq<Node>, b: seq<Node>)
    ensures AssetsOfAll(a + b) == AssetsOfAll(a) + AssetsOfAll(b)
  {
    if a == [] {
      assert a + b == b;
    } else {
      assert (a + b)[0] == a[0] && (a + b)[1..] == a[1..] + b;
      AssetsOfAllAppend(a[1..], b);
    }
  }

  /** `AssetPaths` lists, in pre-order, the path of every image and the ref of every link,
      duplicates included, and nothing for any other kind. */
  lemma {:induction false} AssetPathsInPreOrder(n: Node)
    ensures AssetPaths(n) == AssetsOfAll(PreOrder(n))
    decreases n
  {
    CollectAssets(n, []);
    ChildAssetsInPreOrder(n.children);
    AssetsOfAllAppend([n], PreOrderAll(n.children));
  }

  lemma {:induction false} ChildAssetsInPreOrder(cs: seq<Node>)
    ensures ChildAssetPaths(cs) == AssetsOfAll(PreOrderAll(cs))
    decreases cs
  {
    if cs != [] {
      AssetPathsInPreOrder(cs[0]);
      ChildAssetsInPreOrder(cs[1..]);
      AssetsOfAllAppend(PreOrder(cs[0]), PreOrderAll(cs[1..]));
    }
  }

  // ---- Items ----

  function CountItem(i: int, n: Node): int {
    if n.kind.NodeListItem? then i + 1 else i
  }

  function KeepCount(i: int, n: Node): int {
    i
  }

  /** `Items`: a walk whose `pre` increments a captured counter at every list item. */
  function Items(n: Node): int {
    WalkWith(n, CountItem, KeepCount, 0)
  }

  function ChildItems(cs: seq<Node>): int {
    if cs == [] then 0 else Items(cs[0]) + ChildItems(cs[1..])
  }

  lemma {:induction false} CollectItems(n: Node, i: int)
    ensures WalkWith(n, CountItem, KeepCount, i) == i + Items(n)
    ensures Items(n) == (if n.kind.NodeListItem? then 1 else 0) + ChildItems(n.children)
    decreases n
  {
    WalkWithUnfold(n, CountItem, KeepCount, i);
    WalkWithUnfold(n, CountItem, KeepCount, 0);
    CollectChildItems(n.children, CountItem(i, n));
    CollectChildItems(n.children, CountItem(0, n));
  }

  lemma {:induction false} CollectChildItems(cs: seq<Node>, i: int)
    ensures Replay(WalkAll(cs), CountItem, KeepCount, i) == i + ChildItems(cs)
    decreases cs
  {
    if cs != [] {
      WalkAllUnfold(cs, CountItem, KeepCount, i);
      CollectItems(cs[0], i);
      CollectChildItems(cs[1..], i + Items(cs[0]));
    }
  }

  /** The number of list items in a sequence of nodes. */
  function ListItemCount(ns: seq<Node>): nat {
    if ns == [] then 0 else (if ns[0].kind.NodeListItem? then 1 else 0) + ListItemCount(ns[1..])
  }

  lemma {:induction false} ListItemCountAppend(a: seq<Node>, b: seq<Node>)
    ensures ListItemCount(a + b) == ListItemCount(a) + ListItemCount(b)
  {
    if a == [] {
      assert a + b == b;
    } else {
      assert (a + b)[0] == a[0] && (a + b)[1..] == a[1..] + b;
      ListItemCountAppend(a[1..], b);
    }
  }

  /** `Items` counts the list items at every depth of the tree. */
  lemma {:induction false} ItemsCountsListItems(n: Node)
    ensures Items(n) == ListItemCount(PreOrder(n))
    decreases n
  {
    CollectItems(n, 0);
    ChildItemsCount(n.children);
    ListItemCountAppend([n], PreOrderAll(n.children));
  }

  lemma {:induction false} ChildItemsCount(cs: seq<Node>)
    ensures ChildItems(cs) == ListItemCount(PreOrderAll(cs))
    decreases cs
  {
    if cs != [] {
      ItemsCountsListItems(cs[0]);
      ChildItemsCount(cs[1..]);
      ListItemCountAppend(PreOrder(cs[0]), PreOrderAll(cs[1..]));
    }
  }
}
