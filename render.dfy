/** The renderer of components/notes/note/render.go: a depth-first walk whose `pre` and `post`
    callbacks write the markup of each node. The writer is modelled as the text written so
    far; a `panic` is `None`. */
module NoteRender {
  import opened GoText
  import opened NoteNode

  /** `k` copies of `s`, none when `k` is not positive, as the counting loops write them. */
  function Repeat(s: string, k: int): (r: string)
    ensures |r| == if k <= 0 then 0 else k * |s|
    decreases k
  {
    if k <= 0 then "" else Repeat(s, k - 1) + s
  }

  /** Character `i` of the copies is character `i % |s|` of `s`. */
  lemma {:induction false} RepeatCopies(s: string, k: int)
    ensures forall i :: 0 <= i < |Repeat(s, k)| ==> Repeat(s, k)[i] == s[i % |s|]
    decreases k
  {
    if k > 0 {
      RepeatCopies(s, k - 1);
      var r := Repeat(s, k);
      var p := Repeat(s, k - 1);
      forall i | 0 <= i < |r| ensures r[i] == s[i % |s|] {
        if i < |p| {
          assert r[i] == p[i];
        } else {
          ModShift(i, |s|, k - 1);
          assert r[i] == s[i - |p|];
        }
      }
    }
  }

  /** Within the `q`-th copy of a block of `n` characters, the remainder is the offset. */
  lemma {:induction false} ModShift(i: int, n: int, q: int)
    requires n > 0 && q >= 0 && q * n <= i < q * n + n
    ensures i % n == i - q * n
    decreases q
  {
    if q > 0 {
      assert (q - 1) * n == q * n - n;
      ModShift(i - n, n, q - 1);
      ModDown(i, n);
    }
  }

  lemma ModDown(i: int, n: int)
    requires n > 0 && i >= n
    ensures i % n == (i - n) % n
  {
    var a, b := i / n, i % n;
    var c, e := (i - n) / n, (i - n) % n;
    assert n * a + b == i && n * c + e == i - n;
    var x := a - 1 - c;
    assert n * x == e - b by {
      assert n * x == n * a - n - n * c;
    }
    if x >= 1 {
      assert n * x >= n by { assert n * x == n * (x - 1) + n; MulNonNeg(n, x - 1); }
    }
  }

  lemma MulNonNeg(a: int, b: int)
    requires a >= 0 && b >= 0
    ensures a * b >= 0
  {
  }

  /** `UnderscoreIfNot`: an empty field is written as `_` so that it stays one word; any
      other is written as it is. */
  function UnderscoreIfNot(s: string): (r: string)
    ensures r != ""
    ensures s == "" ==> r == "_"
    ensures s != "" ==> r == s
  {
    if s == "" then "_" else s
  }

  /** A title field: its spaces become dashes, and an empty one is `_`. */
  function Label(text: string): string {
    UnderscoreIfNot(Replace(text, ' ', '-'))
  }

  /** The `renderState`: what has been written, the indentation depth and whether the current
      line holds inline text. */
  datatype RState = RState(out: string, indentCount: int, inlining: bool)
  {
    function Write(s: string): RState {
      this.(out := out + s)
    }

    function Nl(): RState {
      Write("\n")
    }

    function Indent(): RState {
      Write(Repeat("  ", indentCount))
    }

    /** `openBlock(k)`: a space, `k` braces and a newline, one level deeper. */
    function OpenBlock(k: int): RState {
      Write(" " + Repeat("{", k) + "\n").(indentCount := indentCount + 1)
    }

    /** Ends the inline line, if there is one. */
    function Flush(): RState {
      (if inlining then Nl() else this).(inlining := false)
    }

    /** `closeBlock(k)`: one level back, the inline line ended, then `k` closing braces on a
        line of their own. */
    function CloseBlock(k: int): RState {
      this.(indentCount := indentCount - 1).Flush().Indent().Write(Repeat("}", k)).Nl()
    }

    /** A command line that opens a block with one brace; `blank` puts an empty line first. */
    function Block(blank: bool, command: string): RState {
      var s := Flush();
      (if blank then s.Nl() else s).Indent().Write(command).OpenBlock(1)
    }

    /** Inline text: indented only when it starts the line. */
    function Inline(s: string): RState {
      (if inlining then this else Indent()).(inlining := true).Write(s)
    }
  }

  const Zero := RState("", 0, false)

  /** The command line of the kinds that open a block with one brace, and `None` for the
      others. */
  function Opener(k: Kind): (r: Option<string>)
    ensures r.Some? ==> |r.value| > 1 && r.value[0] == '.'
    ensures r.None? <==>
      (k.NodeHTML? || k.NodeDocument? || k.NodeComment? || k.NodeText? || k.NodeBold? ||
       k.NodeItalics? || k.NodeQuote? || k.NodeTable? || k.NodeRef? || k.NodeTerm? || k.NodeUntyped? ||
       (k.NodeTex? && !k.display))
  {
    match k
    case NodeHeader(level) => Some(".header " + IntToString(level))
    case NodeSection(sym, text) => Some(".sec " + UnderscoreIfNot(sym) + " " + Label(text))
    case NodeParagraph => Some(".par")
    case NodeEquation(sym) => Some(".eq " + sym)
    case NodeList(t) => Some(if t == ListOrdered then ".listo" else ".list")
    case NodeListItem => Some(".item")
    case NodeExample(sym, text) => Some(".ex " + UnderscoreIfNot(sym) + " " + Label(text))
    case NodeDefinition(sym, text) => Some(".def " + UnderscoreIfNot(sym) + " " + Label(text))
    case NodeCorollary(sym, text) => Some(".cor " + UnderscoreIfNot(sym) + " " + Label(text))
    case NodeTheorem(sym, text) => Some(".thm " + UnderscoreIfNot(sym) + " " + Label(text))
    case NodeImage(sym, text, path) => Some(".img " + UnderscoreIfNot(sym) + " " + Label(text) + " " + path)
    case NodeVStack => Some(".vstack")
    case NodeHStack => Some(".hstack")
    case NodeLink(ref, text) => Some(".link " + UnderscoreIfNot(ref) + " " + Label(text))
    case NodeTex(display) => if display then Some(".tex") else None
    case NodeAlgorithm(sym, text) => Some(".alg " + UnderscoreIfNot(sym) + " " + Label(text))
    case NodeProposition(sym, text) => Some(".prop " + UnderscoreIfNot(sym) + " " + Label(text))
    case NodeProblem(sym, text) => Some(".prob " + UnderscoreIfNot(sym) + " " + Label(text))
    case _ => None
  }

  /** Headers, sections and lists are set off by an empty line. */
  predicate BlankBefore(k: Kind) {
    k.NodeHeader? || k.NodeSection? || k.NodeList?
  }

  /** The `pre` callback; `None` where it panics. */
  function PreStep(st: RState, n: Node): Option<RState> {
    match n.kind
    case NodeHTML(lines) =>
      if st.inlining then None else Some(st.Indent().Write(".html").OpenBlock(3).Write(JoinLines(lines)))
    case NodeDocument(sym, text, t) =>
      Some(st.Flush().Indent().Write(".doc " + UnderscoreIfNot(sym) + " " + Label(text) + " " + UnderscoreIfNot(t)).Nl())
    case NodeTex(display) =>
      if display then Some(st.Block(false, ".tex"))
      else Some((if st.inlining then st else st.Nl().Indent()).(inlining := true).Write("$"))
    case NodeComment => Some(st.Flush().Write("//"))
    case NodeText(text) => Some(st.Inline(text))
    case NodeBold => Some(st.Inline("*"))
    case NodeItalics => Some(st.Inline("_"))
    case _ =>
      match Opener(n.kind)
      case None => None
      case Some(c) => Some(st.Block(BlankBefore(n.kind), c))
  }

  /** The `post` callback; `None` where it panics. */
  function PostStep(st: RState, n: Node): Option<RState> {
    match n.kind
    case NodeHTML(_) => Some(st.CloseBlock(3))
    case NodeDocument(_, _, _) => Some(st.Nl())
    case NodeTex(display) => if display then Some(st.CloseBlock(1)) else Some(st.Write("$"))
    case NodeText(_) => Some(st)
    case NodeComment => Some(st)
    case NodeBold => Some(st.Write("*"))
    case NodeItalics => Some(st.Write("_"))
    case _ => if Opener(n.kind).Some? then Some(st.CloseBlock(1)) else None
  }

  /** The callbacks on a walk that may already have panicked. */
  function PreCall(o: Option<RState>, n: Node): Option<RState> {
    match o
    case None => None
    case Some(st) => PreStep(st, n)
  }

  function PostCall(o: Option<RState>, n: Node): Option<RState> {
    match o
    case None => None
    case Some(st) => PostStep(st, n)
  }

  /** The walk of `n` from `st`. */
  function RenderFrom(n: Node, st: RState): Option<RState> {
    WalkWith(n, PreCall, PostCall, Some(st))
  }

  /** The walk of the children `cs`, one after another, from `st`. */
  function RenderAll(cs: seq<Node>, st: RState): Option<RState> {
    Replay(WalkAll(cs), PreCall, PostCall, Some(st))
  }

  /** `Render(w, n)`: the text written for `n` from the zero state, or `None` if it panics. */
  function Rendered(n: Node): Option<string> {
    match RenderFrom(n, Zero)
    case None => None
    case Some(st) => Some(st.out)
  }

  // ---- the format strings ----

  predicate PercentFree(s: string) {
    forall i :: 0 <= i < |s| ==> s[i] != '%'
  }

  /** The text of `n` that the renderer passes to `printf` as a format: a text node's text and
      an HTML node's lines. Without `%` in them, `printf` writes them as they are. */
  predicate PrintableKind(k: Kind) {
    match k
    case NodeText(t) => PercentFree(t)
    case NodeHTML(lines) => forall i :: 0 <= i < |lines| ==> PercentFree(lines[i])
    case _ => true
  }

  predicate Printable(n: Node)
    decreases n
  {
    PrintableKind(n.kind) && forall i :: 0 <= i < |n.children| ==> Printable(n.children[i])
  }

  // ---- the imperative renderer ----

  class RenderState {
    var out: string
    var indentCount: int
    var inlining: bool

    function State(): RState
      reads this
    {
      RState(out, indentCount, inlining)
    }

    constructor()
      ensures State() == Zero
    {
      out := "";
      indentCount := 0;
      inlining := false;
    }

    /** `printf` with no arguments, for a format without verbs. */
    method Printf(format: string)
      requires PercentFree(format)
      modifies this
      ensures State() == old(State()).Write(format)
    {
      out := out + format;
    }

    method Nl()
      modifies this
      ensures State() == old(State()).Nl()
    {
      out := out + "\n";
    }

    method Indent()
      modifies this
      ensures State() == old(State()).Indent()
    {
      var i := 0;
      while i < indentCount
        invariant 0 <= i && (i <= indentCount || i == 0)
        invariant out == old(out) + Repeat("  ", i)
        invariant indentCount == old(indentCount) && inlining == old(inlining)
      {
        out := out + "  ";
        i := i + 1;
      }
    }

    /** `k` copies of `brace`. */
    method Braces(brace: string, k: int)
      requires brace == "{" || brace == "}"
      modifies this
      ensures State() == old(State()).Write(Repeat(brace, k))
    {
      var i := 0;
      while i < k
        invariant 0 <= i && (i <= k || i == 0)
        invariant out == old(out) + Repeat(brace, i)
        invariant indentCount == old(indentCount) && inlining == old(inlining)
      {
        Printf(brace);
        i := i + 1;
      }
    }

    method OpenBlock(k: int)
      modifies this
      ensures State() == old(State()).OpenBlock(k)
    {
      Printf(" ");
      Braces("{", k);
      Nl();
      indentCount := indentCount + 1;
    }

    method CloseBlock(k: int)
      modifies this
      ensures State() == old(State()).CloseBlock(k)
    {
      indentCount := indentCount - 1;
      if inlining {
        Nl();
        inlining := false;
      }
      Indent();
      Braces("}", k);
      Nl();
    }

    /** The text of a command line, which comes from the node and is written without being
        read as a format. */
    method Command(c: string)
      modifies this
      ensures State() == old(State()).Write(c)
    {
      out := out + c;
    }

    method Pre(n: Node) returns (ok: bool)
      requires PrintableKind(n.kind)
      modifies this
      ensures ok == PreStep(old(State()), n).Some?
      ensures ok ==> State() == PreStep(old(State()), n).value
    {
      if n.kind.NodeHTML? {
        ok := PreHTML(n);
      } else if n.kind.NodeDocument? || n.kind.NodeTex? || n.kind.NodeComment? {
        ok := PreLine(n);
      } else if n.kind.NodeText? || n.kind.NodeBold? || n.kind.NodeItalics? {
        ok := PreInline(n);
      } else {
        ok := PreBlock(n);
      }
    }

    /** An HTML node: unless a line is being inlined, its lines, each on a line of its own,
        in a block of three braces. */
    method PreHTML(n: Node) returns (ok: bool)
      requires n.kind.NodeHTML? && PrintableKind(n.kind)
      modifies this
      ensures ok == PreStep(old(State()), n).Some?
      ensures ok ==> State() == PreStep(old(State()), n).value
    {
      if inlining {
        return false;
      }
      var lines := n.kind.lines;
      Indent();
      Printf(".html");
      OpenBlock(3);
      WriteLines(lines);
      ok := true;
    }

    /** Each line, written as a format, followed by a newline. */
    method WriteLines(lines: seq<string>)
      requires forall i :: 0 <= i < |lines| ==> PercentFree(lines[i])
      modifies this
      ensures State() == old(State()).Write(JoinLines(lines))
    {
      for i := 0 to |lines|
        invariant out + JoinLines(lines[i..]) == old(out) + JoinLines(lines)
        invariant indentCount == old(indentCount) && inlining == old(inlining)
      {
        ghost var rest := JoinLines(lines[i + 1..]);
        assert JoinLines(lines[i..]) == lines[i] + "\n" + rest;
        assert out + (lines[i] + "\n" + rest) == out + lines[i] + "\n" + rest;
        Printf(lines[i]);
        Nl();
      }
    }

    /** The document line, the tex markers and the comment marker. */
    method PreLine(n: Node) returns (ok: bool)
      requires n.kind.NodeDocument? || n.kind.NodeTex? || n.kind.NodeComment?
      modifies this
      ensures ok == PreStep(old(State()), n).Some?
      ensures ok ==> State() == PreStep(old(State()), n).value
    {
      match n.kind
      case NodeDocument(sym, text, t) =>
        if inlining {
          Nl();
        }
        inlining := false;
        Indent();
        Command(".doc " + UnderscoreIfNot(sym) + " " + Label(text) + " " + UnderscoreIfNot(t));
        Nl();
        ok := true;
      case NodeTex(display) =>
        if display {
          ok := OpenCommand(false, ".tex");
        } else {
          if !inlining {
            Nl();
            Indent();
          }
          inlining := true;
          Printf("$");
          ok := true;
        }
      case NodeComment =>
        if inlining {
          Nl();
          inlining := false;
        }
        Printf("//");
        ok := true;
    }

    /** Text and the bold and italics markers, on the current line. */
    method PreInline(n: Node) returns (ok: bool)
      requires n.kind.NodeText? || n.kind.NodeBold? || n.kind.NodeItalics?
      requires PrintableKind(n.kind)
      modifies this
      ensures ok == PreStep(old(State()), n).Some?
      ensures ok ==> State() == PreStep(old(State()), n).value
    {
      if !inlining {
        Indent();
      }
      inlining := true;
      ok := true;
      match n.kind
      case NodeText(text) =>
        Printf(text);
      case NodeBold =>
        Printf("*");
      case NodeItalics =>
        Printf("_");
    }

    /** A kind that opens a block with one brace, or a panic. */
    method PreBlock(n: Node) returns (ok: bool)
      requires !(n.kind.NodeHTML? || n.kind.NodeDocument? || n.kind.NodeTex? || n.kind.NodeComment?)
      requires !(n.kind.NodeText? || n.kind.NodeBold? || n.kind.NodeItalics?)
      modifies this
      ensures ok == PreStep(old(State()), n).Some?
      ensures ok ==> State() == PreStep(old(State()), n).value
    {
      match Opener(n.kind)
      case None =>
        ok := false;
      case Some(c) =>
        ok := OpenCommand(BlankBefore(n.kind), c);
    }

    /** The opening of a block: the inline line ended, an optional empty line, the command
        and one brace. */
    method OpenCommand(blank: bool, c: string) returns (ok: bool)
      modifies this
      ensures ok && State() == old(State()).Block(blank, c)
    {
      if inlining {
        Nl();
      }
      inlining := false;
      if blank {
        Nl();
      }
      Indent();
      Command(c);
      OpenBlock(1);
      ok := true;
    }

    method Post(n: Node) returns (ok: bool)
      modifies this
      ensures ok == PostStep(old(State()), n).Some?
      ensures ok ==> State() == PostStep(old(State()), n).value
    {
      if n.kind.NodeHTML? || n.kind.NodeDocument? || n.kind.NodeTex? {
        ok := PostLine(n);
      } else if n.kind.NodeText? || n.kind.NodeComment? || n.kind.NodeBold? || n.kind.NodeItalics? {
        ok := PostInline(n);
      } else {
        ok := PostBlock(n);
      }
    }

    method PostLine(n: Node) returns (ok: bool)
      requires n.kind.NodeHTML? || n.kind.NodeDocument? || n.kind.NodeTex?
      modifies this
      ensures ok == PostStep(old(State()), n).Some?
      ensures ok ==> State() == PostStep(old(State()), n).value
    {
      ok := true;
      match n.kind
      case NodeHTML(_) =>
        CloseBlock(3);
      case NodeDocument(_, _, _) =>
        Nl();
      case NodeTex(display) =>
        if display {
          CloseBlock(1);
        } else {
          Printf("$");
        }
    }

    method PostInline(n: Node) returns (ok: bool)
      requires n.kind.NodeText? || n.kind.NodeComment? || n.kind.NodeBold? || n.kind.NodeItalics?
      modifies this
      ensures ok == PostStep(old(State()), n).Some?
      ensures ok ==> State() == PostStep(old(State()), n).value
    {
      ok := true;
      if n.kind.NodeBold? {
        Printf("*");
      } else if n.kind.NodeItalics? {
        Printf("_");
      }
    }

    method PostBlock(n: Node) returns (ok: bool)
      requires !(n.kind.NodeHTML? || n.kind.NodeDocument? || n.kind.NodeTex?)
      requires !(n.kind.NodeText? || n.kind.NodeComment? || n.kind.NodeBold? || n.kind.NodeItalics?)
      modifies this
      ensures ok == PostStep(old(State()), n).Some?
      ensures ok ==> State() == PostStep(old(State()), n).value
    {
      if Opener(n.kind).Some? {
        CloseBlock(1);
        ok := true;
      } else {
        ok := false;
      }
    }

    /** `n.Walk(s.pre, s.post)`, stopping at the first panic. */
    method WalkNode(n: Node) returns (ok: bool)
      requires Printable(n)
      modifies this
      ensures ok == RenderFrom(n, old(State())).Some?
      ensures ok ==> State() == RenderFrom(n, old(State())).value
      decreases n, 1
    {
      ghost var st0 := State();
      WalkWithUnfold(n, PreCall, PostCall, Some(st0));
      ok := Pre(n);
      if !ok {
        RenderNone(WalkAll(n.children));
        return;
      }
      ok := WalkChildren(n, n.children);
      if !ok {
        return;
      }
      ok := Post(n);
    }

    /** The walks of the children one after another, stopping at the first panic. */
    method WalkChildren(ghost parent: Node, cs: seq<Node>) returns (ok: bool)
      requires cs == parent.children && Printable(parent)
      modifies this
      ensures ok == RenderAll(cs, old(State())).Some?
      ensures ok ==> State() == RenderAll(cs, old(State())).value
      decreases parent, 0
    {
      ghost var st0 := State();
      var i := 0;
      while i < |cs|
        invariant 0 <= i <= |cs|
        invariant RenderAll(cs[..i], st0) == Some(State())
      {
        assert cs[i] in parent.children;
        RenderAllSnoc(cs[..i], cs[i], st0, State());
        ok := WalkNode(cs[i]);
        assert cs[..i + 1] == cs[..i] + [cs[i]];
        if !ok {
          RestAfterPanic(cs, i, st0);
          return;
        }
        i := i + 1;
      }
      assert cs[..i] == cs;
      ok := true;
    }
  }

  /** `Render(w, n)`. */
  method Render(n: Node) returns (r: Option<string>)
    requires Printable(n)
    ensures r == Rendered(n)
  {
    var s := new RenderState();
    var ok := s.WalkNode(n);
    if ok {
      r := Some(s.out);
    } else {
      r := None;
    }
  }

  // ---- walk bookkeeping ----

  /** Once a callback has panicked, the rest of the walk does nothing. */
  lemma {:induction false} RenderNone(vs: seq<Visit>)
    ensures Replay(vs, PreCall, PostCall, None) == None
    decreases |vs|
  {
    if vs != [] {
      RenderNone(vs[1..]);
    }
  }

  /** One more child is rendered from where the others left off. */
  lemma RenderAllSnoc(ps: seq<Node>, c: Node, st0: RState, s: RState)
    requires RenderAll(ps, st0) == Some(s)
    ensures RenderAll(ps + [c], st0) == RenderFrom(c, s)
  {
    WalkAllSnoc(ps, c);
    ReplayAppend(WalkAll(ps), Walk(c), PreCall, PostCall, Some(st0));
  }

  lemma {:induction false} WalkAllSnoc(cs: seq<Node>, c: Node)
    ensures WalkAll(cs + [c]) == WalkAll(cs) + Walk(c)
    decreases |cs|
  {
    if cs == [] {
      assert [] + [c] == [c];
      assert WalkAll([c]) == Walk(c) + WalkAll([]);
    } else {
      assert (cs + [c])[0] == cs[0] && (cs + [c])[1..] == cs[1..] + [c];
      WalkAllSnoc(cs[1..], c);
    }
  }

  /** A child whose walk panics makes the walk of all the children panic. */
  lemma RestAfterPanic(cs: seq<Node>, i: int, st: RState)
    requires 0 <= i < |cs|
    requires RenderAll(cs[..i + 1], st) == None
    ensures RenderAll(cs, st) == None
  {
    assert cs == cs[..i + 1] + cs[i + 1..];
    WalkAllAppend(cs[..i + 1], cs[i + 1..]);
    ReplayAppend(WalkAll(cs[..i + 1]), WalkAll(cs[i + 1..]), PreCall, PostCall, Some(st));
    RenderNone(WalkAll(cs[i + 1..]));
  }

  lemma {:induction false} WalkAllAppend(a: seq<Node>, b: seq<Node>)
    ensures WalkAll(a + b) == WalkAll(a) + WalkAll(b)
    decreases |a|
  {
    if a == [] {
      assert a + b == b;
    } else {
      assert (a + b)[0] == a[0] && (a + b)[1..] == a[1..] + b;
      WalkAllAppend(a[1..], b);
    }
  }
}
