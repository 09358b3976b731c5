/** The line-oriented parser of components/notes/note/parse.go.

    The source keeps a stack of open nodes; `push` attaches the new node to the node below it at
    once and the node then collects its children through the shared pointer. With values the same
    tree is built by attaching a frame to the frame below it when it is closed (`Pop`) or when the
    input ends (`Close`): while a frame is open nothing else is added to the frame below it, so
    the children arrive in the same order. */
module NoteParse {
  import opened GoText
  import opened NoteNode
  import NoteDsl

  // ---- errors ----

  /** What makes `Parse` fail. The source returns formatted messages; `MissingArguments` and
      `StackUnderflow` stand for index panics, `BadHeaderLevel` for the `log.Fatal` call. */
  datatype ParseError =
    | UnknownCommand(line: int, name: string)
    | UnfinishedMode(line: int, text: string, mode: LineMode)
    | MalformedImage
    | MalformedLink
    | MissingArguments(line: int, command: string)
    | BadHeaderLevel(line: int, arg: string)
    | StackUnderflow(line: int)

  datatype Result<T> = Ok(value: T) | Err(error: ParseError)

  // ---- the inline scanner of consumeText ----

  /** `lineMode`; `Plain` is the empty mode. */
  datatype LineMode = Plain | TexMode | BoldMode | ItalicsMode

  /** `modeFor` */
  function ModeFor(c: char): LineMode {
    if c == '$' then TexMode else if c == '*' then BoldMode else if c == '_' then ItalicsMode else Plain
  }

  /** `lineState`: the spans finished so far, the open mode and the text of the open span. */
  datatype LineState = LineState(children: seq<Node>, mode: LineMode, b: string) {
    /** `node()`: the open span as a node. */
    function SpanNode(): Node {
      match mode
      case TexMode => Node(NodeTex(false), [NoteDsl.Text(b)])
      case BoldMode => NoteDsl.Bold(b)
      case ItalicsMode => NoteDsl.Italics(b)
      case Plain => NoteDsl.Text(b)
    }

    /** `ls.children = append(ls.children, ls.node()); ls.reset()` */
    function Emit(): LineState {
      LineState(children + [SpanNode()], Plain, "")
    }

    /** `ls.b.WriteRune(c)` */
    function Append(c: char): LineState {
      this.(b := b + [c])
    }
  }

  const EmptyLine := LineState([], Plain, "")

  /** The outcome of scanning a line: its spans, or the mode left open at its end. */
  datatype Scanned = Spans(nodes: seq<Node>) | Unfinished(mode: LineMode)

  /** What one character of the loop in `consumeText` does to the scanner state; `rest` is the
      line from that character on, for the one character of lookahead. */
  function Step(rest: string, ls: LineState): LineState
    requires rest != []
  {
    var c := rest[0];
    var m := ModeFor(c);
    if m == Plain then ls.Append(c)
    // the first `$` of a `$$` is skipped
    else if m == TexMode && |rest| >= 2 && ModeFor(rest[1]) == TexMode then ls
    else if ls.mode == m then ls.Emit()
    // inside tex the other delimiters are ordinary characters
    else if ls.mode == TexMode then ls.Append(c)
    else ls.Emit().(mode := m)
  }

  /** The end of the line: an open mode is an error, otherwise the open span is the last child. */
  function Finish(ls: LineState): (r: Scanned)
    ensures r.Spans? <==> ls.mode == Plain
    ensures r.Spans? ==> |r.nodes| == |ls.children| + 1 && r.nodes[..|ls.children|] == ls.children
  {
    if ls.mode != Plain then Unfinished(ls.mode) else Spans(ls.children + [ls.SpanNode()])
  }

  /** The scan of the rest of a line from a given scanner state, one character at a time. */
  function ScanFrom(rest: string, ls: LineState): Scanned
    decreases |rest|
  {
    if rest == [] then Finish(ls) else ScanFrom(rest[1..], Step(rest, ls))
  }

  function Scan(text: string): Scanned {
    ScanFrom(text, EmptyLine)
  }

  // ---- the parser state as a value ----

  /** `strings.ReplaceAll(s, "-", " ")`, applied to titles. */
  function Undash(s: string): string {
    Replace(s, '-', ' ')
  }

  /** A frame closed onto the frame below it. */
  function Attach(parent: Node, child: Node): Node {
    Node(parent.kind, parent.children + [child])
  }

  /** The kinds pushed by the commands that take a symbol and a title. */
  const TitledCommands: set<string> := {"sec", "ex", "def", "cor", "thm", "alg", "prop", "prob"}

  function TitledKind(cmd: string, symbol: string, text: string): Kind
    requires cmd in TitledCommands
  {
    match cmd
    case "sec" => NodeSection(symbol, text)
    case "ex" => NodeExample(symbol, text)
    case "def" => NodeDefinition(symbol, text)
    case "cor" => NodeCorollary(symbol, text)
    case "thm" => NodeTheorem(symbol, text)
    case "alg" => NodeAlgorithm(symbol, text)
    case "prop" => NodeProposition(symbol, text)
    case _ => NodeProblem(symbol, text)
  }

  /** A display tex block, as `$$` and `.tex` push it. */
  const TexBlock := Node(NodeTex(true), [])

  /** The fields of `parseState` other than the line scanner. */
  datatype PState = PState(stack: seq<Node>, lineNumber: int, inTex: bool, inHTML: bool) {

    /** While raw HTML is captured, the open frame is the HTML node. */
    predicate Valid() {
      inHTML ==> |stack| > 0 && stack[|stack| - 1].kind.NodeHTML?
    }

    /** `current()` */
    function Current(): (r: Option<Kind>)
      ensures r.None? <==> stack == []
      ensures r.Some? ==> r.value == stack[|stack| - 1].kind
    {
      if |stack| == 0 then None else Some(stack[|stack| - 1].kind)
    }

    /** `addchild`: appends to the open frame; indexing an empty stack panics. */
    function AddChild(n: Node): (r: Result<PState>)
      ensures r.Ok? <==> |stack| > 0
      ensures r.Ok? ==> r.value.stack == stack[..|stack| - 1] + [Attach(stack[|stack| - 1], n)]
      ensures r.Ok? ==> r.value == this.(stack := r.value.stack)
    {
      if |stack| == 0 then Err(StackUnderflow(lineNumber))
      else Ok(this.(stack := stack[..|stack| - 1] + [Attach(stack[|stack| - 1], n)]))
    }

    /** `push`; the new frame is attached when it is closed. */
    function Push(n: Node): (r: PState)
      ensures |r.stack| == |stack| + 1 && r.stack[..|stack|] == stack && r.Current() == Some(n.kind)
      ensures r == this.(stack := r.stack)
    {
      this.(stack := stack + [n])
    }

    /** `pop`: closes the open frame. Popping the last frame empties the stack and loses it,
        and popping an empty stack panics. */
    function Pop(): (r: Result<PState>)
      ensures r.Ok? <==> |stack| > 0
      ensures r.Ok? ==> r.value == this.(stack := r.value.stack) && |r.value.stack| == |stack| - 1
    {
      if |stack| == 0 then Err(StackUnderflow(lineNumber))
      else if |stack| == 1 then Ok(this.(stack := []))
      else Ok(this.(stack := stack[..|stack| - 2] + [Attach(stack[|stack| - 2], stack[|stack| - 1])]))
    }

    /** Appends a raw line to the open HTML node. */
    function AppendHTML(line: string): (r: PState)
      requires Valid() && inHTML
      ensures r.Valid() && r.inHTML && |r.stack| == |stack| && r.stack[..|stack| - 1] == stack[..|stack| - 1]
      ensures r.stack[|stack| - 1].kind.lines == stack[|stack| - 1].kind.lines + [line]
      ensures r.stack[|stack| - 1].children == stack[|stack| - 1].children
      ensures r == this.(stack := r.stack)
    {
      var top := stack[|stack| - 1];
      this.(stack := stack[..|stack| - 1] + [Node(NodeHTML(top.kind.lines + [line]), top.children)])
    }

    /** `consumeText`, with the line number of the line it is called for. */
    function ConsumeText(text: string): (r: Result<PState>)
      ensures r.Ok? ==> r.value == this.(stack := r.value.stack)
    {
      match Scan(text)
      case Unfinished(m) => Err(UnfinishedMode(lineNumber, text, m))
      case Spans(ns) => AddChildren(ns)
    }

    /** `for _, c := range children { s.addchild(c) }` */
    function AddChildren(ns: seq<Node>): (r: Result<PState>)
      ensures r.Ok? <==> ns == [] || |stack| > 0
      ensures ns == [] ==> r == Ok(this)
      ensures r.Ok? && ns != [] ==>
        r.value == PState(stack[..|stack| - 1] + [Node(stack[|stack| - 1].kind, stack[|stack| - 1].children + ns)],
                          lineNumber, inTex, inHTML)
      decreases |ns|
    {
      if ns == [] then Ok(this)
      else match AddChild(ns[0])
        case Err(e) => Err(e)
        case Ok(s) =>
          var top := stack[|stack| - 1];
          assert s.lineNumber == lineNumber && s.inTex == inTex && s.inHTML == inHTML;
          assert s.stack[..|s.stack| - 1] == stack[..|stack| - 1];
          assert s.stack[|s.stack| - 1] == Node(top.kind, top.children + [ns[0]]);
          assert ns == [ns[0]] + ns[1..];
          assert top.children + [ns[0]] + ns[1..] == top.children + ns;
          assert |ns| == 1 ==> ns == [ns[0]];
          s.AddChildren(ns[1..])
    }

    /** The dot commands of `consumeLine`, for a trimmed line starting with `.`. */
    function Command(line: string): (r: Result<PState>)
      requires |line| >= 1 && line[0] == '.' && !inHTML
      ensures r.Ok? ==> r.value.Valid() && r.value.lineNumber == lineNumber && r.value.inTex == inTex
    {
      var args := Fields(line[1..]);
      if args == [] then AddChild(NoteDsl.Text(line)) else Switch(args)
    }

    /** The `switch` on the command name `args[0]`. */
    function Switch(args: seq<string>): (r: Result<PState>)
      requires args != [] && !inHTML
      ensures r.Ok? ==> r.value.Valid() && r.value.lineNumber == lineNumber && r.value.inTex == inTex
    {
      var cmd := args[0];
      match cmd
      case "html" => Ok(this.(inHTML := true).Push(Node(NodeHTML([]), [])))
      case "doc" =>
        var a := if |args| == 3 then args + [DocumentArticle] else args;
        if |a| < 4 then Err(MissingArguments(lineNumber, cmd))
        else Ok(Push(Node(NodeDocument(a[1], Undash(a[2]), a[3]), [])))
      case "header" =>
        if |args| < 2 then Err(MissingArguments(lineNumber, cmd))
        else
          match ParseInt(args[1]) {
            case None => Err(BadHeaderLevel(lineNumber, args[1]))
            case Some(i) => Ok(Push(Node(NodeHeader(i), [])))
          }
      case "sec" | "ex" | "def" | "cor" | "thm" | "alg" | "prop" | "prob" =>
        if |args| < 3 then Err(MissingArguments(lineNumber, cmd))
        else Ok(Push(Node(TitledKind(cmd, args[1], Undash(args[2])), [])))
      case "p" | "par" => Ok(Push(Node(NodeParagraph, [])))
      case "eq" =>
        if |args| < 2 then Err(MissingArguments(lineNumber, cmd))
        else Ok(Push(Node(NodeEquation(args[1]), [])))
      case "tex" => Ok(Push(TexBlock))
      case "list" => Ok(Push(Node(NodeList(ListUnordered), [])))
      case "listo" => Ok(Push(Node(NodeList(ListOrdered), [])))
      case "item" => Ok(Push(Node(NodeListItem, [])))
      case "img" | "image" =>
        if |args| != 4 then Err(MalformedImage)
        else Ok(Push(Node(NodeImage(args[1], Undash(args[2]), args[3]), [])))
      case "vstack" => Ok(Push(Node(NodeVStack, [])))
      case "hstack" => Ok(Push(Node(NodeHStack, [])))
      case "link" =>
        if |args| != 3 then Err(MalformedLink)
        else Ok(Push(Node(NodeLink(args[1], Undash(args[2])), [])))
      case _ => Err(UnknownCommand(lineNumber, cmd))
    }

    /** `consumeLine`: every line counts, and `inTex` is never changed. */
    function ConsumeLine(line: string): (r: Result<PState>)
      requires Valid()
      ensures r.Ok? ==> r.value.Valid() && r.value.lineNumber == lineNumber + 1 && r.value.inTex == inTex
    {
      var s := this.(lineNumber := lineNumber + 1);
      if line == "" then Ok(s)
      else if inHTML then
        if TrimSpace(line) == "}}}" then s.(inHTML := false).Pop() else Ok(s.AppendHTML(line))
      else s.ConsumeTrimmed(TrimSpace(line))
    }

    /** The rest of `consumeLine`, once the line is trimmed. */
    function ConsumeTrimmed(t: string): (r: Result<PState>)
      requires !inHTML
      ensures r.Ok? ==> r.value.Valid() && r.value.lineNumber == lineNumber && r.value.inTex == inTex
    {
      if t == "" then Ok(this)
      else if t == "}" then Pop()
      else if t == "$$" then (if inTex then Pop() else Ok(Push(TexBlock)))
      else if |t| >= 2 && t[..2] == "//" then AddChild(Node(NodeComment, [NoteDsl.Text(t[2..])]))
      else if t[0] == '.' then Command(t)
      else if Current().Some? && (Current().value.NodeTex? || Current().value.NodeEquation?) then
        AddChild(NoteDsl.Text(t))
      else ConsumeText(t)
    }

    /** `run`: the lines in order, stopping at the first error. */
    function Run(lines: seq<string>): (r: Result<PState>)
      requires Valid()
      ensures r.Ok? ==> r.value.Valid() && r.value.lineNumber == lineNumber + |lines| && r.value.inTex == inTex
      decreases |lines|
    {
      if lines == [] then Ok(this)
      else match ConsumeLine(lines[0])
        case Err(e) => Err(e)
        case Ok(s) => s.Run(lines[1..])
    }
  }

  /** The untyped node `Parse` starts the stack with. */
  const Sentinel := Node(NodeUntyped, [])
  const Start := PState([Sentinel], 0, false, false)

  /** The frames still open at the end of the input, each attached to the one below it. */
  function Close(stack: seq<Node>): Node
    requires |stack| > 0
    decreases |stack|
  {
    if |stack| == 1 then stack[0]
    else Close(stack[..|stack| - 2] + [Attach(stack[|stack| - 2], stack[|stack| - 1])])
  }

  /** `Parse`: the first node under the bottom frame, or an empty article when there is none. */
  function Parsed(lines: seq<string>): Result<Node> {
    match Start.Run(lines)
    case Err(e) => Err(e)
    case Ok(st) =>
      if |st.stack| == 0 then Err(StackUnderflow(st.lineNumber))
      else
        var root := Close(st.stack);
        if |root.children| > 0 then Ok(root.children[0])
        else Ok(NoteDsl.Document("", "", DocumentArticle, []))
  }

  /** An error result, or success with the state it produces. */
  predicate Outcome(st: PState, err: Option<ParseError>, r: Result<PState>) {
    match r
    case Ok(s) => err.None? && st == s
    case Err(e) => err == Some(e)
  }

  // ---- the parser as an object ----

  class ParseState {
    var stack: seq<Node>
    var lineNumber: int
    var inTex: bool
    var inHTML: bool

    function State(): PState
      reads this
    {
      PState(stack, lineNumber, inTex, inHTML)
    }

    constructor ()
      ensures State() == Start
    {
      stack := [Sentinel];
      lineNumber := 0;
      inTex := false;
      inHTML := false;
    }

    method AddChild(n: Node) returns (err: Option<ParseError>)
      modifies this
      ensures Outcome(State(), err, old(State()).AddChild(n))
    {
      if |stack| == 0 {
        return Some(StackUnderflow(lineNumber));
      }
      var last := stack[|stack| - 1];
      stack := stack[..|stack| - 1] + [Attach(last, n)];
      return None;
    }

    method Push(n: Node)
      modifies this
      ensures State() == old(State()).Push(n)
    {
      stack := stack + [n];
    }

    method Pop() returns (err: Option<ParseError>)
      modifies this
      ensures Outcome(State(), err, old(State()).Pop())
    {
      if |stack| == 0 {
        return Some(StackUnderflow(lineNumber));
      }
      if |stack| == 1 {
        stack := [];
      } else {
        var top := stack[|stack| - 1];
        stack := stack[..|stack| - 2] + [Attach(stack[|stack| - 2], top)];
      }
      return None;
    }

    method ConsumeText(text: string) returns (err: Option<ParseError>)
      modifies this
      ensures Outcome(State(), err, old(State()).ConsumeText(text))
    {
      var ls := EmptyLine;
      var i := 0;
      while i < |text|
        invariant 0 <= i <= |text|
        invariant ScanFrom(text[i..], ls) == Scan(text)
      {
        var c := text[i];
        var m := ModeFor(c);
        ghost var next := Step(text[i..], ls);
        assert text[i..][0] == c && text[i..][1..] == text[i + 1..];
        if m == Plain {
          ls := ls.Append(c);
        } else if m == TexMode && i + 1 < |text| && ModeFor(text[i + 1]) == TexMode {
          assert text[i..][1] == text[i + 1];
        } else if ls.mode == m {
          ls := ls.Emit();
        } else if ls.mode == TexMode {
          ls := ls.Append(c);
        } else {
          ls := ls.Emit().(mode := m);
        }
        assert ls == next;
        i := i + 1;
      }
      assert text[i..] == [];
      if ls.mode != Plain {
        return Some(UnfinishedMode(lineNumber, text, ls.mode));
      }
      var spans := ls.children + [ls.SpanNode()];
      var j := 0;
      while j < |spans|
        invariant 0 <= j <= |spans|
        invariant old(State()).AddChildren(spans) == State().AddChildren(spans[j..])
      {
        ghost var before := State();
        assert spans[j..][0] == spans[j] && spans[j..][1..] == spans[j + 1..];
        err := AddChild(spans[j]);
        if err.Some? {
          return;
        }
        j := j + 1;
      }
      assert spans[j..] == [];
      return None;
    }

    method ConsumeLine(line: string) returns (err: Option<ParseError>)
      requires State().Valid()
      modifies this
      ensures Outcome(State(), err, old(State()).ConsumeLine(line))
    {
      ghost var spec := old(State()).ConsumeLine(line);
      ghost var counted := old(State()).(lineNumber := lineNumber + 1);
      lineNumber := lineNumber + 1;
      assert State() == counted;
      if line == "" {
        assert spec == Ok(counted);
        return None;
      }
      if inHTML {
        if TrimSpace(line) == "}}}" {
          assert spec == counted.(inHTML := false).Pop();
          inHTML := false;
          err := Pop();
          return;
        }
        assert spec == Ok(counted.AppendHTML(line));
        var top := stack[|stack| - 1];
        stack := stack[..|stack| - 1] + [Node(NodeHTML(top.kind.lines + [line]), top.children)];
        return None;
      }
      assert spec == counted.ConsumeTrimmed(TrimSpace(line));
      err := ConsumeTrimmed(TrimSpace(line));
    }

    /** The rest of `consumeLine`, once the line is trimmed. */
    method ConsumeTrimmed(t: string) returns (err: Option<ParseError>)
      requires !inHTML
      modifies this
      ensures Outcome(State(), err, old(State()).ConsumeTrimmed(t))
    {
      if |t| == 0 {
        return None;
      }
      if t == "}" {
        err := Pop();
        return;
      }
      if t == "$$" {
        if inTex {
          err := Pop();
          return;
        }
        Push(TexBlock);
        return None;
      }
      if |t| >= 2 && t[..2] == "//" {
        err := AddChild(Node(NodeComment, [NoteDsl.Text(t[2..])]));
        return;
      }
      if t[0] == '.' {
        err := Command(t);
        return;
      }
      var cur := State().Current();
      if cur.Some? && (cur.value.NodeTex? || cur.value.NodeEquation?) {
        err := AddChild(NoteDsl.Text(t));
        return;
      }
      err := ConsumeText(t);
    }

    /** The dot commands inside `consumeLine`. */
    method Command(line: string) returns (err: Option<ParseError>)
      requires |line| >= 1 && line[0] == '.' && !inHTML
      modifies this
      ensures Outcome(State(), err, old(State()).Command(line))
    {
      var args := Fields(line[1..]);
      if |args| == 0 {
        err := AddChild(NoteDsl.Text(line));
        return;
      }
      err := Switch(args);
    }

    /** The `switch` on the command name inside `consumeLine`. */
    method Switch(args: seq<string>) returns (err: Option<ParseError>)
      requires args != [] && !inHTML
      modifies this
      ensures Outcome(State(), err, old(State()).Switch(args))
    {
      var args := args;
      var cmd := args[0];
      match cmd {
        case "html" =>
          inHTML := true;
          Push(Node(NodeHTML([]), []));
        case "doc" =>
          if |args| == 3 {
            args := args + [DocumentArticle];
          }
          if |args| < 4 {
            return Some(MissingArguments(lineNumber, cmd));
          }
          Push(Node(NodeDocument(args[1], Undash(args[2]), args[3]), []));
        case "header" =>
          if |args| < 2 {
            return Some(MissingArguments(lineNumber, cmd));
          }
          var i := ParseInt(args[1]);
          if i.None? {
            return Some(BadHeaderLevel(lineNumber, args[1]));
          }
          Push(Node(NodeHeader(i.value), []));
        case "sec" | "ex" | "def" | "cor" | "thm" | "alg" | "prop" | "prob" =>
          if |args| < 3 {
            return Some(MissingArguments(lineNumber, cmd));
          }
          Push(Node(TitledKind(cmd, args[1], Undash(args[2])), []));
        case "p" | "par" =>
          Push(Node(NodeParagraph, []));
        case "eq" =>
          if |args| < 2 {
            return Some(MissingArguments(lineNumber, cmd));
          }
          Push(Node(NodeEquation(args[1]), []));
        case "tex" =>
          Push(TexBlock);
        case "list" =>
          Push(Node(NodeList(ListUnordered), []));
        case "listo" =>
          Push(Node(NodeList(ListOrdered), []));
        case "item" =>
          Push(Node(NodeListItem, []));
        case "img" | "image" =>
          if |args| != 4 {
            return Some(MalformedImage);
          }
          Push(Node(NodeImage(args[1], Undash(args[2]), args[3]), []));
        case "vstack" =>
          Push(Node(NodeVStack, []));
        case "hstack" =>
          Push(Node(NodeHStack, []));
        case "link" =>
          if |args| != 3 {
            return Some(MalformedLink);
          }
          Push(Node(NodeLink(args[1], Undash(args[2])), []));
        case _ =>
          return Some(UnknownCommand(lineNumber, cmd));
      }
      return None;
    }

    method Run(lines: seq<string>) returns (err: Option<ParseError>)
      requires State().Valid()
      modifies this
      ensures Outcome(State(), err, old(State()).Run(lines))
    {
      var i := 0;
      while i < |lines|
        invariant 0 <= i <= |lines| && State().Valid()
        invariant old(State()).Run(lines) == State().Run(lines[i..])
      {
        ghost var before := State();
        assert lines[i..][0] == lines[i] && lines[i..][1..] == lines[i + 1..];
        err := ConsumeLine(lines[i]);
        if err.Some? {
          return;
        }
        i := i + 1;
      }
      assert lines[i..] == [];
      return None;
    }
  }

  method Parse(lines: seq<string>) returns (r: Result<Node>)
    ensures r == Parsed(lines)
  {
    var p := new ParseState();
    var err := p.Run(lines);
    if err.Some? {
      return Err(err.value);
    }
    if |p.stack| == 0 {
      return Err(StackUnderflow(p.lineNumber));
    }
    var root := Close(p.stack);
    if |root.children| > 0 {
      return Ok(root.children[0]);
    }
    return Ok(NoteDsl.Document("", "", DocumentArticle, []));
  }
}
