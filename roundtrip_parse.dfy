/** The parser reads back the lines the renderer writes for the documents of `NoteShape`. */
module NoteParseBack {
  import opened GoText
  import opened NoteNode
  import NoteDsl
  import opened NoteParse
  import opened NoteParseLines
  import opened NoteParseRuns
  import opened NoteParseScan
  import opened NoteRender
  import opened NoteShape

  // ---- the command line of a block ----

  /** The fields of a block's command line before its brace: the command name and the
      arguments the parser reads. */
  function Words(k: Kind): seq<string> {
    match k
    case NodeParagraph => ["par"]
    case NodeListItem => ["item"]
    case NodeVStack => ["vstack"]
    case NodeHStack => ["hstack"]
    case NodeTex(_) => ["tex"]
    case NodeEquation(sym) => ["eq", sym]
    case NodeList(t) => [if t == ListOrdered then "listo" else "list"]
    case NodeHeader(level) => ["header", IntToString(level)]
    case NodeSection(sym, text) => ["sec", sym, Label(text)]
    case NodeExample(sym, text) => ["ex", sym, Label(text)]
    case NodeDefinition(sym, text) => ["def", sym, Label(text)]
    case NodeCorollary(sym, text) => ["cor", sym, Label(text)]
    case NodeTheorem(sym, text) => ["thm", sym, Label(text)]
    case NodeAlgorithm(sym, text) => ["alg", sym, Label(text)]
    case NodeProposition(sym, text) => ["prop", sym, Label(text)]
    case NodeProblem(sym, text) => ["prob", sym, Label(text)]
    case _ => []
  }

  lemma Unwords2(a: string, b: string)
    ensures Unwords([a, b]) == a + " " + b
  {
    assert [a, b][1..] == [b];
  }

  lemma Unwords3(a: string, b: string, c: string)
    ensures Unwords([a, b, c]) == a + " " + b + " " + c
  {
    assert [a, b, c][1..] == [b, c];
    Unwords2(b, c);
  }

  /** One more word at the end of a line of words. */
  lemma {:induction false} UnwordsSnoc(ws: seq<string>, w: string)
    requires ws != []
    ensures Unwords(ws + [w]) == Unwords(ws) + " " + w
    decreases |ws|
  {
    assert (ws + [w])[0] == ws[0];
    if |ws| == 1 {
      assert ws + [w] == [ws[0], w];
      Unwords2(ws[0], w);
    } else {
      assert (ws + [w])[1..] == ws[1..] + [w];
      UnwordsSnoc(ws[1..], w);
    }
  }

  /** A title written as a label is one word, and the parser's undashing gives it back. */
  lemma LabelOfTitle(t: string)
    requires Title(t)
    ensures Label(t) == Replace(t, ' ', '-') && Word(Label(t)) && Undash(Label(t)) == t
  {
    var r := Replace(t, ' ', '-');
    assert |r| == |t| > 0;
    DashRoundTrip(t);
  }

  /** The opener of a block kind is a dot and its words. */
  lemma OpenerWords(k: Kind)
    requires Heading(k)
    ensures Opener(k) == Some("." + Unwords(Words(k)))
  {
    if Titled(k) {
      TitledOpener(k);
    } else if k.NodeEquation? || k.NodeHeader? {
      ArgumentOpener(k);
    } else {
      BareOpener(k);
    }
  }

  lemma ArgumentOpener(k: Kind)
    requires k.NodeEquation? || k.NodeHeader?
    ensures Opener(k) == Some("." + Unwords(Words(k)))
  {
    if k.NodeEquation? {
      Unwords2("eq", k.symbol);
      DotLine(".eq ", "eq", k.symbol);
    } else {
      Unwords2("header", IntToString(k.level));
      DotLine(".header ", "header", IntToString(k.level));
    }
  }

  lemma BareOpener(k: Kind)
    requires k.NodeParagraph? || k.NodeListItem? || k.NodeVStack? || k.NodeHStack? || (k.NodeTex? && k.display) || k.NodeList?
    ensures Opener(k) == Some("." + Unwords(Words(k)))
  {
    match k
    case NodeParagraph => assert ".par" == "." + "par";
    case NodeListItem => assert ".item" == "." + "item";
    case NodeVStack => assert ".vstack" == "." + "vstack";
    case NodeHStack => assert ".hstack" == "." + "hstack";
    case NodeTex(_) => assert ".tex" == "." + "tex";
    case NodeList(_) => assert ".listo" == "." + "listo" && ".list" == "." + "list";
  }

  lemma TitledOpener(k: Kind)
    requires Titled(k) && Word(k.symbol)
    ensures Opener(k) == Some("." + Unwords(Words(k)))
  {
    if k.NodeSection? || k.NodeExample? || k.NodeDefinition? || k.NodeCorollary? {
      SectionOpener(k);
    } else {
      TheoremOpener(k);
    }
  }

  lemma SectionOpener(k: Kind)
    requires (k.NodeSection? || k.NodeExample? || k.NodeDefinition? || k.NodeCorollary?) && Word(k.symbol)
    ensures Opener(k) == Some("." + Unwords(Words(k)))
  {
    match k
    case NodeSection(_, _) => TitledLine(k, "sec", ".sec ");
    case NodeExample(_, _) => TitledLine(k, "ex", ".ex ");
    case NodeDefinition(_, _) => TitledLine(k, "def", ".def ");
    case NodeCorollary(_, _) => TitledLine(k, "cor", ".cor ");
  }

  lemma TheoremOpener(k: Kind)
    requires (k.NodeTheorem? || k.NodeAlgorithm? || k.NodeProposition? || k.NodeProblem?) && Word(k.symbol)
    ensures Opener(k) == Some("." + Unwords(Words(k)))
  {
    match k
    case NodeTheorem(_, _) => TitledLine(k, "thm", ".thm ");
    case NodeAlgorithm(_, _) => TitledLine(k, "alg", ".alg ");
    case NodeProposition(_, _) => TitledLine(k, "prop", ".prop ");
    case NodeProblem(_, _) => TitledLine(k, "prob", ".prob ");
  }

  /** The opener of one titled kind, given its command name. */
  lemma TitledLine(k: Kind, name: string, lit: string)
    requires Titled(k) && Word(k.symbol) && lit == "." + name + " "
    requires Words(k) == [name, k.symbol, Label(k.text)]
    requires Opener(k) == Some(lit + UnderscoreIfNot(k.symbol) + " " + Label(k.text))
    ensures Opener(k) == Some("." + Unwords(Words(k)))
  {
    Unwords3(name, k.symbol, Label(k.text));
    DotLine3(lit, name, k.symbol, Label(k.text));
  }

  lemma DotLine3(lit: string, name: string, a: string, b: string)
    requires lit == "." + name + " "
    ensures lit + a + " " + b == "." + (name + " " + a + " " + b)
  {
  }

  lemma DotLine(lit: string, name: string, a: string)
    requires lit == "." + name + " "
    ensures lit + a == "." + (name + " " + a)
  {
  }

  lemma NameWords()
    ensures Word("par") && Word("item") && Word("vstack") && Word("hstack") && Word("tex") && Word("eq")
    ensures Word("list") && Word("listo") && Word("header") && Word("{")
    ensures Word("sec") && Word("ex") && Word("def") && Word("cor")
    ensures Word("thm") && Word("alg") && Word("prop") && Word("prob")
  {
    BlockNameWords();
    TitledNameWords();
  }

  lemma BlockNameWords()
    ensures Word("par") && Word("item") && Word("vstack") && Word("hstack") && Word("tex") && Word("eq")
    ensures Word("list") && Word("listo") && Word("header") && Word("{")
  {
  }

  lemma TitledNameWords()
    ensures Word("sec") && Word("ex") && Word("def") && Word("cor")
    ensures Word("thm") && Word("alg") && Word("prop") && Word("prob")
  {
  }

  /** Every field of a block's command line is one word. */
  lemma WordsAreWords(k: Kind)
    requires Heading(k)
    ensures forall i :: 0 <= i < |Words(k)| ==> Words(k)[i] != [] && NoSpace(Words(k)[i])
  {
    NameWords();
    if Titled(k) {
      LabelOfTitle(k.text);
    } else if k.NodeHeader? {
      IntToStringWord(k.level);
    }
  }

  // ---- one line at a time ----

  lemma {:induction false} PadSpaces(d: int)
    ensures forall i :: 0 <= i < |Pad(d)| ==> Pad(d)[i] == ' '
    decreases d
  {
    if d > 0 {
      PadSpaces(d - 1);
      assert Pad(d) == Pad(d - 1) + "  ";
    }
  }

  /** A block's command line, indented, trims to its command, whose fields after the dot are
      the block's words and the brace. */
  lemma CommandArgs(k: Kind, d: int)
    requires Heading(k)
    ensures var t := Opener(k).value + " {";
      TrimSpace(Pad(d) + Opener(k).value + " {") == t && t[0] == '.' && Args(t) == Words(k) + ["{"]
  {
    var c := Opener(k).value;
    OpenerWords(k);
    WordsAreWords(k);
    ArgsOfLine(Words(k), c, d);
    assert Pad(d) + c + " {" == Pad(d) + (c + " {");
  }

  /** A dot, words and a brace, indented, trim to themselves and split into the words and the
      brace. */
  lemma ArgsOfLine(ws: seq<string>, c: string, d: int)
    requires ws != [] && c == "." + Unwords(ws)
    requires forall i :: 0 <= i < |ws| ==> ws[i] != [] && NoSpace(ws[i])
    ensures var t := c + " {";
      TrimSpace(Pad(d) + t) == t && t[0] == '.' && Args(t) == ws + ["{"]
  {
    UnwordsSnoc(ws, "{");
    DotBrace(c, Unwords(ws), Unwords(ws + ["{"]));
    BraceFields(ws);
    TrimCommand(c + " {", d);
  }

  lemma DotBrace(c: string, u: string, v: string)
    requires c == "." + u && v == u + " " + "{"
    ensures var t := c + " {"; t != [] && t[0] == '.' && t[|t| - 1] == '{' && t[1..] == v
  {
    var t := c + " {";
    assert t == "." + v;
  }

  lemma BraceFields(ws: seq<string>)
    requires forall i :: 0 <= i < |ws| ==> ws[i] != [] && NoSpace(ws[i])
    ensures Fields(Unwords(ws + ["{"])) == ws + ["{"]
  {
    assert Word("{");
    WordsSnoc(ws, "{");
    FieldsOfUnwords(ws + ["{"]);
  }

  /** Words and one more word are words. */
  lemma WordsSnoc(ws: seq<string>, w: string)
    requires forall i :: 0 <= i < |ws| ==> ws[i] != [] && NoSpace(ws[i])
    requires Word(w)
    ensures forall i :: 0 <= i < |ws + [w]| ==> (ws + [w])[i] != [] && NoSpace((ws + [w])[i])
  {
    forall i | 0 <= i < |ws + [w]| ensures (ws + [w])[i] != [] && NoSpace((ws + [w])[i]) {
      if i < |ws| {
        assert (ws + [w])[i] == ws[i];
      } else {
        assert (ws + [w])[i] == w;
      }
    }
  }

  lemma TrimCommand(t: string, d: int)
    requires t != [] && t[0] == '.' && t[|t| - 1] == '{'
    ensures TrimSpace(Pad(d) + t) == t
  {
    PadSpaces(d);
    TrimIndented(Pad(d), t);
  }

  /** The switch opens the block a command line describes. */
  lemma SwitchOpens(st: PState, k: Kind)
    requires Heading(k) && !st.inHTML
    ensures st.Switch(Words(k) + ["{"]) == Ok(st.Push(Node(k, [])))
  {
    if Titled(k) {
      TitledSwitch(st, k);
    } else if k.NodeHeader? {
      var args := Words(k) + ["{"];
      HeaderLine(st, args);
      ParseIntOfIntToString(k.level);
    } else {
      BareSwitch(st, k);
    }
  }

  lemma TitledSwitch(st: PState, k: Kind)
    requires Titled(k) && Title(k.text) && !st.inHTML
    ensures st.Switch(Words(k) + ["{"]) == Ok(st.Push(Node(k, [])))
  {
    var args := Words(k) + ["{"];
    LabelOfTitle(k.text);
    assert args[0] in TitledCommands;
    TitledCommandLine(st, args);
    assert TitledKind(args[0], args[1], Undash(args[2])) == k;
  }

  lemma BareSwitch(st: PState, k: Kind)
    requires k.NodeParagraph? || k.NodeListItem? || k.NodeVStack? || k.NodeHStack? || (k.NodeTex? && k.display) ||
             k.NodeEquation? || (k.NodeList? && (k.listType == ListOrdered || k.listType == ListUnordered))
    requires !st.inHTML
    ensures st.Switch(Words(k) + ["{"]) == Ok(st.Push(Node(k, [])))
  {
  }

  /** An indented command line opens its block, whatever the indentation. */
  lemma CommandStep(st: PState, k: Kind, d: int)
    requires Heading(k) && !st.inHTML
    ensures st.ConsumeLine(Pad(d) + Opener(k).value + " {") == Ok(Counted(st).Push(Node(k, [])))
  {
    var c := Opener(k).value;
    CommandArgs(k, d);
    CommandOpens(st, k, Pad(d) + c + " {", c + " {");
  }

  lemma CommandOpens(st: PState, k: Kind, line: string, t: string)
    requires Heading(k) && !st.inHTML
    requires TrimSpace(line) == t && t != [] && t[0] == '.' && Args(t) == Words(k) + ["{"]
    ensures st.ConsumeLine(line) == Ok(Counted(st).Push(Node(k, [])))
  {
    TrimmedLine(st, line);
    CommandLine(Counted(st), t);
    SwitchOpens(Counted(st), k);
  }

  /** The open frame with more children. */
  function Grow(stack: seq<Node>, extra: seq<Node>): (r: seq<Node>)
    requires |stack| > 0
    ensures |r| == |stack| && r[..|r| - 1] == stack[..|stack| - 1]
  {
    var top := stack[|stack| - 1];
    stack[..|stack| - 1] + [Node(top.kind, top.children + extra)]
  }

  /** A parser state outside HTML capture with the given frames, some lines after `st`. */
  function Frames(st: PState, stack: seq<Node>, lines: int): PState {
    PState(stack, st.lineNumber + lines, st.inTex, false)
  }

  /** An indented plain text line becomes one text child of the open frame, whatever the frame. */
  lemma TextStep(st: PState, t: string, d: int)
    requires PlainText(t) && !st.inHTML && |st.stack| > 0
    ensures st.ConsumeLine(Pad(d) + t) == Ok(Frames(st, Grow(st.stack, [NoteDsl.Text(t)]), 1))
  {
    PadSpaces(d);
    TrimIndented(Pad(d), t);
    TrimmedLine(st, Pad(d) + t);
    var c := Counted(st);
    assert t != "$$" && !(|t| >= 2 && t[..2] == "//") by {
      assert t[0] != '$' && t[0] != '/';
    }
    assert ContentLine(t);
    var top := c.stack[|c.stack| - 1];
    if top.kind.NodeTex? || top.kind.NodeEquation? {
      RawLine(c, t);
    } else {
      ScannedLine(c, t);
      PlainLineScan(t);
      assert c.AddChildren([NoteDsl.Text(t)]) == c.AddChild(NoteDsl.Text(t));
    }
  }

  /** An indented closing brace closes the open frame onto the one below it. */
  lemma CloseStep(st: PState, d: int)
    requires !st.inHTML && |st.stack| >= 2
    ensures var n := |st.stack|;
      st.ConsumeLine(Pad(d) + "}") == Ok(Frames(st, st.stack[..n - 2] + [Attach(st.stack[n - 2], st.stack[n - 1])], 1))
  {
    PadSpaces(d);
    TrimIndented(Pad(d), "}");
    TrimmedLine(st, Pad(d) + "}");
  }

  // ---- runs of lines ----

  lemma Run2(st: PState, a: seq<string>, b: seq<string>, s1: PState, s2: PState)
    requires st.Valid() && st.Run(a) == Ok(s1) && s1.Run(b) == Ok(s2)
    ensures st.Run(a + b) == Ok(s2)
  {
    RunThen(st, a, b, s1);
  }

  lemma Run3(st: PState, a: seq<string>, b: seq<string>, c: seq<string>, s1: PState, s2: PState, s3: PState)
    requires st.Valid() && st.Run(a) == Ok(s1) && s1.Run(b) == Ok(s2) && s2.Run(c) == Ok(s3)
    ensures st.Run(a + b + c) == Ok(s3)
  {
    Run2(st, a, b, s1, s2);
    Run2(st, a + b, c, s2, s3);
  }

  /** A block's opening lines open its frame, with no children yet. */
  lemma HeadParse(st: PState, k: Kind, d: int)
    requires Heading(k) && !st.inHTML
    ensures st.Run(HeadLines(k, d)) == Ok(Frames(st, st.stack + [Node(k, [])], |HeadLines(k, d)|))
  {
    var n := Node(k, []);
    var l := Pad(d) + Opener(k).value + " {";
    if BlankBefore(k) {
      var c := Counted(st);
      HeadOpens(c, k, d);
      BlankStep(st);
      RunCons(st, "", [l], c);
      assert Frames(c, c.stack + [n], 1) == Frames(st, st.stack + [n], 2);
      SameLines(st, [""] + [l], HeadLines(k, d));
    } else {
      HeadOpens(st, k, d);
      SameLines(st, [l], HeadLines(k, d));
    }
  }

  /** The command line of a block, as a run of one line. */
  lemma HeadOpens(st: PState, k: Kind, d: int)
    requires Heading(k) && !st.inHTML
    ensures st.Run([Pad(d) + Opener(k).value + " {"]) == Ok(Frames(st, st.stack + [Node(k, [])], 1))
  {
    CommandStep(st, k, d);
    RunOne(st, Pad(d) + Opener(k).value + " {");
  }

  lemma BlankStep(st: PState)
    requires !st.inHTML
    ensures st.ConsumeLine("") == Ok(Counted(st))
  {
  }

  /** A block's brace line attaches the block to the frame below it. */
  lemma CloseParse(st: PState, b: Node, d: int, m: int, s: PState, s3: PState)
    requires !st.inHTML && |st.stack| > 0
    requires s == Frames(st, st.stack + [b], m) && s3 == Frames(st, Grow(st.stack, [b]), m + 1)
    ensures s.Run([Pad(d) + "}"]) == Ok(s3)
  {
    CloseStep(s, d);
    RunOne(s, Pad(d) + "}");
    var n := |s.stack|;
    assert s.stack[..n - 2] == st.stack[..|st.stack| - 1];
    assert s.stack[n - 2] == st.stack[|st.stack| - 1] && s.stack[n - 1] == b;
  }

  lemma GrowNothing(stack: seq<Node>)
    requires |stack| > 0
    ensures Grow(stack, []) == stack
  {
    var top := stack[|stack| - 1];
    assert top.children + [] == top.children;
  }

  lemma GrowTwice(stack: seq<Node>, a: seq<Node>, b: seq<Node>)
    requires |stack| > 0
    ensures Grow(Grow(stack, a), b) == Grow(stack, a + b)
  {
    var top := stack[|stack| - 1];
    assert top.children + a + b == top.children + (a + b);
  }

  /** The lines of a block, read in any frame, add the block to that frame. */
  lemma {:induction false} ParseBlock(b: Node, d: int, st: PState)
    requires Block(b) && !st.inHTML && |st.stack| > 0
    ensures st.Run(BlockLines(b, d)) == Ok(Frames(st, Grow(st.stack, [b]), |BlockLines(b, d)|))
    decreases b, 1
  {
    var head := HeadLines(b.kind, d);
    var body := ChildLines(b.children, d + 1);
    var s1 := Frames(st, st.stack + [Node(b.kind, [])], |head|);
    HeadParse(st, b.kind, d);
    ParseChildren(b.children, d + 1, s1);
    BlockRun(st, b, d, head, body, s1, Frames(s1, Grow(s1.stack, b.children), |body|));
    SameLines(st, head + body + [Pad(d) + "}"], BlockLines(b, d));
  }

  lemma SameChildren(stack: seq<Node>, a: seq<Node>, b: seq<Node>)
    requires |stack| > 0 && a == b
    ensures Grow(stack, a) == Grow(stack, b)
  {
  }

  lemma SameLines(st: PState, a: seq<string>, b: seq<string>)
    requires st.Valid() && a == b
    ensures st.Run(a) == st.Run(b)
  {
  }

  /** An opening that opens a frame and a body that fills it, then the brace. */
  lemma BlockRun(st: PState, b: Node, d: int, head: seq<string>, body: seq<string>, s1: PState, s2: PState)
    requires !st.inHTML && |st.stack| > 0
    requires st.Run(head) == Ok(s1) && s1.Run(body) == Ok(s2)
    requires s1 == Frames(st, st.stack + [Node(b.kind, [])], |head|)
    requires s2 == Frames(s1, Grow(s1.stack, b.children), |body|)
    ensures var lines := head + body + [Pad(d) + "}"]; st.Run(lines) == Ok(Frames(st, Grow(st.stack, [b]), |lines|))
  {
    GrowOpen(st.stack, b);
    assert s2 == Frames(st, st.stack + [b], |head| + |body|);
    var s3 := Frames(st, Grow(st.stack, [b]), |head + body + [Pad(d) + "}"]|);
    CloseParse(st, b, d, |head| + |body|, s2, s3);
    Run3(st, head, body, [Pad(d) + "}"], s1, s2, s3);
  }

  lemma GrowOpen(stack: seq<Node>, b: Node)
    ensures Grow(stack + [Node(b.kind, [])], b.children) == stack + [b]
  {
    assert [] + b.children == b.children;
  }

  /** The line of a text, or the lines of a block, read in any frame, add it to that frame. */
  lemma {:induction false} ParsePart(c: Node, d: int, st: PState)
    requires (Leaf(c) || Block(c)) && !st.inHTML && |st.stack| > 0
    ensures st.Run(PartLines(c, d)) == Ok(Frames(st, Grow(st.stack, [c]), |PartLines(c, d)|))
    decreases c, 2
  {
    if Leaf(c) {
      var t := c.kind.text;
      assert c == NoteDsl.Text(t);
      TextStep(st, t, d);
      RunOne(st, Pad(d) + t);
    } else {
      ParseBlock(c, d, st);
    }
  }

  /** Texts and blocks one after another, read in a frame, are added to it in order. */
  lemma {:induction false} ParseChildren(cs: seq<Node>, d: int, st: PState)
    requires Parts(cs) && !st.inHTML && |st.stack| > 0
    ensures st.Run(ChildLines(cs, d)) == Ok(Frames(st, Grow(st.stack, cs), |ChildLines(cs, d)|))
    decreases cs, 0
  {
    if cs == [] {
      GrowNothing(st.stack);
      assert st.Run([]) == Ok(st);
    } else {
      PartsTail(cs);
      var first := PartLines(cs[0], d);
      var rest := ChildLines(cs[1..], d);
      ParsePart(cs[0], d, st);
      var s1 := Frames(st, Grow(st.stack, [cs[0]]), |first|);
      ParseChildren(cs[1..], d, s1);
      ChildrenRun(st, cs[0], cs[1..], first, rest, s1, Frames(s1, Grow(s1.stack, cs[1..]), |rest|));
      SameLines(st, first + rest, ChildLines(cs, d));
      SameChildren(st.stack, [cs[0]] + cs[1..], cs);
    }
  }

  /** A block that grows the frame, then more that grow it further. */
  lemma ChildrenRun(st: PState, c: Node, cs: seq<Node>, first: seq<string>, rest: seq<string>, s1: PState, s2: PState)
    requires !st.inHTML && |st.stack| > 0
    requires st.Run(first) == Ok(s1) && s1.Run(rest) == Ok(s2)
    requires s1 == Frames(st, Grow(st.stack, [c]), |first|) && s2 == Frames(s1, Grow(s1.stack, cs), |rest|)
    ensures st.Run(first + rest) == Ok(Frames(st, Grow(st.stack, [c] + cs), |first + rest|))
  {
    ChildFrames(st, c, cs, first, rest);
    RunThen(st, first, rest, s1);
  }

  /** The frames after two runs of children are the frames after one run of both. */
  lemma ChildFrames(st: PState, c: Node, cs: seq<Node>, first: seq<string>, rest: seq<string>)
    requires |st.stack| > 0
    ensures var s1 := Frames(st, Grow(st.stack, [c]), |first|);
      Frames(s1, Grow(s1.stack, cs), |rest|) == Frames(st, Grow(st.stack, [c] + cs), |first + rest|)
  {
    GrowTwice(st.stack, [c], cs);
  }

  // ---- the document ----

  /** The fields of an article's `.doc` line after its dot. */
  function DocWords(k: Kind): seq<string>
    requires k.NodeDocument?
  {
    ["doc", k.symbol, Label(k.text), k.docType]
  }

  lemma Unwords4(a: string, b: string, c: string, e: string)
    ensures Unwords([a, b, c, e]) == a + " " + b + " " + c + " " + e
  {
    assert [a, b, c, e][1..] == [b, c, e];
    Unwords3(b, c, e);
  }

  /** The `.doc` line of an article is a dot and its words. */
  lemma DocLineWords(k: Kind)
    requires k.NodeDocument? && Word(k.symbol) && Word(k.docType)
    ensures DocLine(k) == "." + Unwords(DocWords(k))
  {
    var w := DocWords(k);
    Unwords4(w[0], w[1], w[2], w[3]);
    assert UnderscoreIfNot(k.symbol) == k.symbol && UnderscoreIfNot(k.docType) == k.docType;
    DotLine4(".doc ", "doc", w[1], w[2], w[3]);
  }

  lemma DotLine4(lit: string, name: string, a: string, b: string, c: string)
    requires lit == "." + name + " "
    ensures lit + a + " " + b + " " + c == "." + (name + " " + a + " " + b + " " + c)
  {
  }

  /** The trimmed `.doc` line of an article splits into its words. */
  lemma DocArgs(k: Kind)
    requires k.NodeDocument? && Word(k.symbol) && Title(k.text) && Word(k.docType)
    ensures var t := DocLine(k); t != [] && t[0] == '.' && TrimSpace(t) == t && Args(t) == DocWords(k)
  {
    var t := DocLine(k);
    var w := DocWords(k);
    DocLineWords(k);
    LabelOfTitle(k.text);
    assert Word("doc");
    assert forall i :: 0 <= i < |w| ==> w[i] != [] && NoSpace(w[i]);
    FieldsOfUnwords(w);
    assert t[1..] == Unwords(w);
    assert t[|t| - 1] == k.docType[|k.docType| - 1];
    TrimSpaceVisible(t);
  }

  /** The first line of an article opens it on the parser's bottom frame. */
  lemma DocStep(k: Kind)
    requires k.NodeDocument? && Word(k.symbol) && Title(k.text) && Word(k.docType)
    ensures Start.ConsumeLine(DocLine(k)) == Ok(PState([Sentinel, Node(k, [])], 1, false, false))
  {
    var t := DocLine(k);
    DocArgs(k);
    LabelOfTitle(k.text);
    TrimmedLine(Start, t);
    assert Start.ConsumeLine(t) == Counted(Start).ConsumeTrimmed(t);
    CommandLine(Counted(Start), t);
    assert Counted(Start).ConsumeTrimmed(t) == Counted(Start).Switch(DocWords(k));
    DocSwitch(Counted(Start), DocWords(k));
    assert NodeDocument(k.symbol, Undash(Label(k.text)), k.docType) == k;
    assert Counted(Start).Push(Node(k, [])) == PState([Sentinel, Node(k, [])], 1, false, false);
  }

  lemma DocSwitch(st: PState, args: seq<string>)
    requires !st.inHTML && |args| == 4 && args[0] == "doc"
    ensures st.Switch(args) == Ok(st.Push(Node(NodeDocument(args[1], Undash(args[2]), args[3]), [])))
  {
  }

  /** The lines of an article leave exactly the bottom frame and the article open, every
      line counted: the `.doc` line, the body, and the empty last line when there is one. */
  lemma ArticleRun(doc: Node)
    requires Article(doc)
    ensures Start.Run(DocLines(doc)) == Ok(PState([Sentinel, doc], |DocLines(doc)|, false, false))
  {
    var kids := ChildLines(doc.children, 0);
    DocOpens(doc.kind);
    ArticleBody(doc);
    ArticleLines(doc, PState([Sentinel, Node(doc.kind, [])], 1, false, false), PState([Sentinel, doc], 1 + |kids|, false, false));
  }

  /** The `.doc` line, the body, and the empty last line, one after another. */
  lemma ArticleLines(doc: Node, s1: PState, s2: PState)
    requires Article(doc) && !s2.inHTML
    requires Start.Run([DocLine(doc.kind)]) == Ok(s1) && s1.Run(ChildLines(doc.children, 0)) == Ok(s2)
    ensures Start.Run(DocLines(doc)) == Ok(if EndsInText(doc.children) then s2 else Counted(s2))
  {
    var line := [DocLine(doc.kind)];
    var kids := ChildLines(doc.children, 0);
    if EndsInText(doc.children) {
      assert DocLines(doc) == line + kids;
      Run2(Start, line, kids, s1, s2);
    } else {
      BlankLast(s2);
      Run3(Start, line, kids, [""], s1, s2, Counted(s2));
    }
  }

  lemma DocOpens(k: Kind)
    requires k.NodeDocument? && Word(k.symbol) && Title(k.text) && Word(k.docType)
    ensures Start.Run([DocLine(k)]) == Ok(PState([Sentinel, Node(k, [])], 1, false, false))
  {
    DocStep(k);
    RunOne(Start, DocLine(k));
  }

  /** The body of an article, read in its frame, completes it. */
  lemma ArticleBody(doc: Node)
    requires Article(doc)
    ensures var kids := ChildLines(doc.children, 0);
      PState([Sentinel, Node(doc.kind, [])], 1, false, false).Run(kids) ==
      Ok(PState([Sentinel, doc], 1 + |kids|, false, false))
  {
    var s1 := PState([Sentinel, Node(doc.kind, [])], 1, false, false);
    ParseChildren(doc.children, 0, s1);
    GrowDoc(doc);
  }

  lemma GrowDoc(doc: Node)
    ensures Grow([Sentinel, Node(doc.kind, [])], doc.children) == [Sentinel, doc]
  {
    assert [] + doc.children == doc.children;
  }

  lemma BlankLast(st: PState)
    requires !st.inHTML
    ensures st.Run([""]) == Ok(Counted(st))
  {
    RunOne(st, "");
  }

  /** `Parse` gives back every article from the lines the renderer writes for it. */
  lemma ReadArticle(doc: Node)
    requires Article(doc)
    ensures Parsed(DocLines(doc)) == Ok(doc)
  {
    ArticleRun(doc);
    ParsedFrom(DocLines(doc), PState([Sentinel, doc], |DocLines(doc)|, false, false), doc);
  }

  /** Lines that leave one node on the bottom frame parse to that node. */
  lemma ParsedFrom(lines: seq<string>, s: PState, n: Node)
    requires Start.Run(lines) == Ok(s) && s.stack == [Sentinel, n]
    ensures Parsed(lines) == Ok(n)
  {
    CloseOne(n);
  }

  lemma CloseOne(n: Node)
    ensures Close([Sentinel, n]) == Node(NodeUntyped, [n])
  {
    assert Close([Sentinel, n]) == Close([Attach(Sentinel, n)]);
  }

  // ---- images and links ----

  /** The renderer ends an image's command line with its brace, so the parser sees five
      fields where it demands exactly four, and fails. */
  lemma ImageLineRejected(st: PState, k: Kind, d: int)
    requires k.NodeImage? && Word(k.symbol) && Title(k.text) && Word(k.path) && !st.inHTML
    ensures st.ConsumeLine(Pad(d) + Opener(k).value + " {") == Err(MalformedImage)
  {
    var t := Opener(k).value + " {";
    ImageFields(k, d);
    ImageArity(Counted(st), Args(t));
    RejectedCommand(st, Pad(d) + Opener(k).value + " {", t, MalformedImage);
  }

  /** An image's command line, indented, trims to its command, which has five fields. */
  lemma ImageFields(k: Kind, d: int)
    requires k.NodeImage? && Word(k.symbol) && Title(k.text) && Word(k.path)
    ensures var t := Opener(k).value + " {";
      TrimSpace(Pad(d) + Opener(k).value + " {") == t && t != [] && t[0] == '.' &&
      Args(t) == ["img", k.symbol, Label(k.text), k.path, "{"]
  {
    var ws := ["img", k.symbol, Label(k.text), k.path];
    var c := Opener(k).value;
    Unwords4(ws[0], ws[1], ws[2], ws[3]);
    assert UnderscoreIfNot(k.symbol) == k.symbol;
    LabelOfTitle(k.text);
    DotLine4(".img ", "img", ws[1], ws[2], ws[3]);
    assert Word("img");
    ArgsOfLine(ws, c, d);
    assert Pad(d) + c + " {" == Pad(d) + (c + " {");
  }

  /** The same holds for a link: four fields where the parser demands exactly three. */
  lemma LinkLineRejected(st: PState, k: Kind, d: int)
    requires k.NodeLink? && Word(k.ref) && Title(k.text) && !st.inHTML
    ensures st.ConsumeLine(Pad(d) + Opener(k).value + " {") == Err(MalformedLink)
  {
    var t := Opener(k).value + " {";
    LinkFields(k, d);
    LinkArity(Counted(st), Args(t));
    RejectedCommand(st, Pad(d) + Opener(k).value + " {", t, MalformedLink);
  }

  /** A link's command line, indented, trims to its command, which has four fields. */
  lemma LinkFields(k: Kind, d: int)
    requires k.NodeLink? && Word(k.ref) && Title(k.text)
    ensures var t := Opener(k).value + " {";
      TrimSpace(Pad(d) + Opener(k).value + " {") == t && t != [] && t[0] == '.' &&
      Args(t) == ["link", k.ref, Label(k.text), "{"]
  {
    var ws := ["link", k.ref, Label(k.text)];
    var c := Opener(k).value;
    Unwords3(ws[0], ws[1], ws[2]);
    assert UnderscoreIfNot(k.ref) == k.ref;
    LabelOfTitle(k.text);
    DotLine3(".link ", "link", ws[1], ws[2]);
    assert Word("link");
    ArgsOfLine(ws, c, d);
    assert Pad(d) + c + " {" == Pad(d) + (c + " {");
  }

  lemma RejectedCommand(st: PState, line: string, t: string, e: ParseError)
    requires !st.inHTML && TrimSpace(line) == t && t != [] && t[0] == '.' && Args(t) != []
    requires Counted(st).Switch(Args(t)) == Err(e)
    ensures st.ConsumeLine(line) == Err(e)
  {
    TrimmedLine(st, line);
    CommandLine(Counted(st), t);
  }
}
