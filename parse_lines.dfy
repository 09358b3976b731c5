/** What one line does to the parser state, by the shape of its trimmed text. */
module NoteParseLines {
  import opened GoText
  import opened NoteNode
  import NoteDsl
  import opened NoteParse

  /** The effect of every line once `lineNumber` has counted it. */
  function Counted(st: PState): PState {
    st.(lineNumber := st.lineNumber + 1)
  }

  /** Outside HTML capture a line is counted, trimmed, and handled by its trimmed text. */
  lemma {:induction false} TrimmedLine(st: PState, line: string)
    requires !st.inHTML
    ensures st.ConsumeLine(line) == Counted(st).ConsumeTrimmed(TrimSpace(line))
  {
  }

  /** `TrimmedLine` for a line whose trimmed handling is already known. */
  lemma {:induction false} TrimmedResult(st: PState, line: string, e: ParseError)
    requires !st.inHTML && Counted(st).ConsumeTrimmed(TrimSpace(line)) == Err(e)
    ensures st.ConsumeLine(line) == Err(e)
  {
    TrimmedLine(st, line);
  }

  // ---- single lines, once trimmed ----

  /** `}` closes exactly the innermost frame; with no frame open it fails. */
  lemma {:induction false} CloseLine(st: PState)
    requires !st.inHTML
    ensures var r := st.ConsumeTrimmed("}");
      (r.Ok? <==> |st.stack| > 0) && (r.Ok? ==> |r.value.stack| == |st.stack| - 1 && r == st.Pop())
  {
  }

  /** A `//x` line adds a comment holding `x` to the open frame and opens nothing. */
  lemma {:induction false} CommentLine(st: PState, x: string)
    requires !st.inHTML && |st.stack| > 0
    ensures var r := st.ConsumeTrimmed("//" + x);
      r.Ok? && |r.value.stack| == |st.stack| && r == st.AddChild(Node(NodeComment, [NoteDsl.Text(x)]))
  {
    var t := "//" + x;
    assert t[..2] == "//" && t[2..] == x;
    assert |t| >= 2 && t[0] == '/' && t[1] == '/';
    assert t != "" && t != "}" && t != "$$";
  }

  /** A lone `.` is kept as text. */
  lemma {:induction false} LoneDot(st: PState)
    requires !st.inHTML
    ensures st.ConsumeTrimmed(".") == st.AddChild(NoteDsl.Text("."))
  {
    assert "."[1..] == "";
  }

  /** A trimmed line that `consumeLine` treats as content: not empty, not `}` or `$$`, not a
      comment and not a command. */
  predicate ContentLine(t: string) {
    t != "" && t != "}" && t != "$$" && !(|t| >= 2 && t[..2] == "//") && t[0] != '.'
  }

  /** Under a Tex or Equation frame a content line is kept whole as one text, with no inline
      scanning. */
  lemma {:induction false} RawLine(st: PState, t: string)
    requires !st.inHTML && ContentLine(t)
    requires |st.stack| > 0 && (st.stack[|st.stack| - 1].kind.NodeTex? || st.stack[|st.stack| - 1].kind.NodeEquation?)
    ensures st.ConsumeTrimmed(t) == st.AddChild(NoteDsl.Text(t))
  {
  }

  /** Elsewhere a content line goes through the inline scanner; an open mode at its end is an
      error that names the line. */
  lemma {:induction false} ScannedLine(st: PState, t: string)
    requires !st.inHTML && ContentLine(t)
    requires !(|st.stack| > 0 && (st.stack[|st.stack| - 1].kind.NodeTex? || st.stack[|st.stack| - 1].kind.NodeEquation?))
    ensures match Scan(t)
      case Unfinished(m) => st.ConsumeTrimmed(t) == Err(UnfinishedMode(st.lineNumber, t, m))
      case Spans(ns) => st.ConsumeTrimmed(t) == st.AddChildren(ns)
  {
  }

  // ---- commands ----

  /** The command names `consumeLine` knows. */
  const KnownCommands: set<string> := TitledCommands +
    {"html", "doc", "header", "p", "par", "eq", "tex", "list", "listo", "item", "img", "image",
     "vstack", "hstack", "link"}

  /** The fields of a trimmed command line after its dot. */
  function Args(t: string): seq<string>
    requires t != ""
  {
    Fields(t[1..])
  }

  /** A trimmed line with a command after its dot is handled by the command switch. */
  lemma {:induction false} CommandLine(st: PState, t: string)
    requires !st.inHTML && t != "" && t[0] == '.' && Args(t) != []
    ensures st.ConsumeTrimmed(t) == st.Switch(Args(t))
  {
    assert t != "}" && t != "$$" && !(|t| >= 2 && t[..2] == "//") by {
      assert t[0] == '.';
    }
  }

  lemma {:induction false} UnknownSwitch(st: PState, args: seq<string>)
    requires !st.inHTML && args != [] && args[0] !in KnownCommands
    ensures st.Switch(args) == Err(UnknownCommand(st.lineNumber, args[0]))
  {
  }

  /** A trimmed line naming an unknown command fails with that name. */
  lemma {:induction false} UnknownTrimmed(st: PState, t: string)
    requires !st.inHTML && t != "" && t[0] == '.' && Args(t) != [] && Args(t)[0] !in KnownCommands
    ensures st.ConsumeTrimmed(t) == Err(UnknownCommand(st.lineNumber, Args(t)[0]))
  {
    CommandLine(st, t);
    UnknownSwitch(st, Args(t));
  }

  /** `img` and `image` take exactly a symbol, a title and a path; anything else fails with an
      error that carries no line number. */
  lemma {:induction false} ImageArity(st: PState, args: seq<string>)
    requires !st.inHTML && args != [] && args[0] in {"img", "image"}
    ensures st.Switch(args) ==
      if |args| != 4 then Err(MalformedImage)
      else Ok(st.Push(Node(NodeImage(args[1], Undash(args[2]), args[3]), [])))
  {
  }

  /** `link` takes exactly a reference and a label. */
  lemma {:induction false} LinkArity(st: PState, args: seq<string>)
    requires !st.inHTML && args != [] && args[0] == "link"
    ensures st.Switch(args) ==
      if |args| != 3 then Err(MalformedLink)
      else Ok(st.Push(Node(NodeLink(args[1], Undash(args[2])), [])))
  {
  }

  /** `.doc` with a symbol and a title and no type opens an article. */
  lemma {:induction false} DocDefaultsToArticle(st: PState, args: seq<string>)
    requires !st.inHTML && |args| == 3 && args[0] == "doc"
    ensures st.Switch(args) == Ok(st.Push(Node(NodeDocument(args[1], Undash(args[2]), DocumentArticle), [])))
  {
  }

  /** The commands with a symbol and a title need both, and open a block whose title has its
      dashes turned into spaces. */
  lemma {:induction false} TitledCommandLine(st: PState, args: seq<string>)
    requires !st.inHTML && args != [] && args[0] in TitledCommands
    ensures st.Switch(args) ==
      if |args| < 3 then Err(MissingArguments(st.lineNumber, args[0]))
      else Ok(st.Push(Node(TitledKind(args[0], args[1], Undash(args[2])), [])))
  {
  }

  /** `.header` needs a level that `strconv.ParseInt` accepts. */
  lemma {:induction false} HeaderLine(st: PState, args: seq<string>)
    requires !st.inHTML && args != [] && args[0] == "header"
    ensures st.Switch(args) ==
      if |args| < 2 then Err(MissingArguments(st.lineNumber, "header"))
      else if ParseInt(args[1]).None? then Err(BadHeaderLevel(st.lineNumber, args[1]))
      else Ok(st.Push(Node(NodeHeader(ParseInt(args[1]).value), [])))
  {
  }
}
