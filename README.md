# A verified model of the note markup engine

The note engine in `components/notes/note/` reads a small line-oriented markup into a tree of
nodes and writes a tree back as markup. A document starts with a `.doc symbol title type`
line. Blocks are opened by dot commands such as `.sec`, `.p`, `.list`, `.item`, `.thm` or
`.img` and closed by `}`. `$$` opens display math. `//` starts a comment. `.html` captures raw
lines until `}}}`. Any other line is inline text in which `*`, `_` and `$` toggle bold, italics
and inline math. The renderer walks the tree and writes the same markup back, indenting two
spaces per open block.

This project models that engine in Dafny and proves what its code promises:

- **`NoteNode`** (`node.dfy`): the node tree and the walker. `Debug` is modelled, and the walk
  is the sequence of `pre` and `post` visits it makes. A walk with callbacks is a fold over that
  sequence. `AssetPaths` and `Items` are such folds, with the accumulator the Go closures
  capture. They are proved equal to a recursive form and to a count over the pre-order.
- **`NoteDsl`** (`dsl.dfy`): the constructor functions.
- **`NoteParse`** (`parse.dfy`): the parser, in two forms.
  - `PState` is the parser state as a value. Every operation of `parseState` is a function over
    it that returns the new state or the error.
  - The class `ParseState` has the same fields and methods. Each method changes the fields in
    place and is proved to reach the state or the error that the function gives. `Parse` runs
    the object over the input lines.
  - The Go parser attaches a node to its parent as soon as the node is pushed, then fills it in
    through a pointer. The model keeps a stack of open frames instead. A frame joins its parent
    when it is closed by `Pop`, or by `Close` at the end of the input. Nothing is added to a
    parent while a frame above it is open, so both give the same tree, unclosed blocks included.
- **`NoteParseLines`, `NoteParseRuns`, `NoteParseScan`, `NoteParseHTML`**: what a single line
  does, what a run of lines and a whole parse do, the inline scanner, and HTML capture.
- **`NoteRender`** (`render.dfy`): the renderer, in two forms.
  - `RState` holds the output written so far, `indentCount` and `inlining`. `PreStep` and
    `PostStep` are the two callbacks, and `None` stands for a panic. `Rendered` is the fold of
    the callbacks over the walk.
  - The class `RenderState` has the same fields. Its methods keep the counted loops of
    `indent`, `openBlock` and `closeBlock`, and are proved against the functions.
- **`NoteRenderWalk`**: indentation balance, panics, and inline output.
- **`NoteShape`, `NoteRenderLines`, `NoteParseBack`, `NoteRoundTrip`**: the round trip. For
  documents whose bodies are plain texts and blocks, with no two texts next to each other, the
  lines the renderer writes parse back to the same document.
- **`GoText`**: the Go library routines the engine calls.
  - `strings.TrimSpace`, `strings.Fields` and `strings.ReplaceAll`.
  - `fmt`'s `%d` and `strconv.ParseInt`.
  - The line splitting of `bufio.Scanner`.

Input is a sequence of lines. Output is a string. The inputs that crash the Go process are
modelled as error results:

| crash in the Go code | error result in the model |
|---|---|
| a too-short argument list | `MissingArguments` |
| a non-numeric header level | `BadHeaderLevel` |
| a frame operation on an empty stack | `StackUnderflow` |

## Model

| member | source | states |
|---|---|---|
| NoteNode.Debug | components/notes/note/node.go:65-82 | a document is `doc:` and its symbol, text and type separated by commas; a header is `header:` and its level in decimal; a list is `list:` and its type; a text is `text:` and its text; italics and list items are their bare type names; every other kind gives `no debug info available` |
| NoteNode.DebugNamesKind | components/notes/note/node.go:65-82 | two described nodes with the same description are of the same kind, and two texts with the same description hold the same text |
| NoteNode.Walk | components/notes/note/node.go:187-197 | a walk visits the node with `pre` first and with `post` last |
| NoteNode.WalkWithUnfold | components/notes/note/node.go:187-197 | `Walk(pre, post)` calls `pre` on the node, then walks its children in order, then calls `post` on it |
| NoteNode.WalkAllUnfold | components/notes/note/node.go:193-195 | walking a list of children is walking the first one, then the rest from the state it left |
| NoteNode.ReplayAppend | components/notes/note/node.go:187-197 | running the callbacks over two visit sequences one after the other is running them over their concatenation |
| NoteNode.WalkOrders | components/notes/note/node.go:187-197 | the `pre` calls of a walk visit the tree in pre-order and the `post` calls in post-order, so every node gets one call of each |
| NoteNode.WalkAllOrders | components/notes/note/node.go:193-195 | the same for a list of children: pre-order and post-order of the forest, equally long |
| NoteNode.WalkBalanced | components/notes/note/node.go:187-197 | the `pre`/`post` calls of a walk form a balanced bracket sequence opened and closed by the root |
| NoteNode.WalkAllBalanced | components/notes/note/node.go:193-195 | the walks of a list of children form a sequence of balanced bracket sequences |
| NoteNode.CollectAssets | components/notes/note/node.go:199-210 | the walk's accumulator ends as what it held followed by `AssetPaths`, and `AssetPaths` of a node is its own image path or link ref followed by its children's asset paths |
| NoteNode.CollectChildAssets | components/notes/note/node.go:199-210 | the walks of a list of children append their asset paths to the accumulator, in order |
| NoteNode.AssetPathsInPreOrder | components/notes/note/node.go:199-210 | `AssetPaths` lists, in pre-order, the path of every image and the ref of every link, duplicates kept, and nothing for any other kind |
| NoteNode.ChildAssetsInPreOrder | components/notes/note/node.go:199-210 | the same for a list of children, over the forest's pre-order |
| NoteNode.CollectItems | components/notes/note/node.go:212-223 | the walk's counter ends increased by `Items`, and `Items` is one for a list item plus the children's counts |
| NoteNode.CollectChildItems | components/notes/note/node.go:212-223 | the walks of a list of children add their list items to the counter |
| NoteNode.ItemsCountsListItems | components/notes/note/node.go:212-223 | `Items` is the number of list-item nodes in the tree's pre-order, at every depth |
| NoteNode.ChildItemsCount | components/notes/note/node.go:212-223 | the same for a list of children |
| NoteDsl.Document | components/notes/note/dsl.go:3-13 | builds a document node with the given symbol, title and type and exactly the given children, in order |
| NoteDsl.DocumentItems | components/notes/note/dsl.go:3-13 | a document counts the list items of its children and is not one itself |
| NoteDsl.DocumentAssets | components/notes/note/dsl.go:3-13 | a document has no asset of its own: its asset paths are its children's |
| NoteDsl.Header | components/notes/note/dsl.go:15-21 | builds a header node of the given level over exactly the given children |
| NoteDsl.Text | components/notes/note/dsl.go:23-30 | builds a text leaf holding the given text, with no children |
| NoteDsl.TextWalk | components/notes/note/dsl.go:23-30 | the walk of a text leaf is one `pre` call and one `post` call on it |
| NoteDsl.TexInline | components/notes/note/dsl.go:32-40 | builds a tex node with display off whose only child is the text of the formula |
| NoteDsl.TexDisplay | components/notes/note/dsl.go:42-50 | builds a tex node with display on whose only child is the text of the formula |
| NoteDsl.TextItems | components/notes/note/dsl.go:52-95 | one list item per string, in order, each holding only the text of that string |
| NoteDsl.OrderedList | components/notes/note/dsl.go:52-69 | builds an ordered list whose children are the items of the strings, in order |
| NoteDsl.UnorderedList | components/notes/note/dsl.go:78-95 | builds an unordered list whose children are the items of the strings, in order |
| NoteDsl.ListItemsCount | components/notes/note/dsl.go:52-95 | a list built from `n` strings has `Items` equal to `n`, ordered or not |
| NoteDsl.TextItemsCount | components/notes/note/dsl.go:52-95 | the items built from `n` strings count `n` list items |
| NoteDsl.ListItem | components/notes/note/dsl.go:71-76 | builds a list item over exactly the given children |
| NoteDsl.ListItemCounts | components/notes/note/dsl.go:71-76 | a list item counts itself and every list item below it |
| NoteDsl.Italics | components/notes/note/dsl.go:97-104 | builds an italics node whose only child is the text |
| NoteDsl.Bold | components/notes/note/dsl.go:106-113 | builds a bold node whose only child is the text |
| NoteDsl.Quote | components/notes/note/dsl.go:115-122 | `Quote` gives the bold node of its text, which is not a quote node |
| NoteDsl.Section | components/notes/note/dsl.go:124-133 | builds a section with the given symbol and title over exactly the given children |
| NoteDsl.Image | components/notes/note/dsl.go:135-144 | builds an image leaf storing the symbol, title and path, with no children |
| NoteDsl.ImageAssets | components/notes/note/dsl.go:135-144 | the only asset path of an image leaf is its path |
| NoteDsl.VStack | components/notes/note/dsl.go:146-151 | builds a vertical stack over exactly the given children |
| NoteDsl.HStack | components/notes/note/dsl.go:153-158 | builds a horizontal stack over exactly the given children |
| NoteDsl.Paragraph | components/notes/note/dsl.go:160-167 | builds a paragraph whose only child is the text |
| NoteParse.Finish | components/notes/note/parse.go:169-173 | at the end of a line an open mode is an error, and otherwise the open span is added as exactly one more child |
| NoteParse.PState.Current | components/notes/note/parse.go:73-78 | there is no current type exactly when the stack is empty, and otherwise it is the type of the open frame |
| NoteParse.PState.AddChild | components/notes/note/parse.go:56-59 | succeeds exactly when a frame is open; it then appends the node to the open frame's children and changes nothing else |
| NoteParse.PState.Push | components/notes/note/parse.go:61-67 | the node becomes the open frame on top of the unchanged stack, and nothing else changes |
| NoteParse.PState.Pop | components/notes/note/parse.go:69-71 | succeeds exactly when a frame is open; it then removes exactly one frame and changes nothing else |
| NoteParse.PState.AppendHTML | components/notes/note/parse.go:193-195 | the line is appended to the lines of the open HTML node; the rest of the stack and state is unchanged and HTML capture stays valid |
| NoteParse.PState.AddChildren | components/notes/note/parse.go:174-177 | adding no nodes changes nothing; otherwise it succeeds exactly when a frame is open and appends the nodes, in order, to that frame's children |
| NoteParse.PState.ConsumeText | components/notes/note/parse.go:139-180 | the inline scanner changes only the frames, never the line count or the modes |
| NoteParse.PState.ConsumeLine | components/notes/note/parse.go:182-415 | a line that succeeds keeps the stack well-formed, adds one to the line count, blank lines included, and never sets `inTex` |
| NoteParse.PState.ConsumeTrimmed | components/notes/note/parse.go:197-415 | the handling of a trimmed line keeps the stack well-formed and changes neither the line count nor `inTex` |
| NoteParse.PState.Command | components/notes/note/parse.go:227-403 | a dot command that succeeds keeps the stack well-formed, counts no line and leaves `inTex` alone |
| NoteParse.PState.Switch | components/notes/note/parse.go:234-400 | the command switch keeps the stack well-formed, counts no line and leaves `inTex` alone |
| NoteParse.PState.Run | components/notes/note/parse.go:417-428 | a run that succeeds counts exactly its lines, keeps the stack well-formed and leaves `inTex` alone |
| NoteParse.ParseState.constructor | components/notes/note/parse.go:34-38 | a new parser holds only the untyped root frame, at line zero, in neither mode |
| NoteParse.ParseState.AddChild | components/notes/note/parse.go:56-59 | the fields end as `PState.AddChild` says, or the method reports its error |
| NoteParse.ParseState.Push | components/notes/note/parse.go:61-67 | the new node becomes the open frame |
| NoteParse.ParseState.Pop | components/notes/note/parse.go:69-71 | the fields end as `PState.Pop` says, or the method reports its error |
| NoteParse.ParseState.ConsumeText | components/notes/note/parse.go:139-180 | the loop over the characters and then over the finished spans gives the state or the error of `PState.ConsumeText` |
| NoteParse.ParseState.ConsumeLine | components/notes/note/parse.go:182-196 | the fields end as `PState.ConsumeLine` says, or the method reports its error |
| NoteParse.ParseState.ConsumeTrimmed | components/notes/note/parse.go:197-415 | the fields end as `PState.ConsumeTrimmed` says, or the method reports its error |
| NoteParse.ParseState.Command | components/notes/note/parse.go:227-403 | the fields end as `PState.Command` says, or the method reports its error |
| NoteParse.ParseState.Switch | components/notes/note/parse.go:234-400 | the fields end as `PState.Switch` says, or the method reports its error |
| NoteParse.ParseState.Run | components/notes/note/parse.go:417-428 | the loop over the lines stops at the first error and otherwise reaches the state `PState.Run` gives |
| NoteParse.Parse | components/notes/note/parse.go:34-46 | the parser object gives `Parsed`: the first child of the root frame, or an empty article when there is none, or the first error |
| NoteParseLines.TrimmedLine | components/notes/note/parse.go:182-200 | outside HTML capture a line is counted and then handled by its trimmed text alone |
| NoteParseLines.CloseLine | components/notes/note/parse.go:201-204 | `}` succeeds exactly when a frame is open and then closes exactly one frame |
| NoteParseLines.CommentLine | components/notes/note/parse.go:219-225 | `//x` appends a comment holding the text `x` to the open frame and opens no frame |
| NoteParseLines.LoneDot | components/notes/note/parse.go:227-233 | a lone `.` is appended as the text `.` |
| NoteParseLines.RawLine | components/notes/note/parse.go:405-408 | under a tex or equation frame a content line is appended whole, as one text, without inline scanning |
| NoteParseLines.ScannedLine | components/notes/note/parse.go:409-412 | elsewhere a content line adds the scanner's spans, or fails with an error naming the line number, the line and the open mode |
| NoteParseLines.CommandLine | components/notes/note/parse.go:227-234 | a dot line with at least one field is handled by the switch on its fields |
| NoteParseLines.UnknownSwitch | components/notes/note/parse.go:398-399 | a command name outside the known set fails with that name and the current line number |
| NoteParseLines.UnknownTrimmed | components/notes/note/parse.go:227-234 | a trimmed line naming an unknown command fails with that name |
| NoteParseLines.ImageArity | components/notes/note/parse.go:341-352 | `img` and `image` open an image exactly when there are four fields, with the title's dashes made spaces; anything else fails with an error that carries no line number |
| NoteParseLines.LinkArity | components/notes/note/parse.go:362-373 | `link` opens a link exactly when there are three fields; anything else fails with an error that carries no line number |
| NoteParseLines.DocDefaultsToArticle | components/notes/note/parse.go:241-252 | `.doc` with a symbol and a title and no type opens an article with the title's dashes made spaces |
| NoteParseLines.TitledCommandLine | components/notes/note/parse.go:265-272 | the commands with a symbol and a title fail on fewer than three fields and otherwise open their block, with the title's dashes made spaces |
| NoteParseLines.HeaderLine | components/notes/note/parse.go:253-264 | `.header` needs a level field that `strconv.ParseInt` accepts and opens a header of that level |
| NoteParseRuns.RunAppend | components/notes/note/parse.go:417-428 | running two pieces of input is running the first, stopping at its error, and then the second from where it left off |
| NoteParseRuns.BlankLine | components/notes/note/parse.go:183-200 | a line that is empty once trimmed changes only the line count |
| NoteParseRuns.BlankRun | components/notes/note/parse.go:183-200 | blank lines change only the line count, by their number |
| NoteParseRuns.BlankInput | components/notes/note/parse.go:34-46 | input with no visible character parses to an empty article |
| NoteParseRuns.RunStops | components/notes/note/parse.go:417-428 | a line that fails stops the run with its own error |
| NoteParseRuns.ParseStops | components/notes/note/parse.go:34-40 | when the line after a prefix fails, the parse fails with that line's error, whatever follows |
| NoteParseRuns.DollarsAlwaysOpen | components/notes/note/parse.go:205-217 | after any input, a `$$` line opens a new display tex block, because `inTex` is never set |
| NoteParseRuns.UnknownCommandStep | components/notes/note/parse.go:183-234 | a line naming an unknown command fails with the number of that line |
| NoteParseRuns.UnknownCommandLine | components/notes/note/parse.go:398-399 | an unknown command after `k` lines fails the parse with line number `k + 1` and the command's name |
| NoteParseScan.Delimiters | components/notes/note/parse.go:94-105 | exactly `$`, `*` and `_` select a mode, and only `$` selects tex; every other character is plain |
| NoteParseScan.LiteralRun | components/notes/note/parse.go:164-166 | ordinary characters only grow the open span |
| NoteParseScan.OpenDelimiter | components/notes/note/parse.go:157-163 | in plain text a delimiter finishes the text so far, even an empty one, and opens its mode |
| NoteParseScan.CloseDelimiter | components/notes/note/parse.go:149-153 | a delimiter of the open mode finishes its span and returns to plain text |
| NoteParseScan.DelimitedSpan | components/notes/note/parse.go:139-180 | a span between two plain runs scans to three children: the text before, the span, and the text after, each present even when empty |
| NoteParseScan.OpenLine | components/notes/note/parse.go:142-163 | the plain text at the start of a line, up to an opening delimiter, becomes the first child |
| NoteParseScan.PlainLineEnd | components/notes/note/parse.go:169-173 | plain text up to the end of the line becomes the last child |
| NoteParseScan.BoldWord | components/notes/note/parse.go:161-173 | `*a*` scans to an empty text, the bold span of `a` and another empty text |
| NoteParseScan.TexKeepsDelimiters | components/notes/note/parse.go:155-159 | inside `$…$` the bold and italics delimiters are ordinary characters |
| NoteParseScan.DollarPairSkipped | components/notes/note/parse.go:145-148 | only the first `$` of a `$$` pair is skipped; the second one is a delimiter |
| NoteParseScan.SpanNodeIsSpan | components/notes/note/parse.go:107-132 | the open span becomes a text, or a bold, italics or inline tex node with exactly one text child |
| NoteParseScan.ScanShapes | components/notes/note/parse.go:142-173 | the scan keeps the spans finished so far; on success every child is a span and the last child is a text |
| NoteParseScan.ScannedSpans | components/notes/note/parse.go:139-180 | a line that scans successfully gives a non-empty list of spans ending with a text |
| NoteParseScan.StepToggle | components/notes/note/parse.go:142-166 | one character moves the scanner to the next mode and finishes one span exactly when it toggles: a delimiter that is not the first of a `$$` and, inside tex, only a `$` |
| NoteParseScan.ToggleCount | components/notes/note/parse.go:142-173 | from any scanner state, a successful scan adds one span per toggling delimiter, plus the last open span |
| NoteParseScan.SpansPerToggle | components/notes/note/parse.go:139-180 | every line that scans successfully has one child more than it has toggling delimiters, whatever `$` it holds |
| NoteParseScan.TogglesSwitches | components/notes/note/parse.go:142-166 | without `$`, outside tex, the toggling delimiters are exactly the `*` and `_` characters |
| NoteParseScan.SpansPerSwitch | components/notes/note/parse.go:139-180 | a line with no `$` that scans successfully has as many children as it has `*` and `_`, plus one |
| NoteParseScan.PlainLineScan | components/notes/note/parse.go:139-180 | a line with no delimiter scans to one text holding the whole line |
| NoteParseHTML.HTMLOpen | components/notes/note/parse.go:234-240 | `.html` opens an empty HTML frame and starts the capture |
| NoteParseHTML.HTMLLine | components/notes/note/parse.go:184-196 | during the capture a line that does not trim to `}}}` is appended untrimmed to the HTML frame, and an empty line is dropped, but both are counted |
| NoteParseHTML.HTMLEnd | components/notes/note/parse.go:188-192 | a line that trims to `}}}` ends the capture and closes the HTML frame |
| NoteParseHTML.HTMLRun | components/notes/note/parse.go:184-196 | a run of captured lines appends the non-empty ones, in order, and counts them all |
| NoteParseHTML.HTMLBlock | components/notes/note/parse.go:184-240 | `.html`, some lines and `}}}` attach one HTML node with the non-empty lines, untrimmed, to the frame that was open, then leave capture mode |
| NoteParseHTML.HTMLCaptured | components/notes/note/parse.go:184-196 | the part of `HTMLBlock` after the `.html` line |
| NoteRender.Repeat | components/notes/note/render.go:15-19 | the counting loops write `k` copies, or none when `k` is not positive |
| NoteRender.RepeatCopies | components/notes/note/render.go:15-19 | character `i` of the `k` copies is character `i` modulo the length of `s` |
| NoteRender.UnderscoreIfNot | components/notes/note/render.go:297-302 | the empty field becomes `_` and any other is kept unchanged, so the result is never empty |
| NoteRender.Opener | components/notes/note/render.go:76-217 | every block kind has a command line starting with a dot; HTML, documents, comments, inline nodes, inline tex and the kinds the renderer has no case for have none |
| NoteRender.RenderState.constructor | components/notes/note/render.go:331-335 | a new renderer has written nothing, is at indentation zero and is not inlining |
| NoteRender.RenderState.Printf | components/notes/note/render.go:21-23 | a format with no `%` is written as it is |
| NoteRender.RenderState.Nl | components/notes/note/render.go:47-49 | writes a newline |
| NoteRender.RenderState.Indent | components/notes/note/render.go:15-19 | the loop writes two spaces per indentation level |
| NoteRender.RenderState.Braces | components/notes/note/render.go:27-29 | the loop writes `k` braces |
| NoteRender.RenderState.OpenBlock | components/notes/note/render.go:25-32 | writes a space, `k` opening braces and a newline, and goes one level deeper |
| NoteRender.RenderState.CloseBlock | components/notes/note/render.go:34-45 | goes one level back, ends a pending inline line, then writes `k` closing braces on a line of their own at that indentation |
| NoteRender.RenderState.Command | components/notes/note/render.go:64-291 | a command line built from the node's fields is written as it is |
| NoteRender.RenderState.Pre | components/notes/note/render.go:51-295 | the `pre` callback panics exactly when `PreStep` does and otherwise reaches its state |
| NoteRender.RenderState.PreHTML | components/notes/note/render.go:53-63 | HTML panics while inlining, and otherwise writes `.html {{{` and each of its lines followed by a newline |
| NoteRender.RenderState.WriteLines | components/notes/note/render.go:59-62 | each line and then a newline |
| NoteRender.RenderState.PreLine | components/notes/note/render.go:64-75 | the document line, the tex openings and the comment marker, as `PreStep` gives them |
| NoteRender.RenderState.PreInline | components/notes/note/render.go:241-258 | text, bold and italics are written on the current line, as `PreStep` gives them |
| NoteRender.RenderState.PreBlock | components/notes/note/render.go:76-217 | a kind that opens a one-brace block writes it, and a kind with no case panics |
| NoteRender.RenderState.OpenCommand | components/notes/note/render.go:76-96 | a block opening ends a pending inline line, writes the optional blank line, the indentation, the command and one brace |
| NoteRender.RenderState.Post | components/notes/note/render.go:304-329 | the `post` callback panics exactly when `PostStep` does and otherwise reaches its state |
| NoteRender.RenderState.PostLine | components/notes/note/render.go:306-320 | HTML closes three braces, a document writes a newline, tex closes its block or writes `$` |
| NoteRender.RenderState.PostInline | components/notes/note/render.go:321-325 | text and comments write nothing; bold and italics write their closing marker |
| NoteRender.RenderState.PostBlock | components/notes/note/render.go:310-327 | a block closes one brace; a kind with no case panics |
| NoteRender.RenderState.WalkNode | components/notes/note/render.go:331-335 | the walk with the two callbacks stops at the first panic and otherwise reaches the state of `RenderFrom` |
| NoteRender.RenderState.WalkChildren | components/notes/note/node.go:193-195 | the children's walks, one after another, stop at the first panic |
| NoteRender.Render | components/notes/note/render.go:331-335 | the renderer object from its zero state writes exactly `Rendered`, or panics exactly when `Rendered` is `None` |
| NoteRender.RenderNone | components/notes/note/render.go:331-335 | after a panic the rest of the walk does nothing |
| NoteRender.RestAfterPanic | components/notes/note/render.go:331-335 | a child whose walk panics makes the walk of all the children panic |
| NoteRenderWalk.PreNests | components/notes/note/render.go:51-295 | `pre` only appends to the output and either goes exactly one level deeper or keeps the indentation, as the kind says |
| NoteRenderWalk.BlockShape | components/notes/note/render.go:25-32 | a block opening writes the newline of a pending inline line, the optional blank line, the indentation, the command and ` {`, then goes one level deeper and stops inlining |
| NoteRenderWalk.PostNests | components/notes/note/render.go:304-329 | `post` only appends to the output and takes back exactly the level `pre` added |
| NoteRenderWalk.RenderNests | components/notes/note/render.go:331-335 | a walk that does not panic ends at the indentation it started from and only appends to what was written |
| NoteRenderWalk.RenderAllNests | components/notes/note/render.go:331-335 | the same for a list of children |
| NoteRenderWalk.PanicsExactly | components/notes/note/render.go:292-293 | `pre` panics exactly on the kinds it has no case for and on HTML while inlining; `post` panics exactly on the kinds it has no case for |
| NoteRenderWalk.StuckRender | components/notes/note/render.go:326-327 | a node of such a kind anywhere in the tree makes the whole render panic, whatever the state |
| NoteRenderWalk.StuckRenderAll | components/notes/note/render.go:326-327 | one such node among a list of children makes their render panic |
| NoteRenderWalk.HTMLAfterText | components/notes/note/render.go:53-56 | an HTML node right after text on the same line panics |
| NoteRenderWalk.HTMLInline | components/notes/note/render.go:53-56 | an HTML node met while inlining panics |
| NoteRenderWalk.TextRender | components/notes/note/render.go:241-246 | a text leaf writes the indentation only when it starts a line, then its text, and leaves the line open |
| NoteRenderWalk.InlineRender | components/notes/note/render.go:241-258 | a text, or a bold or italics span around one text, writes its marker, its text and its marker where the line is, indented only when it starts the line |
| NoteRenderWalk.TexInlineRender | components/notes/note/render.go:218-234 | inline tex writes `$`, its text and `$`; when it starts a line, it first writes a new line and then the indentation |
| NoteRenderWalk.InlineRun | components/notes/note/render.go:241-258 | inline nodes one after another are written on one line, indented once |
| NoteRenderWalk.CommentRender | components/notes/note/render.go:235-240 | a comment ends a pending line and writes `//` with no indentation; its text then starts the line, so the indentation comes between `//` and the text |
| NoteRenderLines.HeadRender | components/notes/note/render.go:76-217 | a block's `pre` ends a pending inline line, writes its opening lines and goes one level deeper |
| NoteRenderLines.CloseRender | components/notes/note/render.go:310-314 | a block's `post` ends a pending inline line and writes its brace one level back |
| NoteRenderLines.RenderBlock | components/notes/note/render.go:331-335 | a block ends a pending inline line, writes exactly its lines and leaves the depth as it was |
| NoteRenderLines.RenderPart | components/notes/note/render.go:241-246 | a plain text is written on one line at the current depth and leaves that line open; a block is written as its lines |
| NoteRenderLines.RenderChildren | components/notes/note/render.go:331-335 | texts and blocks one after another are written one after another; the line of a last text is left open |
| NoteRenderLines.RenderArticle | components/notes/note/render.go:64-75 | an article is written as its document line, its body and a final new line, which is an empty line unless the body ends in text |
| NoteParseBack.LabelOfTitle | components/notes/note/render.go:93 | a title written with its spaces made dashes is one field, and the parser's undashing gives it back |
| NoteParseBack.OpenerWords | components/notes/note/render.go:76-217 | the command line of a round-trip block is a dot followed by its fields |
| NoteParseBack.CommandStep | components/notes/note/parse.go:234-400 | an indented command line the renderer writes reopens the block it came from, whatever the indentation |
| NoteParseBack.TextStep | components/notes/note/parse.go:409-412 | an indented plain text line becomes one text child of the open frame |
| NoteParseBack.CloseStep | components/notes/note/parse.go:201-204 | an indented closing brace closes the open frame onto the one below it |
| NoteParseBack.HeadParse | components/notes/note/parse.go:182-415 | a block's opening lines open its frame, with no children yet |
| NoteParseBack.ParseBlock | components/notes/note/parse.go:417-428 | the lines of a block, read in any frame, add exactly that block to the frame |
| NoteParseBack.ParsePart | components/notes/note/parse.go:409-412 | the line of a plain text or the lines of a block, read in any frame, add exactly that node to the frame |
| NoteParseBack.ParseChildren | components/notes/note/parse.go:417-428 | the lines of texts and blocks one after another add them to the frame in order |
| NoteParseBack.DocStep | components/notes/note/parse.go:241-252 | the document line opens the article on the root frame |
| NoteParseBack.ArticleRun | components/notes/note/parse.go:417-428 | an article's lines leave exactly the root frame and the article open, every line counted |
| NoteParseBack.ReadArticle | components/notes/note/parse.go:34-46 | `Parsed` gives back every article from the lines the renderer writes for it |
| NoteParseBack.ImageLineRejected | components/notes/note/parse.go:341-344 | the command line the renderer writes for an image ends with ` {`, so it has five fields where the parser demands four, and fails |
| NoteParseBack.LinkLineRejected | components/notes/note/parse.go:362-365 | the same for a link: four fields where the parser demands three |
| NoteRoundTrip.ArticlePlain | components/notes/note/render.go:331-335 | every line written for an article is a complete line with no line break or trailing carriage return in it |
| NoteRoundTrip.ArticlePrintable | components/notes/note/render.go:241-246 | an article has no `%` in any text the renderer passes as a format |
| NoteRoundTrip.RoundTrip | components/notes/note/render.go:331-335 | rendering an article never panics, and its text, split into lines as `bufio.Scanner` splits it and then parsed, is the article again; an article is a document whose bodies, its own included, are plain texts and blocks with no two texts next to each other |
| NoteRoundTrip.RenderThenParse | components/notes/note/parse.go:34-46 | the renderer object and then the parser object give every article back |
| GoText.TrimSpaceEnds | components/notes/note/parse.go:197 | the trimmed line has no white space at either end |
| GoText.TrimLeftSpaces | components/notes/note/parse.go:197 | the trimming drops only white space from the front and keeps a suffix that starts visibly |
| GoText.TrimRightSpaces | components/notes/note/parse.go:197 | the trimming drops only white space from the back and keeps a prefix that ends visibly |
| GoText.FieldsAreWords | components/notes/note/parse.go:228 | every field is a non-empty word with no white space |
| GoText.FieldsOfUnwords | components/notes/note/parse.go:228 | splitting words joined by single spaces gives the words back |
| GoText.DashRoundTrip | components/notes/note/parse.go:249 | turning spaces into dashes and back is the identity on dash-free text |
| GoText.ParseIntOfIntToString | components/notes/note/parse.go:254 | `strconv.ParseInt` reads back the decimal text of any 64-bit integer |
| GoText.ParseInt | components/notes/note/parse.go:254 | a level that parses fits in 64 bits |
| GoText.SplitJoinLines | components/notes/note/parse.go:418-419 | splitting a text made of complete lines gives the lines back |

## Left out

- `MustParse`, `MustParseFromFile` and the `bufio.Scanner` loop of `run`, with its read errors.
  They are file and reader I/O. The model takes the input as a sequence of lines, and
  `GoText.SplitLines` stands for the scanner's line splitting where the round trip needs it.
- The `io.Writer` of `Render`, its write errors, and the partial output a panic leaves behind.
  The model returns all the output or, on a panic, `None`.
- NoteRender.Render: requires that no text or HTML line contains `%`. The Go code passes those
  strings to `fmt.Fprintf` as the format, and the model does not interpret format verbs.
- NoteRender.RenderState.Printf: writes its format literally and requires that it contain no `%`,
  for the same reason.
- NoteRender.RenderState.WriteLines: requires lines without `%`, for the same reason.
- Error messages are the `ParseError` variants, not formatted strings. The `md.Parse:` prefix that
  `Parse` puts in front of every message is not modelled.
- The process crashes, `log.Fatal` on a bad header level and the index panics on short argument
  lists or an empty stack, are the error variants `BadHeaderLevel`, `MissingArguments` and
  `StackUnderflow`. The model does not stop the process.
- Unicode and UTF-8. Strings are sequences of characters. `IsSpace` is a fixed set of white space
  characters, and the scanner's one character of lookahead, `text[i+1]`, is read as a character,
  not a byte. For the lookahead the two always agree: it only asks whether the next unit is
  a `$`, and no byte of a multi-byte UTF-8 character is below 0x80.
- `inTex` is never set to true in the code, so the branch at parse.go:206-209 that would let
  `$$` close an open display block is dead. The model keeps the field and the branch, and proves
  that `$$` always opens a new block (`NoteParseRuns.DollarsAlwaysOpen`).
- The `img` and `link` arity errors (parse.go:343, parse.go:364) carry no line number, unlike the
  unknown-command and inline errors (parse.go:399, parse.go:411). The model's `MalformedImage`
  and `MalformedLink` carry none either.
- The round trip covers only documents of paragraph, list item, stack, display tex, equation,
  section-like, header and list blocks, each holding plain texts and further such blocks, with no
  two texts next to each other: two adjacent texts are written on one line and read back as one.
  Images and links do not survive it (`NoteParseBack.ImageLineRejected`,
  `NoteParseBack.LinkLineRejected`). HTML blocks, comments and inline markup are outside it.
- Header levels are unbounded integers in the model, where Go's `HeaderInfo.Level` is a 64-bit
  `int`. Only headers built directly with `NoteDsl.Header` can exceed that range: the parser
  reads levels with `strconv.ParseInt(arg, 10, 64)`, which bounds them (`GoText.ParseInt`).
- `NodeTable` and `NodeTableRow` have the same tag, `table`, so the model has one kind for both.
- The rest of the repository, the user interface and the network clients, is not part of this
  model.
