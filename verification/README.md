# webcons in Dafny

A model of the core of webcons, a command console that runs in a web page.

The user types into an editable line. Enter commits the line: its first token names a registered command, which is loaded. Lines typed after that are collected as the command's input until end of file. The command then runs against an API that reads that input one character at a time and prints on the line. The model covers these parts:

- **`LineEditing`** — the editable line `IoLine` (`dependencies/h_wcons.js`).
  - Its state is the characters shown, a cursor, and a first editable index that protects the prompt.
  - The value `Line` and functions over it (`WithChar`, `Printed`, `Prompted`, `WithoutCharBeforeCursor`, the cursor moves) say what each operation does.
  - The class `IoLine` performs the same operations in place and is proved against them.
- **`ParseToolkit`** — the tokenizer (`dependencies/h_parsetk.js`).
  - Each scan is a method with the source's loop, proved equal to a function.
  - A small theory of tokens (maximal runs of non-spaces, counted where they begin) states what `findTokenIndex`, `findToken` and `peekAfterToken` find.
- **`ConsoleInput`** — the parse cursor `Input`: a string and an index, where -1 means exhausted.
- **`CommandRegistry`** and **`CommandInterpreter`** cover three things:
  - the command list `Commands`;
  - the one-slot loader `Interpreter`;
  - the command API `CommandApi` (`getc`, `putc`, `eof`).
- **`Console`** — the key-down listener of the console as a transition of the line and the interpreter:
  - end of file;
  - typing;
  - Enter, with or without a loaded command, including the "dio" request for the page's input and output fields;
  - the editing keys.
- **`KeyboardToolkit`** — the key classifiers (`dependencies/h_keyboardtk.js`).
- **`BalanceCheck`** — the two `chkbal` commands.
- **`SoftwareTools`** — `wordcount`, `linecount` and `detab`. Each reads codes through `CommandApi.Getc` and returns what it emits, in order.

JavaScript details are written out:

- An out-of-range `str[i]` is `undefined`. It is neither a space nor any character, and `"" + undefined` appends the text "undefined".
- `null + s` is the text "null" followed by `s`.
- Unwritten entries of the `tabstops` table read as false.
- Evaluating with no command loaded throws. This aborts the rest of the listener, so no prompt is printed.

### Where the code and its doc comments disagree

The model follows the code in each case.

- **peekToken discards its skipSpaces result.** Its doc comment (`dependencies/h_parsetk.js:51-57`) promises the first token found from `start`. The code calls `skipSpaces` but throws that result away (`dependencies/h_parsetk.js:64`), so a start on a space gives "". Its early return at lines 60-62 returns nothing, so a start past the end still runs the loop and gives "".
- **findTokenIndex wraps.** Its doc comment (`dependencies/h_parsetk.js:73-84`) describes the index of the n-th token; for n greater than the number of tokens the code does not stop. Once `skipSpaces` returns -1, `skipNonSpaces(str, -1)` rescans from index 0 and the walk starts over. So `findToken("a b", 4, 0)` is `"b"` and `peekAfterToken("a b", 3)` is `"b"`. See `ParseToolkit.TokenWalkWraps`. Asking for exactly one token more than exist gives "" (`ParseToolkit.AfterLastToken`).

## Model

| member | source | states |
|---|---|---|
| ParseToolkit.Undefineds | dependencies/h_parsetk.js:66-69 | the text of n undefined reads appended to a token is 9n characters and holds no space |
| ParseToolkit.NextNonSpace | dependencies/h_parsetk.js:23-27 | the first non-space at or after i (or the end): everything skipped is a space |
| ParseToolkit.NextSpace | dependencies/h_parsetk.js:44-48 | the first space at or after i (or the end): everything skipped is a non-space |
| ParseToolkit.SkipSpacesIndex | dependencies/h_parsetk.js:19-28 | -1 exactly when start is past the end (or is the sentinel -1); from a start inside the string, the result is the first non-space at or after it, or the length, with only spaces in between; a negative start comes back unchanged |
| ParseToolkit.SkipSpaces | dependencies/h_parsetk.js:19-28 | the source's while loop returns SkipSpacesIndex |
| ParseToolkit.SkipNonSpacesIndex | dependencies/h_parsetk.js:40-49 | -1 exactly when start is past the end; otherwise the first space at or after start (at or after 0 for a negative start), or the length, with only non-spaces in between |
| ParseToolkit.SkipNonSpaces | dependencies/h_parsetk.js:40-49 | the source's while loop returns SkipNonSpacesIndex |
| ParseToolkit.NextNonSpaceUnique | dependencies/h_parsetk.js:24-26 | any index that ends a run of spaces at a non-space or the end is the one the scan finds |
| ParseToolkit.NextSpaceUnique | dependencies/h_parsetk.js:45-47 | any index that ends a run of non-spaces at a space or the end is the one the scan finds |
| ParseToolkit.PeekedToken | dependencies/h_parsetk.js:59-71 | the token never holds a space; it is "" at or past the end and when the start holds a space; inside the string it is the maximal space-free run that begins exactly at start |
| ParseToolkit.PeekToken | dependencies/h_parsetk.js:59-71 | the accumulating loop (early return and skipSpaces result discarded, as written) returns PeekedToken, including the "undefined" texts for a negative start |
| ParseToolkit.TokenWalk | dependencies/h_parsetk.js:89-97 | the loop's result stays -1 or within 0..length when it starts there |
| ParseToolkit.TokenIndex | dependencies/h_parsetk.js:85-98 | -1 when start is past the end; from a non-negative start the result is -1 or within 0..length |
| ParseToolkit.FindTokenIndex | dependencies/h_parsetk.js:85-98 | the for loop alternating skipSpaces and skipNonSpaces returns TokenIndex |
| ParseToolkit.FoundToken | dependencies/h_parsetk.js:121-131 | never holds a space; "" when start is past the end or the index is -1 |
| ParseToolkit.FindToken | dependencies/h_parsetk.js:121-131 | returns FoundToken |
| ParseToolkit.AfterToken | dependencies/h_parsetk.js:149-158 | always a suffix of str; "" for the empty string |
| ParseToolkit.PeekAfterToken | dependencies/h_parsetk.js:149-158 | returns AfterToken |
| ParseToolkit.TokensBefore | dependencies/h_parsetk.js:73-81 | no more tokens begin before hi than there are positions before it |
| ParseToolkit.TokensBeforeMonotone | dependencies/h_parsetk.js:73-81 | the count of tokens begun never decreases along the string |
| ParseToolkit.SpacesBeginNoToken | dependencies/h_parsetk.js:92 | a run of spaces begins no token |
| ParseToolkit.RunBeginsOneToken | dependencies/h_parsetk.js:93 | a space-free run that begins a token holds exactly one token beginning |
| ParseToolkit.NextTokenStart | dependencies/h_parsetk.js:91-94 | after the k-th token, skipSpaces lands where token k+1 begins, or at the end when there is none |
| ParseToolkit.EndOfTokenCount | dependencies/h_parsetk.js:91-94 | after k turns, the space index stands after exactly k tokens, on a space or the end |
| ParseToolkit.WalkFindsTokens | dependencies/h_parsetk.js:89-97 | each turn of the loop moves nonSpace to the start of the next token |
| ParseToolkit.WalkPastLastToken | dependencies/h_parsetk.js:89-97 | one turn more than there are tokens lands on -1 or the end |
| ParseToolkit.FindTokenIndexFromStart | dependencies/h_parsetk.js:73-98 | for 1 <= n <= the number of tokens, findTokenIndex(str, n, 0) is where a token begins with exactly n-1 tokens before it |
| ParseToolkit.FindTokenFromStart | dependencies/h_parsetk.js:100-131 | findToken(str, n, 0) is the n-th token: non-empty, a maximal space-free run beginning there |
| ParseToolkit.AfterTokenStartsAtNextToken | dependencies/h_parsetk.js:133-158 | for n below the number of tokens, peekAfterToken(str, n) is non-empty and starts where token n+1 begins |
| ParseToolkit.AfterLastToken | dependencies/h_parsetk.js:149-158 | past the last token nothing is left |
| ParseToolkit.FindTokenExamples | dependencies/h_parsetk.js:109-117 | the documented examples: "psum" for (1, 7) and "dolor" for (2, 7) on "Lorem ipsum dolor sit amet" |
| ParseToolkit.LoremSpaceScans | dependencies/h_parsetk.js:19-28 | helper of FindTokenExamples and PeekAfterTokenExamples: where skipSpaces stops in the doc comment's example string |
| ParseToolkit.LoremFirstTokenScans | dependencies/h_parsetk.js:40-49 | helper of FindTokenExamples and PeekAfterTokenExamples: where skipNonSpaces stops in the first token of the example string |
| ParseToolkit.LoremLaterTokenScans | dependencies/h_parsetk.js:40-49 | helper of FindTokenExamples and PeekAfterTokenExamples: where skipNonSpaces stops in the second and third tokens |
| ParseToolkit.LoremScans | dependencies/h_parsetk.js:109-117 | helper of FindTokenExamples and PeekAfterTokenExamples: all the scan results the two examples go through |
| ParseToolkit.PeekAfterTokenExamples | dependencies/h_parsetk.js:141-147 | the documented examples: the whole string for 0, "ipsum dolor sit amet" for 1, "dolor sit amet" for 2 |
| ParseToolkit.TokenWalkWraps | dependencies/h_parsetk.js:85-98 | "a b" has two tokens, yet asking for the 4th token gives "b" and the text after the 3rd is "b": the walk wraps round |
| KeyboardToolkit.IsVisibleChar | dependencies/h_keyboardtk.js:24-28 | isVisibleChar: a label of length 1 whose code lies in 33..126 (see VisibleCharIsOneNonSpace) |
| KeyboardToolkit.IsSpace | dependencies/h_keyboardtk.js:29-32 | isSpace: `which` is 32 |
| KeyboardToolkit.IsEnter | dependencies/h_keyboardtk.js:33-36 | isEnter: `which` is 13 |
| KeyboardToolkit.IsArrowLeft | dependencies/h_keyboardtk.js:37-40 | isArrowLeft: `which` is 37 |
| KeyboardToolkit.IsArrowRight | dependencies/h_keyboardtk.js:41-44 | isArrowRight: `which` is 39 |
| KeyboardToolkit.IsBackspace | dependencies/h_keyboardtk.js:45-48 | isBackspace: `which` is 8 |
| KeyboardToolkit.IsEnd | dependencies/h_keyboardtk.js:49-52 | isEnd: `which` is 35 |
| KeyboardToolkit.IsHome | dependencies/h_keyboardtk.js:53-56 | isHome: `which` is 36 (exclusivity of the seven in CodeClassesExclusive) |
| KeyboardToolkit.CodeClassesExclusive | dependencies/h_keyboardtk.js:29-56 | at most one of isSpace, isEnter, isArrowLeft, isArrowRight, isBackspace, isEnd, isHome holds, and one holds exactly when `which` is one of 32, 13, 37, 39, 8, 35, 36 |
| KeyboardToolkit.VisibleCharIsOneNonSpace | dependencies/h_keyboardtk.js:24-28 | a visible char is one character that is not a space, decided by the label alone |
| KeyboardToolkit.SpaceAndHomeNotVisible | dependencies/h_keyboardtk.js:21-28 | space is not visible; Home (code 36, like '$') is not visible because its label is longer than one; '$' is visible |
| LineEditing.InsertedTimesAtCursor | dependencies/h_wcons.js:312-316 | addNTimes puts n copies of c before the cursor, moves the cursor n on, keeps the boundary and the invariant |
| LineEditing.AddOrdinaryChar | dependencies/h_wcons.js:222-231 | an ordinary char is inserted at the cursor; chars before stay, chars after shift by one, cursor + 1, boundary unchanged, invariant kept |
| LineEditing.AddTab | dependencies/h_wcons.js:227-230 | a tab inserts four spaces and the tab at the cursor; cursor + 5 |
| LineEditing.AddNewline | dependencies/h_wcons.js:223-226 | a newline leaves the line holding only "\n" with cursor 1 and boundary 0, whatever it held |
| LineEditing.WithCharKeepsValid | dependencies/h_wcons.js:222-231 | addChar keeps firstEditable <= cursor <= length; except for a newline, the prompt is untouched |
| LineEditing.PrintedKeepsValid | dependencies/h_wcons.js:233-238 | print keeps the invariant |
| LineEditing.WithCharAtEnd | dependencies/h_wcons.js:222-231 | at the end of the line addChar appends the char (a tab as four spaces and the tab) and stays at the end |
| LineEditing.PrintedAtEnd | dependencies/h_wcons.js:233-238 | printing a newline-free s at the end appends exactly its expansion |
| LineEditing.ExpandedCons | dependencies/h_wcons.js:227-230 | the expansion of typed text is the expansion of its first char followed by the rest |
| LineEditing.PrintedStaysAtEnd | dependencies/h_wcons.js:233-238 | printing at the end keeps the invariant and the cursor at the end |
| LineEditing.PromptedAtEnd | dependencies/h_wcons.js:240-243 | printPrompt at the end keeps the invariant, puts boundary and cursor at the end, and nothing has been typed yet |
| LineEditing.PromptedMidLine | dependencies/h_wcons.js:240-243 | printPrompt with the cursor inside the line leaves the cursor before the boundary: the invariant only holds when called at the end |
| LineEditing.PrintedMidLine | dependencies/h_wcons.js:233-238 | printing newline-free text inside the line keeps the cursor inside it |
| LineEditing.TypedAfterPrompt | dependencies/h_wcons.js:211-218 | after printPrompt at the end, typing s makes readUserInput give s (tabs expanded), never the prompt |
| LineEditing.ExpandedWithoutTabs | dependencies/h_wcons.js:227-230 | text without tabs is typed as it is |
| LineEditing.ConsolePromptExample | dependencies/h_wcons.js:211-243 | after the prompt "wc> ", typing "ls" reads back "ls" |
| LineEditing.RemoveCharDeletesBeforeCursor | dependencies/h_wcons.js:245-252 | a no-op at cursor 0 or at the boundary; otherwise deletes the char before the cursor and moves left, everything else in order; invariant and prompt kept |
| LineEditing.CursorMovesKeepValid | dependencies/h_wcons.js:256-277 | left stops at the boundary, right at the end, End and Home go to the end and the boundary; none changes chars or boundary; all keep the invariant |
| LineEditing.IoLine.constructor | dependencies/h_wcons.js:195-202 | empty line, not attached, prefix or "" |
| LineEditing.IoLine.AppendTo | dependencies/h_wcons.js:292-295 | attaches the line, state unchanged |
| LineEditing.IoLine.ReadUserInput | dependencies/h_wcons.js:211-218 | the loop returns the characters from the boundary on (UserInput) |
| LineEditing.IoLine.ClearChars | dependencies/h_wcons.js:300-304 | the line becomes empty |
| LineEditing.IoLine.Insert | dependencies/h_wcons.js:306-310 | the private addChar splices the char in at the cursor (Inserted) |
| LineEditing.IoLine.AddNTimes | dependencies/h_wcons.js:312-316 | n insertions (InsertedTimes) |
| LineEditing.IoLine.MoveForward | dependencies/h_wcons.js:279-284 | the line becomes empty and the prefix "" |
| LineEditing.IoLine.AddChar | dependencies/h_wcons.js:222-231 | the new state is WithChar of the old one; a newline clears the prefix |
| LineEditing.IoLine.Print | dependencies/h_wcons.js:233-238 | the loop leaves Printed of the old state |
| LineEditing.IoLine.PrintPrompt | dependencies/h_wcons.js:240-243 | the new state is Prompted of the old one |
| LineEditing.IoLine.RemoveChar | dependencies/h_wcons.js:245-252 | the new state is WithoutCharBeforeCursor of the old one |
| LineEditing.IoLine.MoveCursorLeft | dependencies/h_wcons.js:256-262 | the new state is CursorLeft of the old one |
| LineEditing.IoLine.MoveCursorRight | dependencies/h_wcons.js:263-269 | the new state is CursorRight of the old one |
| LineEditing.IoLine.MoveCursorToEnd | dependencies/h_wcons.js:270-273 | the new state is CursorToEnd of the old one |
| LineEditing.IoLine.MoveCursorToBeginning | dependencies/h_wcons.js:274-277 | the new state is CursorToBeginning of the old one |
| ConsoleInput.Rest | dependencies/h_wcons.js:428-430 | toString is the string from the index on, or "" for a negative index or one past the end |
| ConsoleInput.Clamped | dependencies/h_wcons.js:377-382 | an index move lands inside the string or on -1 |
| ConsoleInput.TokenRead | dependencies/h_wcons.js:369-374 | the token readToken gives holds no space and is "" once the input is exhausted |
| ConsoleInput.IndexAfterToken | dependencies/h_wcons.js:369-385 | after readToken the index lies inside the string or is -1; an exhausted input does not move |
| ConsoleInput.LeadingSpacesSkipped | dependencies/h_wcons.js:352-355 | after the constructor and skipSpaces the index is -1 exactly when the string holds only spaces; otherwise it is the first non-space |
| ConsoleInput.EmptyIffNothingLeft | dependencies/h_wcons.js:414-430 | isEmpty holds exactly when toString is "" |
| ConsoleInput.Input.IsEmpty | dependencies/h_wcons.js:414-427 | isEmpty: the string is "", or the index is negative or past the end (related to toString by EmptyIffNothingLeft) |
| ConsoleInput.Input.ToString | dependencies/h_wcons.js:428-430 | toString: Rest of the string at the index |
| ConsoleInput.Input.OefCode | dependencies/h_wcons.js:397-399 | oefCode: -1, the code ReadCharCode and Getc give at the end |
| ConsoleInput.Input.constructor | dependencies/h_wcons.js:352-355 | index 0, or -1 for the empty string |
| ConsoleInput.Input.ReadToken | dependencies/h_wcons.js:369-385 | the token is TokenRead and the index moves to IndexAfterToken |
| ConsoleInput.Input.ReadChar | dependencies/h_wcons.js:387-395 | an error exactly when empty; otherwise the first remaining char, and the index advances by one |
| ConsoleInput.Input.ReadCharCode | dependencies/h_wcons.js:401-412 | -1 without moving when empty; otherwise the code of the first remaining char, and the rest shrinks by one |
| ConsoleInput.Input.SkipSpaces | dependencies/h_wcons.js:431-439 | the index becomes -1 or a non-space of the string, with only spaces skipped |
| CommandRegistry.Lookup | dependencies/h_wcons.js:97-108 | a found command is in the list and has that name; none is found exactly when no command has that name |
| CommandRegistry.LookupIsFirst | dependencies/h_wcons.js:99-104 | the command found is the first one registered under that name |
| CommandRegistry.AddedLookup | dependencies/h_wcons.js:93-108 | adding a command never changes what a registered name finds; a new name finds the new command |
| CommandRegistry.Commands.constructor | dependencies/h_wcons.js:90-92 | the list starts empty |
| CommandRegistry.Commands.Add | dependencies/h_wcons.js:93-96 | the command is appended |
| CommandRegistry.Commands.Get | dependencies/h_wcons.js:97-108 | the loop returns Lookup |
| CommandInterpreter.LinesAppendToInput | dependencies/h_wcons.js:469-471 | appending lines, each with a newline, keeps the loaded command and adds exactly the lines |
| CommandInterpreter.LoadedSession | dependencies/h_wcons.js:458-471 | loading a known command then typing lines collects exactly those lines; an unknown name changes nothing |
| CommandInterpreter.AppendWithoutLoad | dependencies/h_wcons.js:469-471 | appending with no input yet starts from the text "null" |
| CommandInterpreter.Interpreter.constructor | dependencies/h_wcons.js:446-451 | two distinct empty registries, nothing loaded, input null |
| CommandInterpreter.Interpreter.AddCommand | dependencies/h_wcons.js:452-454 | the command is appended to the registry |
| CommandInterpreter.Interpreter.HasOneCmdLoaded | dependencies/h_wcons.js:455-457 | hasOneCmdLoaded: a command is loaded (it decides the Enter branch of Console.KeyDown) |
| CommandInterpreter.Interpreter.InputString | dependencies/h_wcons.js:472-474 | inputString: the collected input, None for null |
| CommandInterpreter.Interpreter.LoadCmd | dependencies/h_wcons.js:458-468 | unknown name: state unchanged; known name: first match loaded, input reset to "" |
| CommandInterpreter.Interpreter.AddToInput | dependencies/h_wcons.js:469-471 | the input is the old one (or "null") followed by str |
| CommandInterpreter.Interpreter.SetOutput | dependencies/h_wcons.js:475-477 | output set, loader state unchanged |
| CommandInterpreter.Interpreter.EvalCurrentCmd | dependencies/h_wcons.js:478-486 | fails exactly when nothing is loaded; otherwise the command gets a new Input over the collected string past its leading spaces and the current output; afterwards no command is loaded |
| CommandInterpreter.CommandApi.constructor | dependencies/h_wcons.js:28-32 | keeps the command, input and line |
| CommandInterpreter.CommandApi.Getc | dependencies/h_wcons.js:37-39 | -1 at the end of the input, otherwise the next char's code, consumed |
| CommandInterpreter.CommandApi.Putc | dependencies/h_wcons.js:41-44 | the line gets the char String.fromCharCode gives (code modulo 2^16) added |
| CommandInterpreter.CommandApi.Eof | dependencies/h_wcons.js:46-48 | -1 whatever the argument |
| Console.CommandNameFromStart | dependencies/h_wcons.js:548-551 | the command name holds no space; it is "" when the line is empty or starts with a space, else the first space-free run |
| Console.EndOfFile | dependencies/h_wcons.js:521-527 | evaluates the loaded command and prints the prompt; with nothing loaded it fails and the line is untouched |
| Console.EnterInput | dependencies/h_wcons.js:532-538 | the typed line and a newline go to the loaded command's input; the line is emptied |
| Console.EnterCommandLine | dependencies/h_wcons.js:539-572 | unknown name: prompt again, nothing loaded; known name: loaded with input "", evaluated at once on the din value and dout line when the next token is "dio" |
| Console.KeyDown | dependencies/h_wcons.js:519-592 | end of file, typing, Enter and editing keys each make the transition above; other keys change nothing |
| BalanceCheck.CountIsOccurrences | src/main/javascript/cmds/chkbal.js:30-37 | counting `c === unit` for a one-char unit counts its occurrences; any other unit is never matched |
| BalanceCheck.CountStep | src/main/javascript/cmds/chkbal.js:28-38 | one more char read adds one exactly when it matches |
| BalanceCheck.PairOf | src/main/javascript/cmds/chkbal.js:5-23 | (, [, {, < select their closing char; any other token gives "" for both |
| BalanceCheck.ChkBalOkIff | src/main/javascript/cmds/chkbal.js:26-40 | "OK" exactly when the token is a known opener and the rest holds equally many opening and closing chars, at least one; otherwise "NOT OK" |
| BalanceCheck.UnknownOpenerNotOk | src/main/javascript/cmds/chkbal.js:6-7 | an unknown opener always gives "NOT OK" |
| BalanceCheck.ChkBalIgnoresOrder | src/main/javascript/cmds/chkbal.js:28-39 | ")(" with "(" prints OK; "(a" and "()" under "[" do not |
| BalanceCheck.ChkBal | src/main/javascript/cmds/chkbal.js:1-41 | drains the input and prints the verdict on the rest after the first token |
| BalanceCheck.InlineOkIff | src/main/javascript/cmds/inline/chkbal.js:1-14 | "OK" exactly when the input holds as many "(" as ")", otherwise "NOT OK" |
| BalanceCheck.InlineExamples | src/main/javascript/cmds/inline/chkbal.js:1-14 | empty input and ")(" print OK; "(a" does not |
| BalanceCheck.InlineChkBal | src/main/javascript/cmds/inline/chkbal.js:1-14 | drains the input and prints the verdict on all of it |
| SoftwareTools.WordStartInPrefix | src/main/javascript/cmds/software_tools/wordcount.js:6-12 | whether a word starts at j is decided by the codes up to j |
| SoftwareTools.WordsStep | src/main/javascript/cmds/software_tools/wordcount.js:5-13 | one code more adds one word exactly when a word starts there |
| SoftwareTools.WordsBounded | src/main/javascript/cmds/software_tools/wordcount.js:2-13 | no more words than codes; only separators give 0 |
| SoftwareTools.WordsSplitAtSeparator | src/main/javascript/cmds/software_tools/wordcount.js:6-8 | a separator splits the words into those before and after it |
| SoftwareTools.WordsAfterSeparator | src/main/javascript/cmds/software_tools/wordcount.js:6-8 | a leading separator changes nothing |
| SoftwareTools.WordsBeforeSeparator | src/main/javascript/cmds/software_tools/wordcount.js:6-8 | a trailing separator changes nothing |
| SoftwareTools.WordsExample | src/main/javascript/cmds/software_tools/wordcount.js:1-16 | "to be  or\n" holds three words |
| SoftwareTools.WordCount | src/main/javascript/cmds/software_tools/wordcount.js:1-16 | emits putdec(number of words, 1) and a NEWLINE, and drains the input |
| SoftwareTools.LinesCounted | src/main/javascript/cmds/software_tools/linecount.js:4-8 | each NEWLINE adds one; a final line without NEWLINE adds nothing; never more than the codes |
| SoftwareTools.LinesStep | src/main/javascript/cmds/software_tools/linecount.js:4-8 | one code more adds one exactly when it is a NEWLINE |
| SoftwareTools.LineCount | src/main/javascript/cmds/software_tools/linecount.js:1-11 | emits putdec(number of NEWLINEs, 1) and a NEWLINE, and drains the input |
| SoftwareTools.BlanksFrom | src/main/javascript/cmds/software_tools/detab.js:29-34 | a TAB emits between one and four blanks |
| SoftwareTools.DetabbedAdvance | src/main/javascript/cmds/software_tools/detab.js:28-43 | each turn of the main loop keeps emitted-so-far plus the rest equal to the whole |
| SoftwareTools.BlanksStep | src/main/javascript/cmds/software_tools/detab.js:30-33 | one blank further: one fewer to go, or a tab stop reached |
| SoftwareTools.TabReachesNextStop | src/main/javascript/cmds/software_tools/detab.js:2-19 | the blanks of a TAB end exactly at the next tab stop, with no stop in between (4 - (col-1) mod 4 up to MAXLINE, one past it) |
| SoftwareTools.DetabbedHasNoTab | src/main/javascript/cmds/software_tools/detab.js:29-42 | a TAB code is never emitted |
| SoftwareTools.DetabbedWithoutTabs | src/main/javascript/cmds/software_tools/detab.js:35-42 | input without TABs is copied through unchanged |
| SoftwareTools.DetabExample | src/main/javascript/cmds/software_tools/detab.js:28-43 | "a", TAB, "b" becomes "a", three blanks, "b" |
| SoftwareTools.TabPos | src/main/javascript/cmds/software_tools/detab.js:2-11 | tabpos: true past MAXLINE, otherwise the table entry; equals IsTabStop on a filled table (used by ExpandTab) |
| SoftwareTools.SetTabs | src/main/javascript/cmds/software_tools/detab.js:13-19 | tabstops[i] is true exactly when i mod 4 = 1, for 1 <= i < MAXLINE; other entries untouched |
| SoftwareTools.ExpandTab | src/main/javascript/cmds/software_tools/detab.js:30-33 | the do-while emits BlanksFrom(col) blanks and moves to the next tab stop |
| SoftwareTools.Detab | src/main/javascript/cmds/software_tools/detab.js:1-44 | emits exactly Detabbed of the input's codes from column 1, and drains the input |
| SoftwareTools.DetabWith | src/main/javascript/cmds/software_tools/detab.js:28-43 | the main loop over a filled tab-stop table emits Detabbed of the codes |

## Left out

- The page itself is not modelled:
  - the DOM view of a line (`LineDomView`) and its creation in `addNewDomView`;
  - building the console element;
  - scrolling;
  - all `console.log` output;
  - `event.preventDefault`.
  An `IoLine` only records whether it has been attached. Every operation that would touch a missing view requires it.
- Running a command's handler (`Command.exec`, `executeHandler`) is not modelled. Evaluation returns the call the handler would receive. A handler is an opaque tag.
- Because handlers do not run, what a handler does during `Console.KeyDown` or `Console.EndOfFile` (printing, reading the input) does not appear in their postconditions.
- `parseTk.skipToken`, `keyboard.isEndOfFile`, `din.value`, the Software-Tools constants `ENDFILE`, `TAB`, `BLANK` and `NEWLINE`, and `putdec` are not defined in the console's code. They are parameters:
  - `skipToken` is a function;
  - the end-of-file test is a flag;
  - the `din` value is a string;
  - the constants are a `Codes` value;
  - `putdec` and `putc` appear as entries of the emitted sequence.
  The commands require ENDFILE to be -1. Otherwise their loop never stops.
- `Input.findTokenIndex` (dependencies/h_wcons.js:365-367) is not modelled. It passes a token string where the toolkit expects a count, and no start index.
- `api.input()` and `api.println`, which the balance checkers call, are not defined by `CommandApi` (dependencies/h_wcons.js:28-48). The checkers take the `Input` and return the printed line.
- `main.js` registers commands with `addInteractiveCommand`, `addInlineCommand` and `addHelpCommand`, which `Interpreter` (dependencies/h_wcons.js:446-486) does not define; `main.js` is not part of this model. The registry `helpCommands` is created but never read, and the `help` texts of the commands, the calculator, `echo` and `display` are not part of this model.
- Strings are sequences of Dafny characters, not UTF-16 code units.
- CommandInterpreter.CommandApi.Putc: requires the code, taken modulo 2^16, not to be half of a surrogate pair. A lone surrogate cannot be a Dafny character.
- Console.KeyDown: requires the label of a space-bar event to be one character, since the listener adds `event.key` as a single character.
- CommandInterpreter.Interpreter.EvalCurrentCmd: ensures that no command is loaded afterwards, as when the handler returns normally. The source clears the loaded command only after `exec` returns (dependencies/h_wcons.js:483-485), so a handler that throws leaves the command loaded. The model does not capture that case. A throwing handler would also abort the listener before `printPrompt`: Console.EndOfFile would leave the line without a prompt (dependencies/h_wcons.js:525-526), and the "dio" branch of Console.EnterCommandLine would leave the command loaded with no prompt (dependencies/h_wcons.js:568-569). Later Enter presses would then feed the stuck command.
- ConsoleInput.Input.ReadChar: the thrown error is an `Err` result, and the listener's abort on a throw is modelled only for evaluation with nothing loaded.
