/**
 * The console's key-down listener (dependencies/h_wcons.js:519-592): one key
 * press as a transition of the edited line `ioLine` and the interpreter.
 *
 * End of file evaluates the loaded command. A visible character or a space
 * is typed. Enter either feeds the line to the loaded command or reads a
 * command line, whose first token names the command to load and whose
 * second token "dio" asks for the DOM input and output. The arrows,
 * Backspace, End and Home edit the line. When a command is evaluated, the
 * listener yields the call its handler receives.
 *
 * The browser's end-of-file test is not defined in the keyboard toolkit: it
 * is given as a flag. The value of the DOM input `din` is given as a string.
 */
module Console {
  import opened Outcomes
  import opened KeyboardToolkit
  import opened LineEditing
  import opened ConsoleInput
  import opened CommandRegistry
  import opened CommandInterpreter

  /** The name a command line asks for: the token an Input over it reads first. */
  function CommandName(line: string): string
  {
    TokenRead(line, StartIndex(line))
  }

  /** The token after the command name, "dio" to ask for DOM input and output. */
  function IoToken(line: string, skipToken: (string, int) -> int): string
  {
    TokenRead(line, IndexAfterToken(line, StartIndex(line), skipToken))
  }

  /**
   * A command line is read from its first character: one that starts with a
   * space names the empty command, and the name never holds a space.
   */
  lemma CommandNameFromStart(line: string)
    ensures ' ' !in CommandName(line)
    ensures line == "" || line[0] == ' ' ==> CommandName(line) == ""
    ensures line != "" && line[0] != ' ' ==>
              CommandName(line) != "" && CommandName(line) == line[..|CommandName(line)|] &&
              (|CommandName(line)| == |line| || line[|CommandName(line)|] == ' ')
  {
  }

  /**
   * End of file: the loaded command is evaluated and a prompt printed; with
   * nothing loaded evaluation fails and the listener stops there.
   */
  method EndOfFile(ioLine: IoLine, interpreter: Interpreter, prompt: string) returns (r: Result<Call, string>)
    requires ioLine.attached && interpreter.Valid()
    modifies ioLine, interpreter
    ensures interpreter.Valid() && ioLine.attached
    ensures (r.Err? <==> old(interpreter.currentCommand).None?) &&
            interpreter.State() == Loader(None, old(interpreter.currentInputStr)) &&
            interpreter.output == old(interpreter.output)
    ensures r.Ok? ==>
              ioLine.State() == Prompted(old(ioLine.State()), prompt) &&
              r.value.command == old(interpreter.currentCommand).value &&
              r.value.output == old(interpreter.output) &&
              r.value.input.str == old(interpreter.currentInputStr).value
    ensures r.Err? ==> ioLine.State() == old(ioLine.State())
  {
    r := interpreter.EvalCurrentCmd();
    if r.Err? {
      return;
    }
    ioLine.PrintPrompt(prompt);
  }

  /** Enter with a command loaded: the line and a newline go to its input. */
  method EnterInput(ioLine: IoLine, interpreter: Interpreter)
    requires ioLine.attached && interpreter.Valid() && interpreter.currentCommand.Some?
    modifies ioLine, interpreter
    ensures interpreter.Valid() && ioLine.attached && ioLine.State() == Empty
    ensures interpreter.State() == AfterLines(old(interpreter.State()), [UserInput(old(ioLine.State()))])
    ensures interpreter.output == old(interpreter.output)
  {
    var line := ioLine.ReadUserInput();
    interpreter.AddToInput(line);
    interpreter.AddToInput("\n");
    ioLine.MoveForward();
  }

  /**
   * Enter with nothing loaded: the line is a command line. An unknown name
   * prints a new prompt; a known one is loaded, and evaluated at once on the
   * DOM input and output when the next token is "dio".
   */
  method EnterCommandLine(ioLine: IoLine, interpreter: Interpreter, dinValue: string, doutIoLine: IoLine,
                          prompt: string, skipToken: (string, int) -> int)
    returns (evaluated: Option<Result<Call, string>>)
    requires ioLine.attached && interpreter.Valid() && interpreter.currentCommand.None?
    modifies ioLine, interpreter
    ensures interpreter.Valid() && ioLine.attached
    ensures var line := UserInput(old(ioLine.State()));
            var found := Lookup(interpreter.commands.commands, CommandName(line));
            (found.None? ==>
               evaluated.None? && interpreter.State() == old(interpreter.State()) &&
               interpreter.output == Some(ioLine) && ioLine.State() == Prompted(Empty, prompt)) &&
            (found.Some? && IoToken(line, skipToken) != "dio" ==>
               evaluated.None? && interpreter.State() == Loader(found, Some("")) &&
               interpreter.output == Some(ioLine) && ioLine.State() == Empty) &&
            (found.Some? && IoToken(line, skipToken) == "dio" ==>
               evaluated.Some? && evaluated.value.Ok? &&
               evaluated.value.value.command == found.value &&
               evaluated.value.value.input.str == dinValue &&
               evaluated.value.value.output == Some(doutIoLine) &&
               interpreter.State() == Loader(None, Some(dinValue)) &&
               interpreter.output == Some(doutIoLine) && ioLine.State() == Prompted(Empty, prompt))
  {
    evaluated := None;
    var userInputStr := ioLine.ReadUserInput();
    var userInput := new Input(userInputStr);
    var cmdName := userInput.ReadToken(skipToken);
    assert cmdName == CommandName(userInputStr);
    ghost var found := Lookup(interpreter.commands.commands, cmdName);
    interpreter.LoadCmd(cmdName);
    assert interpreter.currentCommand == found;
    interpreter.SetOutput(ioLine);
    ioLine.MoveForward();
    if !interpreter.HasOneCmdLoaded() {
      ioLine.PrintPrompt(prompt);
    } else {
      var dio := userInput.ReadToken(skipToken);
      assert dio == IoToken(userInputStr, skipToken);
      if dio == "dio" {
        interpreter.AddToInput(dinValue);
        assert "" + dinValue == dinValue;
        interpreter.SetOutput(doutIoLine);
        var r := interpreter.EvalCurrentCmd();
        evaluated := Some(r);
        ioLine.PrintPrompt(prompt);
      }
    }
  }

  /** The line after an editing key: the arrows, Backspace, End and Home; any other key changes nothing. */
  function Edited(l: Line, event: KeyboardEvent): Line
  {
    if IsArrowLeft(event) then CursorLeft(l)
    else if IsArrowRight(event) then CursorRight(l)
    else if IsBackspace(event) then WithoutCharBeforeCursor(l)
    else if IsEnd(event) then CursorToEnd(l)
    else if IsHome(event) then CursorToBeginning(l)
    else l
  }

  /**
   * keydown: what one key press does to the line and the interpreter, and the
   * call handed to a command's handler when one is evaluated.
   */
  method KeyDown(ioLine: IoLine, interpreter: Interpreter, dinValue: string, doutIoLine: IoLine,
                 prompt: string, event: KeyboardEvent, isEndOfFile: bool,
                 skipToken: (string, int) -> int)
    returns (evaluated: Option<Result<Call, string>>)
    requires ioLine.attached && interpreter.Valid()
    requires IsSpace(event) ==> |event.key| == 1
    modifies ioLine, interpreter
    ensures interpreter.Valid() && ioLine.attached
    ensures isEndOfFile ==>
              evaluated.Some? && (evaluated.value.Err? <==> old(interpreter.currentCommand).None?) &&
              interpreter.State() == Loader(None, old(interpreter.currentInputStr)) &&
              interpreter.output == old(interpreter.output) &&
              (evaluated.value.Ok? ==>
                 ioLine.State() == Prompted(old(ioLine.State()), prompt) &&
                 evaluated.value.value.command == old(interpreter.currentCommand).value &&
                 evaluated.value.value.output == old(interpreter.output) &&
                 evaluated.value.value.input.str == old(interpreter.currentInputStr).value) &&
              (evaluated.value.Err? ==> ioLine.State() == old(ioLine.State()))
    ensures !isEndOfFile && (IsVisibleChar(event) || IsSpace(event)) ==>
              evaluated.None? && ioLine.State() == WithChar(old(ioLine.State()), event.key[0]) &&
              interpreter.State() == old(interpreter.State()) && interpreter.output == old(interpreter.output)
    ensures !isEndOfFile && !IsVisibleChar(event) && !IsSpace(event) && IsEnter(event) &&
            old(interpreter.currentCommand).Some? ==>
              evaluated.None? && ioLine.State() == Empty &&
              interpreter.State() == AfterLines(old(interpreter.State()), [UserInput(old(ioLine.State()))]) &&
              interpreter.output == old(interpreter.output)
    ensures !isEndOfFile && !IsVisibleChar(event) && !IsSpace(event) && IsEnter(event) &&
            old(interpreter.currentCommand).None? ==>
              var line := UserInput(old(ioLine.State()));
              var found := Lookup(interpreter.commands.commands, CommandName(line));
              (found.None? ==>
                 evaluated.None? && interpreter.State() == old(interpreter.State()) &&
                 interpreter.output == Some(ioLine) && ioLine.State() == Prompted(Empty, prompt)) &&
              (found.Some? && IoToken(line, skipToken) != "dio" ==>
                 evaluated.None? && interpreter.State() == Loader(found, Some("")) &&
                 interpreter.output == Some(ioLine) && ioLine.State() == Empty) &&
              (found.Some? && IoToken(line, skipToken) == "dio" ==>
                 evaluated.Some? && evaluated.value.Ok? &&
                 evaluated.value.value.command == found.value &&
                 evaluated.value.value.input.str == dinValue &&
                 evaluated.value.value.output == Some(doutIoLine) &&
                 interpreter.State() == Loader(None, Some(dinValue)) &&
                 interpreter.output == Some(doutIoLine) && ioLine.State() == Prompted(Empty, prompt))
    ensures !isEndOfFile && !IsVisibleChar(event) && !IsSpace(event) && !IsEnter(event) ==>
              evaluated.None? && interpreter.State() == old(interpreter.State()) &&
              interpreter.output == old(interpreter.output) &&
              ioLine.State() == Edited(old(ioLine.State()), event)
  {
    evaluated := None;
    if isEndOfFile {
      var r := EndOfFile(ioLine, interpreter, prompt);
      evaluated := Some(r);
    } else if IsVisibleChar(event) || IsSpace(event) {
      ioLine.AddChar(event.key[0]);
    } else if IsEnter(event) {
      if interpreter.HasOneCmdLoaded() {
        EnterInput(ioLine, interpreter);
      } else {
        evaluated := EnterCommandLine(ioLine, interpreter, dinValue, doutIoLine, prompt, skipToken);
      }
    } else if IsArrowLeft(event) {
      ioLine.MoveCursorLeft();
    } else if IsArrowRight(event) {
      ioLine.MoveCursorRight();
    } else if IsBackspace(event) {
      ioLine.RemoveChar();
    } else if IsEnd(event) {
      ioLine.MoveCursorToEnd();
    } else if IsHome(event) {
      ioLine.MoveCursorToBeginning();
    }
  }
}
