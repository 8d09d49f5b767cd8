/**
 * The command loader `Interpreter` (dependencies/h_wcons.js:444-489) and the
 * API handed to a running command, `CommandApi` (dependencies/h_wcons.js:14-51).
 *
 * The interpreter holds at most one loaded command and the input collected
 * for it: loading a known command resets that input to "", each line typed
 * afterwards is appended, and evaluation hands the command an `Input` over
 * what was collected and unloads it. Running the handler itself is outside
 * the model: evaluation returns the call the handler would receive.
 */
module CommandInterpreter {
  import opened Outcomes
  import opened CommandRegistry
  import opened ConsoleInput
  import opened LineEditing

  /** The loader's state: the loaded command and the collected input (`null` is None). */
  datatype Loader = Loader(current: Option<Command>, input: Option<string>)

  /** `s + t` where s may be null: JavaScript then concatenates the text "null". */
  function JsConcat(s: Option<string>, t: string): string
  {
    (if s.Some? then s.value else "null") + t
  }

  /** loadCmd: an unknown name changes nothing; a known one is loaded with an empty input. */
  function AfterLoad(st: Loader, commands: seq<Command>, name: string): Loader
  {
    var found := Lookup(commands, name);
    if found.None? then st else Loader(found, Some(""))
  }

  /** addToInput. */
  function AfterAppend(st: Loader, s: string): Loader
  {
    Loader(st.current, Some(JsConcat(st.input, s)))
  }

  /** The input an Enter key press adds while a command is loaded: the line and a newline. */
  function AfterLines(st: Loader, lines: seq<string>): Loader
    decreases |lines|
  {
    if lines == [] then st else AfterLines(AfterAppend(AfterAppend(st, lines[0]), "\n"), lines[1..])
  }

  /** Lines joined, each followed by a newline. */
  function Joined(lines: seq<string>): string
    decreases |lines|
  {
    if lines == [] then "" else lines[0] + "\n" + Joined(lines[1..])
  }

  /** The loaded command never goes away while input is appended. */
  lemma {:induction false} LinesAppendToInput(st: Loader, lines: seq<string>)
    requires st.input.Some?
    ensures AfterLines(st, lines) == Loader(st.current, Some(st.input.value + Joined(lines)))
    decreases |lines|
  {
    if lines != [] {
      var next := AfterAppend(AfterAppend(st, lines[0]), "\n");
      LinesAppendToInput(next, lines[1..]);
      assert st.input.value + lines[0] + "\n" + Joined(lines[1..]) == st.input.value + Joined(lines);
    } else {
      assert st.input.value + "" == st.input.value;
    }
  }

  /**
   * A session: loading a registered command and typing lines collects
   * exactly those lines, each with its newline, and keeps the first command
   * of that name loaded; an unknown name leaves everything as it was.
   */
  lemma LoadedSession(st: Loader, commands: seq<Command>, name: string, lines: seq<string>)
    ensures Lookup(commands, name).Some? ==>
              AfterLines(AfterLoad(st, commands, name), lines) ==
                Loader(Lookup(commands, name), Some(Joined(lines)))
    ensures Lookup(commands, name).None? ==> AfterLoad(st, commands, name) == st
  {
    if Lookup(commands, name).Some? {
      LinesAppendToInput(Loader(Lookup(commands, name), Some("")), lines);
      assert "" + Joined(lines) == Joined(lines);
    }
  }

  /** Appending to an input nothing was loaded for starts from the text "null". */
  lemma AppendWithoutLoad(s: string)
    ensures AfterAppend(Loader(None, None), s) == Loader(None, Some("null" + s))
  {
  }

  /** What evalCurrentCmd hands the command's handler: the command, its input, its output. */
  datatype Call = Call(command: Command, input: Input, output: Option<IoLine>)

  /** The interpreter: the registries, the loaded command, its input and its output line. */
  class Interpreter {
    const commands: Commands
    const helpCommands: Commands
    var currentCommand: Option<Command>
    var currentInputStr: Option<string>
    var output: Option<IoLine>

    /** The loader's state as a value. */
    function State(): Loader
      reads this
    {
      Loader(currentCommand, currentInputStr)
    }

    /** A loaded command always has an input string. */
    predicate Valid()
      reads this
    {
      currentCommand.Some? ==> currentInputStr.Some?
    }

    constructor()
      ensures fresh(commands) && fresh(helpCommands) && commands != helpCommands
      ensures commands.commands == [] && helpCommands.commands == []
      ensures State() == Loader(None, None) && output == None && Valid()
    {
      commands := new Commands();
      helpCommands := new Commands();
      currentCommand := None;
      currentInputStr := None;
      output := None;
    }

    /** addCommand: registers a command. */
    method AddCommand(name: string, handler: nat)
      modifies commands
      ensures commands.commands == old(commands.commands) + [Command(name, handler)]
    {
      commands.Add(name, handler);
    }

    /** hasOneCmdLoaded. */
    predicate HasOneCmdLoaded()
      reads this
    {
      currentCommand.Some?
    }

    /** loadCmd: loads the first command registered under that name, if any. */
    method LoadCmd(cmdName: string)
      requires Valid()
      modifies this
      ensures State() == AfterLoad(old(State()), commands.commands, cmdName)
      ensures output == old(output) && Valid()
    {
      var cmd := commands.Get(cmdName);
      if cmd.None? {
        // The source only logs the unknown name.
      } else {
        currentCommand := cmd;
        currentInputStr := Some("");
      }
    }

    /** addToInput. */
    method AddToInput(str: string)
      requires Valid()
      modifies this
      ensures State() == AfterAppend(old(State()), str)
      ensures output == old(output) && Valid()
    {
      currentInputStr := Some(JsConcat(currentInputStr, str));
    }

    /** inputString. */
    function InputString(): Option<string>
      reads this
    {
      currentInputStr
    }

    /** setOutput. */
    method SetOutput(ioLine: IoLine)
      modifies this
      ensures output == Some(ioLine) && State() == old(State())
    {
      output := Some(ioLine);
    }

    /**
     * evalCurrentCmd: with nothing loaded the source fails on the missing
     * command and nothing changes. Otherwise the command receives a fresh
     * Input over the collected string, past its leading spaces, and the
     * command is unloaded; the collected string stays.
     */
    method EvalCurrentCmd() returns (r: Result<Call, string>)
      requires Valid()
      modifies this
      ensures Valid() && output == old(output) && currentInputStr == old(currentInputStr)
      ensures currentCommand == None
      ensures old(currentCommand).None? <==> r.Err?
      ensures r.Ok? ==>
                r.value.command == old(currentCommand).value &&
                r.value.output == old(output) &&
                fresh(r.value.input) && r.value.input.Valid() &&
                r.value.input.str == old(currentInputStr).value &&
                r.value.input.index == IndexAfterLeadingSpaces(r.value.input.str)
    {
      if currentCommand.None? {
        return Err("no command loaded");
      }
      var input := new Input(currentInputStr.value);
      input.SkipSpaces();
      r := Ok(Call(currentCommand.value, input, output));
      currentCommand := None;
    }
  }

  /** Whether a UTF-16 code unit is a character of its own (not half of a surrogate pair). */
  predicate IsScalarUnit(unit: int)
  {
    0 <= unit < 0xD800 || 0xE000 <= unit < 0x10000
  }

  /** The API of a running command: its input and the line it prints on. */
  class CommandApi {
    const cmd: Command
    const input: Input
    const ioLine: IoLine

    constructor(cmd: Command, input: Input, ioLine: IoLine)
      ensures this.cmd == cmd && this.input == input && this.ioLine == ioLine
    {
      this.cmd := cmd;
      this.input := input;
      this.ioLine := ioLine;
    }

    /** getc: the next character code of the input, or EofCode at its end. */
    method Getc() returns (c: int)
      requires input.Valid()
      modifies input
      ensures input.str == old(input.str) && input.Valid()
      ensures old(input.ToString()) == "" ==> c == EofCode && input.index == old(input.index)
      ensures old(input.ToString()) != "" ==>
                c == old(input.ToString())[0] as int && input.ToString() == old(input.ToString())[1..]
      ensures c == EofCode || 0 <= c
    {
      c := input.ReadCharCode();
    }

    /**
     * putc: prints the character `String.fromCharCode(charCode)`, whose code
     * unit is charCode modulo 2^16, as addChar would.
     */
    method Putc(charCode: int)
      requires ioLine.attached && IsScalarUnit(charCode % 0x10000)
      modifies ioLine
      ensures ioLine.State() == WithChar(old(ioLine.State()), (charCode % 0x10000) as char)
      ensures ioLine.attached
    {
      var character := (charCode % 0x10000) as char;
      ioLine.Print([character]);
    }

    /** eof: the end-of-input code, whatever the argument. */
    method Eof(c: int) returns (code: int)
      ensures code == EofCode
    {
      code := input.OefCode();
    }
  }
}
