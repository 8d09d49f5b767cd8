/**
 * The command registry `Commands` (dependencies/h_wcons.js:59-111): a list of
 * named commands searched by exact name, first match first.
 *
 * A command's handler is a JavaScript function that runs outside this model;
 * a command carries an opaque tag that stands for it.
 */
module CommandRegistry {
  import opened Outcomes

  /** A command: its name (getName) and the tag of its handler. */
  datatype Command = Command(name: string, handler: nat)

  /** What get finds: the first command with exactly that name, or none. */
  function Lookup(commands: seq<Command>, name: string): (r: Option<Command>)
    ensures r.Some? ==> r.value in commands && r.value.name == name
    ensures r.None? <==> forall i :: 0 <= i < |commands| ==> commands[i].name != name
    decreases |commands|
  {
    if commands == [] then None
    else if commands[0].name == name then Some(commands[0])
    else Lookup(commands[1..], name)
  }

  /** A found command is the first one with that name: none before it matches. */
  lemma {:induction false} LookupIsFirst(commands: seq<Command>, name: string, i: nat)
    requires i < |commands| && commands[i].name == name
    ensures Lookup(commands, name).Some?
    ensures (forall j :: 0 <= j < i ==> commands[j].name != name) ==> Lookup(commands, name) == Some(commands[i])
    decreases i
  {
    if i > 0 && commands[0].name != name {
      LookupIsFirst(commands[1..], name, i - 1);
      assert forall j :: 0 <= j < i - 1 ==> commands[1..][j] == commands[j + 1];
    }
  }

  /**
   * The earliest registration wins: adding a command never changes what an
   * already registered name finds, and a new name finds the new command.
   */
  lemma {:induction false} AddedLookup(commands: seq<Command>, c: Command, name: string)
    ensures Lookup(commands + [c], name) ==
              if Lookup(commands, name).Some? then Lookup(commands, name)
              else if c.name == name then Some(c) else None
    decreases |commands|
  {
    if commands != [] {
      assert (commands + [c])[1..] == commands[1..] + [c];
      AddedLookup(commands[1..], c, name);
    }
  }

  /** A registry of commands. */
  class Commands {
    var commands: seq<Command>

    constructor()
      ensures commands == []
    {
      commands := [];
    }

    /** add: appends a new command to the list. */
    method Add(name: string, handler: nat)
      modifies this
      ensures commands == old(commands) + [Command(name, handler)]
    {
      commands := commands + [Command(name, handler)];
    }

    /** get: scans the list and stops at the first command with that name. */
    method Get(name: string) returns (res: Option<Command>)
      ensures res == Lookup(commands, name)
    {
      res := None;
      var i := 0;
      while i < |commands|
        invariant 0 <= i <= |commands|
        invariant Lookup(commands, name) == Lookup(commands[i..], name)
      {
        var currentCommand := commands[i];
        if currentCommand.name == name {
          res := Some(currentCommand);
          break;
        }
        assert commands[i..][1..] == commands[i + 1..];
        i := i + 1;
      }
    }
  }
}
