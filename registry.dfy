/** The command registry of the `warhousemanagementsystem` command line: a
    map from command name (or alias) to command, filled by `Register` and
    consulted by `Dispatch`. */
module Registry {
  import opened Base
  import opened Text

  /** A command's run function is code outside the model; it is stood for by
      an opaque handler identity, and a nil function by `None`. */
  type Handler = nat

  datatype Command = Command(
    name: String, usage: String, description: String, group: String,
    aliases: seq<String>, run: Option<Handler>)

  /** Why `Register` panics. */
  datatype Panic = MissingNameOrRun | NameTaken(name: String) | AliasTaken(alias: String)

  /** The alias loop of `Register`, from map `m`: each non-empty alias is
      added as a copy of `cmd` renamed to the alias; the first alias already
      present stops the loop (a panic) with the map as it stands then. */
  function AddAliases(m: map<String, Command>, cmd: Command, aliases: seq<String>)
    : (r: (Option<String>, map<String, Command>))
    ensures forall k :: k in m ==> k in r.1 && r.1[k] == m[k]
    ensures r.0.Some? ==> r.0.value in aliases && r.0.value != [] && r.0.value in r.1
    decreases |aliases|
  {
    if aliases == [] then (None, m)
    else if aliases[0] == [] then AddAliases(m, cmd, aliases[1..])
    else if aliases[0] in m then (Some(aliases[0]), m)
    else AddAliases(m[aliases[0] := cmd.(name := aliases[0])], cmd, aliases[1..])
  }

  /** The whole of `Register`: the panic it raises, if any, and the map it
      leaves behind either way. */
  function RegisterSpec(m: map<String, Command>, cmd: Command): (r: (Option<Panic>, map<String, Command>))
    ensures r.0 == Some(MissingNameOrRun) <==> cmd.name == [] || cmd.run.None?
    ensures r.0 == Some(NameTaken(cmd.name)) <==> cmd.name != [] && cmd.run.Some? && cmd.name in m
    ensures r.0.Some? && r.0.value.AliasTaken? ==> r.0.value.alias in cmd.aliases && r.0.value.alias != []
  {
    if cmd.name == [] || cmd.run.None? then (Some(MissingNameOrRun), m)
    else if cmd.name in m then (Some(NameTaken(cmd.name)), m)
    else
      var (hit, m') := AddAliases(m[cmd.name := cmd], cmd, cmd.aliases);
      (if hit.Some? then Some(AliasTaken(hit.value)) else None, m')
  }

  /** The non-empty aliases of a command. */
  function AliasKeys(aliases: seq<String>): set<String> {
    set a | a in aliases && a != []
  }

  /** A loop that runs to the end adds exactly the non-empty aliases, each
      bound to the renamed copy, and touches no other key. */
  lemma {:induction false} AddAliasesComplete(m: map<String, Command>, cmd: Command, aliases: seq<String>)
    requires AddAliases(m, cmd, aliases).0.None?
    ensures AddAliases(m, cmd, aliases).1.Keys == m.Keys + AliasKeys(aliases)
    ensures forall a :: a in aliases && a != [] ==> AddAliases(m, cmd, aliases).1[a] == cmd.(name := a)
    ensures forall a :: a in aliases && a != [] ==> a !in m
    decreases |aliases|
  {
    if aliases != [] {
      var rest := aliases[1..];
      assert forall a :: a in aliases <==> a == aliases[0] || a in rest;
      if aliases[0] == [] {
        AddAliasesComplete(m, cmd, rest);
        assert AliasKeys(aliases) == AliasKeys(rest);
      } else {
        var m1 := m[aliases[0] := cmd.(name := aliases[0])];
        AddAliasesComplete(m1, cmd, rest);
        assert AliasKeys(aliases) == {aliases[0]} + AliasKeys(rest);
        forall a | a in aliases && a != [] ensures a !in m {
          if a != aliases[0] {
            assert a in rest;
            assert a !in m1;
          }
        }
      }
    } else {
      assert AliasKeys(aliases) == {};
    }
  }

  /** A successful registration binds the name to the command, every
      non-empty alias to the renamed copy, and leaves every earlier
      registration in place. */
  lemma RegisteredShape(m: map<String, Command>, cmd: Command)
    requires RegisterSpec(m, cmd).0.None?
    ensures RegisterSpec(m, cmd).1.Keys == m.Keys + {cmd.name} + AliasKeys(cmd.aliases)
    ensures RegisterSpec(m, cmd).1[cmd.name] == cmd
    ensures forall a :: a in cmd.aliases && a != [] ==> RegisterSpec(m, cmd).1[a] == cmd.(name := a)
    ensures forall k :: k in m ==> RegisterSpec(m, cmd).1[k] == m[k]
  {
    AddAliasesComplete(m[cmd.name := cmd], cmd, cmd.aliases);
  }

  /** Registration is not atomic: when an alias is taken, the panic leaves
      the primary name registered. */
  lemma AliasPanicKeepsName(m: map<String, Command>, cmd: Command)
    requires RegisterSpec(m, cmd).0.Some? && RegisterSpec(m, cmd).0.value.AliasTaken?
    ensures cmd.name !in m
    ensures cmd.name in RegisterSpec(m, cmd).1 && RegisterSpec(m, cmd).1[cmd.name] == cmd
    ensures RegisterSpec(m, cmd).1 != m
  {
  }

  /** A command whose alias repeats its own name panics after the name is in. */
  lemma SelfAliasWitness()
    ensures var cmd := Command("stock", "", "", "", ["stock"], Some(0));
      RegisterSpec(map[], cmd) == (Some(AliasTaken("stock")), map["stock" := cmd])
  {
    var cmd := Command("stock", "", "", "", ["stock"], Some(0));
    var m1 := map[][cmd.name := cmd];
    assert cmd.aliases[0] in m1;
    assert AddAliases(m1, cmd, cmd.aliases) == (Some("stock"), m1);
  }

  /** What `Dispatch` does: print help, report an unknown command, or run a
      command with the remaining arguments (the run's error is returned). */
  datatype Dispatched = ShowHelp | Unknown(name: String) | Invoke(cmd: Command, args: seq<String>)

  const HelpFlag: String := "--help"
  const ShortHelpFlag: String := "-h"

  function Dispatch(m: map<String, Command>, args: seq<String>): (d: Dispatched)
    ensures d.ShowHelp? <==> args == [] || args[0] == HelpFlag || args[0] == ShortHelpFlag
    ensures d.Unknown? <==> args != [] && args[0] != HelpFlag && args[0] != ShortHelpFlag && args[0] !in m
    ensures d.Unknown? ==> d.name == args[0]
    ensures d.Invoke? ==> args != [] && args[0] in m && d.cmd == m[args[0]] && d.args == args[1..]
  {
    if args == [] || args[0] == HelpFlag || args[0] == ShortHelpFlag then ShowHelp
    else if args[0] !in m then Unknown(args[0])
    else Invoke(m[args[0]], args[1..])
  }

  /** After a successful registration, an alias dispatches to the command's
      own handler. */
  lemma AliasDispatches(m: map<String, Command>, cmd: Command, alias: String, rest: seq<String>)
    requires RegisterSpec(m, cmd).0.None?
    requires alias in cmd.aliases && alias != [] && alias != HelpFlag && alias != ShortHelpFlag
    ensures Dispatch(RegisterSpec(m, cmd).1, [alias] + rest) == Invoke(cmd.(name := alias), rest)
  {
    RegisteredShape(m, cmd);
    assert ([alias] + rest)[1..] == rest;
  }

  /** The process-wide command table. */
  class CommandTable {
    var commands: map<String, Command>

    constructor()
      ensures commands == map[]
    {
      commands := map[];
    }

    /** Register; a panic is returned as a value, with the table left as the
        panic leaves it. */
    method Register(cmd: Command) returns (panic: Option<Panic>)
      modifies this
      ensures (panic, commands) == RegisterSpec(old(commands), cmd)
    {
      if cmd.name == [] || cmd.run.None? {
        return Some(MissingNameOrRun);
      }
      if cmd.name in commands {
        return Some(NameTaken(cmd.name));
      }
      commands := commands[cmd.name := cmd];
      ghost var start := commands;
      var i := 0;
      while i < |cmd.aliases|
        invariant 0 <= i <= |cmd.aliases|
        invariant AddAliases(commands, cmd, cmd.aliases[i..]) == AddAliases(start, cmd, cmd.aliases)
      {
        var alias := cmd.aliases[i];
        assert cmd.aliases[i..][1..] == cmd.aliases[i + 1..];
        if alias != [] {
          if alias in commands {
            return Some(AliasTaken(alias));
          }
          commands := commands[alias := cmd.(name := alias)];
        }
        i := i + 1;
      }
      panic := None;
    }
  }
}
