/** The /luckperms command on the host: its names, how its arguments reach LuckPerms'
    command manager, and its registration with a command registry. */
module Commands {
  import opened Host
  import opened Senders

  /** The first position of a space in `s`. */
  function IndexOfSpace(s: string): (i: Option<nat>)
    ensures i.None? <==> ' ' !in s
    ensures i.Some? ==> i.value < |s| && s[i.value] == ' ' && ' ' !in s[..i.value]
  {
    if s == [] then None
    else if s[0] == ' ' then Some(0)
    else
      match IndexOfSpace(s[1..])
      case None => None
      case Some(k) =>
        assert s[..k + 1] == [s[0]] + s[1..][..k];
        Some(k + 1)
  }

  /** `input.split(" ", 2)`: the text before the first space and the text after it, or the
      whole input when it has no space (empty pieces are kept). */
  function SplitOnFirstSpace(input: string): (parts: seq<string>)
    ensures 1 <= |parts| <= 2
    ensures |parts| == 1 <==> ' ' !in input
    ensures |parts| == 1 ==> parts[0] == input
    ensures |parts| == 2 ==> ' ' !in parts[0] && parts[0] + " " + parts[1] == input
  {
    match IndexOfSpace(input)
    case None => [input]
    case Some(i) =>
      assert input == input[..i] + " " + input[i + 1..];
      [input[..i], input[i + 1..]]
  }

  /** The argument text handed to tab completion: everything after the first space, or the
      empty string when there is none. */
  function SuggestionArgs(input: string): (args: string)
    ensures ' ' !in input ==> args == ""
    ensures ' ' in input ==> exists head :: ' ' !in head && input == head + " " + args
  {
    var split := SplitOnFirstSpace(input);
    if |split| > 1 then split[1] else ""
  }

  /** The command label before the first space, whatever it is, is dropped: the rest after the first space survives intact,
      spaces and all. */
  lemma SuggestionArgsDropLabel(head: string, rest: string)
    requires ' ' !in head
    ensures SuggestionArgs(head + " " + rest) == rest
  {
    var input := head + " " + rest;
    assert input[|head|] == ' ';
    var parts := SplitOnFirstSpace(input);
    assert |parts| == 2;
    var i := IndexOfSpace(input).value;
    assert parts[0] == head;
    assert input[i + 1..] == rest;
  }

  /** A label followed by exactly one space asks for completions of nothing. */
  lemma TrailingSpaceGivesEmptyArgs(head: string)
    requires ' ' !in head
    ensures SuggestionArgs(head + " ") == ""
  {
  }

  /** The command registered with the host. */
  class LuckPermsCommand {
    const name: string
    const aliases: seq<string>

    constructor ()
      ensures name == "luckperms"
      ensures aliases == ["lp", "perm", "perms", "permission", "permissions"]
    {
      name := "luckperms";
      aliases := ["lp", "perm", "perms", "permission", "permissions"];
    }
  }

  /** Where the registry forwards its calls: the host's command manager, or a pair of
      consumers supplied by the embedding server (identified by opaque numbers). */
  datatype RegistryTarget = MinestomCommandManager | Consumers(register: nat, unregister: nat)

  datatype RegistryCall = Register(command: LuckPermsCommand) | Unregister(command: LuckPermsCommand)

  /** A command registry, as the calls it has received. */
  class CommandRegistry {
    const target: RegistryTarget
    var calls: seq<RegistryCall>

    constructor (target: RegistryTarget)
      ensures this.target == target && calls == []
    {
      this.target := target;
      calls := [];
    }

    method RegisterCommand(command: LuckPermsCommand)
      modifies this
      ensures calls == old(calls) + [Register(command)]
    {
      calls := calls + [Register(command)];
    }

    method UnregisterCommand(command: LuckPermsCommand)
      modifies this
      ensures calls == old(calls) + [Unregister(command)]
    {
      calls := calls + [Unregister(command)];
    }
  }

  /** One call of `process`: the sender, the command name it typed and the raw argument array
      (tokenising it belongs to the common command manager, which is not part of this model). */
  datatype Execution = Execution(sender: CommandSender, commandName: string, args: seq<string>)

  /** The host's suggestion object, as the entries added to it. */
  class Suggestion {
    var entries: seq<string>

    constructor ()
      ensures entries == []
    {
      entries := [];
    }

    method AddEntry(entry: string)
      modifies this
      ensures entries == old(entries) + [entry]
    {
      entries := entries + [entry];
    }
  }

  class MinestomCommandExecutor {
    const command: LuckPermsCommand
    const registry: CommandRegistry
    /** The commands passed on to the common command manager, in order. */
    var executions: seq<Execution>

    constructor (registry: CommandRegistry)
      ensures this.registry == registry && fresh(command) && executions == []
      ensures command.name == "luckperms"
    {
      this.registry := registry;
      command := new LuckPermsCommand();
      executions := [];
    }

    method RegisterWithHost()
      modifies registry
      ensures registry.calls == old(registry.calls) + [Register(command)]
    {
      registry.RegisterCommand(command);
    }

    method UnregisterFromHost()
      modifies registry
      ensures registry.calls == old(registry.calls) + [Unregister(command)]
    {
      registry.UnregisterCommand(command);
    }

    /** The command typed with no arguments: processed with an empty argument array. */
    method DefaultExecutor(sender: CommandSender, commandName: string)
      modifies this
      ensures executions == old(executions) + [Execution(sender, commandName, [])]
    {
      executions := executions + [Execution(sender, commandName, [])];
    }

    /** The command typed with arguments: the parsed `params` array is passed on as it is. */
    method SyntaxExecutor(sender: CommandSender, commandName: string, params: seq<string>)
      modifies this
      ensures executions == old(executions) + [Execution(sender, commandName, params)]
    {
      executions := executions + [Execution(sender, commandName, params)];
    }

    /** Tab completion: `complete` stands for tokenising the argument text and asking the
        common command manager for completions on behalf of the sender. Every completion is
        added, in order, as an entry. */
    method SuggestionCallback(sender: CommandSender, input: string, complete: (CommandSender, string) -> seq<string>, suggestion: Suggestion)
      modifies suggestion
      ensures suggestion.entries == old(suggestion.entries) + complete(sender, SuggestionArgs(input))
    {
      var completions := complete(sender, SuggestionArgs(input));
      for i := 0 to |completions|
        invariant suggestion.entries == old(suggestion.entries) + completions[..i]
      {
        suggestion.AddEntry(completions[i]);
        assert completions[..i + 1] == completions[..i] + [completions[i]];
      }
      assert completions[..|completions|] == completions;
    }
  }

  /** Registering and then unregistering hands the registry one and the same command. */
  method RegisterThenUnregister(executor: MinestomCommandExecutor)
    modifies executor.registry
    ensures executor.registry.calls ==
      old(executor.registry.calls) + [Register(executor.command), Unregister(executor.command)]
  {
    executor.RegisterWithHost();
    executor.UnregisterFromHost();
  }
}
