/**
 * A command made of sub-commands. The first word of the argument text names the
 * sub-command; if that sub-command has a parser, the whole argument text is parsed
 * first, and a parse error is answered with one message holding the error and the
 * sub-command's usage instead of running it.
 *
 * Sub-command handlers are code this model cannot see: they are functions of their
 * inputs. Sending a message is recorded in a ghost outbox.
 */
module CommandGroups {
  import opened Wrappers
  import opened Text
  import opened ParserBuilder
  import opened ParserImpl
  import J = Jda

  /**
   * What a sub-command's handler is told: where (`Ch` is a guild text channel or a private
   * channel), by whom, the message, the argument text and the parsed arguments (null when none).
   */
  datatype Invocation<Ch> = Invocation(channel: Ch, author: J.User, fullMessage: J.Message, args: string, customArgs: Option<seq<Value>>)

  /**
   * A sub-command: its key, its usage text, its parser (a built grammar, or none), and
   * its two handlers, each returning whether the command was handled.
   */
  datatype Command = Command(
    key: string,
    usage: string,
    customParser: Option<Grammar>,
    handleGuild: Invocation<J.Scope> -> bool,
    handlePrivate: Invocation<J.PrivateChannel> -> bool)

  /** A registered sub-command with the parser it reported when the group was built. */
  datatype Entry = Entry(command: Command, parser: Option<Grammar>)

  /** A message sent by the group, and where to. */
  datatype Sent = ToGuild(channel: J.Channel, text: string) | ToPrivate(privateChannel: J.PrivateChannel, text: string)

  /** What the group does with a call. */
  datatype Decision<Ch> =
    | Unhandled
    | Reject(message: string)
    | Invoke(command: Command, call: Invocation<Ch>)

  /** The sub-command map the constructor fills: each key maps to the last sub-command with that key. */
  function Registry(subs: seq<Command>): (r: map<string, Entry>)
    ensures forall k :: k in r ==> r[k].command.key == k && r[k].parser == r[k].command.customParser
  {
    if subs == [] then map[]
    else
      var last := subs[|subs| - 1];
      Registry(subs[..|subs| - 1])[last.key := Entry(last, last.customParser)]
  }

  /** Every registered parser is a grammar whose optional markers are balanced, as `build` produces. */
  ghost predicate ParsersBuilt(subCommands: map<string, Entry>) {
    forall k :: k in subCommands && subCommands[k].parser.Some? ==> Balanced(subCommands[k].parser.value.tokens)
  }

  ghost predicate CommandsBuilt(subs: seq<Command>) {
    forall i :: 0 <= i < |subs| && subs[i].customParser.Some? ==> Balanced(subs[i].customParser.value.tokens)
  }

  /** The text that answers a parse error: the error, then the sub-command's usage. */
  function UsageReply(error: string, usage: string): string {
    error + "\nUsage:\n" + usage
  }

  /**
   * The routing shared by the guild and the private handler: no argument text or an
   * unknown first word is not handled; a parser error is answered; otherwise the
   * sub-command runs with the original argument text and either the parsed arguments
   * or, without a parser, the incoming ones.
   */
  function Decide<Ch>(
    subCommands: map<string, Entry>, regex: (string, string) -> MatchOutcome, jda: J.Directory,
    scope: Option<J.Scope>, call: Invocation<Ch>): (d: Decision<Ch>)
    requires ParsersBuilt(subCommands)
    ensures call.args == [] ==> d.Unhandled?
    ensures call.args != [] && TakeWord(call.args) !in subCommands ==> d.Unhandled?
    ensures d.Invoke? ==> TakeWord(call.args) in subCommands && d.command == subCommands[TakeWord(call.args)].command
    ensures d.Invoke? ==> d.call.(customArgs := call.customArgs) == call
    ensures d.Reject? ==> TakeWord(call.args) in subCommands && subCommands[TakeWord(call.args)].parser.Some?
  {
    if |call.args| == 0 then Unhandled
    else
      var key := TakeWord(call.args);
      match J.Lookup(subCommands, key)
      case None => Unhandled
      case Some(entry) =>
        match entry.parser
        case None => Invoke(entry.command, call)
        case Some(g) =>
          var result := Resolve(g.tokens, regex(g.pattern, call.args), call.args, jda, scope);
          if result.error.Some? then Reject(UsageReply(result.error.value, entry.command.usage))
          else Invoke(entry.command, call.(customArgs := result.args))
  }

  class CommandGroup {
    var subCommands: map<string, Entry>
    ghost var outbox: seq<Sent>

    ghost predicate Valid()
      reads this
    {
      ParsersBuilt(subCommands)
    }

    /** Registers the sub-commands in order; a later key replaces an earlier one. */
    constructor (subs: seq<Command>)
      requires CommandsBuilt(subs)
      ensures Valid()
      ensures subCommands == Registry(subs) && outbox == []
    {
      var registered: map<string, Entry> := map[];
      var i := 0;
      while i < |subs|
        invariant 0 <= i <= |subs|
        invariant registered == Registry(subs[..i])
        invariant ParsersBuilt(registered)
      {
        var subCommand := subs[i];
        assert subs[..i + 1][..i] == subs[..i];
        registered := registered[subCommand.key := Entry(subCommand, subCommand.customParser)];
        i := i + 1;
      }
      assert subs[..i] == subs;
      subCommands := registered;
      outbox := [];
    }

    /** A command group has no parser of its own. */
    function GetCustomParser(): (p: Option<Grammar>)
      ensures p.None?
    {
      None
    }

    /**
     * A command from a guild text channel: the channel is the parser's scope, and a
     * parse error is sent to that channel.
     */
    method HandleGuild(channel: J.Scope, author: J.User, fullMessage: J.Message, args: string, customArgs: Option<seq<Value>>,
                       regex: (string, string) -> MatchOutcome, jda: J.Directory)
      returns (handled: bool)
      requires Valid()
      modifies this`outbox
      ensures
        var d := Decide(subCommands, regex, jda, Some(channel), Invocation(channel, author, fullMessage, args, customArgs));
        && (d.Unhandled? ==> !handled && outbox == old(outbox))
        && (d.Reject? ==> handled && outbox == old(outbox) + [ToGuild(channel.channel, d.message)])
        && (d.Invoke? ==> handled == d.command.handleGuild(d.call) && outbox == old(outbox))
    {
      if |args| == 0 {
        return false;
      }
      var key := TakeWord(args);
      if key !in subCommands {
        return false;
      }
      var sub := subCommands[key];
      var parsed := customArgs;
      if sub.parser.Some? {
        var parserResult := ParseArgs(sub.parser.value, regex, args, jda, Some(channel));
        if parserResult.error.Some? {
          outbox := outbox + [ToGuild(channel.channel, UsageReply(parserResult.error.value, sub.command.usage))];
          return true;
        }
        parsed := parserResult.args;
      }
      handled := sub.command.handleGuild(Invocation(channel, author, fullMessage, args, parsed));
    }

    /**
     * A command from a private channel: the parser has no scope, and a parse error is
     * sent to the private channel.
     */
    method HandlePrivate(channel: J.PrivateChannel, author: J.User, fullMessage: J.Message, args: string, customArgs: Option<seq<Value>>,
                         regex: (string, string) -> MatchOutcome, jda: J.Directory)
      returns (handled: bool)
      requires Valid()
      modifies this`outbox
      ensures
        var d := Decide(subCommands, regex, jda, None, Invocation(channel, author, fullMessage, args, customArgs));
        && (d.Unhandled? ==> !handled && outbox == old(outbox))
        && (d.Reject? ==> handled && outbox == old(outbox) + [ToPrivate(channel, d.message)])
        && (d.Invoke? ==> handled == d.command.handlePrivate(d.call) && outbox == old(outbox))
    {
      if |args| == 0 {
        return false;
      }
      var key := TakeWord(args);
      if key !in subCommands {
        return false;
      }
      var sub := subCommands[key];
      var parsed := customArgs;
      if sub.parser.Some? {
        var parserResult := ParseArgs(sub.parser.value, regex, args, jda, None);
        if parserResult.error.Some? {
          outbox := outbox + [ToPrivate(channel, UsageReply(parserResult.error.value, sub.command.usage))];
          return true;
        }
        parsed := parserResult.args;
      }
      handled := sub.command.handlePrivate(Invocation(channel, author, fullMessage, args, parsed));
    }
  }

  // ---------------------------------------------------------------------------
  // Properties
  // ---------------------------------------------------------------------------

  /** A key is registered exactly when some sub-command has it. */
  lemma {:induction false} RegistryKeys(subs: seq<Command>, key: string)
    ensures key in Registry(subs) <==> exists i :: 0 <= i < |subs| && subs[i].key == key
  {
    if subs != [] {
      var init := subs[..|subs| - 1];
      RegistryKeys(init, key);
      if key in Registry(init) {
        var i :| 0 <= i < |init| && init[i].key == key;
        assert subs[i] == init[i];
      }
      if exists i :: 0 <= i < |subs| && subs[i].key == key {
        var i :| 0 <= i < |subs| && subs[i].key == key;
        if i < |init| {
          assert init[i] == subs[i];
        }
      }
    }
  }

  /** A registered key maps to the last sub-command that has it (a later `put` replaces an earlier one). */
  lemma {:induction false} RegistryLastWins(subs: seq<Command>, key: string)
    ensures key in Registry(subs) ==>
      exists i :: (0 <= i < |subs| && subs[i].key == key
        && Registry(subs)[key] == Entry(subs[i], subs[i].customParser)
        && forall j :: i < j < |subs| ==> subs[j].key != key)
  {
    if subs != [] {
      var init := subs[..|subs| - 1];
      var last := subs[|subs| - 1];
      RegistryLastWins(init, key);
      if last.key == key {
        assert Registry(subs)[key] == Entry(last, last.customParser);
      } else if key in Registry(init) {
        var i :| 0 <= i < |init| && init[i].key == key && Registry(init)[key] == Entry(init[i], init[i].customParser)
          && forall j :: i < j < |init| ==> init[j].key != key;
        assert subs[i] == init[i];
        assert forall j :: i < j < |subs| ==> subs[j].key != key by {
          forall j | i < j < |subs| ensures subs[j].key != key {
            if j < |init| {
              assert subs[j] == init[j];
            }
          }
        }
      }
    }
  }

  /** The sub-command is chosen by the first word: a key followed by whitespace and anything, or the key alone. */
  lemma RoutesByFirstWord<Ch>(
    subCommands: map<string, Entry>, regex: (string, string) -> MatchOutcome, jda: J.Directory,
    scope: Option<J.Scope>, call: Invocation<Ch>, key: string, rest: string)
    requires ParsersBuilt(subCommands)
    requires key != [] && NoSpace(key) && key in subCommands && subCommands[key].parser.None?
    requires call.args == key || (rest != [] && IsSpace(rest[0]) && call.args == key + rest)
    ensures Decide(subCommands, regex, jda, scope, call) == Invoke(subCommands[key].command, call)
  {
    if call.args == key {
      TakeWordOfWord(key);
    } else {
      TakeWordBeforeSpace(key, rest);
    }
  }

  /**
   * With a parser, the sub-command runs exactly when the whole argument text parses,
   * and then receives the parser's arguments unchanged, one per value slot of its
   * grammar, with everything else of the call as it came in; otherwise the reply
   * is the parser's error followed by the usage.
   */
  lemma ParsedBeforeRun<Ch>(
    subCommands: map<string, Entry>, regex: (string, string) -> MatchOutcome, jda: J.Directory,
    scope: Option<J.Scope>, call: Invocation<Ch>)
    requires ParsersBuilt(subCommands)
    requires call.args != [] && TakeWord(call.args) in subCommands
    requires subCommands[TakeWord(call.args)].parser.Some?
    ensures
      var entry := subCommands[TakeWord(call.args)];
      var g := entry.parser.value;
      var result := Resolve(g.tokens, regex(g.pattern, call.args), call.args, jda, scope);
      var d := Decide(subCommands, regex, jda, scope, call);
      && (d.Invoke? <==> result.error.None?)
      && (d.Invoke? ==> d.call.customArgs == result.args && d.call.(customArgs := call.customArgs) == call)
      && (d.Invoke? ==> d.call.customArgs.Some? && |d.call.customArgs.value| == |ValueTokens(g.tokens)|)
      && (d.Reject? ==> d.message == UsageReply(result.error.value, entry.command.usage))
  {
  }
}
