/**
 * The parser on the inputs of the repository's parser tests. The regular-expression
 * engine's verdict is written out for each input: whether the whole input matches the
 * grammar's pattern, and the text of each capture group (absent when the group did not
 * take part in the match).
 */
module ParserExamples {
  import opened Wrappers
  import opened ParserBuilder
  import opened ParserImpl
  import Text
  import J = Jda

  const u1 := J.User("1", "User")
  const u2 := J.User("2", "User")
  const u3 := J.User("3", "Userino")
  const t1 := J.TextChannel("1", "Text")
  const t2 := J.TextChannel("2", "Text")
  const t3 := J.TextChannel("3", "Texterino")
  const v1 := J.VoiceChannel("4", "Voice")
  const v2 := J.VoiceChannel("5", "Voice")
  const v3 := J.VoiceChannel("6", "Voicerino")

  /** Three users and six channels, two of each kind sharing a name. */
  const world := J.Directory(
    map["1" := u1, "2" := u2, "3" := u3],
    map["User" := [u1, u2], "Userino" := [u3]],
    map["1" := t1, "2" := t2, "3" := t3],
    map["4" := v1, "5" := v2, "6" := v3],
    map["Text" := [t1, t2], "Texterino" := [t3]],
    map["Voice" := [v1, v2], "Voicerino" := [v3]])

  function Parse(tokens: seq<ParserToken>, groups: seq<Option<string>>, input: string): ParserResult
    requires PrefixBalanced(tokens)
  {
    Resolve(tokens, MatchOutcome(true, groups), input, world, None)
  }

  /** A walk over one token is one step from the initial state. */
  lemma RunOne(ctx: Context, t: ParserToken)
    requires IsValue(t)
    ensures PrefixBalanced([t])
    ensures Run(ctx, [t]) == StepToken(ctx, State(0, [], []), t)
  {
    assert [t][..0] == [];
  }

  /** A walk over one more token: the walk so far, then one step unless it has stopped. */
  lemma RunSnoc(ctx: Context, ts: seq<ParserToken>, t: ParserToken)
    requires PrefixBalanced(ts) && Depth(ts) + Delta(t) >= 0
    ensures PrefixBalanced(ts + [t])
    ensures Run(ctx, ts).Stop? ==> Run(ctx, ts + [t]) == Run(ctx, ts)
    ensures Run(ctx, ts).Next? ==> t.OptionalEnd? ==> Run(ctx, ts).state.stack != []
    ensures Run(ctx, ts).Next? ==> Run(ctx, ts + [t]) == StepToken(ctx, Run(ctx, ts).state, t)
  {
    PrefixBalancedAppend(ts, t);
    assert (ts + [t])[..|ts|] == ts;
  }

  /** Parsing a matched input is the walk's outcome: its error, or its arguments. */
  lemma ParseOf(tokens: seq<ParserToken>, groups: seq<Option<string>>, input: string)
    requires PrefixBalanced(tokens)
    ensures var run := Run(Context(input, groups, world, None), tokens);
      Parse(tokens, groups, input) == if run.Stop? then ParserResult(None, Some(run.error)) else ParserResult(Some(run.state.out), None)
  {
  }

  /** The not-optional error for an argument number below ten, as the text the tests expect. */
  lemma NotOptionalText(n: nat, kind: string, expected: string)
    requires 0 < n < 10
    requires expected == "Argument " + [Text.DigitChar(n)] + " of type " + kind + " is not optional"
    ensures NotOptional(n, kind) == expected
  {
  }

  lemma DigitsValue512()
    ensures Text.DigitsValue("512") == 512
  {
    assert "512"[..2] == "51" && "51"[..1] == "5" && "5"[..0] == "";
  }

  /** A one-slot integer grammar over a non-empty capture yields Integer.parseInt's verdict. */
  lemma IntegerSlot(input: string, v: string)
    requires v != []
    ensures Text.ParseInt(v).Some? ==> Parse([IntegerArg], [Some(v)], input) == ParserResult(Some([Int(Text.ParseInt(v).value)]), None)
    ensures Text.ParseInt(v).None? ==> Parse([IntegerArg], [Some(v)], input) == ParserResult(None, Some(NotParsed(1, "Integer")))
  {
    RunOne(Context(input, [Some(v)], world, None), IntegerArg);
  }

  lemma IntegerPlain()
    ensures Parse([IntegerArg], [Some("512")], "512") == ParserResult(Some([Int(512)]), None)
  {
    IntegerSlot("512", "512");
    DigitsValue512();
  }

  lemma IntegerPlusSign()
    ensures Parse([IntegerArg], [Some("+512")], "+512") == ParserResult(Some([Int(512)]), None)
  {
    IntegerSlot("+512", "+512");
    DigitsValue512();
  }

  lemma IntegerMinusSign()
    ensures Parse([IntegerArg], [Some("-512")], "-512") == ParserResult(Some([Int(-512)]), None)
  {
    IntegerSlot("-512", "-512");
    DigitsValue512();
  }

  /** A one-slot grammar whose group is blank: the slot is the missing first argument. */
  lemma MissingFirst(ctx: Context, t: ParserToken)
    requires IsValue(t) && Width(t) == 1 && ctx.groups == [None]
    ensures PrefixBalanced([t])
    ensures Run(ctx, [t]) == Stop(NotOptional(1, Kind(t)))
  {
    RunOne(ctx, t);
    assert Read(ctx, 0).None?;
  }

  lemma IntegerMissing()
    ensures Parse([IntegerArg], [None], "") == ParserResult(None, Some("Argument 1 of type Integer is not optional"))
  {
    NotOptionalText(1, "Integer", "Argument 1 of type Integer is not optional");
    MissingFirst(Context("", [None], world, None), IntegerArg);
    ParseOf([IntegerArg], [None], "");
  }

  /** Float.parseFloat on "8.5": eight, then five tenths. */
  lemma EightAndAHalf()
    ensures Text.ParseFloat("8.5") == Some(8.5)
    ensures Text.ParseFloat("-8.5") == Some(-8.5)
  {
    assert "-8.5"[1..] == "8.5";
    assert Text.LeadingDigits("8.5") == 1;
    assert "8.5"[..1] == "8" && "8.5"[1..] == ".5" && ".5"[1..] == "5";
    assert Text.DigitsValue("8") == 8 && Text.DigitsValue("5") == 5 by {
      assert "8"[..0] == "" && "5"[..0] == "";
    }
  }

  /** Float.parseFloat on "+.5": no whole part, five tenths. */
  lemma PlusHalf()
    ensures Text.ParseFloat("+.5") == Some(0.5)
  {
    assert "+.5"[1..] == ".5" && ".5"[1..] == "5";
    assert Text.LeadingDigits(".5") == 0;
    assert Text.DigitsValue("5") == 5 by {
      assert "5"[..0] == "";
    }
  }

  /** A one-slot float grammar over a non-empty capture yields Float.parseFloat's verdict. */
  lemma FloatSlot(input: string, v: string)
    requires v != []
    ensures Text.ParseFloat(v).Some? ==> Parse([FloatArg], [Some(v)], input) == ParserResult(Some([Float(Text.ParseFloat(v).value)]), None)
    ensures Text.ParseFloat(v).None? ==> Parse([FloatArg], [Some(v)], input) == ParserResult(None, Some(NotParsed(1, "Float")))
  {
    RunOne(Context(input, [Some(v)], world, None), FloatArg);
  }

  /** A whole number is a float too. */
  lemma FloatWhole()
    ensures Parse([FloatArg], [Some("512")], "512") == ParserResult(Some([Float(512.0)]), None)
  {
    FloatSlot("512", "512");
    DigitsValue512();
    assert Text.ParseInt("512") == Some(512);
    Text.IntIsFloat("512");
  }

  lemma FloatDecimal()
    ensures Parse([FloatArg], [Some("8.5")], "8.5") == ParserResult(Some([Float(8.5)]), None)
  {
    FloatSlot("8.5", "8.5");
    EightAndAHalf();
  }

  lemma FloatNegative()
    ensures Parse([FloatArg], [Some("-8.5")], "-8.5") == ParserResult(Some([Float(-8.5)]), None)
  {
    FloatSlot("-8.5", "-8.5");
    EightAndAHalf();
  }

  lemma FloatFractionOnly()
    ensures Parse([FloatArg], [Some("+.5")], "+.5") == ParserResult(Some([Float(0.5)]), None)
  {
    FloatSlot("+.5", "+.5");
    PlusHalf();
  }

  /** A one-slot grammar over a user slot whose groups are not both blank yields the lookup's outcome. */
  lemma UserSlot(input: string, s: Option<string>, s2: Option<string>, scope: Option<J.Scope>)
    requires !(Blank(s) && Blank(s2))
    ensures ResolveUser(world, scope, s, s2).Ok? ==>
      Resolve([UserArg], MatchOutcome(true, [s, s2]), input, world, scope) == ParserResult(Some([UserRef(ResolveUser(world, scope, s, s2).value)]), None)
    ensures ResolveUser(world, scope, s, s2).Err? ==>
      Resolve([UserArg], MatchOutcome(true, [s, s2]), input, world, scope) == ParserResult(None, Some(ResolveUser(world, scope, s, s2).error))
  {
    var ctx := Context(input, [s, s2], world, scope);
    RunOne(ctx, UserArg);
    assert Read(ctx, 0) == s && Read(ctx, 1) == s2;
  }

  /** The same for a channel slot. */
  lemma ChannelSlot(input: string, s: Option<string>, s2: Option<string>)
    requires !(Blank(s) && Blank(s2))
    ensures ResolveChannel(world, None, s, s2).Ok? ==>
      Parse([ChannelArg], [s, s2], input) == ParserResult(Some([ChannelRef(ResolveChannel(world, None, s, s2).value)]), None)
    ensures ResolveChannel(world, None, s, s2).Err? ==>
      Parse([ChannelArg], [s, s2], input) == ParserResult(None, Some(ResolveChannel(world, None, s, s2).error))
  {
    var ctx := Context(input, [s, s2], world, None);
    RunOne(ctx, ChannelArg);
    assert Read(ctx, 0) == s && Read(ctx, 1) == s2;
  }

  lemma FloatMissing()
    ensures Parse([FloatArg], [None], "") == ParserResult(None, Some("Argument 1 of type Float is not optional"))
  {
    NotOptionalText(1, "Float", "Argument 1 of type Float is not optional");
    MissingFirst(Context("", [None], world, None), FloatArg);
    ParseOf([FloatArg], [None], "");
  }

  /** The float slot captures text without a digit, which the conversion rejects. */
  lemma FloatWithoutDigit()
    ensures Parse([FloatArg], [Some("+.")], "+.") == ParserResult(None, Some(NotParsed(1, "Float")))
  {
    FloatSlot("+.", "+.");
    assert Text.ParseFloat("+.").None? by {
      assert Text.LeadingDigits(".") == 0;
      assert "+."[1..] == ".";
    }
  }

  /** The integer slot captures any run of digits; one beyond the 32-bit range is rejected by the conversion. */
  lemma IntegerOutOfRange()
    ensures Parse([IntegerArg], [Some(Text.NatToString(0x8000_0000))], Text.NatToString(0x8000_0000))
      == ParserResult(None, Some(NotParsed(1, "Integer")))
  {
    var s := Text.NatToString(0x8000_0000);
    IntegerSlot(s, s);
    Text.ParseIntOfString(0x8000_0000);
  }

  /** A mention is looked up by id: a known id gives its user. */
  lemma UserById()
    ensures Parse([UserArg], [Some("1"), None], "<@1>") == ParserResult(Some([UserRef(u1)]), None)
  {
    assert Text.DigitsValue("1") == 1 by {
      assert "1"[..0] == "";
    }
    UserSlot("<@1>", Some("1"), None, None);
  }

  /** A nickname mention carries the id the same way. */
  lemma UserByNicknameMention()
    ensures Parse([UserArg], [Some("2"), None], "<@!2>") == ParserResult(Some([UserRef(u2)]), None)
  {
    assert Text.DigitsValue("2") == 2 by {
      assert "2"[..0] == "";
    }
    UserSlot("<@!2>", Some("2"), None, None);
  }

  /** An unknown id gives the id error. */
  lemma UserIdUnknown()
    ensures Parse([UserArg], [Some("5"), None], "<@5>") == ParserResult(None, Some(USER_ID_UNKNOWN))
  {
    assert Text.DigitsValue("5") == 5 by {
      assert "5"[..0] == "";
    }
    UserSlot("<@5>", Some("5"), None, None);
  }

  /** A name that no user has. */
  lemma UserNameUnknown()
    ensures Parse([UserArg], [None, Some("Use")], "Use") == ParserResult(None, Some(USER_NAME_UNKNOWN))
  {
    UserSlot("Use", None, Some("Use"), None);
  }

  /** A name two users share, outside a guild. */
  lemma UserNameShared()
    ensures Parse([UserArg], [None, Some("User")], "User") == ParserResult(None, Some(USERS_AMBIGUOUS))
  {
    UserSlot("User", None, Some("User"), None);
  }

  /** A name one user has. */
  lemma UserNameUnique()
    ensures Parse([UserArg], [None, Some("Userino")], "Userino") == ParserResult(Some([UserRef(u3)]), None)
  {
    UserSlot("Userino", None, Some("Userino"), None);
  }

  /** In a guild, a name two users share is resolved to the one who is a member there. */
  lemma UserNarrowedToGuild()
    ensures
      var here := J.Scope(t1, J.Guild("10", {u1}, {t1}, {}));
      Resolve([UserArg], MatchOutcome(true, [None, Some("User")]), "User", world, Some(here))
        == ParserResult(Some([UserRef(u1)]), None)
  {
    var here := J.Scope(t1, J.Guild("10", {u1}, {t1}, {}));
    var p := (u: J.User) => u in here.guild.users;
    assert J.Keep([u1, u2], p) == [u1] by {
      assert [u1, u2][1..] == [u2] && [u2][1..] == [];
    }
    assert ResolveUser(world, Some(here), None, Some("User")) == Ok(u1);
    UserSlot("User", None, Some("User"), Some(here));
  }

  /** A channel id is looked up among text channels first. */
  lemma TextChannelById()
    ensures Parse([ChannelArg], [Some("1"), None], "<#1>") == ParserResult(Some([ChannelRef(t1)]), None)
  {
    assert Text.DigitsValue("1") == 1 by {
      assert "1"[..0] == "";
    }
    ChannelSlot("<#1>", Some("1"), None);
  }

  /** An id no text channel has is looked up among voice channels. */
  lemma VoiceChannelById()
    ensures Parse([ChannelArg], [Some("4"), None], "<#4>") == ParserResult(Some([ChannelRef(v1)]), None)
  {
    assert Text.DigitsValue("4") == 4 by {
      assert "4"[..0] == "";
    }
    ChannelSlot("<#4>", Some("4"), None);
  }

  lemma ChannelIdUnknown()
    ensures Parse([ChannelArg], [Some("7"), None], "<#7>") == ParserResult(None, Some(CHANNEL_ID_UNKNOWN))
  {
    assert Text.DigitsValue("7") == 7 by {
      assert "7"[..0] == "";
    }
    ChannelSlot("<#7>", Some("7"), None);
  }

  lemma ChannelNameUnknown()
    ensures Parse([ChannelArg], [None, Some("Tex")], "Tex") == ParserResult(None, Some(CHANNEL_NAME_UNKNOWN))
  {
    ChannelSlot("Tex", None, Some("Tex"));
  }

  /** Two text channels share the name. */
  lemma TextChannelNameShared()
    ensures Parse([ChannelArg], [None, Some("Text")], "Text") == ParserResult(None, Some(CHANNELS_AMBIGUOUS))
  {
    assert J.ByName(world.textChannelsByName, Some("Text")) + J.ByName(world.voiceChannelsByName, Some("Text")) == [t1, t2];
    ChannelSlot("Text", None, Some("Text"));
  }

  /** Two voice channels share the name. */
  lemma VoiceChannelNameShared()
    ensures Parse([ChannelArg], [None, Some("Voice")], "Voice") == ParserResult(None, Some(CHANNELS_AMBIGUOUS))
  {
    assert J.ByName(world.textChannelsByName, Some("Voice")) + J.ByName(world.voiceChannelsByName, Some("Voice")) == [v1, v2];
    ChannelSlot("Voice", None, Some("Voice"));
  }

  lemma TextChannelNameUnique()
    ensures Parse([ChannelArg], [None, Some("Texterino")], "Texterino") == ParserResult(Some([ChannelRef(t3)]), None)
  {
    ChannelSlot("Texterino", None, Some("Texterino"));
  }

  lemma VoiceChannelNameUnique()
    ensures Parse([ChannelArg], [None, Some("Voicerino")], "Voicerino") == ParserResult(Some([ChannelRef(v3)]), None)
  {
    ChannelSlot("Voicerino", None, Some("Voicerino"));
  }

  /** A whole input the integer grammar does not match: the usage error lists the one slot. */
  lemma IntegerNoMatch()
    ensures Resolve([IntegerArg], MatchOutcome(false, [None]), "hey", world, None).error
      == Some(USAGE_PREFIX + " INTEGER`")
  {
    assert [IntegerArg][..0] == [];
    assert UsageLabels([IntegerArg]) == " INTEGER";
    assert USAGE_PREFIX + " INTEGER" + "`" == USAGE_PREFIX + " INTEGER`";
  }

  /** The grammar `addString().startOptionalBlock().addLiteral("for").addSplitString().build()`. */
  const STRING_THEN_OPTIONAL: seq<ParserToken> := [StringArg, OptionalStart, SplitStringArg, OptionalEnd]

  /** The grammar `addString().addLiteral("for").addSplitString().build()`. */
  const STRING_THEN_REQUIRED: seq<ParserToken> := [StringArg, SplitStringArg]

  lemma StringThenOptionalBalanced()
    ensures PrefixBalanced(STRING_THEN_OPTIONAL)
  {
    var ts := [StringArg];
    PrefixBalancedAppend([], StringArg);
    assert [] + [StringArg] == ts;
    PrefixBalancedAppend(ts, OptionalStart);
    PrefixBalancedAppend(ts + [OptionalStart], SplitStringArg);
    PrefixBalancedAppend(ts + [OptionalStart] + [SplitStringArg], OptionalEnd);
    assert ts + [OptionalStart] + [SplitStringArg] + [OptionalEnd] == STRING_THEN_OPTIONAL;
  }

  /**
   * The walk of the optional-tail grammar on any two groups with a present first one:
   * the string, then the tail's words, or no words when the tail's group is blank.
   */
  lemma OptionalTailWalk(ctx: Context)
    requires |ctx.groups| == 2 && ctx.groups[0].Some? && ctx.groups[0].value != []
    ensures PrefixBalanced(STRING_THEN_OPTIONAL)
    ensures Run(ctx, STRING_THEN_OPTIONAL) == Next(State(2, [], [
      Str(ctx.groups[0].value),
      Words(if Blank(ctx.groups[1]) then [] else Text.SplitWs(ctx.groups[1].value))]))
  {
    StringThenOptionalBalanced();
    var first := Str(ctx.groups[0].value);
    var tail := Words(if Blank(ctx.groups[1]) then [] else Text.SplitWs(ctx.groups[1].value));
    var ts := [StringArg];
    RunOne(ctx, StringArg);
    assert Run(ctx, ts) == Next(State(1, [], [first]));
    RunSnoc(ctx, ts, OptionalStart);
    assert Run(ctx, ts + [OptionalStart]) == Next(State(1, [false], [first]));
    RunSnoc(ctx, ts + [OptionalStart], SplitStringArg);
    assert Read(ctx, 1) == ctx.groups[1];
    assert Run(ctx, ts + [OptionalStart] + [SplitStringArg]) == Next(State(2, [!Blank(ctx.groups[1])], [first, tail]));
    RunSnoc(ctx, ts + [OptionalStart] + [SplitStringArg], OptionalEnd);
    assert ts + [OptionalStart] + [SplitStringArg] + [OptionalEnd] == STRING_THEN_OPTIONAL;
  }

  /** Without the optional tail, the split-string argument is the empty word list. */
  lemma OptionalTailAbsent()
    ensures PrefixBalanced(STRING_THEN_OPTIONAL)
    ensures Parse(STRING_THEN_OPTIONAL, [Some("Hello World"), None], "Hello World")
      == ParserResult(Some([Str("Hello World"), Words([])]), None)
  {
    OptionalTailWalk(Context("Hello World", [Some("Hello World"), None], world, None));
  }

  lemma TwoWords()
    ensures Text.SplitWs("everyone involved") == ["everyone", "involved"]
  {
    var words := ["everyone", "involved"];
    assert Text.JoinSpaced(words) == "everyone involved";
    Text.SplitJoin(words);
  }

  /** With the tail, its text is split into words. */
  lemma OptionalTailPresent()
    ensures PrefixBalanced(STRING_THEN_OPTIONAL)
    ensures Parse(STRING_THEN_OPTIONAL, [Some("Hello World"), Some("everyone involved")], "Hello World for everyone involved")
      == ParserResult(Some([Str("Hello World"), Words(["everyone", "involved"])]), None)
  {
    TwoWords();
    OptionalTailWalk(Context("Hello World for everyone involved", [Some("Hello World"), Some("everyone involved")], world, None));
  }

  /** Outside an optional block, a blank second group makes the split string the missing second argument. */
  lemma RequiredTailWalk(ctx: Context)
    requires |ctx.groups| == 2 && ctx.groups[0].Some? && ctx.groups[0].value != [] && ctx.groups[1].None?
    ensures PrefixBalanced(STRING_THEN_REQUIRED)
    ensures Run(ctx, STRING_THEN_REQUIRED) == Stop(NotOptional(2, "String"))
  {
    RunOne(ctx, StringArg);
    assert Run(ctx, [StringArg]) == Next(State(1, [], [Str(ctx.groups[0].value)]));
    RunSnoc(ctx, [StringArg], SplitStringArg);
    assert [StringArg] + [SplitStringArg] == STRING_THEN_REQUIRED;
    assert Read(ctx, 1).None?;
  }

  lemma RequiredTailMissing()
    ensures PrefixBalanced(STRING_THEN_REQUIRED)
    ensures Parse(STRING_THEN_REQUIRED, [Some("Hello World"), None], "Hello World for")
      == ParserResult(None, Some("Argument 2 of type String is not optional"))
  {
    NotOptionalText(2, "String", "Argument 2 of type String is not optional");
    RequiredTailWalk(Context("Hello World for", [Some("Hello World"), None], world, None));
    ParseOf(STRING_THEN_REQUIRED, [Some("Hello World"), None], "Hello World for");
  }

  /** The grammar `addUser().addLiteral("for").addSplitString().build()`. */
  const USER_THEN_WORDS: seq<ParserToken> := [UserArg, SplitStringArg]

  lemma UserThenWordsBalanced()
    ensures PrefixBalanced(USER_THEN_WORDS)
  {
    PrefixBalancedAppend([], UserArg);
    assert [] + [UserArg] == [UserArg];
    PrefixBalancedAppend([UserArg], SplitStringArg);
    assert [UserArg] + [SplitStringArg] == USER_THEN_WORDS;
  }

  /**
   * The walk of the user-then-words grammar on three groups whose user part is not blank,
   * given the lookup's outcome `found`: its error, or the user followed by the words of
   * the tail, which is required.
   */
  lemma UserThenWordsWalk(ctx: Context, found: Result<J.User, string>)
    requires |ctx.groups| == 3 && !(Blank(ctx.groups[0]) && Blank(ctx.groups[1]))
    requires found == ResolveUser(ctx.jda, ctx.optChannel, ctx.groups[0], ctx.groups[1])
    ensures PrefixBalanced(USER_THEN_WORDS)
    ensures found.Err? ==> Run(ctx, USER_THEN_WORDS) == Stop(found.error)
    ensures found.Ok? && Blank(ctx.groups[2]) ==> Run(ctx, USER_THEN_WORDS) == Stop(NotOptional(2, "String"))
    ensures found.Ok? && !Blank(ctx.groups[2]) ==>
      Run(ctx, USER_THEN_WORDS) == Next(State(3, [], [UserRef(found.value), Words(Text.SplitWs(ctx.groups[2].value))]))
  {
    UserThenWordsBalanced();
    RunOne(ctx, UserArg);
    assert Read(ctx, 0) == ctx.groups[0] && Read(ctx, 1) == ctx.groups[1];
    UserStep(ctx, State(0, [], []), found);
    RunSnoc(ctx, [UserArg], SplitStringArg);
    assert [UserArg] + [SplitStringArg] == USER_THEN_WORDS;
    if found.Ok? {
      var st := State(2, [], [UserRef(found.value)]);
      assert Read(ctx, 2) == ctx.groups[2];
      if Blank(ctx.groups[2]) {
        BlankStep(ctx, st, SplitStringArg);
      }
    }
  }

  /** The user-then-words grammar on a matched input, with the test directory and no channel. */
  lemma UserThenWordsOf(groups: seq<Option<string>>, input: string, found: Result<J.User, string>)
    requires |groups| == 3 && !(Blank(groups[0]) && Blank(groups[1]))
    requires found == ResolveUser(world, None, groups[0], groups[1])
    ensures PrefixBalanced(USER_THEN_WORDS)
    ensures found.Err? ==> Parse(USER_THEN_WORDS, groups, input) == ParserResult(None, Some(found.error))
    ensures found.Ok? && Blank(groups[2]) ==> Parse(USER_THEN_WORDS, groups, input) == ParserResult(None, Some(NotOptional(2, "String")))
    ensures found.Ok? && !Blank(groups[2]) ==>
      Parse(USER_THEN_WORDS, groups, input) == ParserResult(Some([UserRef(found.value), Words(Text.SplitWs(groups[2].value))]), None)
  {
    UserThenWordsWalk(Context(input, groups, world, None), found);
    ParseOf(USER_THEN_WORDS, groups, input);
  }

  lemma OneWord(w: string)
    requires w != [] && Text.NoSpace(w)
    ensures Text.SplitWs(w) == [w]
  {
    assert Text.JoinSpaced([w]) == w;
    Text.SplitJoin([w]);
  }

  /** A mention, then the tail's one word. */
  lemma UserThenWordsById()
    ensures PrefixBalanced(USER_THEN_WORDS)
    ensures Parse(USER_THEN_WORDS, [Some("1"), None, Some("bla")], "<@1> for bla")
      == ParserResult(Some([UserRef(u1), Words(["bla"])]), None)
  {
    assert Text.DigitsValue("1") == 1 by {
      assert "1"[..0] == "";
    }
    OneWord("bla");
    UserThenWordsOf([Some("1"), None, Some("bla")], "<@1> for bla", Ok(u1));
  }

  /** A mention and the literal without the required tail. */
  lemma UserThenWordsTailMissing()
    ensures PrefixBalanced(USER_THEN_WORDS)
    ensures Parse(USER_THEN_WORDS, [Some("2"), None, None], "<@!2> for")
      == ParserResult(None, Some("Argument 2 of type String is not optional"))
  {
    NotOptionalText(2, "String", "Argument 2 of type String is not optional");
    assert Text.DigitsValue("2") == 2 by {
      assert "2"[..0] == "";
    }
    UserThenWordsOf([Some("2"), None, None], "<@!2> for", Ok(u2));
  }

  /** A mention alone does not match the grammar, whose literal and tail are required. */
  lemma UserThenWordsNoMatch()
    ensures PrefixBalanced(USER_THEN_WORDS)
    ensures Resolve(USER_THEN_WORDS, MatchOutcome(false, [None, None, None]), "<@!2>", world, None).error
      == Some(USAGE_PREFIX + " USER(mention or name) STRING`")
  {
    UserThenWordsBalanced();
    assert USER_THEN_WORDS[..1] == [UserArg] && [UserArg][..0] == [];
    assert UsageLabels([UserArg]) == Label(UserArg);
    assert UsageLabels(USER_THEN_WORDS) == Label(UserArg) + Label(SplitStringArg);
    assert Label(UserArg) + Label(SplitStringArg) == " USER(mention or name) STRING";
    assert UsageError(USER_THEN_WORDS) == USAGE_PREFIX + " USER(mention or name) STRING" + "`";
    assert USAGE_PREFIX + " USER(mention or name) STRING" + "`" == USAGE_PREFIX + " USER(mention or name) STRING`";
  }

  /** An unknown id stops the walk before the tail. */
  lemma UserThenWordsIdUnknown()
    ensures PrefixBalanced(USER_THEN_WORDS)
    ensures Parse(USER_THEN_WORDS, [Some("5"), None, Some("test")], "<@5> for test")
      == ParserResult(None, Some(USER_ID_UNKNOWN))
  {
    assert Text.DigitsValue("5") == 5 by {
      assert "5"[..0] == "";
    }
    UserThenWordsOf([Some("5"), None, Some("test")], "<@5> for test", Err(USER_ID_UNKNOWN));
  }

  lemma UserThenWordsNameUnknown()
    ensures PrefixBalanced(USER_THEN_WORDS)
    ensures Parse(USER_THEN_WORDS, [None, Some("Use"), Some("test")], "Use for test")
      == ParserResult(None, Some(USER_NAME_UNKNOWN))
  {
    UserThenWordsOf([None, Some("Use"), Some("test")], "Use for test", Err(USER_NAME_UNKNOWN));
  }

  lemma UserThenWordsNameShared()
    ensures PrefixBalanced(USER_THEN_WORDS)
    ensures Parse(USER_THEN_WORDS, [None, Some("User"), Some("test")], "User for test")
      == ParserResult(None, Some(USERS_AMBIGUOUS))
  {
    UserThenWordsOf([None, Some("User"), Some("test")], "User for test", Err(USERS_AMBIGUOUS));
  }

  lemma UserThenWordsNameUnique()
    ensures PrefixBalanced(USER_THEN_WORDS)
    ensures Parse(USER_THEN_WORDS, [None, Some("Userino"), Some("test")], "Userino for test")
      == ParserResult(Some([UserRef(u3), Words(["test"])]), None)
  {
    OneWord("test");
    UserThenWordsOf([None, Some("Userino"), Some("test")], "Userino for test", Ok(u3));
  }

  lemma TestWords()
    ensures Text.SplitWs("test test2") == ["test", "test2"]
  {
    var words := ["test", "test2"];
    assert Text.JoinSpaced(words) == "test test2";
    Text.SplitJoin(words);
  }

  /** The tail holds two words. */
  lemma UserThenTwoWords()
    ensures PrefixBalanced(USER_THEN_WORDS)
    ensures Parse(USER_THEN_WORDS, [None, Some("Userino"), Some("test test2")], "Userino for test test2")
      == ParserResult(Some([UserRef(u3), Words(["test", "test2"])]), None)
  {
    TestWords();
    UserThenWordsOf([None, Some("Userino"), Some("test test2")], "Userino for test test2", Ok(u3));
  }

  /** Building the integer grammar: one slot, whose separator the build strips. */
  method BuildIntegerGrammar() returns (g: Grammar)
    ensures g == Grammar(OPTIONAL_OPEN + INTEGER_CAPTURES + OPTIONAL_CLOSE, [IntegerArg])
  {
    var b := new Builder();
    b.AddInteger();
    assert b.builder == Fragment(IntegerArg) + [];
    StripFirstValue(IntegerArg, []);
    g := b.Build();
    assert Fragment(IntegerArg)[6..] == INTEGER_CAPTURES + OPTIONAL_CLOSE;
  }

  /** Building the string grammar with an optional tail: the open block is closed by the build. */
  method BuildStringThenOptional() returns (g: Grammar)
    ensures g.tokens == STRING_THEN_OPTIONAL
    ensures g.pattern == OPTIONAL_OPEN + STRING_CAPTURES + OPTIONAL_CLOSE + OPTIONAL_OPEN + SEPARATOR + "for" + STRING_FRAGMENT + OPTIONAL_CLOSE
  {
    var b := new Builder();
    b.AddString();
    b.StartOptionalBlock();
    b.AddLiteral("for");
    b.AddSplitString();
    var rest := OPTIONAL_OPEN + SEPARATOR + "for" + STRING_FRAGMENT + OPTIONAL_CLOSE;
    assert b.builder + Repeat(OPTIONAL_CLOSE, 1) == Fragment(StringArg) + rest;
    StripFirstValue(StringArg, rest);
    g := b.Build();
    assert Fragment(StringArg)[6..] == STRING_CAPTURES + OPTIONAL_CLOSE;
  }
}
