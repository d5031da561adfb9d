/**
 * The parser a built grammar becomes. The whole input must match the pattern; then the
 * tokens are walked in order, each value token reading its capture group(s) from a
 * running group index and turning the text into an argument, while a stack of flags
 * tracks the open optional blocks: a flag is false until some value of its block is
 * present, and a missing value is an error unless the innermost block's flag is false.
 *
 * The regular-expression engine is not modelled: its verdict on the input (whether the
 * whole input matches, and the text of every capture group, absent for a group that did
 * not take part) is a parameter.
 */
module ParserImpl {
  import opened Wrappers
  import opened Text
  import opened ParserBuilder
  import J = Jda

  /** An argument handed to a command; `Null` is Java's null for a missing optional value. */
  datatype Value =
    | Str(s: string)
    | Words(ws: seq<string>)
    | Int(i: int)
    | Float(f: real)
    | UserRef(user: J.User)
    | ChannelRef(channel: J.Channel)
    | Null

  /** Either the arguments or the error text; the other one is absent. */
  datatype ParserResult = ParserResult(args: Option<seq<Value>>, error: Option<string>)

  /** What the regular-expression engine reports: a whole-input match, and groups 1 to groupCount. */
  datatype MatchOutcome = MatchOutcome(matches: bool, groups: seq<Option<string>>)

  /** The walk's variables between two tokens. The top of the flag stack is its last element. */
  datatype State = State(groupIndex: nat, stack: seq<bool>, out: seq<Value>)

  /** The walk goes on with a new state, or returns an error. */
  datatype Step = Next(state: State) | Stop(error: string)

  /** What stays fixed during one walk. `optChannel` is the channel of a guild message, absent for a private one. */
  datatype Context = Context(input: string, groups: seq<Option<string>>, jda: J.Directory, optChannel: Option<J.Scope>)

  const USAGE_PREFIX: string := "Incorrect usage. Required Arguments: `"
  const USER_ID_UNKNOWN: string := "User with given id could not be found by this Bot"
  const USER_NAME_UNKNOWN: string := "User with given name was not found! Please check capitalisation or mention instead"
  const USERS_AMBIGUOUS: string := "Multiple users with given name found! Please consider mentioning instead!"
  const CHANNEL_ID_UNKNOWN: string := "Text/Voice-channel with given id could not be found by this Bot"
  const CHANNEL_NAME_UNKNOWN: string := "Text/Voice-channel with given name was not found! Please check capitalisation or mention instead"
  const CHANNELS_AMBIGUOUS: string := "Multiple channels with given name found! Please consider mentioning instead!"

  function Min(a: nat, b: nat): nat {
    if a < b then a else b
  }

  /** `matcher.group(k)`: group 0 is the whole input. */
  function Group(ctx: Context, k: nat): Option<string>
    requires k <= |ctx.groups|
  {
    if k == 0 then Some(ctx.input) else ctx.groups[k - 1]
  }

  /** `matcher.group(Math.min(g + 1, count))`: the group after `g`, or the last group when there is none. */
  function Read(ctx: Context, g: nat): Option<string> {
    Group(ctx, Min(g + 1, |ctx.groups|))
  }

  /** A group that did not take part, or matched nothing. */
  predicate Blank(s: Option<string>) {
    s.None? || s.value == []
  }

  /** A missing value is an error: no optional block is open, or the innermost one already has a value. */
  predicate Required(stack: seq<bool>) {
    stack == [] || stack[|stack| - 1]
  }

  /** A value is present: the innermost open block, if still empty, now has one. */
  function MarkFound(stack: seq<bool>): (r: seq<bool>)
    ensures |r| == |stack| && r[..|r| - if r == [] then 0 else 1] == stack[..|stack| - if stack == [] then 0 else 1]
    ensures r != [] ==> r[|r| - 1]
  {
    if stack != [] && !stack[|stack| - 1] then stack[..|stack| - 1] + [true] else stack
  }

  /** The type name a token's error messages use. */
  function Kind(t: ParserToken): string
    requires IsValue(t)
  {
    match t
    case StringArg => "String"
    case SplitStringArg => "String"
    case IntegerArg => "Integer"
    case FloatArg => "Float"
    case UserArg => "User"
    case ChannelArg => "Channel"
  }

  function NotOptional(n: nat, kind: string): string {
    "Argument " + NatToString(n) + " of type " + kind + " is not optional"
  }

  function NotParsed(n: nat, kind: string): string {
    "Argument " + NatToString(n) + " of type " + kind + " could not get parsed"
  }

  /** The argument of a missing optional value: an empty word list for split strings, null otherwise. */
  function Empty(t: ParserToken): Value {
    if t.SplitStringArg? then Words([]) else Null
  }

  /** Which arguments a value token can produce. */
  predicate Fits(v: Value, t: ParserToken) {
    match t
    case StringArg => (v.Str? && v.s != []) || v.Null?
    case SplitStringArg => v.Words? && forall k :: 0 <= k < |v.ws| ==> NoSpace(v.ws[k])
    case IntegerArg => (v.Int? && INT_MIN <= v.i <= INT_MAX) || v.Null?
    case FloatArg => v.Float? || v.Null?
    case UserArg => v.UserRef? || v.Null?
    case ChannelArg => v.ChannelRef? || v.Null?
    case OptionalStart => false
    case OptionalEnd => false
  }

  // ---------------------------------------------------------------------------
  // Usage text
  // ---------------------------------------------------------------------------

  function Label(t: ParserToken): string {
    match t
    case StringArg => " STRING"
    case IntegerArg => " INTEGER"
    case FloatArg => " FLOAT"
    case UserArg => " USER(mention or name)"
    case ChannelArg => " CHANNEL(mention or name)"
    case OptionalStart => " ["
    case OptionalEnd => "]"
    case SplitStringArg => " STRING"
  }

  function UsageLabels(ts: seq<ParserToken>): string {
    if ts == [] then [] else UsageLabels(ts[..|ts| - 1]) + Label(ts[|ts| - 1])
  }

  /** The error of an input the pattern does not match: every token's label, in order, between backquotes. */
  function UsageError(ts: seq<ParserToken>): string {
    USAGE_PREFIX + UsageLabels(ts) + "`"
  }

  // ---------------------------------------------------------------------------
  // Looking up users and channels
  // ---------------------------------------------------------------------------

  /**
   * A user slot with a value: by id when the mention group parses as a long, else by
   * name; several users of that name are narrowed to the guild of the channel, if any.
   */
  function ResolveUser(d: J.Directory, scope: Option<J.Scope>, s: Option<string>, s2: Option<string>): (r: Result<J.User, string>)
    ensures IsLong(s) ==> (r.Ok? <==> s.value in d.usersById)
    ensures IsLong(s) && r.Ok? ==> r.value == d.usersById[s.value]
    ensures r.Err? ==> r.error == USER_ID_UNKNOWN || r.error == USER_NAME_UNKNOWN || r.error == USERS_AMBIGUOUS
    ensures IsLong(s) && r.Err? ==> r.error == USER_ID_UNKNOWN
    ensures !IsLong(s) && |J.ByName(d.usersByName, s2)| == 0 ==> r == Err(USER_NAME_UNKNOWN)
    ensures !IsLong(s) && |J.ByName(d.usersByName, s2)| > 1 && scope.None? ==> r.Err?
    ensures !IsLong(s) && |J.ByName(d.usersByName, s2)| > 1 && r.Err? ==> r.error == USERS_AMBIGUOUS
  {
    if IsLong(s) then
      match J.Lookup(d.usersById, s.value)
      case Some(u) => Ok(u)
      case None => Err(USER_ID_UNKNOWN)
    else
      var candidates := J.ByName(d.usersByName, s2);
      if |candidates| == 0 then Err(USER_NAME_UNKNOWN)
      else if |candidates| == 1 then Ok(candidates[0])
      else if scope.None? then Err(USERS_AMBIGUOUS)
      else
        var inGuild := J.Keep(candidates, (u: J.User) => u in scope.value.guild.users);
        if |inGuild| != 1 then Err(USERS_AMBIGUOUS) else Ok(inGuild[0])
  }

  /** The channels of a name: text channels, then voice channels. */
  function ChannelCandidates(d: J.Directory, s2: Option<string>): seq<J.Channel> {
    J.ByName(d.textChannelsByName, s2) + J.ByName(d.voiceChannelsByName, s2)
  }

  /**
   * A channel slot with a value: by id, text channels before voice channels, when the
   * mention group parses as a long; else by name among text and then voice channels,
   * narrowed to the guild of the channel when several share the name.
   */
  function ResolveChannel(d: J.Directory, scope: Option<J.Scope>, s: Option<string>, s2: Option<string>): (r: Result<J.Channel, string>)
    ensures IsLong(s) ==> (r.Ok? <==> s.value in d.textChannelsById || s.value in d.voiceChannelsById)
    ensures IsLong(s) && r.Ok? && s.value in d.textChannelsById ==> r.value == d.textChannelsById[s.value]
    ensures IsLong(s) && r.Ok? && s.value !in d.textChannelsById ==> r.value == d.voiceChannelsById[s.value]
    ensures r.Err? ==> r.error == CHANNEL_ID_UNKNOWN || r.error == CHANNEL_NAME_UNKNOWN || r.error == CHANNELS_AMBIGUOUS
    ensures IsLong(s) && r.Err? ==> r.error == CHANNEL_ID_UNKNOWN
    ensures !IsLong(s) && |ChannelCandidates(d, s2)| == 0 ==> r == Err(CHANNEL_NAME_UNKNOWN)
    ensures !IsLong(s) && |ChannelCandidates(d, s2)| > 1 && scope.None? ==> r.Err?
    ensures !IsLong(s) && |ChannelCandidates(d, s2)| > 1 && r.Err? ==> r.error == CHANNELS_AMBIGUOUS
  {
    if IsLong(s) then
      match J.Lookup(d.textChannelsById, s.value)
      case Some(c) => Ok(c)
      case None =>
        match J.Lookup(d.voiceChannelsById, s.value)
        case Some(c) => Ok(c)
        case None => Err(CHANNEL_ID_UNKNOWN)
    else
      var candidates := ChannelCandidates(d, s2);
      if |candidates| == 0 then Err(CHANNEL_NAME_UNKNOWN)
      else if |candidates| == 1 then Ok(candidates[0])
      else if scope.None? then Err(CHANNELS_AMBIGUOUS)
      else
        var inGuild := J.Keep(candidates, (c: J.Channel) => J.ChannelInGuild(c, scope.value.guild));
        if |inGuild| != 1 then Err(CHANNELS_AMBIGUOUS) else Ok(inGuild[0])
  }

  // ---------------------------------------------------------------------------
  // The walk over the tokens
  // ---------------------------------------------------------------------------

  /** A value token whose group(s) are blank: an error if the value is required, else its empty argument. */
  function Absent(st: State, t: ParserToken): Step
    requires IsValue(t)
  {
    if Required(st.stack) then Stop(NotOptional(|st.out| + 1, Kind(t)))
    else Next(State(st.groupIndex + Width(t), st.stack, st.out + [Empty(t)]))
  }

  /** A value token with a value `v`. */
  function Present(st: State, t: ParserToken, v: Value): Step {
    Next(State(st.groupIndex + Width(t), MarkFound(st.stack), st.out + [v]))
  }

  /** One pass of the loop body, for token `t`. */
  function StepToken(ctx: Context, st: State, t: ParserToken): (r: Step)
    requires t.OptionalEnd? ==> st.stack != []
    ensures r.Stop? ==> IsValue(t)
    ensures r.Next? ==> r.state.groupIndex == st.groupIndex + Width(t)
    ensures r.Next? ==> |r.state.stack| == |st.stack| + Delta(t)
    ensures r.Next? ==> |r.state.out| == |st.out| + (if IsValue(t) then 1 else 0)
    ensures r.Next? ==> r.state.out[..|st.out|] == st.out
    ensures r.Next? && IsValue(t) ==> Fits(r.state.out[|st.out|], t)
  {
    var s := Read(ctx, st.groupIndex);
    match t
    case StringArg =>
      if Blank(s) then Absent(st, t) else Present(st, t, Str(s.value))
    case IntegerArg =>
      if Blank(s) then Absent(st, t)
      else (match ParseInt(s.value)
        case Some(i) => Present(st, t, Int(i))
        case None => Stop(NotParsed(|st.out| + 1, "Integer")))
    case FloatArg =>
      if Blank(s) then Absent(st, t)
      else (match ParseFloat(s.value)
        case Some(f) => Present(st, t, Float(f))
        case None => Stop(NotParsed(|st.out| + 1, "Float")))
    case UserArg =>
      var s2 := Read(ctx, st.groupIndex + 1);
      if Blank(s) && Blank(s2) then Absent(st, t)
      else (match ResolveUser(ctx.jda, ctx.optChannel, s, s2)
        case Ok(u) => Present(st, t, UserRef(u))
        case Err(e) => Stop(e))
    case ChannelArg =>
      var s2 := Read(ctx, st.groupIndex + 1);
      if Blank(s) && Blank(s2) then Absent(st, t)
      else (match ResolveChannel(ctx.jda, ctx.optChannel, s, s2)
        case Ok(c) => Present(st, t, ChannelRef(c))
        case Err(e) => Stop(e))
    case OptionalStart =>
      Next(st.(stack := st.stack + [false]))
    case OptionalEnd =>
      Next(st.(stack := st.stack[..|st.stack| - 1]))
    case SplitStringArg =>
      if Blank(s) then Absent(st, t) else Present(st, t, Words(SplitWs(s.value)))
  }

  lemma PrefixesBalanced(ts: seq<ParserToken>)
    requires PrefixBalanced(ts)
    ensures forall k :: 0 <= k <= |ts| ==> PrefixBalanced(ts[..k])
  {
    forall k | 0 <= k <= |ts|
      ensures PrefixBalanced(ts[..k])
    {
      forall j | 0 <= j <= k
        ensures Depth(ts[..k][..j]) >= 0
      {
        assert ts[..k][..j] == ts[..j];
      }
    }
  }

  /** One prefix of a prefix-balanced sequence is prefix-balanced. */
  lemma PrefixBalancedAt(ts: seq<ParserToken>, k: nat)
    requires PrefixBalanced(ts) && k <= |ts|
    ensures PrefixBalanced(ts[..k])
  {
    PrefixesBalanced(ts);
  }

  /**
   * The walk over the tokens `ts`, as a left fold: the state after the last token is one
   * step from the state after the others, and an error ends the walk. The group index
   * advances by the tokens' widths, one argument is produced per value token, and the
   * flag stack holds one flag per open optional block.
   */
  function Run(ctx: Context, ts: seq<ParserToken>): (r: Step)
    requires PrefixBalanced(ts)
    ensures r.Next? ==> r.state.groupIndex == GroupCount(ts)
    ensures r.Next? ==> |r.state.out| == |ValueTokens(ts)|
    ensures r.Next? ==> |r.state.stack| == Depth(ts)
    decreases |ts|
  {
    if ts == [] then Next(State(0, [], []))
    else
      PrefixBalancedAt(ts, |ts| - 1);
      assert ts[..|ts|] == ts;
      match Run(ctx, ts[..|ts| - 1])
      case Stop(e) => Stop(e)
      case Next(st) => StepToken(ctx, st, ts[|ts| - 1])
  }

  /**
   * `parseArgs`: the usage error when the input does not match, else the walk's error
   * or its arguments. Exactly one of the two is present, and the arguments are one per
   * value token, each of the kind its token produces.
   */
  function Resolve(tokens: seq<ParserToken>, outcome: MatchOutcome, input: string, jda: J.Directory, optChannel: Option<J.Scope>): (r: ParserResult)
    requires PrefixBalanced(tokens)
    ensures r.args.Some? != r.error.Some?
    ensures !outcome.matches ==> r.error == Some(UsageError(tokens))
    ensures r.args.Some? ==> |r.args.value| == |ValueTokens(tokens)|
    ensures r.args.Some? ==> forall j :: 0 <= j < |r.args.value| ==> Fits(r.args.value[j], ValueTokens(tokens)[j])
  {
    if !outcome.matches then ParserResult(None, Some(UsageError(tokens)))
    else
      var ctx := Context(input, outcome.groups, jda, optChannel);
      match Run(ctx, tokens)
      case Stop(e) => ParserResult(None, Some(e))
      case Next(st) =>
        RunFits(ctx, tokens);
        ParserResult(Some(st.out), None)
  }

  // ---------------------------------------------------------------------------
  // Properties of the walk
  // ---------------------------------------------------------------------------

  /** Every argument the walk produces has the kind of the value token it stands for. */
  lemma {:induction false} RunFits(ctx: Context, ts: seq<ParserToken>)
    requires PrefixBalanced(ts)
    ensures Run(ctx, ts).Next? ==>
      forall j :: 0 <= j < |Run(ctx, ts).state.out| ==> Fits(Run(ctx, ts).state.out[j], ValueTokens(ts)[j])
    decreases |ts|
  {
    if ts != [] && Run(ctx, ts).Next? {
      var init := ts[..|ts| - 1];
      var t := ts[|ts| - 1];
      PrefixBalancedAt(ts, |ts| - 1);
      RunFits(ctx, init);
      var st := Run(ctx, init).state;
      var out := Run(ctx, ts).state.out;
      assert ValueTokens(ts) == ValueTokens(init) + (if IsValue(t) then [t] else []);
      forall j | 0 <= j < |out|
        ensures Fits(out[j], ValueTokens(ts)[j])
      {
        if j < |st.out| {
          assert out[j] == out[..|st.out|][j];
        }
      }
    }
  }

  /** One more token of a walk that has not stopped: a step from the state so far, and an `OptionalEnd` closes an open block. */
  lemma RunStep(ctx: Context, ts: seq<ParserToken>, i: nat)
    requires PrefixBalanced(ts) && i < |ts|
    requires (PrefixesBalanced(ts); Run(ctx, ts[..i]).Next?)
    ensures ts[i].OptionalEnd? ==> Run(ctx, ts[..i]).state.stack != []
    ensures (PrefixesBalanced(ts); Run(ctx, ts[..i + 1]) == StepToken(ctx, Run(ctx, ts[..i]).state, ts[i]))
  {
    PrefixBalancedAt(ts, i);
    PrefixBalancedAt(ts, i + 1);
    var us := ts[..i + 1];
    assert us[..i] == ts[..i] && us[i] == ts[i];
    assert Depth(us) == Depth(ts[..i]) + Delta(ts[i]);
    assert Depth(ts[..i + 1]) >= 0;
  }

  /** The value tokens of one more token: those so far, and the token itself if it is a value token. */
  lemma ValueTokensStep(ts: seq<ParserToken>, k: nat)
    requires k < |ts|
    ensures ValueTokens(ts[..k + 1]) == ValueTokens(ts[..k]) + (if IsValue(ts[k]) then [ts[k]] else [])
  {
    assert ts[..k + 1][..k] == ts[..k];
  }

  /** An error ends the walk: the tokens after it change nothing. */
  lemma {:induction false} FailSticks(ctx: Context, ts: seq<ParserToken>, k: nat)
    requires PrefixBalanced(ts) && k <= |ts|
    requires (PrefixesBalanced(ts); Run(ctx, ts[..k]).Stop?)
    ensures Run(ctx, ts) == Run(ctx, ts[..k])
    decreases |ts| - k
  {
    PrefixBalancedAt(ts, k);
    if k < |ts| {
      PrefixBalancedAt(ts, |ts| - 1);
      var init := ts[..|ts| - 1];
      assert init[..k] == ts[..k];
      FailSticks(ctx, init, k);
    } else {
      assert ts[..k] == ts;
    }
  }

  lemma {:induction false} GroupCountPrefix(ts: seq<ParserToken>, k: nat)
    requires k < |ts|
    ensures GroupCount(ts[..k]) + Width(ts[k]) <= GroupCount(ts)
    decreases |ts|
  {
    var init := ts[..|ts| - 1];
    if k < |ts| - 1 {
      assert init[..k] == ts[..k];
      GroupCountPrefix(init, k);
    } else {
      assert ts[..k] == init;
    }
  }

  /** Reading groups that exist is plain indexing: the clamp leaves their numbers alone. */
  lemma GroupsInRange(ctx: Context, g: nat, w: nat)
    requires 1 <= w && g + w <= |ctx.groups|
    ensures Read(ctx, g) == ctx.groups[g]
    ensures w == 2 ==> Read(ctx, g + 1) == ctx.groups[g + 1]
  {
  }

  /**
   * When the pattern has exactly as many groups as the tokens account for, the clamp in
   * `Math.min(groupIndex + 1, count)` never bites: every value token reads its own
   * group(s), the `Width` groups after those of the tokens before it.
   */
  lemma ReadsOwnGroups(ctx: Context, ts: seq<ParserToken>, k: nat)
    requires PrefixBalanced(ts) && k < |ts| && IsValue(ts[k])
    requires |ctx.groups| == GroupCount(ts)
    requires (PrefixesBalanced(ts); Run(ctx, ts[..k]).Next?)
    ensures Run(ctx, ts[..k]).state.groupIndex + Width(ts[k]) <= |ctx.groups|
    ensures Read(ctx, Run(ctx, ts[..k]).state.groupIndex) == ctx.groups[Run(ctx, ts[..k]).state.groupIndex]
    ensures Width(ts[k]) == 2 ==>
      Read(ctx, Run(ctx, ts[..k]).state.groupIndex + 1) == ctx.groups[Run(ctx, ts[..k]).state.groupIndex + 1]
  {
    PrefixBalancedAt(ts, k);
    var g := Run(ctx, ts[..k]).state.groupIndex;
    GroupCountPrefix(ts, k);
    GroupsInRange(ctx, g, Width(ts[k]));
  }

  /** A value token whose group(s) are blank takes the missing-value branch, whatever its kind. */
  lemma BlankStep(ctx: Context, st: State, t: ParserToken)
    requires IsValue(t) && Blank(Read(ctx, st.groupIndex))
    requires Width(t) == 2 ==> Blank(Read(ctx, st.groupIndex + 1))
    ensures StepToken(ctx, st, t) == Absent(st, t)
  {
  }

  /** A user slot with a value takes the lookup's outcome `found`. */
  lemma UserStep(ctx: Context, st: State, found: Result<J.User, string>)
    requires !(Blank(Read(ctx, st.groupIndex)) && Blank(Read(ctx, st.groupIndex + 1)))
    requires found == ResolveUser(ctx.jda, ctx.optChannel, Read(ctx, st.groupIndex), Read(ctx, st.groupIndex + 1))
    ensures found.Ok? ==> StepToken(ctx, st, UserArg) == Next(State(st.groupIndex + 2, MarkFound(st.stack), st.out + [UserRef(found.value)]))
    ensures found.Err? ==> StepToken(ctx, st, UserArg) == Stop(found.error)
  {
  }

  /** A channel slot with a value takes the lookup's outcome `found`. */
  lemma ChannelStep(ctx: Context, st: State, found: Result<J.Channel, string>)
    requires !(Blank(Read(ctx, st.groupIndex)) && Blank(Read(ctx, st.groupIndex + 1)))
    requires found == ResolveChannel(ctx.jda, ctx.optChannel, Read(ctx, st.groupIndex), Read(ctx, st.groupIndex + 1))
    ensures found.Ok? ==> StepToken(ctx, st, ChannelArg) == Next(State(st.groupIndex + 2, MarkFound(st.stack), st.out + [ChannelRef(found.value)]))
    ensures found.Err? ==> StepToken(ctx, st, ChannelArg) == Stop(found.error)
  {
  }

  /**
   * Outside every optional block a value is required: when its group(s) are blank the
   * walk stops with "Argument N of type K is not optional", N counting the value tokens
   * up to and including this one.
   */
  lemma TopLevelRequired(ctx: Context, ts: seq<ParserToken>, k: nat)
    requires PrefixBalanced(ts) && k < |ts| && IsValue(ts[k])
    requires Depth(ts[..k]) == 0
    requires (PrefixesBalanced(ts); Run(ctx, ts[..k]).Next?)
    requires Blank(Read(ctx, Run(ctx, ts[..k]).state.groupIndex))
    requires Width(ts[k]) == 2 ==> Blank(Read(ctx, Run(ctx, ts[..k]).state.groupIndex + 1))
    ensures Run(ctx, ts[..k + 1]) == Stop(NotOptional(|ValueTokens(ts[..k + 1])|, Kind(ts[k])))
    ensures ValueTokens(ts[..k + 1])[|ValueTokens(ts[..k + 1])| - 1] == ts[k]
  {
    PrefixBalancedAt(ts, k);
    PrefixBalancedAt(ts, k + 1);
    RunStep(ctx, ts, k);
    var st := Run(ctx, ts[..k]).state;
    BlankStep(ctx, st, ts[k]);
    assert Required(st.stack);
    ValueTokensStep(ts, k);
  }

  /** Right after an `OptionalStart` the innermost block has no value yet. */
  lemma OpenedFlag(ctx: Context, ts: seq<ParserToken>, k: nat)
    requires PrefixBalanced(ts) && 0 < k <= |ts| && ts[k - 1] == OptionalStart
    requires (PrefixesBalanced(ts); Run(ctx, ts[..k]).Next?)
    ensures (PrefixesBalanced(ts); !Required(Run(ctx, ts[..k]).state.stack))
  {
    PrefixBalancedAt(ts, k - 1);
    PrefixBalancedAt(ts, k);
    assert ts[..k][..k - 1] == ts[..k - 1] && ts[..k][k - 1] == OptionalStart;
    assert Run(ctx, ts[..k - 1]).Next?;
    RunStep(ctx, ts, k - 1);
    assert ts[..k - 1 + 1] == ts[..k];
  }

  /**
   * The first value of a freshly opened optional block may be missing: it yields its
   * empty argument, the walk goes on, and the block stays without a value.
   */
  lemma OpenedBlockOptional(ctx: Context, ts: seq<ParserToken>, k: nat)
    requires PrefixBalanced(ts) && 0 < k < |ts| && ts[k - 1] == OptionalStart && IsValue(ts[k])
    requires (PrefixesBalanced(ts); Run(ctx, ts[..k]).Next?)
    requires Blank(Read(ctx, Run(ctx, ts[..k]).state.groupIndex))
    requires Width(ts[k]) == 2 ==> Blank(Read(ctx, Run(ctx, ts[..k]).state.groupIndex + 1))
    ensures Run(ctx, ts[..k + 1]).Next?
    ensures Run(ctx, ts[..k + 1]).state.out == Run(ctx, ts[..k]).state.out + [Empty(ts[k])]
    ensures Run(ctx, ts[..k + 1]).state.stack == Run(ctx, ts[..k]).state.stack
    ensures !Required(Run(ctx, ts[..k + 1]).state.stack)
  {
    PrefixBalancedAt(ts, k);
    PrefixBalancedAt(ts, k + 1);
    var st := Run(ctx, ts[..k]).state;
    OpenedFlag(ctx, ts, k);
    RunStep(ctx, ts, k);
    BlankStep(ctx, st, ts[k]);
  }

  /**
   * Once a block has a value, its flag stays set until the block closes: a value token
   * that follows is required.
   */
  lemma PresentMakesRequired(ctx: Context, st: State, t: ParserToken, v: Value)
    requires st.stack != []
    ensures Present(st, t, v).state.stack[..|st.stack| - 1] == st.stack[..|st.stack| - 1]
    ensures Required(Present(st, t, v).state.stack)
  {
  }

  // ---------------------------------------------------------------------------
  // Properties of the lookups
  // ---------------------------------------------------------------------------

  /** A user found by name is one of the users of that name. */
  lemma UserAmongCandidates(d: J.Directory, scope: Option<J.Scope>, s: Option<string>, s2: Option<string>)
    requires !IsLong(s) && ResolveUser(d, scope, s, s2).Ok?
    ensures ResolveUser(d, scope, s, s2).value in J.ByName(d.usersByName, s2)
  {
    var candidates := J.ByName(d.usersByName, s2);
    if |candidates| > 1 {
      var inGuild := J.Keep(candidates, (u: J.User) => u in scope.value.guild.users);
      assert inGuild[0] in inGuild;
    }
  }

  /** With consistent caches, the user found is the one the input names: by its id, or by its name. */
  lemma ResolvedUserNamed(d: J.Directory, scope: Option<J.Scope>, s: Option<string>, s2: Option<string>)
    requires J.Consistent(d)
    requires ResolveUser(d, scope, s, s2).Ok?
    ensures IsLong(s) ==> ResolveUser(d, scope, s, s2).value.id == s.value
    ensures !IsLong(s) ==> s2.Some? && ResolveUser(d, scope, s, s2).value.name == s2.value
  {
    var u := ResolveUser(d, scope, s, s2).value;
    if !IsLong(s) {
      UserAmongCandidates(d, scope, s, s2);
      var candidates := J.ByName(d.usersByName, s2);
      var k :| 0 <= k < |candidates| && candidates[k] == u;
    }
  }

  /**
   * By name, a user is found exactly when it is the only user of that name, or when
   * several share the name, the command came from a guild, and it is the only one of
   * them in that guild.
   */
  lemma UserByName(d: J.Directory, scope: Option<J.Scope>, s: Option<string>, s2: Option<string>, u: J.User)
    requires J.Consistent(d) && !IsLong(s)
    ensures ResolveUser(d, scope, s, s2) == Ok(u) <==>
      var candidates := J.ByName(d.usersByName, s2);
      candidates == [u] ||
      (|candidates| > 1 && scope.Some? && u in candidates && u in scope.value.guild.users &&
        forall x :: x in candidates && x in scope.value.guild.users ==> x == u)
  {
    var candidates := J.ByName(d.usersByName, s2);
    if |candidates| > 1 && scope.Some? {
      var inGuild := J.Keep(candidates, (x: J.User) => x in scope.value.guild.users);
      assert J.Distinct(candidates);
      J.KeepDistinct(candidates, (x: J.User) => x in scope.value.guild.users);
      if u in candidates && u in scope.value.guild.users && forall x :: x in candidates && x in scope.value.guild.users ==> x == u {
        J.DistinctSingleton(inGuild, u);
      }
    } else if |candidates| == 1 {
      assert candidates == [candidates[0]];
    }
  }

  /** A channel found by name is one of the text or voice channels of that name. */
  lemma ChannelAmongCandidates(d: J.Directory, scope: Option<J.Scope>, s: Option<string>, s2: Option<string>)
    requires !IsLong(s) && ResolveChannel(d, scope, s, s2).Ok?
    ensures ResolveChannel(d, scope, s, s2).value in J.ByName(d.textChannelsByName, s2) + J.ByName(d.voiceChannelsByName, s2)
  {
    var candidates := J.ByName(d.textChannelsByName, s2) + J.ByName(d.voiceChannelsByName, s2);
    if |candidates| > 1 {
      var inGuild := J.Keep(candidates, (c: J.Channel) => J.ChannelInGuild(c, scope.value.guild));
      assert inGuild[0] in inGuild;
    }
  }

  /** With consistent caches, the channel found is the one the input names: by its id, or by its name. */
  lemma ResolvedChannelNamed(d: J.Directory, scope: Option<J.Scope>, s: Option<string>, s2: Option<string>)
    requires J.Consistent(d)
    requires ResolveChannel(d, scope, s, s2).Ok?
    ensures IsLong(s) ==> ResolveChannel(d, scope, s, s2).value.id == s.value
    ensures !IsLong(s) ==> s2.Some? && ResolveChannel(d, scope, s, s2).value.name == s2.value
  {
    var c := ResolveChannel(d, scope, s, s2).value;
    if !IsLong(s) {
      ChannelAmongCandidates(d, scope, s, s2);
      var text := J.ByName(d.textChannelsByName, s2);
      var voice := J.ByName(d.voiceChannelsByName, s2);
      var k :| 0 <= k < |text + voice| && (text + voice)[k] == c;
      if k < |text| {
        assert text[k] == c;
      } else {
        assert voice[k - |text|] == c;
      }
    }
  }

  /** In a consistent directory, the text and voice channels of one name are all different. */
  lemma CandidatesDistinct(d: J.Directory, s2: Option<string>)
    requires J.Consistent(d)
    ensures J.Distinct(J.ByName(d.textChannelsByName, s2) + J.ByName(d.voiceChannelsByName, s2))
  {
    var text := J.ByName(d.textChannelsByName, s2);
    var voice := J.ByName(d.voiceChannelsByName, s2);
    var candidates := text + voice;
    forall j, k | 0 <= j < k < |candidates|
      ensures candidates[j] != candidates[k]
    {
      if k < |text| {
      } else if j >= |text| {
        assert candidates[j] == voice[j - |text|] && candidates[k] == voice[k - |text|];
      } else {
        assert candidates[j].TextChannel? && candidates[k].VoiceChannel?;
      }
    }
  }

  /**
   * By name, a channel is found exactly when it is the only text or voice channel of
   * that name, or when several share the name, the command came from a guild, and it is
   * the only one of them in that guild (text channels among the guild's text channels,
   * voice channels among its voice channels).
   */
  lemma ChannelByName(d: J.Directory, scope: Option<J.Scope>, s: Option<string>, s2: Option<string>, c: J.Channel)
    requires J.Consistent(d) && !IsLong(s)
    ensures ResolveChannel(d, scope, s, s2) == Ok(c) <==>
      var candidates := J.ByName(d.textChannelsByName, s2) + J.ByName(d.voiceChannelsByName, s2);
      candidates == [c] ||
      (|candidates| > 1 && scope.Some? && c in candidates && J.ChannelInGuild(c, scope.value.guild) &&
        forall x :: x in candidates && J.ChannelInGuild(x, scope.value.guild) ==> x == c)
  {
    var text := J.ByName(d.textChannelsByName, s2);
    var voice := J.ByName(d.voiceChannelsByName, s2);
    var candidates := text + voice;
    if |candidates| > 1 && scope.Some? {
      var p := (x: J.Channel) => J.ChannelInGuild(x, scope.value.guild);
      var inGuild := J.Keep(candidates, p);
      CandidatesDistinct(d, s2);
      J.KeepDistinct(candidates, p);
      if c in candidates && p(c) && forall x :: x in candidates && p(x) ==> x == c {
        J.DistinctSingleton(inGuild, c);
      }
    } else if |candidates| == 1 {
      assert candidates == [candidates[0]];
    }
  }

  // ---------------------------------------------------------------------------
  // The parser as the source runs it
  // ---------------------------------------------------------------------------

  /** The loop that lists every token's label for the usage error. */
  method RequiredArguments(types: seq<ParserToken>) returns (reqArgs: string)
    ensures reqArgs == UsageLabels(types)
  {
    reqArgs := "";
    var k := 0;
    while k < |types|
      invariant 0 <= k <= |types|
      invariant reqArgs == UsageLabels(types[..k])
    {
      assert types[..k + 1][..k] == types[..k];
      match types[k] {
        case StringArg => reqArgs := reqArgs + " STRING";
        case IntegerArg => reqArgs := reqArgs + " INTEGER";
        case FloatArg => reqArgs := reqArgs + " FLOAT";
        case UserArg => reqArgs := reqArgs + " USER(mention or name)";
        case ChannelArg => reqArgs := reqArgs + " CHANNEL(mention or name)";
        case OptionalStart => reqArgs := reqArgs + " [";
        case OptionalEnd => reqArgs := reqArgs + "]";
        case SplitStringArg => reqArgs := reqArgs + " STRING";
      }
      k := k + 1;
    }
    assert types[..k] == types;
  }

  /**
   * One pass of the source's loop body: the switch on the token, with the group index,
   * the flag stack and the argument list as they stand before it. A returned error is
   * the source's early return. Each value kind has its own method below.
   */
  method ParseToken(ctx: Context, t: ParserToken, index: nat, stack: seq<bool>, args: seq<Value>)
    returns (groupIndex: int, optionalStack: seq<bool>, out: seq<Value>, error: Option<string>)
    requires t.OptionalEnd? ==> stack != []
    ensures error.Some? ==> StepToken(ctx, State(index, stack, args), t) == Stop(error.value)
    ensures error.None? ==> groupIndex >= 0
    ensures error.None? ==> StepToken(ctx, State(index, stack, args), t) == Next(State(groupIndex, optionalStack, out))
  {
    match t {
      case StringArg =>
        groupIndex, optionalStack, out, error := ParseStringSlot(ctx, index, stack, args);
      case IntegerArg =>
        groupIndex, optionalStack, out, error := ParseIntegerSlot(ctx, index, stack, args);
      case FloatArg =>
        groupIndex, optionalStack, out, error := ParseFloatSlot(ctx, index, stack, args);
      case UserArg =>
        groupIndex, optionalStack, out, error := ParseUserSlot(ctx, index, stack, args);
      case ChannelArg =>
        groupIndex, optionalStack, out, error := ParseChannelSlot(ctx, index, stack, args);
      case OptionalStart =>
        optionalStack, out, error := stack + [false], args, None;
        groupIndex := index - 1;
        groupIndex := groupIndex + 1;
      case OptionalEnd =>
        optionalStack, out, error := stack[..|stack| - 1], args, None;
        groupIndex := index - 1;
        groupIndex := groupIndex + 1;
      case SplitStringArg =>
        groupIndex, optionalStack, out, error := ParseSplitStringSlot(ctx, index, stack, args);
    }
  }

  method ParseStringSlot(ctx: Context, index: nat, stack: seq<bool>, args: seq<Value>)
    returns (groupIndex: int, optionalStack: seq<bool>, out: seq<Value>, error: Option<string>)
    ensures error.Some? ==> StepToken(ctx, State(index, stack, args), StringArg) == Stop(error.value)
    ensures error.None? ==> groupIndex >= 0
    ensures error.None? ==> StepToken(ctx, State(index, stack, args), StringArg) == Next(State(groupIndex, optionalStack, out))
  {
    groupIndex, optionalStack, out, error := index, stack, args, None;
    var count := |ctx.groups|;
    var s := Group(ctx, Min(groupIndex + 1, count));
    if Blank(s) {
      if Required(optionalStack) {
        error := Some(NotOptional(|out| + 1, "String"));
      } else {
        out := out + [Null];
      }
    } else {
      out := out + [Str(s.value)];
      optionalStack := MarkFound(optionalStack);
    }
    groupIndex := groupIndex + 1;
  }

  method ParseIntegerSlot(ctx: Context, index: nat, stack: seq<bool>, args: seq<Value>)
    returns (groupIndex: int, optionalStack: seq<bool>, out: seq<Value>, error: Option<string>)
    ensures error.Some? ==> StepToken(ctx, State(index, stack, args), IntegerArg) == Stop(error.value)
    ensures error.None? ==> groupIndex >= 0
    ensures error.None? ==> StepToken(ctx, State(index, stack, args), IntegerArg) == Next(State(groupIndex, optionalStack, out))
  {
    groupIndex, optionalStack, out, error := index, stack, args, None;
    var count := |ctx.groups|;
    var s := Group(ctx, Min(groupIndex + 1, count));
    ghost var st := State(index, stack, args);
    if Blank(s) {
      BlankStep(ctx, st, IntegerArg);
      if Required(optionalStack) {
        error := Some(NotOptional(|out| + 1, "Integer"));
      } else {
        out := out + [Null];
      }
    } else {
      var parsed := ParseInt(s.value);
      assert StepToken(ctx, st, IntegerArg) == if parsed.Some? then Present(st, IntegerArg, Int(parsed.value)) else Stop(NotParsed(|args| + 1, "Integer"));
      if parsed.Some? {
        out := out + [Int(parsed.value)];
        optionalStack := MarkFound(optionalStack);
      } else {
        error := Some(NotParsed(|out| + 1, "Integer"));
      }
    }
    groupIndex := groupIndex + 1;
  }

  method ParseFloatSlot(ctx: Context, index: nat, stack: seq<bool>, args: seq<Value>)
    returns (groupIndex: int, optionalStack: seq<bool>, out: seq<Value>, error: Option<string>)
    ensures error.Some? ==> StepToken(ctx, State(index, stack, args), FloatArg) == Stop(error.value)
    ensures error.None? ==> groupIndex >= 0
    ensures error.None? ==> StepToken(ctx, State(index, stack, args), FloatArg) == Next(State(groupIndex, optionalStack, out))
  {
    groupIndex, optionalStack, out, error := index, stack, args, None;
    var count := |ctx.groups|;
    var s := Group(ctx, Min(groupIndex + 1, count));
    ghost var st := State(index, stack, args);
    if Blank(s) {
      BlankStep(ctx, st, FloatArg);
      if Required(optionalStack) {
        error := Some(NotOptional(|out| + 1, "Float"));
      } else {
        out := out + [Null];
      }
    } else {
      var parsed := ParseFloat(s.value);
      assert StepToken(ctx, st, FloatArg) == if parsed.Some? then Present(st, FloatArg, Float(parsed.value)) else Stop(NotParsed(|args| + 1, "Float"));
      if parsed.Some? {
        out := out + [Float(parsed.value)];
        optionalStack := MarkFound(optionalStack);
      } else {
        error := Some(NotParsed(|out| + 1, "Float"));
      }
    }
    groupIndex := groupIndex + 1;
  }

  method ParseUserSlot(ctx: Context, index: nat, stack: seq<bool>, args: seq<Value>)
    returns (groupIndex: int, optionalStack: seq<bool>, out: seq<Value>, error: Option<string>)
    ensures error.Some? ==> StepToken(ctx, State(index, stack, args), UserArg) == Stop(error.value)
    ensures error.None? ==> groupIndex >= 0
    ensures error.None? ==> StepToken(ctx, State(index, stack, args), UserArg) == Next(State(groupIndex, optionalStack, out))
  {
    groupIndex, optionalStack, out, error := index, stack, args, None;
    var count := |ctx.groups|;
    var s := Group(ctx, Min(groupIndex + 1, count));
    groupIndex := groupIndex + 1;
    var s2 := Group(ctx, Min(groupIndex + 1, count));
    assert s == Read(ctx, index) && s2 == Read(ctx, index + 1);
    ghost var st := State(index, stack, args);
    if Blank(s) && Blank(s2) {
      BlankStep(ctx, st, UserArg);
      if Required(optionalStack) {
        error := Some(NotOptional(|out| + 1, "User"));
      } else {
        out := out + [Null];
      }
    } else {
      var found := ResolveUser(ctx.jda, ctx.optChannel, s, s2);
      UserStep(ctx, st, found);
      if found.Ok? {
        out := out + [UserRef(found.value)];
        optionalStack := MarkFound(optionalStack);
      } else {
        error := Some(found.error);
      }
    }
    groupIndex := groupIndex + 1;
  }

  method ParseChannelSlot(ctx: Context, index: nat, stack: seq<bool>, args: seq<Value>)
    returns (groupIndex: int, optionalStack: seq<bool>, out: seq<Value>, error: Option<string>)
    ensures error.Some? ==> StepToken(ctx, State(index, stack, args), ChannelArg) == Stop(error.value)
    ensures error.None? ==> groupIndex >= 0
    ensures error.None? ==> StepToken(ctx, State(index, stack, args), ChannelArg) == Next(State(groupIndex, optionalStack, out))
  {
    groupIndex, optionalStack, out, error := index, stack, args, None;
    var count := |ctx.groups|;
    var s := Group(ctx, Min(groupIndex + 1, count));
    groupIndex := groupIndex + 1;
    var s2 := Group(ctx, Min(groupIndex + 1, count));
    assert s == Read(ctx, index) && s2 == Read(ctx, index + 1);
    ghost var st := State(index, stack, args);
    if Blank(s) && Blank(s2) {
      BlankStep(ctx, st, ChannelArg);
      if Required(optionalStack) {
        error := Some(NotOptional(|out| + 1, "Channel"));
      } else {
        out := out + [Null];
      }
    } else {
      var found := ResolveChannel(ctx.jda, ctx.optChannel, s, s2);
      ChannelStep(ctx, st, found);
      if found.Ok? {
        out := out + [ChannelRef(found.value)];
        optionalStack := MarkFound(optionalStack);
      } else {
        error := Some(found.error);
      }
    }
    groupIndex := groupIndex + 1;
  }

  method ParseSplitStringSlot(ctx: Context, index: nat, stack: seq<bool>, args: seq<Value>)
    returns (groupIndex: int, optionalStack: seq<bool>, out: seq<Value>, error: Option<string>)
    ensures error.Some? ==> StepToken(ctx, State(index, stack, args), SplitStringArg) == Stop(error.value)
    ensures error.None? ==> groupIndex >= 0
    ensures error.None? ==> StepToken(ctx, State(index, stack, args), SplitStringArg) == Next(State(groupIndex, optionalStack, out))
  {
    groupIndex, optionalStack, out, error := index, stack, args, None;
    var count := |ctx.groups|;
    var s := Group(ctx, Min(groupIndex + 1, count));
    if Blank(s) {
      if Required(optionalStack) {
        error := Some(NotOptional(|out| + 1, "String"));
      } else {
        out := out + [Words([])];
      }
    } else {
      out := out + [Words(SplitWs(s.value))];
      optionalStack := MarkFound(optionalStack);
    }
    groupIndex := groupIndex + 1;
  }

  /**
   * `ParserImpl.parseArgs`: matches the input against the grammar's pattern and walks the
   * tokens with early returns, as the source's loop does; its result is `Resolve`'s.
   */
  method ParseArgs(g: Grammar, regex: (string, string) -> MatchOutcome, input: string, jda: J.Directory, optChannel: Option<J.Scope>)
    returns (r: ParserResult)
    requires PrefixBalanced(g.tokens)
    ensures r == Resolve(g.tokens, regex(g.pattern, input), input, jda, optChannel)
  {
    var types := g.tokens;
    var matcher := regex(g.pattern, input);
    if !matcher.matches {
      var reqArgs := RequiredArguments(types);
      return ParserResult(None, Some(USAGE_PREFIX + reqArgs + "`"));
    }
    var ctx := Context(input, matcher.groups, jda, optChannel);
    PrefixesBalanced(types);
    var out: seq<Value> := [];
    var groupIndex: nat := 0;
    var optionalStack: seq<bool> := [];
    var i := 0;
    while i < |types|
      invariant 0 <= i <= |types|
      invariant Run(ctx, types[..i]) == Next(State(groupIndex, optionalStack, out))
    {
      RunStep(ctx, types, i);
      var next, stack, args, error := ParseToken(ctx, types[i], groupIndex, optionalStack, out);
      if error.Some? {
        FailSticks(ctx, types, i + 1);
        return ParserResult(None, error);
      }
      groupIndex, optionalStack, out := next, stack, args;
      i := i + 1;
    }
    assert types[..i] == types;
    r := ParserResult(Some(out), None);
  }
}
