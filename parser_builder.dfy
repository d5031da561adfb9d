/**
 * The grammar builder. Each call appends a fixed regular-expression fragment to the
 * pattern under construction and, for every kind but literals, a token to the token
 * list; `Build` closes the optional blocks left open and strips the leading separator.
 * The pattern is kept as the exact text the builder composes.
 */
module ParserBuilder {

  /** The kinds of argument slots; literals leave no token. */
  datatype ParserToken =
    | StringArg | IntegerArg | FloatArg | UserArg | ChannelArg
    | OptionalStart | OptionalEnd | SplitStringArg

  /** The separator in front of every literal, and inside every value fragment. */
  const SEPARATOR: string := "\\s+"
  const OPTIONAL_OPEN: string := "(?:"
  const OPTIONAL_CLOSE: string := ")?"

  /** A value fragment: an optional group holding the separator and the slot's captures. */
  function Slot(captures: string): string {
    OPTIONAL_OPEN + SEPARATOR + captures + OPTIONAL_CLOSE
  }

  const STRING_CAPTURES: string := "(.*?)"
  const INTEGER_CAPTURES: string := "([+-]?\\d+)"
  const FLOAT_CAPTURES: string := "([+-]?\\d*\\.?\\d*)"
  /** A mention `<@id>` or `<@!id>`, or a name of 3 to 32 characters. */
  const USER_CAPTURES: string := "(?:<@!?(\\d+)>|(.{3,32}))"
  /** A mention `<#id>`, or a name of 3 to 32 non-space characters. */
  const CHANNEL_CAPTURES: string := "(?:<#(\\d+)>|(\\S{3,32}))"

  const STRING_FRAGMENT: string := Slot(STRING_CAPTURES)
  const INTEGER_FRAGMENT: string := Slot(INTEGER_CAPTURES)
  const FLOAT_FRAGMENT: string := Slot(FLOAT_CAPTURES)
  const USER_FRAGMENT: string := Slot(USER_CAPTURES)
  const CHANNEL_FRAGMENT: string := Slot(CHANNEL_CAPTURES)

  /** The text appended for a token. String and split-string slots share one fragment. */
  function Fragment(t: ParserToken): string {
    match t
    case StringArg => STRING_FRAGMENT
    case SplitStringArg => STRING_FRAGMENT
    case IntegerArg => INTEGER_FRAGMENT
    case FloatArg => FLOAT_FRAGMENT
    case UserArg => USER_FRAGMENT
    case ChannelArg => CHANNEL_FRAGMENT
    case OptionalStart => OPTIONAL_OPEN
    case OptionalEnd => OPTIONAL_CLOSE
  }

  /** Value tokens produce an argument; the optional markers are structural. */
  predicate IsValue(t: ParserToken) {
    !t.OptionalStart? && !t.OptionalEnd?
  }

  /** How many capture groups a token's fragment opens: users and channels capture a mention id and a name. */
  function Width(t: ParserToken): nat {
    match t
    case UserArg => 2
    case ChannelArg => 2
    case OptionalStart => 0
    case OptionalEnd => 0
    case _ => 1
  }

  /** Whether position `i` of pattern `p` opens a capturing group: an unescaped '(' not followed by '?'. */
  predicate OpensCapture(p: string, i: nat)
    requires i < |p|
  {
    p[i] == '(' && (i == 0 || p[i - 1] != '\\') && (i + 1 == |p| || p[i + 1] != '?')
  }

  /** The number of capturing groups opened in `p` at positions `i` and later. */
  function CaptureGroupsFrom(p: string, i: nat): nat
    requires i <= |p|
    decreases |p| - i
  {
    if i == |p| then 0 else (if OpensCapture(p, i) then 1 else 0) + CaptureGroupsFrom(p, i + 1)
  }

  /** Counting in a concatenation: no escape and no '?' straddles the seam. */
  lemma {:induction false} CaptureGroupsTail(a: string, b: string, j: nat)
    requires a == [] || a[|a| - 1] != '\\'
    requires j <= |b|
    ensures CaptureGroupsFrom(a + b, |a| + j) == CaptureGroupsFrom(b, j)
    decreases |b| - j
  {
    if j < |b| {
      assert (a + b)[|a| + j] == b[j];
      assert j > 0 ==> (a + b)[|a| + j - 1] == b[j - 1];
      assert j + 1 < |b| ==> (a + b)[|a| + j + 1] == b[j + 1];
      assert OpensCapture(a + b, |a| + j) == OpensCapture(b, j);
      CaptureGroupsTail(a, b, j + 1);
    }
  }

  lemma {:induction false} CaptureGroupsHead(a: string, b: string, i: nat)
    requires a == [] || a[|a| - 1] != '\\'
    requires b == [] || b[0] != '?'
    requires i <= |a|
    ensures CaptureGroupsFrom(a + b, i) == CaptureGroupsFrom(a, i) + CaptureGroupsFrom(b, 0)
    decreases |a| - i
  {
    if i == |a| {
      CaptureGroupsTail(a, b, 0);
    } else {
      assert (a + b)[i] == a[i];
      assert i > 0 ==> (a + b)[i - 1] == a[i - 1];
      assert i + 1 < |a| ==> (a + b)[i + 1] == a[i + 1];
      assert i + 1 == |a| && b != [] ==> (a + b)[i + 1] == b[0];
      assert OpensCapture(a + b, i) == OpensCapture(a, i);
      CaptureGroupsHead(a, b, i + 1);
    }
  }

  lemma CaptureGroupsConcat(a: string, b: string)
    requires a == [] || a[|a| - 1] != '\\'
    requires b == [] || b[0] != '?'
    ensures CaptureGroupsFrom(a + b, 0) == CaptureGroupsFrom(a, 0) + CaptureGroupsFrom(b, 0)
  {
    CaptureGroupsHead(a, b, 0);
  }

  /** The optional group and the separator around a slot's captures capture nothing. */
  lemma SlotGroups(captures: string)
    requires |captures| > 0 && captures[0] != '?' && captures[|captures| - 1] != '\\'
    ensures CaptureGroupsFrom(Slot(captures), 0) == CaptureGroupsFrom(captures, 0)
  {

    assert CaptureGroupsFrom("(?:", 2) == 0;
    assert CaptureGroupsFrom("(?:", 1) == 0;
    assert CaptureGroupsFrom("\\s+", 2) == 0;
    assert CaptureGroupsFrom("\\s+", 1) == 0;
    assert CaptureGroupsFrom(")?", 1) == 0;
    CaptureGroupsConcat(OPTIONAL_OPEN, SEPARATOR);
    CaptureGroupsConcat(OPTIONAL_OPEN + SEPARATOR, captures);
    CaptureGroupsConcat(OPTIONAL_OPEN + SEPARATOR + captures, OPTIONAL_CLOSE);
  }

  lemma StringCaptureGroups()
    ensures CaptureGroupsFrom(STRING_CAPTURES, 0) == 1
  {
    assert STRING_CAPTURES == "(.*?)";
    assert CaptureGroupsFrom("(.*?)", 4) == 0;
    assert CaptureGroupsFrom("(.*?)", 3) == 0;
    assert CaptureGroupsFrom("(.*?)", 2) == 0;
    assert CaptureGroupsFrom("(.*?)", 1) == 0;
  }

  lemma IntegerCaptureGroups()
    ensures CaptureGroupsFrom(INTEGER_CAPTURES, 0) == 1
  {
    assert INTEGER_CAPTURES == "([+-]?\\d+)";
    assert CaptureGroupsFrom("([+-]?\\d+)", 9) == 0;
    assert CaptureGroupsFrom("([+-]?\\d+)", 8) == 0;
    assert CaptureGroupsFrom("([+-]?\\d+)", 7) == 0;
    assert CaptureGroupsFrom("([+-]?\\d+)", 6) == 0;
    assert CaptureGroupsFrom("([+-]?\\d+)", 5) == 0;
    assert CaptureGroupsFrom("([+-]?\\d+)", 4) == 0;
    assert CaptureGroupsFrom("([+-]?\\d+)", 3) == 0;
    assert CaptureGroupsFrom("([+-]?\\d+)", 2) == 0;
    assert CaptureGroupsFrom("([+-]?\\d+)", 1) == 0;
  }

  lemma FloatCaptureGroups()
    ensures CaptureGroupsFrom(FLOAT_CAPTURES, 0) == 1
  {
    assert FLOAT_CAPTURES == "([+-]?\\d*" + "\\.?\\d*)";
    assert CaptureGroupsFrom("([+-]?\\d*", 8) == 0;
    assert CaptureGroupsFrom("([+-]?\\d*", 7) == 0;
    assert CaptureGroupsFrom("([+-]?\\d*", 6) == 0;
    assert CaptureGroupsFrom("([+-]?\\d*", 5) == 0;
    assert CaptureGroupsFrom("([+-]?\\d*", 4) == 0;
    assert CaptureGroupsFrom("([+-]?\\d*", 3) == 0;
    assert CaptureGroupsFrom("([+-]?\\d*", 2) == 0;
    assert CaptureGroupsFrom("([+-]?\\d*", 1) == 0;
    assert CaptureGroupsFrom("\\.?\\d*)", 6) == 0;
    assert CaptureGroupsFrom("\\.?\\d*)", 5) == 0;
    assert CaptureGroupsFrom("\\.?\\d*)", 4) == 0;
    assert CaptureGroupsFrom("\\.?\\d*)", 3) == 0;
    assert CaptureGroupsFrom("\\.?\\d*)", 2) == 0;
    assert CaptureGroupsFrom("\\.?\\d*)", 1) == 0;
    CaptureGroupsConcat("([+-]?\\d*", "\\.?\\d*)");
  }

  /** The opening of a user mention, before its id: no capture group. */
  lemma UserMentionOpenGroups()
    ensures CaptureGroupsFrom("(?:<@!?", 0) == 0
  {
    assert CaptureGroupsFrom("(?:<@!?", 6) == 0;
    assert CaptureGroupsFrom("(?:<@!?", 5) == 0;
    assert CaptureGroupsFrom("(?:<@!?", 4) == 0;
    assert CaptureGroupsFrom("(?:<@!?", 3) == 0;
    assert CaptureGroupsFrom("(?:<@!?", 2) == 0;
    assert CaptureGroupsFrom("(?:<@!?", 1) == 0;
  }

  /** The id of a mention: one capture group. */
  lemma MentionIdGroups()
    ensures CaptureGroupsFrom("(\\d+)>|", 0) == 1
  {
    assert CaptureGroupsFrom("(\\d+)>|", 6) == 0;
    assert CaptureGroupsFrom("(\\d+)>|", 5) == 0;
    assert CaptureGroupsFrom("(\\d+)>|", 4) == 0;
    assert CaptureGroupsFrom("(\\d+)>|", 3) == 0;
    assert CaptureGroupsFrom("(\\d+)>|", 2) == 0;
    assert CaptureGroupsFrom("(\\d+)>|", 1) == 0;
  }

  /** The name alternative of a user slot: one capture group. */
  lemma UserNameGroups()
    ensures CaptureGroupsFrom("(.{3,32}))", 0) == 1
  {
    assert CaptureGroupsFrom("(.{3,32}))", 9) == 0;
    assert CaptureGroupsFrom("(.{3,32}))", 8) == 0;
    assert CaptureGroupsFrom("(.{3,32}))", 7) == 0;
    assert CaptureGroupsFrom("(.{3,32}))", 6) == 0;
    assert CaptureGroupsFrom("(.{3,32}))", 5) == 0;
    assert CaptureGroupsFrom("(.{3,32}))", 4) == 0;
    assert CaptureGroupsFrom("(.{3,32}))", 3) == 0;
    assert CaptureGroupsFrom("(.{3,32}))", 2) == 0;
    assert CaptureGroupsFrom("(.{3,32}))", 1) == 0;
  }

  lemma UserCaptureGroups()
    ensures CaptureGroupsFrom(USER_CAPTURES, 0) == 2
  {
    assert USER_CAPTURES == "(?:<@!?" + "(\\d+)>|" + "(.{3,32}))";
    UserMentionOpenGroups();
    MentionIdGroups();
    UserNameGroups();
    CaptureGroupsConcat("(?:<@!?", "(\\d+)>|");
    CaptureGroupsConcat("(?:<@!?" + "(\\d+)>|", "(.{3,32}))");
  }

  /** The opening of a channel mention, before its id: no capture group. */
  lemma ChannelMentionOpenGroups()
    ensures CaptureGroupsFrom("(?:<#", 0) == 0
  {
    assert CaptureGroupsFrom("(?:<#", 4) == 0;
    assert CaptureGroupsFrom("(?:<#", 3) == 0;
    assert CaptureGroupsFrom("(?:<#", 2) == 0;
    assert CaptureGroupsFrom("(?:<#", 1) == 0;
  }

  /** The name alternative of a channel slot: one capture group. */
  lemma ChannelNameGroups()
    ensures CaptureGroupsFrom("(\\S{3,32}))", 0) == 1
  {
    assert CaptureGroupsFrom("(\\S{3,32}))", 10) == 0;
    assert CaptureGroupsFrom("(\\S{3,32}))", 9) == 0;
    assert CaptureGroupsFrom("(\\S{3,32}))", 8) == 0;
    assert CaptureGroupsFrom("(\\S{3,32}))", 7) == 0;
    assert CaptureGroupsFrom("(\\S{3,32}))", 6) == 0;
    assert CaptureGroupsFrom("(\\S{3,32}))", 5) == 0;
    assert CaptureGroupsFrom("(\\S{3,32}))", 4) == 0;
    assert CaptureGroupsFrom("(\\S{3,32}))", 3) == 0;
    assert CaptureGroupsFrom("(\\S{3,32}))", 2) == 0;
    assert CaptureGroupsFrom("(\\S{3,32}))", 1) == 0;
  }

  lemma ChannelCaptureGroups()
    ensures CaptureGroupsFrom(CHANNEL_CAPTURES, 0) == 2
  {
    assert CHANNEL_CAPTURES == "(?:<#" + "(\\d+)>|" + "(\\S{3,32}))";
    ChannelMentionOpenGroups();
    MentionIdGroups();
    ChannelNameGroups();
    CaptureGroupsConcat("(?:<#", "(\\d+)>|");
    CaptureGroupsConcat("(?:<#" + "(\\d+)>|", "(\\S{3,32}))");
  }

  /** Width counts exactly the capturing groups written in the token's fragment. */
  lemma FragmentCaptureGroups(t: ParserToken)
    ensures CaptureGroupsFrom(Fragment(t), 0) == Width(t)
  {
    match t
    case StringArg => StringCaptureGroups(); SlotGroups(STRING_CAPTURES);
    case SplitStringArg => StringCaptureGroups(); SlotGroups(STRING_CAPTURES);
    case IntegerArg => IntegerCaptureGroups(); SlotGroups(INTEGER_CAPTURES);
    case FloatArg => FloatCaptureGroups(); SlotGroups(FLOAT_CAPTURES);
    case UserArg => UserCaptureGroups(); SlotGroups(USER_CAPTURES);
    case ChannelArg => ChannelCaptureGroups(); SlotGroups(CHANNEL_CAPTURES);
    case OptionalStart => assert CaptureGroupsFrom("(?:", 2) == 0;
    case OptionalEnd => assert CaptureGroupsFrom(")?", 1) == 0;
  }

  /** The capture groups opened by a token sequence. */
  function GroupCount(ts: seq<ParserToken>): nat {
    if ts == [] then 0 else GroupCount(ts[..|ts| - 1]) + Width(ts[|ts| - 1])
  }

  /** The argument-producing tokens of a sequence, in order. */
  function ValueTokens(ts: seq<ParserToken>): (vs: seq<ParserToken>)
    ensures |vs| <= |ts|
    ensures forall j :: 0 <= j < |vs| ==> IsValue(vs[j])
  {
    if ts == [] then []
    else ValueTokens(ts[..|ts| - 1]) + (if IsValue(ts[|ts| - 1]) then [ts[|ts| - 1]] else [])
  }

  function Delta(t: ParserToken): int {
    if t.OptionalStart? then 1 else if t.OptionalEnd? then -1 else 0
  }

  /** Optional blocks opened and not yet closed at the end of `ts`. */
  function Depth(ts: seq<ParserToken>): int {
    if ts == [] then 0 else Depth(ts[..|ts| - 1]) + Delta(ts[|ts| - 1])
  }

  /** No prefix closes more optional blocks than it opens. */
  ghost predicate PrefixBalanced(ts: seq<ParserToken>) {
    forall k :: 0 <= k <= |ts| ==> Depth(ts[..k]) >= 0
  }

  /** Every optional block is closed, and none is closed before it opens. */
  ghost predicate Balanced(ts: seq<ParserToken>) {
    PrefixBalanced(ts) && Depth(ts) == 0
  }

  lemma PrefixBalancedAppend(ts: seq<ParserToken>, t: ParserToken)
    requires PrefixBalanced(ts) && Depth(ts) + Delta(t) >= 0
    ensures PrefixBalanced(ts + [t]) && Depth(ts + [t]) == Depth(ts) + Delta(t)
  {
    var us := ts + [t];
    assert us[..|us| - 1] == ts;
    forall k | 0 <= k <= |us|
      ensures Depth(us[..k]) >= 0
    {
      if k <= |ts| {
        assert us[..k] == ts[..k];
      } else {
        assert us[..k] == us;
      }
    }
  }

  /** `n` closing markers. */
  function Closes(n: nat): (ts: seq<ParserToken>)
    ensures |ts| == n
  {
    if n == 0 then [] else Closes(n - 1) + [OptionalEnd]
  }

  /** `n` copies of `s`, one after another. */
  function Repeat(s: string, n: nat): string {
    if n == 0 then [] else Repeat(s, n - 1) + s
  }

  /** `StringBuilder.delete(start, end)`: an end beyond the length is clamped to it. */
  function Delete(s: string, start: nat, end: nat): (r: string)
    requires start <= end && start <= |s|
  {
    s[..start] + s[if end < |s| then end else |s|..]
  }

  /**
   * The tail of `build()`: a pattern that starts with '(' loses positions 3 to 5 (the
   * separator right after the first "(?:"); any other non-empty pattern loses its first
   * three characters (the separator of a leading literal); an empty one stays empty.
   */
  function StripLeading(s: string): string
    requires s == [] || |s| >= 3
  {
    if s == [] then s
    else if s[0] == '(' then Delete(s, 3, 6)
    else Delete(s, 0, 3)
  }

  /** Every value fragment opens with a non-capturing group and a separator. */
  lemma ValueFragmentHead(t: ParserToken)
    requires IsValue(t)
    ensures |Fragment(t)| > 6 && Fragment(t)[0] == '('
    ensures Fragment(t)[..3] == OPTIONAL_OPEN && Fragment(t)[3..6] == SEPARATOR
  {
    var captures := Fragment(t)[6..|Fragment(t)| - 2];
    assert Fragment(t) == OPTIONAL_OPEN + SEPARATOR + captures + OPTIONAL_CLOSE;
  }

  /** A grammar that starts with a value slot loses exactly that slot's separator. */
  lemma StripFirstValue(t: ParserToken, rest: string)
    requires IsValue(t)
    ensures StripLeading(Fragment(t) + rest) == OPTIONAL_OPEN + Fragment(t)[6..] + rest
  {
    var f := Fragment(t);
    ValueFragmentHead(t);
    assert (f + rest)[..3] == f[..3];
    assert (f + rest)[6..] == f[6..] + rest;
  }

  lemma ConcatAssoc(a: string, b: string, c: string)
    ensures a + b + c == a + (b + c)
  {
  }

  /** A grammar that starts with a literal loses exactly the literal's separator. */
  lemma StripFirstLiteral(literal: string, rest: string)
    ensures StripLeading(SEPARATOR + literal + rest) == literal + rest
  {
    var u := literal + rest;
    ConcatAssoc(SEPARATOR, literal, rest);
    assert (SEPARATOR + u)[0] == '\\' && (SEPARATOR + u)[3..] == u;
  }

  /**
   * A grammar that opens an optional block and then a value slot loses the opening of
   * the block instead: the value fragment keeps its separator and the block's ")?" is
   * left without a partner.
   */
  lemma StripAfterOptionalStart(t: ParserToken, rest: string)
    requires IsValue(t)
    ensures StripLeading(OPTIONAL_OPEN + Fragment(t) + rest) == Fragment(t) + rest
  {
    var f := Fragment(t);
    ValueFragmentHead(t);
    var s := OPTIONAL_OPEN + f + rest;
    assert s[..3] == OPTIONAL_OPEN;
    assert s[6..] == f[3..] + rest;
    assert f == f[..3] + f[3..];
  }

  /** Opening minus closing parentheses: a pattern with more closes than opens does not compile. */
  function ParenBalance(s: string): int {
    multiset(s)['('] as int - multiset(s)[')'] as int
  }

  lemma BalanceConcat(a: string, b: string)
    ensures ParenBalance(a + b) == ParenBalance(a) + ParenBalance(b)
  {
    assert multiset(a + b) == multiset(a) + multiset(b);
  }

  /** The markers and the separator: `(?:` opens one group, `)?` closes one, `\s+` neither. */
  lemma MarkerBalance()
    ensures ParenBalance(OPTIONAL_OPEN) == 1
    ensures ParenBalance(OPTIONAL_CLOSE) == -1
    ensures ParenBalance(SEPARATOR) == 0
  {
    assert multiset(OPTIONAL_OPEN) == multiset{'(', '?', ':'};
    assert multiset(OPTIONAL_CLOSE) == multiset{')', '?'};
    assert multiset(SEPARATOR) == multiset{'\\', 's', '+'};
  }

  lemma OpenBalance(u: string)
    ensures ParenBalance(OPTIONAL_OPEN + u) == ParenBalance(u) + 1
  {
    MarkerBalance();
    BalanceConcat(OPTIONAL_OPEN, u);
  }

  /**
   * The strip after an opening block removes the block's `(` and none of the `)`, so a
   * pattern whose parentheses matched has one unmatched `)` afterwards.
   */
  lemma StripAfterOptionalStartUnbalances(t: ParserToken, rest: string)
    requires IsValue(t)
    ensures ParenBalance(StripLeading(OPTIONAL_OPEN + Fragment(t) + rest)) == ParenBalance(OPTIONAL_OPEN + Fragment(t) + rest) - 1
  {
    var u := Fragment(t) + rest;
    StripAfterOptionalStart(t, rest);
    OpenBalance(u);
    ConcatAssoc(OPTIONAL_OPEN, Fragment(t), rest);
  }

  /** The string slot's fragment opens and closes two groups each. */
  lemma StringFragmentBalance()
    ensures ParenBalance(STRING_FRAGMENT) == 0
  {
    MarkerBalance();
    assert multiset(STRING_CAPTURES) == multiset{'(', '.', '*', '?', ')'};
    BalanceConcat(OPTIONAL_OPEN, SEPARATOR);
    BalanceConcat(OPTIONAL_OPEN + SEPARATOR, STRING_CAPTURES);
    BalanceConcat(OPTIONAL_OPEN + SEPARATOR + STRING_CAPTURES, OPTIONAL_CLOSE);
  }

  /** `startOptionalBlock().addString().build()`: the stripped pattern closes one group more than it opens. */
  lemma OptionalFirstUnbalanced()
    ensures ParenBalance(StripLeading(OPTIONAL_OPEN + STRING_FRAGMENT + OPTIONAL_CLOSE)) == -1
  {
    StripAfterOptionalStart(StringArg, OPTIONAL_CLOSE);
    StringFragmentBalance();
    MarkerBalance();
    BalanceConcat(STRING_FRAGMENT, OPTIONAL_CLOSE);
  }

  /** What `build()` hands to the parser: the compiled pattern and the token list. */
  datatype Grammar = Grammar(pattern: string, tokens: seq<ParserToken>)

  class Builder {
    var builder: string
    var types: seq<ParserToken>
    var optionalCount: nat

    /** The open-block counter is the token list's depth, and no prefix closes too much. */
    ghost predicate Valid()
      reads this
    {
      && PrefixBalanced(types)
      && Depth(types) == optionalCount
      && (builder == [] || |builder| >= 3)
      && (optionalCount > 0 ==> builder != [])
    }

    constructor ()
      ensures Valid()
      ensures builder == [] && types == [] && optionalCount == 0
    {
      builder := [];
      types := [];
      optionalCount := 0;
    }

    method AddLiteral(literal: string)
      requires Valid()
      modifies this
      ensures Valid()
      ensures builder == old(builder) + SEPARATOR + literal
      ensures types == old(types) && optionalCount == old(optionalCount)
    {
      builder := builder + SEPARATOR + literal;
    }

    /** Appends a value slot: its fragment to the pattern, its token to the list. */
    method AddSlot(t: ParserToken)
      requires Valid() && IsValue(t)
      modifies this
      ensures Valid()
      ensures builder == old(builder) + Fragment(t)
      ensures types == old(types) + [t] && optionalCount == old(optionalCount)
    {
      PrefixBalancedAppend(types, t);
      builder := builder + Fragment(t);
      types := types + [t];
    }

    method AddString()
      requires Valid()
      modifies this
      ensures Valid()
      ensures builder == old(builder) + STRING_FRAGMENT
      ensures types == old(types) + [StringArg] && optionalCount == old(optionalCount)
    {
      AddSlot(StringArg);
    }

    method AddSplitString()
      requires Valid()
      modifies this
      ensures Valid()
      ensures builder == old(builder) + STRING_FRAGMENT
      ensures types == old(types) + [SplitStringArg] && optionalCount == old(optionalCount)
    {
      AddSlot(SplitStringArg);
    }

    method AddInteger()
      requires Valid()
      modifies this
      ensures Valid()
      ensures builder == old(builder) + INTEGER_FRAGMENT
      ensures types == old(types) + [IntegerArg] && optionalCount == old(optionalCount)
    {
      AddSlot(IntegerArg);
    }

    method AddFloat()
      requires Valid()
      modifies this
      ensures Valid()
      ensures builder == old(builder) + FLOAT_FRAGMENT
      ensures types == old(types) + [FloatArg] && optionalCount == old(optionalCount)
    {
      AddSlot(FloatArg);
    }

    method AddUser()
      requires Valid()
      modifies this
      ensures Valid()
      ensures builder == old(builder) + USER_FRAGMENT
      ensures types == old(types) + [UserArg] && optionalCount == old(optionalCount)
    {
      AddSlot(UserArg);
    }

    method AddChannel()
      requires Valid()
      modifies this
      ensures Valid()
      ensures builder == old(builder) + CHANNEL_FRAGMENT
      ensures types == old(types) + [ChannelArg] && optionalCount == old(optionalCount)
    {
      AddSlot(ChannelArg);
    }

    method StartOptionalBlock()
      requires Valid()
      modifies this
      ensures Valid()
      ensures builder == old(builder) + OPTIONAL_OPEN
      ensures types == old(types) + [OptionalStart] && optionalCount == old(optionalCount) + 1
    {
      PrefixBalancedAppend(types, OptionalStart);
      builder := builder + OPTIONAL_OPEN;
      types := types + [OptionalStart];
      optionalCount := optionalCount + 1;
    }

    /**
     * Closes the innermost open block. With no block open the source throws
     * UnsupportedOperationException; here `ok` is false and nothing changes.
     */
    method EndOptionalBlock() returns (ok: bool)
      requires Valid()
      modifies this
      ensures Valid()
      ensures ok == (old(optionalCount) > 0)
      ensures ok ==> builder == old(builder) + OPTIONAL_CLOSE
      ensures ok ==> types == old(types) + [OptionalEnd] && optionalCount == old(optionalCount) - 1
      ensures !ok ==> builder == old(builder) && types == old(types) && optionalCount == old(optionalCount)
    {
      if optionalCount == 0 {
        return false;
      }
      PrefixBalancedAppend(types, OptionalEnd);
      builder := builder + OPTIONAL_CLOSE;
      types := types + [OptionalEnd];
      optionalCount := optionalCount - 1;
      ok := true;
    }

    /** The loop at the head of `build()`: ends optional blocks until none is open. */
    method CloseOpenBlocks()
      requires Valid()
      modifies this
      ensures Valid() && optionalCount == 0
      ensures types == old(types) + Closes(old(optionalCount))
      ensures builder == old(builder) + Repeat(OPTIONAL_CLOSE, old(optionalCount))
    {
      ghost var n := optionalCount;
      while optionalCount > 0
        invariant Valid()
        invariant optionalCount <= n
        invariant types == old(types) + Closes(n - optionalCount)
        invariant builder == old(builder) + Repeat(OPTIONAL_CLOSE, n - optionalCount)
        decreases optionalCount
      {
        var closed := EndOptionalBlock();
      }
    }

    /**
     * Closes every block still open, strips the leading separator and pairs the
     * pattern with the token list, whose optional markers are then balanced.
     */
    method Build() returns (g: Grammar)
      requires Valid()
      modifies this
      ensures types == old(types) + Closes(old(optionalCount)) && optionalCount == 0
      ensures builder == StripLeading(old(builder) + Repeat(OPTIONAL_CLOSE, old(optionalCount)))
      ensures g == Grammar(builder, types)
      ensures Balanced(g.tokens)
    {
      CloseOpenBlocks();
      if |builder| != 0 {
        if builder[0] == '(' {
          builder := Delete(builder, 3, 6);
        } else {
          builder := Delete(builder, 0, 3);
        }
      }
      g := Grammar(builder, types);
    }
  }
}
