/**
 * The chat library's directory, as the argument parser sees it: users and text/voice
 * channels, looked up by id or by exact name, and the guild a text channel belongs to.
 * The library itself is not modelled; its caches become maps.
 */
module Jda {
  import opened Wrappers

  datatype User = User(id: string, name: string)

  datatype Channel = TextChannel(id: string, name: string) | VoiceChannel(id: string, name: string)

  /** A guild with its members, text channels and voice channels. */
  datatype Guild = Guild(id: string, users: set<User>, textChannels: set<Channel>, voiceChannels: set<Channel>)

  /** A direct-message channel with one user. */
  datatype PrivateChannel = PrivateChannel(id: string, recipient: User)

  /** A chat message, handed through to command handlers untouched. */
  datatype Message = Message(id: string, content: string)

  /** The text channel a command was sent in; the parser only asks it for its guild. */
  datatype Scope = Scope(channel: Channel, guild: Guild)

  /**
   * The bot's view of the world. The name maps give every entity of that exact name,
   * in the library's order; a name with no entry has no entity.
   */
  datatype Directory = Directory(
    usersById: map<string, User>,
    usersByName: map<string, seq<User>>,
    textChannelsById: map<string, Channel>,
    voiceChannelsById: map<string, Channel>,
    textChannelsByName: map<string, seq<Channel>>,
    voiceChannelsByName: map<string, seq<Channel>>)

  function Lookup<T>(m: map<string, T>, key: string): Option<T> {
    if key in m then Some(m[key]) else None
  }

  /**
   * All entities named `name`. An absent name (the name capture did not take part in the
   * match) finds nothing, as the library compares every name with it and none is equal.
   */
  function ByName<T>(m: map<string, seq<T>>, name: Option<string>): seq<T> {
    if name.Some? && name.value in m then m[name.value] else []
  }

  /** The guild-visibility test of a channel: text channels against the guild's text channels, voice against its voice channels. */
  predicate ChannelInGuild(c: Channel, g: Guild) {
    if c.TextChannel? then c in g.textChannels else c in g.voiceChannels
  }

  /** The elements of `s` that satisfy `p`, in order (a stream filter). */
  function Keep<T(!new)>(s: seq<T>, p: T -> bool): (r: seq<T>)
    ensures |r| <= |s|
    ensures forall x :: x in r <==> x in s && p(x)
  {
    if s == [] then [] else (if p(s[0]) then [s[0]] else []) + Keep(s[1..], p)
  }

  /** No element occurs twice. */
  predicate Distinct<T(==)>(s: seq<T>) {
    forall j, k :: 0 <= j < k < |s| ==> s[j] != s[k]
  }

  predicate UsersNamed(us: seq<User>, name: string) {
    forall k :: 0 <= k < |us| ==> us[k].name == name
  }

  predicate ChannelsNamed(cs: seq<Channel>, name: string, text: bool) {
    forall k :: 0 <= k < |cs| ==> cs[k].name == name && cs[k].TextChannel? == text
  }

  /**
   * The library's caches agree with themselves: an entity is filed under its own id and
   * its own name, channels under their own kind, and a name lists each entity once.
   */
  ghost predicate Consistent(d: Directory) {
    && (forall id :: id in d.usersById ==> d.usersById[id].id == id)
    && (forall id :: id in d.textChannelsById ==> d.textChannelsById[id].TextChannel? && d.textChannelsById[id].id == id)
    && (forall id :: id in d.voiceChannelsById ==> d.voiceChannelsById[id].VoiceChannel? && d.voiceChannelsById[id].id == id)
    && (forall n :: n in d.usersByName ==> UsersNamed(d.usersByName[n], n) && Distinct(d.usersByName[n]))
    && (forall n :: n in d.textChannelsByName ==> ChannelsNamed(d.textChannelsByName[n], n, true) && Distinct(d.textChannelsByName[n]))
    && (forall n :: n in d.voiceChannelsByName ==> ChannelsNamed(d.voiceChannelsByName[n], n, false) && Distinct(d.voiceChannelsByName[n]))
  }

  lemma {:induction false} KeepDistinct<T(!new)>(s: seq<T>, p: T -> bool)
    requires Distinct(s)
    ensures Distinct(Keep(s, p))
  {
    if s != [] {
      assert forall j :: 1 <= j < |s| ==> s[j] != s[0];
      assert s[0] !in s[1..];
      KeepDistinct(s[1..], p);
    }
  }

  /** The first two elements of a duplicate-free sequence are elements of it, and they differ. */
  lemma DistinctFront<T>(s: seq<T>)
    ensures |s| > 0 ==> s[0] in s
    ensures |s| > 1 ==> s[1] in s && (Distinct(s) ==> s[0] != s[1])
  {
  }

  /** A duplicate-free sequence whose every element is `x`, and which holds `x`, is `[x]`. */
  lemma DistinctSingleton<T>(s: seq<T>, x: T)
    requires Distinct(s) && x in s
    requires forall y :: y in s ==> y == x
    ensures s == [x]
  {
    DistinctFront(s);
  }
}
