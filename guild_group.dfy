/**
 * A guild-level group, such as a guild's moderators: for every guild a set of user ids.
 * Guild owners manage its members, so it is not managed by the bot.
 */
module GuildGroups {
  import J = Jda

  class GuildGroup {
    const name: string
    var members: map<string, set<string>>

    constructor (name: string)
      ensures this.name == name && members == map[]
    {
      this.name := name;
      members := map[];
    }

    /** A guild group is not managed. */
    function IsManaged(): (r: bool)
      ensures !r
    {
      false
    }

    function GetName(): (r: string)
      ensures r == name
    {
      name
    }

    /**
     * Membership in one guild. The source reads the guild's set without a check, so a
     * guild with no entry fails; here that guild is excluded by the precondition.
     */
    function IsMember(guild: J.Guild, user: J.User): (r: bool)
      requires guild.id in members
      reads this
      ensures r <==> user.id in members[guild.id]
    {
      user.id in members[guild.id]
    }

    /** Creates the guild's set if there is none, then adds the user to it; other guilds keep theirs. */
    method AddUser(guild: J.Guild, user: J.User)
      modifies this
      ensures members == old(members)[guild.id := (if guild.id in old(members) then old(members)[guild.id] else {}) + {user.id}]
      ensures guild.id in members && IsMember(guild, user)
      ensures forall g :: g != guild.id && g in old(members) ==> g in members && members[g] == old(members)[g]
    {
      if guild.id !in members {
        members := members[guild.id := {}];
      }
      members := members[guild.id := members[guild.id] + {user.id}];
    }

    /** Removes the user from the guild's set, if the guild has one; otherwise nothing changes. */
    method RemoveUser(guild: J.Guild, user: J.User)
      modifies this
      ensures guild.id in old(members) ==> members == old(members)[guild.id := old(members)[guild.id] - {user.id}]
      ensures guild.id !in old(members) ==> members == old(members)
      ensures guild.id in members ==> !IsMember(guild, user)
    {
      if guild.id in members {
        members := members[guild.id := members[guild.id] - {user.id}];
      }
    }
  }
}
