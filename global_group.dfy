/**
 * A bot-wide group, such as the bot's administrators: one set of user ids, the same in
 * every guild. Its members are managed by the bot itself.
 */
module GlobalGroups {
  import opened Wrappers
  import J = Jda

  class GlobalGroup {
    const name: string
    var members: set<string>

    constructor (name: string)
      ensures this.name == name && members == {}
    {
      this.name := name;
      members := {};
    }

    /** A global group is managed. */
    function IsManaged(): (r: bool)
      ensures r
    {
      true
    }

    function GetName(): (r: string)
      ensures r == name
    {
      name
    }

    /** Membership ignores the guild: the user's id is looked up in the one set. */
    function IsMember(guild: Option<J.Guild>, user: J.User): (r: bool)
      reads this
      ensures r <==> user.id in members
    {
      user.id in members
    }

    /** Adds the user's id; the guild is ignored. */
    method AddUser(guild: Option<J.Guild>, user: J.User)
      modifies this
      ensures members == old(members) + {user.id}
      ensures forall g :: IsMember(g, user)
      ensures forall id :: id != user.id ==> (id in members <==> id in old(members))
    {
      members := members + {user.id};
    }

    /** Removes the user's id; the guild is ignored. */
    method RemoveUser(guild: Option<J.Guild>, user: J.User)
      modifies this
      ensures members == old(members) - {user.id}
      ensures forall g :: !IsMember(g, user)
      ensures forall id :: id != user.id ==> (id in members <==> id in old(members))
    {
      members := members - {user.id};
    }

    /** The one-argument form: adding with no guild. */
    method AddUserAnywhere(user: J.User)
      modifies this
      ensures members == old(members) + {user.id}
    {
      AddUser(None, user);
    }

    /** The one-argument form: removing with no guild. */
    method RemoveUserAnywhere(user: J.User)
      modifies this
      ensures members == old(members) - {user.id}
    {
      RemoveUser(None, user);
    }
  }
}
