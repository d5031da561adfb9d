/**
 * A group whose membership is a permission check in the channel at hand: a user belongs
 * when it holds all of the group's permissions, or any one of them.
 */
module ManagedGroups {
  import opened Wrappers
  import opened RequireTypes
  import J = Jda

  /** A text channel as the permission check sees it: `granted(user, p)` tells whether `user` holds `p` there. */
  datatype PermissionChannel = PermissionChannel(channel: J.Channel, granted: (J.User, Permission) -> bool)

  datatype ManagedGroup = ManagedGroup(name: string, perms: seq<Permission>, requireType: RequireType)

  /** The single-permission constructor: all of exactly that one permission. */
  function OfPermission(name: string, p: Permission): (g: ManagedGroup)
    ensures g.requireType == And && g.perms == [p] && g.name == name
  {
    ManagedGroup(name, [p], And)
  }

  /** The general constructor: the given combination over the given permissions, in order. */
  function OfPermissions(name: string, requireType: RequireType, perms: seq<Permission>): (g: ManagedGroup)
    ensures g.requireType == requireType && g.perms == perms && g.name == name
  {
    ManagedGroup(name, perms, requireType)
  }

  function IsManaged(g: ManagedGroup): (r: bool)
    ensures r
  {
    true
  }

  function GetName(g: ManagedGroup): (r: string)
    ensures r == g.name
  {
    g.name
  }

  /**
   * The library's check of several permissions at once: every one of them is held.
   * With none to check it holds.
   */
  function CheckAll(c: PermissionChannel, user: J.User, ps: seq<Permission>): (r: bool)
    ensures r <==> forall p :: p in ps ==> c.granted(user, p)
  {
    forall k :: 0 <= k < |ps| ==> c.granted(user, ps[k])
  }

  /** A stream's `anyMatch`: the first permission held, scanning from the front. */
  function AnyMatch(c: PermissionChannel, user: J.User, ps: seq<Permission>): (r: bool)
    ensures r <==> exists p :: p in ps && c.granted(user, p)
  {
    if ps == [] then false
    else
      assert forall p :: p in ps <==> p == ps[0] || p in ps[1..];
      c.granted(user, ps[0]) || AnyMatch(c, user, ps[1..])
  }

  /** No channel means no membership; otherwise all permissions (And) or any one (Or). */
  function IsMember(g: ManagedGroup, channel: Option<PermissionChannel>, user: J.User): (r: bool)
    ensures channel.None? ==> !r
    ensures channel.Some? && g.perms == [] ==> (r <==> g.requireType == And)
  {
    if channel.None? then false
    else if g.requireType == And then CheckAll(channel.value, user, g.perms)
    else AnyMatch(channel.value, user, g.perms)
  }

  /** `anyMatch` holds exactly when some permission of the array is held. */
  lemma {:induction false} AnyMatchExists(c: PermissionChannel, user: J.User, ps: seq<Permission>)
    ensures AnyMatch(c, user, ps) <==> exists k :: 0 <= k < |ps| && c.granted(user, ps[k])
  {
    if ps != [] {
      AnyMatchExists(c, user, ps[1..]);
      if AnyMatch(c, user, ps[1..]) {
        var k :| 0 <= k < |ps[1..]| && c.granted(user, ps[1..][k]);
        assert ps[k + 1] == ps[1..][k];
      }
      if exists k :: 0 <= k < |ps| && c.granted(user, ps[k]) {
        var k :| 0 <= k < |ps| && c.granted(user, ps[k]);
        if k > 0 {
          assert ps[1..][k - 1] == ps[k];
        }
      }
    }
  }

  /**
   * Membership by mode: an And group needs every permission, an Or group some
   * permission, so an Or group without permissions has no members.
   */
  lemma MemberByMode(g: ManagedGroup, c: PermissionChannel, user: J.User)
    ensures g.requireType == And ==>
      (IsMember(g, Some(c), user) <==> forall k :: 0 <= k < |g.perms| ==> c.granted(user, g.perms[k]))
    ensures g.requireType == Or ==>
      (IsMember(g, Some(c), user) <==> exists k :: 0 <= k < |g.perms| && c.granted(user, g.perms[k]))
    ensures g.requireType == Or && g.perms == [] ==> !IsMember(g, Some(c), user)
  {
    AnyMatchExists(c, user, g.perms);
  }

  /** With a single permission the two modes agree: membership is holding that permission. */
  lemma SinglePermission(name: string, p: Permission, c: PermissionChannel, user: J.User)
    ensures IsMember(OfPermission(name, p), Some(c), user) <==> c.granted(user, p)
    ensures IsMember(OfPermissions(name, Or, [p]), Some(c), user) <==> c.granted(user, p)
  {
    AnyMatchExists(c, user, [p]);
  }

  /** A user who is a member under And with at least one permission is a member under Or. */
  lemma AndImpliesOr(name: string, perms: seq<Permission>, c: PermissionChannel, user: J.User)
    requires perms != []
    requires IsMember(OfPermissions(name, And, perms), Some(c), user)
    ensures IsMember(OfPermissions(name, Or, perms), Some(c), user)
  {
    AnyMatchExists(c, user, perms);
    assert c.granted(user, perms[0]);
  }
}
