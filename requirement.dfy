/**
 * What a command requires of its caller: a set of permissions or a set of groups,
 * combined by a require type (absent for the single-item forms). Nothing evaluates it
 * yet: every requirement is met.
 */
module Requirements {
  import opened Wrappers
  import opened RequireTypes
  import J = Jda

  /** A group, by identity: the source keeps groups in a hash set of objects that compare by reference. */
  datatype GroupRef = GroupRef(handle: nat)

  datatype Requirement = Requirement(requireType: Option<RequireType>, groupSet: Option<set<GroupRef>>, permSet: Option<set<Permission>>)

  /** Exactly one of the group set and the permission set is present. */
  predicate WellShaped(r: Requirement) {
    r.groupSet.Some? != r.permSet.Some?
  }

  /** The elements of a sequence, duplicates collapsed (a hash set built from an array). */
  function SetOf<T(!new)>(s: seq<T>): (r: set<T>)
    ensures forall x :: x in r <==> x in s
    ensures |r| <= |s|
  {
    if s == [] then {} else {s[0]} + SetOf(s[1..])
  }

  /** A single permission, with no require type. */
  function OfPermission(p: Permission): (r: Requirement)
    ensures WellShaped(r) && r.requireType.None?
    ensures r.permSet.Some? && forall q :: q in r.permSet.value <==> q == p
  {
    Requirement(None, None, Some({p}))
  }

  /** Several permissions under a require type. */
  function OfPermissions(requireType: RequireType, ps: seq<Permission>): (r: Requirement)
    ensures WellShaped(r) && r.requireType == Some(requireType)
    ensures r.permSet.Some? && (forall q :: q in r.permSet.value <==> q in ps) && |r.permSet.value| <= |ps|
  {
    Requirement(Some(requireType), None, Some(SetOf(ps)))
  }

  /** A single group, with no require type. */
  function OfGroup(g: GroupRef): (r: Requirement)
    ensures WellShaped(r) && r.requireType.None?
    ensures r.groupSet.Some? && forall h :: h in r.groupSet.value <==> h == g
  {
    Requirement(None, Some({g}), None)
  }

  /** Several groups under a require type. */
  function OfGroups(requireType: RequireType, gs: seq<GroupRef>): (r: Requirement)
    ensures WellShaped(r) && r.requireType == Some(requireType)
    ensures r.groupSet.Some? && (forall h :: h in r.groupSet.value <==> h in gs) && |r.groupSet.value| <= |gs|
  {
    Requirement(Some(requireType), Some(SetOf(gs)), None)
  }

  /** The check is not written yet: every requirement is met by everyone, everywhere. */
  function IsMet(r: Requirement, channel: Option<J.Channel>, user: J.User): (met: bool)
    ensures met
  {
    true
  }

  /** Listing a permission twice requires nothing more than listing it once. */
  lemma DuplicatesCollapse(requireType: RequireType, ps: seq<Permission>, p: Permission)
    requires p in ps
    ensures OfPermissions(requireType, ps + [p]) == OfPermissions(requireType, ps)
  {
    assert SetOf(ps + [p]) == SetOf(ps);
  }
}
