/** The default roles seeded by `create_default_roles` in
    coruja/extensions/commands.py. Each permission list is derived from the
    per-kind lists by concatenation, copy, `remove` and `append`; the lists
    are values here, so deriving one never changes another. */
module Roles {
  import opened Wrappers
  import opened Permissions

  /** A seeded grant: the source's `label` is the object type, and no grant is
      scoped to an object. */
  function Grant(objectType: string, action: string): (p: Permission)
    ensures p.objectType == objectType && p.kind == action && p.objectId.None?
  {
    NewPermission(action, objectType, None)
  }

  /** The create/read/update triple every object kind receives. */
  function Crud(objectType: string): (s: seq<Permission>)
    ensures |s| == 3
    ensures forall i :: 0 <= i < |s| ==> s[i].objectType == objectType && s[i].objectId.None?
    ensures s[0].kind == "create" && s[1].kind == "read" && s[2].kind == "update"
  {
    [Grant(objectType, "create"), Grant(objectType, "read"), Grant(objectType, "update")]
  }

  const ConfigPermissions: seq<Permission> :=
    [Grant("access_log", "read"), Grant("configurations", "read"), Grant("configurations", "write")]
  const OrganPermissions: seq<Permission> := Crud("organ")
  const InstitutionPermissions: seq<Permission> := Crud("institution")
  const UnitPermissions: seq<Permission> := Crud("unit")
  const AnalysisPermissions: seq<Permission> := Crud("analysis")
  const ActivePermissions: seq<Permission> := Crud("active")
  const UserPermissions: seq<Permission> := Crud("user")

  /** The position of the first element equal to `x`. */
  function IndexOf(s: seq<Permission>, x: Permission): (i: nat)
    requires x in s
    ensures i < |s| && s[i] == x && x !in s[..i]
  {
    if s[0] == x then 0
    else
      var j := IndexOf(s[1..], x);
      assert s[..j + 1] == [s[0]] + s[1..][..j];
      j + 1
  }

  /** `list.remove(x)`: drops the first element equal to `x`; `None` where
      Python raises `ValueError` because `x` is absent. */
  function RemoveFirst(s: seq<Permission>, x: Permission): (r: Option<seq<Permission>>)
    ensures r.None? <==> x !in s
    ensures r.Some? ==> r.value == s[..IndexOf(s, x)] + s[IndexOf(s, x) + 1..]
  {
    if |s| == 0 then None
    else if s[0] == x then Some(s[1..])
    else match RemoveFirst(s[1..], x)
      case None => None
      case Some(rest) =>
        var t := s[1..];
        var j := IndexOf(t, x);
        assert IndexOf(s, x) == j + 1;
        assert rest == t[..j] + t[j + 1..];
        assert s[..j + 1] == [s[0]] + t[..j];
        assert s[j + 2..] == t[j + 1..];
        assert [s[0]] + rest == s[..j + 1] + s[j + 2..];
        Some([s[0]] + rest)
  }

  /** `reduce(lambda x, y: x + y, groups)`: the groups concatenated in order.
      With no groups `reduce` raises; the seeding never passes an empty list,
      and the model gives `[]` there. */
  function Flatten(groups: seq<seq<Permission>>): (r: seq<Permission>)
    ensures |groups| == 0 ==> r == []
    ensures |groups| > 0 ==> |groups[0]| <= |r| && r[..|groups[0]|] == groups[0]
  {
    if |groups| == 0 then [] else groups[0] + Flatten(groups[1..])
  }

  /** Every grant of every group is in the concatenation, and nothing else. */
  lemma {:induction false} FlattenMembers(groups: seq<seq<Permission>>, p: Permission)
    ensures p in Flatten(groups) <==> exists g :: g in groups && p in g
  {
    if |groups| > 0 {
      FlattenMembers(groups[1..], p);
      assert forall g :: g in groups <==> g == groups[0] || g in groups[1..];
    }
  }

  /** `(own.copy() + users)`, then `.remove(own[0])`, then `.append(next)`.
      `None` where Python raises: an empty `own`. */
  function DeriveAdminPermissions(own: seq<Permission>, users: seq<Permission>, next: Permission): (r: Option<seq<Permission>>)
    ensures r.None? <==> |own| == 0
    ensures r.Some? ==> |r.value| == |own| + |users| && r.value[|r.value| - 1] == next
    ensures r.Some? ==> forall p :: p in r.value ==> p in own || p in users || p == next
  {
    if |own| == 0 then None
    else match RemoveFirst(own + users, own[0])
      case None => None
      case Some(l) => Some(l + [next])
  }

  /** Removing the first entry of the copy drops exactly that entry. */
  lemma RemoveHeadOfCopy(own: seq<Permission>, users: seq<Permission>)
    requires |own| > 0
    ensures RemoveFirst(own + users, own[0]) == Some(own[1..] + users)
  {
    assert (own + users)[0] == own[0];
    assert (own + users)[1..] == own[1..] + users;
  }

  /** The derived list is the rest of `own`, then `users`, then `next`. */
  lemma DeriveDropsFirstOwn(own: seq<Permission>, users: seq<Permission>, next: Permission)
    requires |own| > 0
    ensures DeriveAdminPermissions(own, users, next) == Some(own[1..] + users + [next])
  {
    RemoveHeadOfCopy(own, users);
  }

  /** A role registered with `create_and_commit_role(name, permissions)`. */
  datatype Role = Role(name: string, permissions: seq<Permission>)

  const AllGroups: seq<seq<Permission>> :=
    [ConfigPermissions, OrganPermissions, InstitutionPermissions, UnitPermissions,
     AnalysisPermissions, UserPermissions, ActivePermissions]

  const AllPermissions: seq<Permission> := Flatten(AllGroups)

  function OrganAdminPermissions(): seq<Permission> {
    DeriveAdminPermissions(OrganPermissions, UserPermissions, InstitutionPermissions[0]).GetOr([])
  }

  function InstitutionAdminPermissions(): seq<Permission> {
    DeriveAdminPermissions(InstitutionPermissions, UserPermissions, UnitPermissions[0]).GetOr([])
  }

  function UnitAdminPermissions(): seq<Permission> {
    DeriveAdminPermissions(UnitPermissions, UserPermissions, AnalysisPermissions[0]).GetOr([])
  }

  /** The list built for analysis administrators, then never registered. */
  function DiscardedAnalysisAdminPermissions(): seq<Permission> {
    match RemoveFirst(AnalysisPermissions + UserPermissions, AnalysisPermissions[0])
    case None => []
    case Some(l) => l + ActivePermissions
  }

  const ViewerPermissions: seq<Permission> := [UserPermissions[1]]

  /** The roles in registration order. `analysis_admin` is registered with
      the unit administrators' list. */
  function DefaultRoles(): (r: seq<Role>)
    ensures |r| == 6
    ensures r[0].name == "admin" && r[1].name == "organ_admin" && r[2].name == "institution_admin"
    ensures r[3].name == "unit_admin" && r[4].name == "analysis_admin" && r[5].name == "user"
    ensures r[4].permissions == r[3].permissions
  {
    [Role("admin", AllPermissions),
     Role("organ_admin", OrganAdminPermissions()),
     Role("institution_admin", InstitutionAdminPermissions()),
     Role("unit_admin", UnitAdminPermissions()),
     Role("analysis_admin", UnitAdminPermissions()),
     Role("user", ViewerPermissions)]
  }

  lemma {:induction false} FlattenLength(groups: seq<seq<Permission>>)
    requires forall i :: 0 <= i < |groups| ==> |groups[i]| == 3
    ensures |Flatten(groups)| == 3 * |groups|
  {
    if |groups| > 0 {
      FlattenLength(groups[1..]);
    }
  }

  /** `admin` holds every defined permission: the three configuration grants
      and create/read/update on organ, institution, unit, analysis, user and
      active, 21 in all. */
  lemma AdminHoldsEverything()
    ensures DefaultRoles()[0] == Role("admin", AllPermissions)
    ensures |AllPermissions| == 21
    ensures forall g, p :: g in AllGroups && p in g ==> p in AllPermissions
    ensures forall p :: p in AllPermissions ==> exists g :: g in AllGroups && p in g
  {
    FlattenLength(AllGroups);
    forall p {
      FlattenMembers(AllGroups, p);
    }
  }

  lemma OrganAdministrator()
    ensures OrganAdminPermissions() ==
      [Grant("organ", "read"), Grant("organ", "update"),
       Grant("user", "create"), Grant("user", "read"), Grant("user", "update"),
       Grant("institution", "create")]
  {
    DeriveDropsFirstOwn(OrganPermissions, UserPermissions, InstitutionPermissions[0]);
  }

  lemma InstitutionAdministrator()
    ensures InstitutionAdminPermissions() ==
      [Grant("institution", "read"), Grant("institution", "update"),
       Grant("user", "create"), Grant("user", "read"), Grant("user", "update"),
       Grant("unit", "create")]
  {
    DeriveDropsFirstOwn(InstitutionPermissions, UserPermissions, UnitPermissions[0]);
  }

  lemma UnitAdministrator()
    ensures UnitAdminPermissions() ==
      [Grant("unit", "read"), Grant("unit", "update"),
       Grant("user", "create"), Grant("user", "read"), Grant("user", "update"),
       Grant("analysis", "create")]
  {
    DeriveDropsFirstOwn(UnitPermissions, UserPermissions, AnalysisPermissions[0]);
  }

  /** `organ_admin` lacks "create organ" while the organ list it was copied
      from still holds all three grants. */
  lemma OrganCreateDropped()
    ensures Grant("organ", "create") !in OrganAdminPermissions()
    ensures |OrganPermissions| == 3 && OrganPermissions[0] == Grant("organ", "create")
  {
    OrganAdministrator();
  }

  /** `analysis_admin` and `unit_admin` are the same role; the analysis and
      active grants built for it are lost. */
  lemma AnalysisAdminIsUnitAdmin()
    ensures DefaultRoles()[4].name == "analysis_admin" && DefaultRoles()[3].name == "unit_admin"
    ensures DefaultRoles()[4].permissions == DefaultRoles()[3].permissions
    ensures DiscardedAnalysisAdminPermissions() ==
      [Grant("analysis", "read"), Grant("analysis", "update")] + UserPermissions + ActivePermissions
    ensures Grant("analysis", "read") !in DefaultRoles()[4].permissions
  {
    UnitAdministrator();
    RemoveHeadOfCopy(AnalysisPermissions, UserPermissions);
  }

  /** The viewer role reads users and nothing else. */
  lemma ViewerReadsUsers()
    ensures DefaultRoles()[5] == Role("user", [Grant("user", "read")])
  {
  }

  /** No grant of `l` reaches access logs or configurations. */
  predicate NoConfiguration(l: seq<Permission>) {
    forall p :: p in l ==> NotConfigurationType(p.objectType)
  }

  /** No grant of `l` is a "delete". */
  predicate NoDelete(l: seq<Permission>) {
    forall p :: p in l ==> p.kind != "delete"
  }

  predicate NotConfigurationType(t: string) {
    t != "access_log" && t != "configurations"
  }

  lemma CrudBounded(t: string)
    requires NotConfigurationType(t)
    ensures NoConfiguration(Crud(t)) && NoDelete(Crud(t))
  {
  }

  /** A tier list built from two non-configuration kinds keeps both bounds. */
  lemma DerivedBounded(own: string, next: string)
    requires NotConfigurationType(own) && NotConfigurationType(next)
    ensures var l := DeriveAdminPermissions(Crud(own), UserPermissions, Crud(next)[0]).GetOr([]);
      NoConfiguration(l) && NoDelete(l)
  {
    DeriveDropsFirstOwn(Crud(own), UserPermissions, Crud(next)[0]);
    CrudBounded(own);
    CrudBounded(next);
    CrudBounded("user");
    var l := Crud(own)[1..] + UserPermissions + [Crud(next)[0]];
    forall p | p in l ensures NotConfigurationType(p.objectType) && p.kind != "delete" {
      if p in Crud(own)[1..] {
        assert p in Crud(own);
      }
    }
  }

  lemma TierListsBounded()
    ensures NoConfiguration(OrganAdminPermissions()) && NoDelete(OrganAdminPermissions())
    ensures NoConfiguration(InstitutionAdminPermissions()) && NoDelete(InstitutionAdminPermissions())
    ensures NoConfiguration(UnitAdminPermissions()) && NoDelete(UnitAdminPermissions())
    ensures NoConfiguration(ViewerPermissions) && NoDelete(ViewerPermissions)
  {
    DerivedBounded("organ", "institution");
    DerivedBounded("institution", "unit");
    DerivedBounded("unit", "analysis");
    CrudBounded("user");
  }

  /** Concatenating groups without "delete" grants adds none. */
  lemma {:induction false} FlattenNoDelete(groups: seq<seq<Permission>>)
    requires forall i :: 0 <= i < |groups| ==> NoDelete(groups[i])
    ensures NoDelete(Flatten(groups))
  {
    if |groups| > 0 {
      FlattenNoDelete(groups[1..]);
      assert NoDelete(groups[0]);
    }
  }

  lemma AdminListBounded()
    ensures NoDelete(AllPermissions)
    ensures !NoConfiguration(AllPermissions)
  {
    assert AllPermissions[..3] == ConfigPermissions;
    assert AllPermissions[0] == ConfigPermissions[0];
    CrudBounded("organ");
    CrudBounded("institution");
    CrudBounded("unit");
    CrudBounded("analysis");
    CrudBounded("user");
    CrudBounded("active");
    assert NoDelete(ConfigPermissions);
    FlattenNoDelete(AllGroups);
  }

  /** Only `admin` reaches access logs or configurations, and no role holds a
      "delete" grant. */
  lemma RoleBoundaries()
    ensures forall i :: 1 <= i < |DefaultRoles()| ==> NoConfiguration(DefaultRoles()[i].permissions)
    ensures forall i :: 0 <= i < |DefaultRoles()| ==> NoDelete(DefaultRoles()[i].permissions)
    ensures !NoConfiguration(DefaultRoles()[0].permissions)
  {
    TierListsBounded();
    AdminListBounded();
    var r := DefaultRoles();
    assert r[0].permissions == AllPermissions;
    assert r[1].permissions == OrganAdminPermissions();
    assert r[2].permissions == InstitutionAdminPermissions();
    assert r[3].permissions == UnitAdminPermissions() && r[4].permissions == UnitAdminPermissions();
    assert r[5].permissions == ViewerPermissions;
    forall i | 0 <= i < |r| ensures NoDelete(r[i].permissions) && (i > 0 ==> NoConfiguration(r[i].permissions)) {
      if i == 0 { } else if i == 1 { } else if i == 2 { } else if i == 3 { } else if i == 4 { } else { }
    }
  }
}
