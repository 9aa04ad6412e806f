/** The hierarchical access checks of coruja/decorators/proxy.py
    (`is_object_administrator` and the `can_access_<kind>` family).

    Access flows only downward: a check grants when the user administers the
    object itself and otherwise reads the object's parent-id attribute and
    delegates to the parent's check. No check reads children. The declared
    models carry a parent-id attribute only on risks and vulnerabilities
    (`SchemaLinked`), so on the program's own stores the climb stops at the
    first object. */
module Access {
  import opened Wrappers
  import opened Users
  import Units

  /** The kinds that have a `can_access_<kind>` check. */
  datatype Kind = Organ | Institution | Unit | Analysis | AnalysisRisk | AnalysisVulnerability

  /** An object as the database layer would load it: `get_<kind>(id)`. */
  datatype Ref = Ref(kind: Kind, id: int)

  /** What the checks read from a loaded object: its `administrators` list and
      the parent-id attributes it carries (`organ_id`, `unit_id`, ...), keyed
      by the parent kind they name. A missing key is a missing attribute. */
  datatype Node = Node(administrators: seq<User>, links: map<Kind, int>)

  /** The store the checks consult. `organAdministrators` is the set of users
      for which `database_manager.is_organ_administrator` answers true. */
  datatype Db = Db(objects: map<Ref, Node>, organAdministrators: set<User>)

  /** The result of a check: a boolean; `OrganNotFound`, where the organ is
      missing and the check calls `abort(404, message=...)`; or the
      `AttributeError` raised by reading through a missing object or a
      missing parent attribute. Werkzeug's HTTP exceptions accept no
      `message` keyword, so that `abort` call raises `TypeError` and never
      produces the 404 it names. */
  datatype Verdict = Granted | Denied | OrganNotFound | AttributeError

  /** `is_object_administrator`: some administrator has the user's id. */
  function IsObjectAdministrator(admins: seq<User>, user: User): (r: bool)
    ensures r <==> exists i :: 0 <= i < |admins| && admins[i].id == user.id
    ensures |admins| == 0 ==> !r
  {
    if |admins| == 0 then false
    else if admins[0].id == user.id then true
    else
      var rest := IsObjectAdministrator(admins[1..], user);
      assert forall i :: 1 <= i < |admins| ==> admins[i] == admins[1..][i - 1];
      rest
  }

  /** Distance from the organ along the chain
      organ <- institution <- unit <- analysis <- analysis_risk/vulnerability. */
  function Depth(k: Kind): nat {
    match k
    case Organ => 0
    case Institution => 1
    case Unit => 2
    case Analysis => 3
    case AnalysisRisk => 4
    case AnalysisVulnerability => 4
  }

  /** The kind whose check a non-organ check delegates to. */
  function Parent(k: Kind): (p: Kind)
    requires k != Organ
    ensures Depth(p) == Depth(k) - 1
    ensures p != AnalysisRisk
  {
    match k
    case Institution => Organ
    case Unit => Institution
    case Analysis => Unit
    case AnalysisRisk => Analysis
    case AnalysisVulnerability => Analysis
  }

  /** The kind of object each check loads. `can_access_analysis_risk` loads
      its id with the analysis getter, so it reads an analysis. */
  function LoadedKind(k: Kind): (l: Kind)
    ensures Depth(l) <= Depth(k)
    ensures l != AnalysisRisk
    ensures k == AnalysisRisk ==> l == Analysis
    ensures k != AnalysisRisk ==> l == k
  {
    if k == AnalysisRisk then Analysis else k
  }

  /** Whether the loaded model class defines an `administrators`
      relationship. `AnalysisVulnerability` does not, so reading it raises
      `AttributeError`. */
  predicate HasAdministrators(k: Kind) {
    k != AnalysisVulnerability
  }

  /** `can_access_<k>(id, user)`. The organ check calls `abort` when the
      organ is missing, and otherwise grants global organ administrators and
      the organ's own administrators. Every other check grants the loaded
      object's administrators and otherwise returns its parent's check. */
  function Resolve(db: Db, k: Kind, id: int, user: User): (v: Verdict)
    decreases Depth(k)
    ensures k == Organ && Ref(Organ, id) !in db.objects ==> v == OrganNotFound
    ensures k == Organ && Ref(Organ, id) in db.objects && user in db.organAdministrators ==> v == Granted
    ensures (Ref(LoadedKind(k), id) in db.objects && HasAdministrators(LoadedKind(k))
             && IsObjectAdministrator(db.objects[Ref(LoadedKind(k), id)].administrators, user)) ==> v == Granted
    ensures !HasAdministrators(LoadedKind(k)) ==> v == AttributeError
    ensures v == OrganNotFound ==> k == Organ || Ref(LoadedKind(k), id) in db.objects
  {
    var r := Ref(LoadedKind(k), id);
    if k == Organ then
      if r !in db.objects then OrganNotFound
      else if user in db.organAdministrators || IsObjectAdministrator(db.objects[r].administrators, user) then Granted
      else Denied
    else if r !in db.objects || !HasAdministrators(r.kind) then AttributeError
    else if IsObjectAdministrator(db.objects[r].administrators, user) then Granted
    else if Parent(k) !in db.objects[r].links then AttributeError
    else Resolve(db, Parent(k), db.objects[r].links[Parent(k)], user)
  }

  // ---------------------------------------------------------------------
  // A reference definition: the upward walk
  // ---------------------------------------------------------------------

  /** How an upward walk stops: at a loaded organ, at a missing organ, or at a
      missing object or parent attribute below the organ. */
  datatype End = ReachedOrgan | MissingOrgan | Broken

  /** The objects loaded, in order, by following parent links from the object
      a check starts at, and how the walk stopped. */
  datatype Walk = Walk(refs: seq<Ref>, end: End)

  function WalkUp(db: Db, k: Kind, id: int): (w: Walk)
    decreases Depth(k)
    ensures forall j :: 0 <= j < |w.refs| ==> w.refs[j] in db.objects
    ensures forall j :: 0 <= j < |w.refs| ==> Depth(w.refs[j].kind) <= Depth(k)
    ensures forall j :: 0 <= j < |w.refs| ==> w.refs[j].kind != AnalysisRisk
    ensures |w.refs| <= Depth(k) + 1 <= 5
    ensures |w.refs| > 0 ==> w.refs[0] == Ref(LoadedKind(k), id)
    ensures w.end == ReachedOrgan ==> |w.refs| > 0 && w.refs[|w.refs| - 1].kind == Organ
  {
    var r := Ref(LoadedKind(k), id);
    if r !in db.objects then Walk([], if k == Organ then MissingOrgan else Broken)
    else if !HasAdministrators(r.kind) then Walk([], Broken)
    else if k == Organ then Walk([r], ReachedOrgan)
    else if Parent(k) !in db.objects[r].links then Walk([r], Broken)
    else
      var up := WalkUp(db, Parent(k), db.objects[r].links[Parent(k)]);
      Walk([r] + up.refs, up.end)
  }

  /** Some object on the walk lists the user as administrator. */
  predicate AdminOnWalk(db: Db, refs: seq<Ref>, user: User) {
    exists j :: 0 <= j < |refs| && refs[j] in db.objects
                && IsObjectAdministrator(db.objects[refs[j]].administrators, user)
  }

  lemma AdminOnWalkCons(db: Db, r: Ref, refs: seq<Ref>, user: User)
    requires r in db.objects
    ensures AdminOnWalk(db, [r] + refs, user)
            <==> IsObjectAdministrator(db.objects[r].administrators, user) || AdminOnWalk(db, refs, user)
  {
    var s := [r] + refs;
    if AdminOnWalk(db, s, user) {
      var j :| 0 <= j < |s| && s[j] in db.objects && IsObjectAdministrator(db.objects[s[j]].administrators, user);
      if j > 0 {
        assert s[j] == refs[j - 1];
      }
    }
    if AdminOnWalk(db, refs, user) {
      var j :| 0 <= j < |refs| && refs[j] in db.objects && IsObjectAdministrator(db.objects[refs[j]].administrators, user);
      assert s[j + 1] == refs[j];
    }
    if IsObjectAdministrator(db.objects[r].administrators, user) {
      assert s[0] == r;
    }
  }

  /** Every check agrees with the walk: it grants exactly when some object on
      the walk lists the user, or the walk reaches a loaded organ and the user
      is a global organ administrator; otherwise the way the walk stopped
      decides between the missing organ, `AttributeError` and denial. */
  lemma {:induction false} ResolveFollowsWalk(db: Db, k: Kind, id: int, user: User)
    decreases Depth(k)
    ensures var w := WalkUp(db, k, id);
      && (Resolve(db, k, id, user) == Granted
          <==> AdminOnWalk(db, w.refs, user) || (w.end == ReachedOrgan && user in db.organAdministrators))
      && (Resolve(db, k, id, user) == OrganNotFound
          <==> !AdminOnWalk(db, w.refs, user) && w.end == MissingOrgan)
      && (Resolve(db, k, id, user) == AttributeError
          <==> !AdminOnWalk(db, w.refs, user) && w.end == Broken)
      && (Resolve(db, k, id, user) == Denied
          <==> !AdminOnWalk(db, w.refs, user) && w.end == ReachedOrgan && user !in db.organAdministrators)
  {
    var r := Ref(LoadedKind(k), id);
    var w := WalkUp(db, k, id);
    if r !in db.objects || !HasAdministrators(r.kind) {
      assert w.refs == [];
      assert !AdminOnWalk(db, w.refs, user);
    } else if k == Organ {
      assert w.refs == [r] + [];
      AdminOnWalkCons(db, r, [], user);
    } else if Parent(k) !in db.objects[r].links {
      assert w.refs == [r] + [];
      AdminOnWalkCons(db, r, [], user);
    } else {
      var pid := db.objects[r].links[Parent(k)];
      var up := WalkUp(db, Parent(k), pid);
      assert w.refs == [r] + up.refs;
      AdminOnWalkCons(db, r, up.refs, user);
      ResolveFollowsWalk(db, Parent(k), pid, user);
    }
  }

  // ---------------------------------------------------------------------
  // Consequences
  // ---------------------------------------------------------------------

  /** Access to any ancestor on the walk grants the object: an organ grants
      its institutions, an institution its units, a unit its analyses, an
      analysis its risks and vulnerabilities. */
  lemma {:induction false} AncestorGrantsDescendant(db: Db, k: Kind, id: int, user: User, j: nat)
    requires 1 <= j < |WalkUp(db, k, id).refs|
    requires Resolve(db, WalkUp(db, k, id).refs[j].kind, WalkUp(db, k, id).refs[j].id, user) == Granted
    ensures Resolve(db, k, id, user) == Granted
    decreases Depth(k)
  {
    var r := Ref(LoadedKind(k), id);
    var w := WalkUp(db, k, id);
    if !IsObjectAdministrator(db.objects[r].administrators, user) {
      var pid := db.objects[r].links[Parent(k)];
      var up := WalkUp(db, Parent(k), pid);
      assert w.refs == [r] + up.refs;
      assert w.refs[j] == up.refs[j - 1];
      if j > 1 {
        AncestorGrantsDescendant(db, Parent(k), pid, user, j - 1);
      }
    }
  }

  /** The parent-id attributes the models actually declare: only risks and
      vulnerabilities carry `analysis_id`. Organs, institutions, units and
      analyses have no `organ_id`, `institution_id` or `unit_id` column, so a
      store built by the program holds no other link. */
  predicate SchemaLinked(db: Db) {
    forall r, p :: r in db.objects && p in db.objects[r].links ==>
      (r.kind == AnalysisRisk || r.kind == AnalysisVulnerability) && p == Analysis
  }

  /** On stores the schema allows, no check ever climbs: a check grants
      exactly the direct administrators of the object it loads (and, for
      the organ, the global organ administrators). Any other user of an
      institution, unit, analysis, risk or vulnerability meets
      `AttributeError` from the missing parent attribute. */
  lemma SchemaChecksAreDirect(db: Db, k: Kind, id: int, user: User)
    requires SchemaLinked(db)
    requires k != Organ
    ensures Resolve(db, k, id, user) == Granted
            <==> Ref(LoadedKind(k), id) in db.objects && HasAdministrators(LoadedKind(k))
                 && IsObjectAdministrator(db.objects[Ref(LoadedKind(k), id)].administrators, user)
    ensures Resolve(db, k, id, user) != Granted ==> Resolve(db, k, id, user) == AttributeError
  {
  }

  /** `can_access_analysis_risk` reads the analysis with the risk's id, and
      an analysis has no `analysis_id`: only that analysis's own
      administrators are ever granted, and everyone else meets
      `AttributeError`. */
  lemma RiskAnalysisNeedsDirectAdministrator(db: Db, id: int, user: User)
    requires forall i :: Ref(Analysis, i) in db.objects ==> Analysis !in db.objects[Ref(Analysis, i)].links
    ensures Resolve(db, AnalysisRisk, id, user) == Granted
            <==> Ref(Analysis, id) in db.objects && IsObjectAdministrator(db.objects[Ref(Analysis, id)].administrators, user)
    ensures Resolve(db, AnalysisRisk, id, user) != Granted ==> Resolve(db, AnalysisRisk, id, user) == AttributeError
  {
  }

  /** `can_access_analysis_vulnerability` never answers: the vulnerability
      has no `administrators`, found or not. */
  lemma VulnerabilityCheckAlwaysRaises(db: Db, id: int, user: User)
    ensures Resolve(db, AnalysisVulnerability, id, user) == AttributeError
  {
  }

  /** A global organ administrator is granted every object whose walk reaches
      a loaded organ. */
  lemma {:induction false} OrganAdministratorGrantsReachable(db: Db, k: Kind, id: int, user: User)
    requires user in db.organAdministrators
    requires WalkUp(db, k, id).end == ReachedOrgan
    ensures Resolve(db, k, id, user) == Granted
  {
    ResolveFollowsWalk(db, k, id, user);
  }

  /** Two stores that agree on every object at depth at most `d`, and on the
      global organ administrators. */
  predicate AgreeUpTo(db1: Db, db2: Db, d: nat) {
    && db1.organAdministrators == db2.organAdministrators
    && (forall r :: r in db1.objects && Depth(r.kind) <= d ==> r in db2.objects && db2.objects[r] == db1.objects[r])
    && (forall r :: r in db2.objects && Depth(r.kind) <= d ==> r in db1.objects)
  }

  /** A check reads nothing below the kind it starts at: objects deeper in
      the chain cannot change its verdict. */
  lemma {:induction false} ResolveIgnoresDescendants(db1: Db, db2: Db, k: Kind, id: int, user: User)
    requires AgreeUpTo(db1, db2, Depth(k))
    ensures Resolve(db1, k, id, user) == Resolve(db2, k, id, user)
    decreases Depth(k)
  {
    var r := Ref(LoadedKind(k), id);
    if k != Organ && r in db1.objects {
      var n := db1.objects[r];
      if !IsObjectAdministrator(n.administrators, user) && Parent(k) in n.links {
        ResolveIgnoresDescendants(db1, db2, Parent(k), n.links[Parent(k)], user);
      }
    }
  }

  /** Administering a child never grants its parent: replacing any object
      deeper in the chain, for instance by one that lists the user, leaves
      the check of the parent unchanged. */
  lemma ChildAdministrationNeverGrantsParent(db: Db, k: Kind, id: int, user: User, child: Ref, node: Node)
    requires Depth(child.kind) > Depth(k)
    ensures Resolve(db.(objects := db.objects[child := node]), k, id, user) == Resolve(db, k, id, user)
  {
    ResolveIgnoresDescendants(db.(objects := db.objects[child := node]), db, k, id, user);
  }

  /** After `Unit.add_administrator(user)` is committed, `can_access_unit`
      grants that user the unit, whether or not the user was already listed. */
  lemma AddAdministratorGrantsUnit(db: Db, id: int, unit: Units.Unit, links: map<Kind, int>, user: User)
    ensures var admins := Units.AddAdministratorCommitted(unit, user).administrators;
      && IsObjectAdministrator(admins, user)
      && Resolve(db.(objects := db.objects[Ref(Unit, id) := Node(admins, links)]), Unit, id, user) == Granted
  {
    var admins := Units.AddAdministratorCommitted(unit, user).administrators;
    assert user in admins;
    var i :| 0 <= i < |admins| && admins[i] == user;
    assert admins[i].id == user.id;
  }
}
