/** The `Unit` model of coruja/models/units.py. */
module Units {
  import opened Wrappers
  import opened Users

  /** A unit with its administrator, staff and analysis relationships. The
      relationship lists of a loaded row are never `None`, so an absent list
      is the empty sequence. */
  datatype Unit = Unit(description: Option<string>, isTemplate: Option<bool>,
                       administrators: seq<User>, staff: seq<User>, analysis: seq<int>)

  /** `Unit(description=..., is_template=...)`: both stored as given, every
      relationship empty. */
  function NewUnit(description: Option<string>, isTemplate: Option<bool>): (u: Unit)
    ensures u.description == description && u.isTemplate == isTemplate
    ensures u.administrators == [] && u.staff == [] && u.analysis == []
  {
    Unit(description, isTemplate, [], [], [])
  }

  /** `Unit()` with no arguments: no description, not a template. */
  function DefaultUnit(): (u: Unit)
    ensures u.description.None? && u.isTemplate == Some(false)
    ensures u.administrators == []
  {
    NewUnit(None, Some(false))
  }

  /** `add_administrator`: the user becomes the last administrator, earlier
      administrators stay in order, nothing else in the unit changes. */
  function AddAdministrator(unit: Unit, user: User): (r: Unit)
    ensures |r.administrators| == |unit.administrators| + 1
    ensures r.administrators[..|unit.administrators|] == unit.administrators
    ensures r.administrators[|unit.administrators|] == user
    ensures r.(administrators := unit.administrators) == unit
  {
    unit.(administrators := unit.administrators + [user])
  }

  /** In the session's list, before the commit, adding an administrator who
      is already listed duplicates the entry. */
  lemma AddAdministratorDuplicates(unit: Unit, user: User)
    requires user in unit.administrators
    ensures multiset(AddAdministrator(unit, user).administrators)[user] >= 2
  {
    assert AddAdministrator(unit, user).administrators == unit.administrators + [user];
  }

  /** The unit as `add_administrator` leaves it once its commit is done. The
      `units_administrators` table gets a row only for a user the loaded list
      did not already hold, and the list is reloaded from that table, so an
      already-listed user is not stored twice. */
  function AddAdministratorCommitted(unit: Unit, user: User): (r: Unit)
    ensures r.(administrators := unit.administrators) == unit
    ensures forall x :: x in r.administrators <==> x in unit.administrators || x == user
    ensures user in unit.administrators ==> r.administrators == unit.administrators
    ensures user !in unit.administrators ==> r.administrators == unit.administrators + [user]
  {
    if user in unit.administrators then unit else AddAdministrator(unit, user)
  }

  /** No user appears twice in the list. */
  predicate Distinct(s: seq<User>) {
    forall i, j :: 0 <= i < j < |s| ==> s[i] != s[j]
  }

  /** A listed user of a list without repeats is listed exactly once. */
  lemma DistinctOnce(s: seq<User>, x: User)
    requires Distinct(s) && x in s
    ensures multiset(s)[x] == 1
  {
    var i :| 0 <= i < |s| && s[i] == x;
    assert s == s[..i] + [x] + s[i + 1..];
    forall j | 0 <= j < |s| && j != i ensures s[j] != x {
      if j < i { assert s[j] != s[i]; } else { assert s[i] != s[j]; }
    }
    assert x !in s[..i] && x !in s[i + 1..];
    assert multiset(s) == multiset(s[..i]) + multiset{x} + multiset(s[i + 1..]);
  }

  /** Appending an absent user keeps a list without repeats. */
  lemma DistinctAppend(s: seq<User>, x: User)
    requires Distinct(s) && x !in s
    ensures Distinct(s + [x]) && multiset(s + [x])[x] == 1
  {
    assert multiset(s + [x]) == multiset(s) + multiset{x};
  }

  /** A committed administrator list never lists a user twice, holds the
      added user exactly once, and adding the same user again changes
      nothing. */
  lemma CommittedAdministratorsDistinct(unit: Unit, user: User)
    requires Distinct(unit.administrators)
    ensures var r := AddAdministratorCommitted(unit, user);
      && Distinct(r.administrators)
      && multiset(r.administrators)[user] == 1
      && AddAdministratorCommitted(r, user) == r
  {
    if user in unit.administrators {
      DistinctOnce(unit.administrators, user);
    } else {
      DistinctAppend(unit.administrators, user);
    }
  }
}
