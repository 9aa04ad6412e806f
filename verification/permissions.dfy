/** The `Permission` record of coruja/models/permissions.py: one grant of an
    action on a kind of object, optionally scoped to a single object id. */
module Permissions {
  import opened Wrappers

  /** A grant `(type, object_type, object_id?)`. `objectId == None` is an
      unscoped grant. */
  datatype Permission = Permission(kind: string, objectType: string, objectId: Option<int>)

  /** The action vocabulary the source documents for `type`. */
  predicate DocumentedAction(t: string) {
    t == "create" || t == "read" || t == "update" || t == "delete"
  }

  /** The keyword-only constructor. It validates nothing: every string is
      accepted as action and object type, and every field is stored as given. */
  function NewPermission(kind: string, objectType: string, objectId: Option<int>): (p: Permission)
    ensures p.kind == kind && p.objectType == objectType && p.objectId == objectId
  {
    Permission(kind, objectType, objectId)
  }

  /** The constructor called without `object_id`: the default `None`. */
  function NewUnscopedPermission(kind: string, objectType: string): (p: Permission)
    ensures p.objectId.None?
    ensures p.kind == kind && p.objectType == objectType
  {
    NewPermission(kind, objectType, None)
  }

  /** Two grants built from different arguments are different records: the
      constructor loses no information. */
  lemma NewPermissionInjective(k1: string, t1: string, i1: Option<int>, k2: string, t2: string, i2: Option<int>)
    requires NewPermission(k1, t1, i1) == NewPermission(k2, t2, i2)
    ensures k1 == k2 && t1 == t2 && i1 == i2
  {
  }

  /** The constructor accepts actions outside the documented vocabulary. */
  lemma UndocumentedActionAccepted()
    ensures !DocumentedAction(NewUnscopedPermission("write", "configurations").kind)
  {
  }
}
