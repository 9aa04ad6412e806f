/** The "create a child" routes of coruja/restapi: each reads `parent_id`
    from the query string, redirects home when it is missing, and otherwise
    loads the parent through a nested handler decorated with
    `proxy_access(kind_object=<parent kind>, kind_access="update")`. */
module Routes {
  import opened Wrappers
  import opened Users
  import opened Access
  import opened Proxy

  /** The route either redirects home with a flash message or goes on with
      the outcome of the guarded parent lookup (the parent's id stands for
      the loaded parent). */
  datatype Gate = RedirectHome(flash: string) | Proceed(outcome: Outcome<int>)

  /** The nested handler: `get_<kind>(<kind>_id)`, standing for the parent it
      loads by the id it was given. */
  function LoadParent(r: Request): int {
    if |r.kwargs| > 0 then r.kwargs[0].value else 0
  }

  /** `if not parent_id: redirect`, then the decorated call
      `get_<kind>(<kind>_id=parent_id)`. */
  function CreateChildGate(db: Db, kindObject: string, idName: string, missingFlash: string,
                           parentId: Option<int>, user: Option<User>, currentUser: User): (g: Gate)
    ensures parentId.None? || parentId.value == 0 ==> g == RedirectHome(missingFlash)
  {
    if parentId.None? || parentId.value == 0 then RedirectHome(missingFlash)
    else Proceed(ProxyAccess(db, kindObject, "update", None, user, currentUser, LoadParent,
                             Request([], [Kwarg(idName, parentId.value)])))
  }

  /** create_institution guards on the organ. */
  function CreateInstitutionGate(db: Db, parentId: Option<int>, user: Option<User>, currentUser: User): Gate {
    CreateChildGate(db, "organ", "organ_id", "Órgão não especificado", parentId, user, currentUser)
  }

  /** create_unit guards on the institution. As written its module imports a
      name `decorators/proxy.py` does not define, so the route never loads. */
  function CreateUnitGate(db: Db, parentId: Option<int>, user: Option<User>, currentUser: User): Gate {
    CreateChildGate(db, "institution", "institution_id", "Instituição não especificada", parentId, user, currentUser)
  }

  /** create_analysis guards on the unit. */
  function CreateAnalysisGate(db: Db, parentId: Option<int>, user: Option<User>, currentUser: User): Gate {
    CreateChildGate(db, "unit", "unit_id", "Unidade não especificada", parentId, user, currentUser)
  }

  /** create_active guards on the analysis risk. */
  function CreateActiveGate(db: Db, parentId: Option<int>, user: Option<User>, currentUser: User): Gate {
    CreateChildGate(db, "analysis_risk", "analysis_risk_id", "Análise de Risco não especificada", parentId, user, currentUser)
  }

  /** create_threat guards on the active, a kind `object_map` lacks. */
  function CreateThreatGate(db: Db, parentId: Option<int>, user: Option<User>, currentUser: User): Gate {
    CreateChildGate(db, "active", "active_id", "Análise de Risco não especificada", parentId, user, currentUser)
  }

  /** create_adverse_action guards on the threat, a kind `object_map` lacks. */
  function CreateAdverseActionGate(db: Db, parentId: Option<int>, user: Option<User>, currentUser: User): Gate {
    CreateChildGate(db, "threat", "threat_id", "Ameaça não especificada", parentId, user, currentUser)
  }

  lemma IdNames()
    ensures IsIdName("organ_id") && IsIdName("institution_id") && IsIdName("unit_id")
    ensures IsIdName("analysis_risk_id")
  {
    assert "organ_id"[5..] == "_id";
    assert "institution_id"[11..] == "_id";
    assert "unit_id"[4..] == "_id";
    assert "analysis_risk_id"[13..] == "_id";
  }

  /** Creating a child is allowed exactly when the user passes the check of
      the parent object named by `parent_id`. */
  lemma ChildCreationGuardedByParent(db: Db, p: int, user: Option<User>, currentUser: User)
    requires p != 0
    ensures var u := ActingUser(user, currentUser);
      && (CreateInstitutionGate(db, Some(p), user, currentUser) == Proceed(Called(p))
          <==> Resolve(db, Organ, p, u) == Granted)
      && (CreateUnitGate(db, Some(p), user, currentUser) == Proceed(Called(p))
          <==> Resolve(db, Institution, p, u) == Granted)
      && (CreateAnalysisGate(db, Some(p), user, currentUser) == Proceed(Called(p))
          <==> Resolve(db, Unit, p, u) == Granted)
      && (CreateActiveGate(db, Some(p), user, currentUser) == Proceed(Called(p))
          <==> Resolve(db, AnalysisRisk, p, u) == Granted)
  {
    IdNames();
    ObjectMapNames("organ", Organ);
    ObjectMapNames("institution", Institution);
    ObjectMapNames("unit", Unit);
    ObjectMapNames("analysis_risk", AnalysisRisk);
  }

  /** The threat and adverse-action creation routes are refused with 403 for
      every store, user and parent id: the handler never runs. */
  lemma UnregisteredParentRoutesAlwaysForbidden(db: Db, p: int, user: Option<User>, currentUser: User)
    requires p != 0
    ensures CreateThreatGate(db, Some(p), user, currentUser).Proceed?
    ensures CreateThreatGate(db, Some(p), user, currentUser).outcome.Forbidden?
    ensures CreateAdverseActionGate(db, Some(p), user, currentUser).Proceed?
    ensures CreateAdverseActionGate(db, Some(p), user, currentUser).outcome.Forbidden?
  {
    UnregisteredKinds();
  }
}
