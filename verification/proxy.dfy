/** The `proxy_access` decorator of coruja/decorators/proxy.py: it looks the
    kind up in `object_map`, takes the first keyword argument whose name ends
    in `_id` as the target id, and either runs the wrapped handler unchanged,
    aborts with 403, or lets the check's exception escape. */
module Proxy {
  import opened Wrappers
  import opened Users
  import opened Access

  /** `object_map`: the kind names a route may pass as `kind_object`. */
  const ObjectMapTable: map<string, Kind> := map[
    "organ" := Organ,
    "institution" := Institution,
    "unit" := Unit,
    "analysis" := Analysis,
    "analysis_risk" := AnalysisRisk,
    "analysis_vulnerability" := AnalysisVulnerability]

  /** The key under which each check is registered. */
  function KindName(k: Kind): string {
    match k
    case Organ => "organ"
    case Institution => "institution"
    case Unit => "unit"
    case Analysis => "analysis"
    case AnalysisRisk => "analysis_risk"
    case AnalysisVulnerability => "analysis_vulnerability"
  }

  /** `object_map.get(kind_object)`: the kind registered under exactly that
      name, and nothing for any other name. */
  function ObjectMap(kindObject: string): (r: Option<Kind>)
    ensures r.Some? ==> KindName(r.value) == kindObject
    ensures r.None? <==> forall k :: KindName(k) != kindObject
  {
    if kindObject in ObjectMapTable then Some(ObjectMapTable[kindObject]) else None
  }

  /** Every check is registered, each under exactly one name. */
  lemma ObjectMapNames(kindObject: string, k: Kind)
    ensures ObjectMap(KindName(k)) == Some(k)
    ensures ObjectMap(kindObject) == Some(k) ==> kindObject == KindName(k)
  {
  }

  /** Kinds used by routes but not registered, and a misspelling, all miss. */
  lemma UnregisteredKinds()
    ensures ObjectMap("active").None? && ObjectMap("threat").None?
    ensures ObjectMap("admin").None? && ObjectMap("instituition").None?
  {
  }

  // ---------------------------------------------------------------------
  // Keyword arguments
  // ---------------------------------------------------------------------

  /** One keyword argument of the wrapped call, in call order. */
  datatype Kwarg = Kwarg(name: string, value: int)

  /** The arguments the wrapped handler is called with. */
  datatype Request = Request(args: seq<int>, kwargs: seq<Kwarg>)

  /** `name.endswith("_id")`. */
  predicate IsIdName(name: string) {
    |name| >= 3 && name[|name| - 3..] == "_id"
  }

  /** `ids[0]` of the list of `_id` keyword values, or `None` when the list
      is empty. */
  function FirstId(kwargs: seq<Kwarg>): (r: Option<int>)
    ensures r.None? <==> forall i :: 0 <= i < |kwargs| ==> !IsIdName(kwargs[i].name)
    ensures r.Some? ==> exists i :: 0 <= i < |kwargs| && IsIdName(kwargs[i].name) && kwargs[i].value == r.value
                                    && forall j :: 0 <= j < i ==> !IsIdName(kwargs[j].name)
  {
    if |kwargs| == 0 then None
    else if IsIdName(kwargs[0].name) then Some(kwargs[0].value)
    else
      var rest := FirstId(kwargs[1..]);
      assert forall i :: 1 <= i < |kwargs| ==> kwargs[i] == kwargs[1..][i - 1];
      rest
  }

  // ---------------------------------------------------------------------
  // The denial message
  // ---------------------------------------------------------------------

  function HexDigit(n: nat): char
    requires n < 16
  {
    "0123456789abcdef"[n]
  }

  /** How Python's `repr` writes one character inside a literal quoted by `q`. */
  function EscapeChar(c: char, q: char): (r: string)
    ensures |r| >= 1
  {
    if c == '\\' then "\\\\"
    else if c == q then ['\\', q]
    else if c == '\n' then "\\n"
    else if c == '\r' then "\\r"
    else if c == '\t' then "\\t"
    else if Latin1Unprintable(c) then ['\\', 'x', HexDigit(c as int / 16), HexDigit(c as int % 16)]
    else [c]
  }

  /** The characters below U+0100 that `str.isprintable` rejects: the C0 and
      C1 controls, DEL, the no-break space and the soft hyphen. */
  predicate Latin1Unprintable(c: char) {
    c as int < 32 || (127 <= c as int <= 0xa0) || c as int == 0xad
  }

  function Escape(s: string, q: char): (r: string)
    ensures |r| >= |s|
  {
    if |s| == 0 then "" else EscapeChar(s[0], q) + Escape(s[1..], q)
  }

  /** A character `repr` writes as itself. */
  predicate PlainChar(c: char) {
    c != '\\' && c != '\'' && c != '"' && 32 <= c as int < 127
  }

  /** Python's `repr` of a string: single quotes, unless the text holds a
      single quote and no double quote; backslashes, the chosen quote and
      control characters escaped. */
  function PyRepr(s: string): (r: string)
    ensures |r| >= |s| + 2
    ensures r[0] == r[|r| - 1] && (r[0] == '\'' || r[0] == '"')
  {
    var q := if '\'' in s && '"' !in s then '"' else '\'';
    [q] + Escape(s, q) + [q]
  }

  lemma {:induction false} EscapePlain(s: string, q: char)
    requires forall i :: 0 <= i < |s| ==> PlainChar(s[i])
    requires q == '\'' || q == '"'
    ensures Escape(s, q) == s
  {
    if |s| > 0 {
      EscapePlain(s[1..], q);
    }
  }

  /** A plain name is written between single quotes, unchanged. */
  lemma PyReprPlain(s: string)
    requires forall i :: 0 <= i < |s| ==> PlainChar(s[i])
    ensures PyRepr(s) == "'" + s + "'"
  {
    EscapePlain(s, '\'');
  }

  const DenialPrefix: string := "Você não possui permissão "
  const DenialMiddle: string := " para o objeto "

  /** `f"Você não possui permissão {kind_access!r} para o objeto {kind_object!r}" or message`.
      The formatted text is never empty, so `message` is never used. */
  function DenialMessage(kindAccess: string, kindObject: string, message: Option<string>): (r: Option<string>)
    ensures r.Some? && |r.value| >= |DenialPrefix| + |DenialMiddle| + 4
    ensures r.value[..|DenialPrefix|] == DenialPrefix
  {
    var text := DenialPrefix + PyRepr(kindAccess) + DenialMiddle + PyRepr(kindObject);
    assert text[..|DenialPrefix|] == DenialPrefix;
    if |text| > 0 then Some(text) else message
  }

  /** Passing `message` changes nothing: the default text always wins. */
  lemma MessageParameterIgnored(kindAccess: string, kindObject: string, message: Option<string>)
    ensures DenialMessage(kindAccess, kindObject, message) == DenialMessage(kindAccess, kindObject, None)
  {
  }

  lemma DenialMessageText(kindAccess: string, kindObject: string, message: Option<string>)
    ensures DenialMessage(kindAccess, kindObject, message)
            == Some(DenialPrefix + PyRepr(kindAccess) + DenialMiddle + PyRepr(kindObject))
  {
  }

  /** For plain names, the denial text quotes both names unchanged. */
  lemma DenialMessagePlain(kindAccess: string, kindObject: string, message: Option<string>)
    requires forall i :: 0 <= i < |kindAccess| ==> PlainChar(kindAccess[i])
    requires forall i :: 0 <= i < |kindObject| ==> PlainChar(kindObject[i])
    ensures DenialMessage(kindAccess, kindObject, message)
            == Some(DenialPrefix + "'" + kindAccess + "'" + DenialMiddle + "'" + kindObject + "'")
  {
    PyReprPlain(kindAccess);
    PyReprPlain(kindObject);
    DenialMessageText(kindAccess, kindObject, message);
    assert DenialPrefix + ("'" + kindAccess + "'") + DenialMiddle + ("'" + kindObject + "'")
           == DenialPrefix + "'" + kindAccess + "'" + DenialMiddle + "'" + kindObject + "'";
  }

  lemma DenialMessageExample()
    ensures DenialMessage("update", "active", Some("Acesso negado"))
            == Some("Você não possui permissão 'update' para o objeto 'active'")
  {
    assert DenialPrefix + "'" + "update" + "'" + DenialMiddle + "'" + "active" + "'"
           == "Você não possui permissão 'update' para o objeto 'active'";
    var a, o := "update", "active";
    assert PlainChar(a[0]) && PlainChar(a[1]) && PlainChar(a[2]);
    assert PlainChar(a[3]) && PlainChar(a[4]) && PlainChar(a[5]);
    assert PlainChar(o[0]) && PlainChar(o[1]) && PlainChar(o[2]);
    assert PlainChar(o[3]) && PlainChar(o[4]) && PlainChar(o[5]);
    DenialMessagePlain(a, o, Some("Acesso negado"));
  }

  // ---------------------------------------------------------------------
  // The wrapper
  // ---------------------------------------------------------------------

  /** An exception that escapes the wrapper and becomes a server error.
      `TypeError` is what the organ check's `abort(404, message=...)` raises,
      since werkzeug's `NotFound` takes no `message` keyword. */
  datatype Exception = KeyError(message: string) | AttributeError | TypeError

  /** What a decorated call ends in: the handler's result, a 403 abort with
      its description, or an escaping exception. */
  datatype Outcome<R> =
    | Called(result: R)
    | Forbidden(description: Option<string>)
    | Raised(exception: Exception)

  const MissingIdMessage: string := "ID do objeto não encontrado"

  /** `user or current_user`: a given user object is always truthy. */
  function ActingUser(user: Option<User>, currentUser: User): (u: User)
    ensures user.Some? ==> u == user.value
    ensures user.None? ==> u == currentUser
  {
    user.GetOr(currentUser)
  }

  /** A call of a handler decorated with
      `proxy_access(kind_object=..., kind_access=..., message=..., user=...)`. */
  function ProxyAccess<R>(db: Db, kindObject: string, kindAccess: string, message: Option<string>,
                          user: Option<User>, currentUser: User,
                          handler: Request -> R, request: Request): (o: Outcome<R>)
    ensures ObjectMap(kindObject).None? ==> o == Forbidden(DenialMessage(kindAccess, kindObject, None))
    ensures o.Raised? && o.exception.KeyError?
            <==> ObjectMap(kindObject).Some? && FirstId(request.kwargs).None?
    ensures ObjectMap(kindObject).Some? && FirstId(request.kwargs).None? ==> o == Raised(KeyError(MissingIdMessage))
    ensures o.Forbidden?
            <==> || ObjectMap(kindObject).None?
                 || (&& ObjectMap(kindObject).Some? && FirstId(request.kwargs).Some?
                     && Resolve(db, ObjectMap(kindObject).value, FirstId(request.kwargs).value,
                                ActingUser(user, currentUser)) == Denied)
    ensures o.Called? <==> ObjectMap(kindObject).Some? && FirstId(request.kwargs).Some?
                           && Resolve(db, ObjectMap(kindObject).value, FirstId(request.kwargs).value,
                                      ActingUser(user, currentUser)) == Granted
    ensures o.Called? ==> o.result == handler(request)
    ensures o.Forbidden? ==> o.description == DenialMessage(kindAccess, kindObject, None)
    ensures o == Raised(Exception.TypeError)
            <==> ObjectMap(kindObject).Some? && FirstId(request.kwargs).Some?
                 && Resolve(db, ObjectMap(kindObject).value, FirstId(request.kwargs).value,
                            ActingUser(user, currentUser)).OrganNotFound?
    ensures o == Raised(Exception.AttributeError)
            <==> ObjectMap(kindObject).Some? && FirstId(request.kwargs).Some?
                 && Resolve(db, ObjectMap(kindObject).value, FirstId(request.kwargs).value,
                            ActingUser(user, currentUser)).AttributeError?
  {
    var text := DenialMessage(kindAccess, kindObject, message);
    MessageParameterIgnored(kindAccess, kindObject, message);
    match ObjectMap(kindObject)
    case None => Forbidden(text)
    case Some(k) =>
      match FirstId(request.kwargs)
      case None => Raised(KeyError(MissingIdMessage))
      case Some(id) =>
        match Resolve(db, k, id, ActingUser(user, currentUser))
        case Granted => Called(handler(request))
        case Denied => Forbidden(text)
        case OrganNotFound => Raised(Exception.TypeError)
        case _ => Raised(Exception.AttributeError)
  }

  /** Two outcomes that make the same access decision. */
  ghost predicate SameDecision<R>(o1: Outcome<R>, o2: Outcome<R>) {
    || (o1.Called? && o2.Called? && o1.result == o2.result)
    || (o1.Forbidden? && o2.Forbidden?)
    || (!o1.Called? && !o1.Forbidden? && o1 == o2)
  }

  /** `kind_access` takes no part in the decision: read and update on the same
      object always agree, and only the 403 text differs. The `message`
      parameter takes no part at all. */
  lemma KindAccessIgnored<R>(db: Db, kindObject: string, read: string, update: string,
                             m1: Option<string>, m2: Option<string>,
                             user: Option<User>, currentUser: User, handler: Request -> R, request: Request)
    ensures SameDecision(ProxyAccess(db, kindObject, read, m1, user, currentUser, handler, request),
                         ProxyAccess(db, kindObject, update, m2, user, currentUser, handler, request))
    ensures ProxyAccess(db, kindObject, read, m1, user, currentUser, handler, request)
            == ProxyAccess(db, kindObject, read, m2, user, currentUser, handler, request)
  {
  }

  /** An unregistered kind is refused for every store, user and request, and
      the handler never runs. */
  lemma UnregisteredKindAlwaysForbidden<R>(db: Db, kindObject: string, kindAccess: string, message: Option<string>,
                                           user: Option<User>, currentUser: User,
                                           handler: Request -> R, request: Request)
    requires kindObject !in ObjectMapTable
    ensures ProxyAccess(db, kindObject, kindAccess, message, user, currentUser, handler, request).Forbidden?
  {
  }

  /** A direct administrator of the target passes the decorator at every
      registered kind whose model lists administrators, and gets the
      handler's own result. */
  lemma DirectAdministratorPasses<R>(db: Db, k: Kind, kindAccess: string, message: Option<string>,
                                     user: Option<User>, currentUser: User,
                                     handler: Request -> R, request: Request)
    requires FirstId(request.kwargs).Some? && HasAdministrators(LoadedKind(k))
    requires Ref(LoadedKind(k), FirstId(request.kwargs).value) in db.objects
    requires IsObjectAdministrator(db.objects[Ref(LoadedKind(k), FirstId(request.kwargs).value)].administrators,
                                   ActingUser(user, currentUser))
    ensures ProxyAccess(db, KindName(k), kindAccess, message, user, currentUser, handler, request)
            == Called(handler(request))
  {
    ObjectMapNames(KindName(k), k);
  }

  /** A route guarded on "analysis_vulnerability" never reaches its handler:
      with an id it always raises `AttributeError`. */
  lemma VulnerabilityRouteAlwaysRaises<R>(db: Db, kindAccess: string, message: Option<string>,
                                          user: Option<User>, currentUser: User,
                                          handler: Request -> R, request: Request)
    requires FirstId(request.kwargs).Some?
    ensures ProxyAccess(db, "analysis_vulnerability", kindAccess, message, user, currentUser, handler, request)
            == Raised(Exception.AttributeError)
  {
    ObjectMapNames("analysis_vulnerability", AnalysisVulnerability);
    VulnerabilityCheckAlwaysRaises(db, FirstId(request.kwargs).value, ActingUser(user, currentUser));
  }

  /** On stores the schema allows, a route guarded on any kind but the organ
      runs its handler only for a direct administrator of the loaded object;
      for everyone else it raises `AttributeError` instead of answering 403. */
  lemma SchemaRoutesNeedDirectAdministrator<R>(db: Db, k: Kind, kindAccess: string, message: Option<string>,
                                               user: Option<User>, currentUser: User,
                                               handler: Request -> R, request: Request)
    requires SchemaLinked(db) && k != Organ && FirstId(request.kwargs).Some?
    ensures var o := ProxyAccess(db, KindName(k), kindAccess, message, user, currentUser, handler, request);
            var r := Ref(LoadedKind(k), FirstId(request.kwargs).value);
      && (o.Called? <==> r in db.objects && HasAdministrators(r.kind)
                         && IsObjectAdministrator(db.objects[r].administrators, ActingUser(user, currentUser)))
      && (!o.Called? ==> o == Raised(Exception.AttributeError))
  {
    ObjectMapNames(KindName(k), k);
    SchemaChecksAreDirect(db, k, FirstId(request.kwargs).value, ActingUser(user, currentUser));
  }
}
