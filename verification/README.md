# Coruja access core in Dafny

Coruja is a Flask application for risk analysis in public bodies. Its
objects form a tree: an organ holds institutions, an institution holds
units, a unit holds analyses, and an analysis holds risk and vulnerability
analyses. Access to an object is decided by `proxy_access`, a route
decorator. Its checks are written to climb that tree. Each check grants the
administrators of the object it loads. Otherwise it reads the object's
parent-id attribute (`organ_id`, `institution_id`, `unit_id`,
`analysis_id`) and asks the parent's check. The organ check also grants
global organ administrators.

The models declare only `analysis_id`, and only on risks and
vulnerabilities. Institutions, units and analyses have no parent-id
attribute. So on any database the program can build, no check climbs. A
check grants exactly the direct administrators of the loaded object (and
global organ administrators at the organ). Everyone else gets
`AttributeError`. The model keeps both views:

- `Access.Resolve` follows the code on any store, including stores whose
  objects carry the attributes the checks read.
- `Access.SchemaLinked` names the stores the schema allows, and
  `Access.SchemaChecksAreDirect` states what the checks do there.

This project models that core as pure Dafny functions over immutable
values:

- `Access`: the chain of `can_access_*` resolvers, as one recursive
  function over a catalogue of kinds. Its reference meaning is the upward
  walk through the database.
- `Proxy`: the decorator itself. This covers the `object_map` lookup, the
  pick of the first `*_id` keyword argument, the denial message built with
  Python's `!r`, and the outcome: handler called, 403 or a raised
  exception.
- `Routes`: the "create a child" routes, which redirect when no parent id
  is given and otherwise guard the parent through `proxy_access`.
- `Permissions`, `Users`, `Units`: the permission record,
  `User.add_permission`, CPF censoring, `User.as_dict`, `Unit` construction
  and `Unit.add_administrator`.
- `Roles`: the default roles seeded by `create_default_roles`. The
  permission lists are derived there with copy, `+`, `list.remove` and
  `append`.
- `Configurations`: `BaseTable.to_dict`, `Change.serialize_dict` with
  `datetime.isoformat`, and the `Change` constructor.
- `Patterns` and `Forms`: anchored regular expressions with Python `re`
  semantics, the CPF validator, and the CNPJ and telephone field validator
  chains.

The database is a value of type `Access.Db`: a map from `(kind, id)` to a
node that holds the node's administrators and its parent links. Each
relationship list is a sequence that is never absent: an empty
relationship is `[]`. Python exceptions become explicit results: `None`, or
the `Raised` and `AttributeError` constructors.

Some behaviour of the code is reproduced as written, where it differs from
what its comments or documentation suggest:

- `can_access_analysis_risk` loads an `Analysis` with the risk's id (the
  `LoadedKind` quirk). That analysis has no `analysis_id`, so only its own
  administrators are ever granted.
- `can_access_analysis_vulnerability` always raises `AttributeError`,
  because the vulnerability model has no `administrators`.
- The `message` argument of `proxy_access` is never used, because the
  f-string before `or` is never empty.
- `as_dict` with an empty filter returns `{}`. Its docstring says it
  returns every column.
- `analysis_admin` is registered with the unit administrators' list.
- The CPF check digits are commented out, so they are never checked.
- The dots of the CNPJ pattern are unescaped, so they match any character
  but a newline.
- Python's `$` also accepts one trailing newline.
- A missing organ does not give a 404. `can_access_organ` calls
  `abort(404, message=...)`, and werkzeug's HTTP exceptions accept no
  `message` keyword, so the call raises `TypeError`.
- The CPF censoring documentation shows 123.456.789-09 becoming
  123.***.**9-09. For that formatted input the code gives 123.***.**--09.
- In the session, `Unit.add_administrator` appends an already-listed user a
  second time. The commit writes no second row, so the stored list holds
  the user once.
- `restapi/unit.py` imports `analysis_access` from
  `coruja.decorators.proxy`, which defines no such name. As written, the
  unit blueprint fails to import and `create_unit` is never reachable. The
  model still states what its parent check would decide if it ran.

## Model

| member | source | states |
|---|---|---|
| Permissions.NewPermission | coruja/models/permissions.py:14-30 | the record stores the action, the object type and the optional object id exactly as given |
| Permissions.NewUnscopedPermission | coruja/models/permissions.py:19 | leaving out `object_id` gives a grant that is not scoped to any object |
| Permissions.NewPermissionInjective | coruja/models/permissions.py:28-30 | two permissions built from different arguments differ, because nothing is dropped or normalised |
| Permissions.UndocumentedActionAccepted | coruja/models/permissions.py:8-9 | an action outside create/read/update/delete, such as "write", is stored all the same |
| Configurations.Pad | coruja/models/configurations.py:45 | a zero-padded field of `isoformat` has exactly its width and only digits |
| Configurations.PadRoundTrip | coruja/models/configurations.py:45 | reading a padded field back as decimal gives the number |
| Configurations.IsoFormat | coruja/models/configurations.py:45 | `isoformat` of a naive datetime has 19 characters, or 26 when the microseconds are non-zero |
| Configurations.IsoBase | coruja/models/configurations.py:45 | the date and time fields sit at fixed positions, separated by `-`, `T` and `:` |
| Configurations.IsoFormatRoundTrip | coruja/models/configurations.py:44-45 | parsing the ISO text gives back the datetime, so serialisation loses nothing |
| Configurations.IsoFormatInjective | coruja/models/configurations.py:44-45 | distinct valid datetimes serialise to distinct texts |
| Configurations.SerializeValue | coruja/models/configurations.py:43-47 | a datetime becomes its ISO text, which parses back to it; any other value is kept |
| Configurations.SerializeDict | coruja/models/configurations.py:40-48 | the same keys; non-datetime values unchanged; datetimes replaced by their ISO text; no datetime left |
| Configurations.SerializeDictIdempotent | coruja/models/configurations.py:40-48 | serialising an already serialised dict changes nothing |
| Configurations.NewChange | coruja/models/configurations.py:34-38 | a change keeps the user id, the object type and the keys of both snapshots; each datetime is stored as its ISO text; other values are kept |
| Configurations.NewChangeRecoversSnapshots | coruja/models/configurations.py:34-48 | every datetime of either snapshot parses back from the stored text, and logging the stored snapshots again gives the same change |
| Configurations.ToDict | coruja/models/configurations.py:22-23 | the keys are the table's column names, each mapped to that column's value |
| Users.CensorCpf | coruja/models/users.py:112-125 | IndexError exactly for CPFs shorter than 3; otherwise 14 characters: the first three, the mask, the third-from-last character, a dash, the last two |
| Users.CensorRevealsHeadAndTail | coruja/models/users.py:112-125 | two CPFs censor alike exactly when they share their first three and last three characters |
| Users.ColumnValue | coruja/models/users.py:14-23 | reading a column gives that field of the user; a name that is not a column gives nothing; only the three datetime columns give a datetime |
| Users.CensorExample | coruja/models/users.py:117-125 | for the unformatted CPF 12345678909 the code produces the documented 123.***.**9-09 |
| Users.CensorDocumentedInput | coruja/models/users.py:117-125 | for the documentation's own input, 123.456.789-09, the code produces 123.***.**--09, not the documented 123.***.**9-09 |
| Users.AsDict | coruja/models/users.py:85-110 | fails exactly when a censored CPF shorter than 3 is requested; otherwise the keys are the filtered columns, with values copied and the CPF censored when asked |
| Users.AsDictIsRestrictedToDict | coruja/models/users.py:85-110 | without censoring, `as_dict` is `to_dict` restricted to the filter, and the full column list gives all of `to_dict` |
| Users.AsDictEmptyFilter | coruja/models/users.py:102 | an empty filter gives an empty dict, censored or not |
| Users.AddPermission | coruja/models/users.py:127-133 | the permission is appended after the user's existing ones, and no other field changes |
| Users.AddPermissionHolds | coruja/models/users.py:127-133 | in the session's list, before the commit, the user holds exactly the old permissions plus the new one, which occurs one more time |
| Units.NewUnit | coruja/models/units.py:29-36 | a new unit keeps the description and template flag and has no administrators, staff or analyses |
| Units.DefaultUnit | coruja/models/units.py:32-33 | by default there is no description and the unit is not a template |
| Units.AddAdministrator | coruja/models/units.py:38-42 | in the session, the user is appended to the administrators, and nothing else changes |
| Units.AddAdministratorDuplicates | coruja/models/units.py:38-42 | in the session, before the commit, adding an existing administrator again lists them twice |
| Units.AddAdministratorCommitted | coruja/models/units.py:38-44 | after the commit, the administrators are the old ones plus the user, and a user who was already listed is not stored again |
| Units.CommittedAdministratorsDistinct | coruja/models/relationships.py:67-71 | the stored administrator list never repeats a user, holds the added user once, and adding that user again changes nothing |
| Access.IsObjectAdministrator | coruja/decorators/proxy.py:12-22 | true exactly when some administrator has the user's id; false for an empty list |
| Access.Parent | coruja/decorators/proxy.py:45-124 | each kind except the organ defers to a kind one level up, never to a risk analysis |
| Access.LoadedKind | coruja/decorators/proxy.py:103 | every resolver loads its own kind, except the risk analysis, which loads an analysis |
| Access.HasAdministrators | coruja/models/analysis.py:79-85 | every loaded model has an `administrators` list except the vulnerability |
| Access.Resolve | coruja/decorators/proxy.py:25-124 | a missing organ reaches the failing `abort` call; an organ administrator is granted any existing organ; a direct administrator of a loaded object that has administrators is granted; a kind without administrators always raises; only the organ level reaches `abort` |
| Access.WalkUp | coruja/decorators/proxy.py:45-124 | the walk visits only stored objects, at most five, starting at the loaded object and ending at an organ when it reaches one |
| Access.AdminOnWalkCons | coruja/decorators/proxy.py:58-59 | an administrator on a walk is one of the first object or one further up |
| Access.ResolveFollowsWalk | coruja/decorators/proxy.py:25-124 | on any store: granted iff the user administers a node of the walk, or the walk reaches an organ and the user is an organ administrator; the missing organ, AttributeError and 403 are characterised the same way |
| Access.AncestorGrantsDescendant | coruja/decorators/proxy.py:45-124 | on stores whose objects carry parent attributes, access to any ancestor on the walk grants access to the object |
| Access.SchemaChecksAreDirect | coruja/decorators/proxy.py:45-124 | on stores the schema allows, every check below the organ grants exactly the direct administrators of the loaded object and raises `AttributeError` for everyone else |
| Access.RiskAnalysisNeedsDirectAdministrator | coruja/decorators/proxy.py:93-105 | since analyses carry no `analysis_id`, a risk check grants exactly the administrators of the analysis with the same id, and raises for everyone else |
| Access.VulnerabilityCheckAlwaysRaises | coruja/decorators/proxy.py:108-124 | the vulnerability check raises `AttributeError` whatever the store holds |
| Access.OrganAdministratorGrantsReachable | coruja/decorators/proxy.py:41-42 | an organ administrator is granted every object whose walk reaches an existing organ (on the schema's stores, only organs) |
| Access.ResolveIgnoresDescendants | coruja/decorators/proxy.py:25-124 | the decision depends only on objects at the kind's level or above |
| Access.ChildAdministrationNeverGrantsParent | coruja/decorators/proxy.py:25-124 | changing an object below a kind never changes a decision about that kind |
| Access.AddAdministratorGrantsUnit | coruja/models/units.py:38-44 | after `add_administrator` commits, the user is granted access to that unit |
| Proxy.ObjectMap | coruja/decorators/proxy.py:127-135 | `object_map.get` (the `ObjectMapTable` constant) finds a kind exactly for the name it is registered under |
| Proxy.ObjectMapNames | coruja/decorators/proxy.py:127-135 | each of the six kinds is registered under exactly one name |
| Proxy.UnregisteredKinds | coruja/decorators/proxy.py:127-135 | "active", "threat", "admin" and the misspelt "instituition" are not registered |
| Proxy.FirstId | coruja/decorators/proxy.py:189-192 | none exactly when no keyword ends in `_id`; otherwise the value of the first such keyword |
| Proxy.PyRepr | coruja/decorators/proxy.py:176 | `!r` of a string is quoted, with the same quote at both ends and no shorter than the string |
| Proxy.PyReprPlain | coruja/decorators/proxy.py:176 | a string of printable ASCII without quotes or backslashes is shown between single quotes, unchanged |
| Proxy.DenialMessage | coruja/decorators/proxy.py:175-178 | the message is always present and starts with the fixed Portuguese prefix |
| Proxy.MessageParameterIgnored | coruja/decorators/proxy.py:175-178 | the `message` argument never changes the denial message |
| Proxy.DenialMessageText | coruja/decorators/proxy.py:176 | the message is the prefix, the access's repr, the middle text and the object's repr |
| Proxy.DenialMessagePlain | coruja/decorators/proxy.py:176 | for plain names, the message quotes both names unchanged between single quotes |
| Proxy.DenialMessageExample | coruja/decorators/proxy.py:176 | denying "update" on "active" reads "Você não possui permissão 'update' para o objeto 'active'" |
| Proxy.ActingUser | coruja/decorators/proxy.py:180 | the given user if any, otherwise the logged-in user |
| Proxy.ProxyAccess | coruja/decorators/proxy.py:138-201 | a 403 happens exactly for an unknown kind or a `Denied` verdict (a user who does not administer an existing organ); a KeyError happens exactly when no id is given; the handler runs, on the unchanged request, exactly when the resolver grants; every 403 carries the default message; a missing organ raises TypeError from the `abort` call; AttributeError is raised exactly when the resolver raises it |
| Proxy.KindAccessIgnored | coruja/decorators/proxy.py:174-197 | "read" and "update" lead to the same decision, and the message argument changes nothing |
| Proxy.UnregisteredKindAlwaysForbidden | coruja/decorators/proxy.py:185-187 | a kind missing from `object_map` is always a 403 |
| Proxy.DirectAdministratorPasses | coruja/decorators/proxy.py:189-195 | a direct administrator of the object reaches the handler, at every kind whose model has administrators |
| Proxy.VulnerabilityRouteAlwaysRaises | coruja/decorators/proxy.py:120-124 | a route guarded on "analysis_vulnerability" that receives an id always raises `AttributeError` |
| Proxy.SchemaRoutesNeedDirectAdministrator | coruja/decorators/proxy.py:185-197 | on stores the schema allows, a route guarded below the organ runs its handler exactly for direct administrators of the loaded object and otherwise raises `AttributeError`, never 403 |
| Routes.CreateChildGate | coruja/restapi/institution.py:22-25 | a missing or zero `parent_id` redirects home with the route's flash |
| Routes.IdNames | coruja/restapi/institution.py:27-28 | the parent keyword names the routes use all end in `_id` |
| Routes.ChildCreationGuardedByParent | coruja/restapi/unit.py:29-38 | creating an institution, unit, analysis or active proceeds exactly when the resolver grants the parent |
| Routes.UnregisteredParentRoutesAlwaysForbidden | coruja/restapi/analysis_risk.py:77-86 | creating a threat or adverse action with a parent is always a 403, because their parent kinds are not registered |
| Roles.Grant | coruja/extensions/commands.py:17-33 | a seeded grant has the given type and action and is not scoped to an object |
| Roles.Crud | coruja/extensions/commands.py:36-40 | each object kind gets create, read and update, in that order, all on that kind and none scoped to an object |
| Roles.IndexOf | coruja/extensions/commands.py:145 | the first position holding the element |
| Roles.RemoveFirst | coruja/extensions/commands.py:145 | `list.remove` fails exactly when the element is absent, and otherwise drops only its first occurrence |
| Roles.Flatten | coruja/extensions/commands.py:138 | `reduce(+)` starts with the first group; the model gives `[]` for no groups, where `reduce` raises |
| Roles.FlattenMembers | coruja/extensions/commands.py:138 | the concatenated list holds exactly the grants of the groups |
| Roles.RemoveHeadOfCopy | coruja/extensions/commands.py:144-145 | removing the list's own first grant from the copy drops exactly that grant |
| Roles.DeriveAdminPermissions | coruja/extensions/commands.py:144-146 | copy, `remove` and `append` fail only for an empty own list; otherwise they keep the length of own plus users, end with the next grant, and add nothing else |
| Roles.DeriveDropsFirstOwn | coruja/extensions/commands.py:144-146 | a tier's list is its kind's grants without create, then the user grants, then create on the next kind |
| Roles.FlattenLength | coruja/extensions/commands.py:138 | concatenating groups of three gives three grants per group |
| Roles.DefaultRoles | coruja/extensions/commands.py:141-174 | six roles in registration order, with analysis_admin registered with unit_admin's grants |
| Roles.AdminHoldsEverything | coruja/extensions/commands.py:125-141 | admin holds all 21 defined grants and nothing else |
| Roles.OrganAdministrator | coruja/extensions/commands.py:144-148 | organ_admin: read/update organ, create/read/update user, create institution |
| Roles.InstitutionAdministrator | coruja/extensions/commands.py:151-157 | institution_admin: read/update institution, create/read/update user, create unit |
| Roles.UnitAdministrator | coruja/extensions/commands.py:160-164 | unit_admin: read/update unit, create/read/update user, create analysis |
| Roles.OrganCreateDropped | coruja/extensions/commands.py:144-145 | organ_admin cannot create organs, and the organ list it was copied from is left whole |
| Roles.AnalysisAdminIsUnitAdmin | coruja/extensions/commands.py:167-171 | analysis_admin gets unit_admin's grants; the analysis and active list built for it is discarded |
| Roles.ViewerReadsUsers | coruja/extensions/commands.py:174 | the viewer role only reads users |
| Roles.CrudBounded | coruja/extensions/commands.py:36-123 | a create/read/update triple on an ordinary kind reaches no configuration and has no delete |
| Roles.DerivedBounded | coruja/extensions/commands.py:144-164 | a tier list derived from ordinary kinds keeps both bounds |
| Roles.TierListsBounded | coruja/extensions/commands.py:144-174 | no administrator tier and not the viewer reach access logs or configurations |
| Roles.FlattenNoDelete | coruja/extensions/commands.py:138 | concatenating groups without delete grants adds none |
| Roles.AdminListBounded | coruja/extensions/commands.py:125-141 | admin has no delete grant but does reach configurations |
| Roles.RoleBoundaries | coruja/extensions/commands.py:140-174 | only admin reaches access logs or configurations, and no role can delete |
| Patterns.FullMatch | coruja/forms.py:97-100 | `re.match` of the whole string with backtracking: each atom takes a permitted count of characters of its class |
| Patterns.AnchoredMatch | coruja/forms.py:97-100 | Python's `$` matches at the end and also just before a final newline |
| Patterns.FullMatchLength | coruja/forms.py:97-100 | a match is as long as the atoms' counts allow, no shorter, no longer |
| Patterns.AnchoredMatchLength | coruja/forms.py:97-100 | an anchored match may be one character longer than the atoms allow, and that character is a newline |
| Patterns.FixedAtom | coruja/forms.py:98 | an atom with a fixed count consumes exactly that many characters of its class |
| Patterns.TwoChoiceAtom | coruja/forms.py:116 | an atom `{n,n+1}` consumes either count, whichever lets the rest match |
| Patterns.OffsetShift | coruja/forms.py:98 | dropping the first atom moves every later run back by its count |
| Patterns.RunShift | coruja/forms.py:98 | a run in the rest of the string is the same run in the whole string, shifted |
| Patterns.FixedMatchAt | coruja/forms.py:98 | a fixed-count pattern matches exactly the strings of its width with every run of the right class at its offset |
| Patterns.InstanceMatch | coruja/forms.py:116 | whatever a fixed choice of counts matches, the pattern matches |
| Patterns.MatchHasInstance | coruja/forms.py:116 | whatever the pattern matches, some fixed choice of counts matches |
| Forms.ValidateCpf | coruja/forms.py:13-25 | a CPF passes exactly when it is eleven digits; otherwise "CPF Inválido" |
| Forms.WeightedSumPrefix | coruja/forms.py:27-52 | the disabled rule's weighted sums read only the digits they weigh |
| Forms.CheckDigitsIgnored | coruja/forms.py:13-52 | every completion of a nine-digit prefix passes, while the disabled rule holds exactly for the pair equal to the prefix's verifying digits |
| Forms.WrongCheckDigitsAccepted | coruja/forms.py:13-52 | every nine-digit prefix has a passing completion with wrong check digits |
| Forms.RepeatedDigitAccepted | coruja/forms.py:23-25 | the all-zero CPF passes |
| Forms.LoginCpf | coruja/forms.py:64-68 | the login CPF field accepts what `validate_cpf` accepts; a blank value gets the required message instead |
| Forms.CnpjPatternShape | coruja/forms.py:98 | the CNPJ pattern matches exactly 18 characters: digits in fixed places, any non-newline at 2 and 6, `/` at 10, `-` at 15 |
| Forms.CnpjAccepted | coruja/forms.py:97-100 | what the CNPJ pattern lets through has 18 or 19 characters and is never blank |
| Forms.CnpjAnchored | coruja/forms.py:97-100 | with `$`, the CNPJ pattern also lets through a CNPJ followed by one newline |
| Forms.CnpjExample | coruja/forms.py:98 | a formatted CNPJ matches |
| Forms.TelephoneWithShape | coruja/forms.py:116 | with fixed counts, the telephone pattern is a parenthesised area code, a space, digits, a dash and four digits |
| Forms.TelephoneInstance | coruja/forms.py:116 | the fixed choices of the telephone pattern have two or three area digits and four or five leading digits |
| Forms.TelephoneWithInstance | coruja/forms.py:116 | each of those four choices is allowed by the pattern |
| Forms.TelephoneAnchored | coruja/forms.py:115-118 | with `$`, the telephone pattern accepts exactly the telephone shapes, with or without a final newline |
| Forms.BlankIsNotTelephone | coruja/forms.py:111-120 | an accepted telephone is never blank |
| Forms.TelephonePatternShape | coruja/forms.py:116 | the telephone pattern matches exactly the strings with two or three area digits and four or five leading digits, so 14 to 16 characters |
| Forms.TelephoneExample | coruja/forms.py:117 | the format the error message suggests, (99) 99999-9999, matches |
| Forms.RequiredMatching | coruja/forms.py:111-120 | a required, pattern-checked field passes exactly when not blank and matching; a blank value gets the required message and a mismatch the pattern's message |
| Forms.OrganCnpj | coruja/forms.py:93-102 | the organ CNPJ field passes exactly what the pattern lets through; blank gets the required message, anything else the CNPJ message |
| Forms.Telephone | coruja/forms.py:111-120 | the telephone field passes exactly the accepted shapes; blank gets the required message, anything else the telephone message |
| Forms.InstitutionCnpj | coruja/forms.py:142-150 | the institution CNPJ field accepts exactly what the pattern lets through, and rejects only with the CNPJ message |
| Forms.BlankIsNotCnpj | coruja/forms.py:93-102 | a blank value is never let through by the CNPJ pattern |
| Forms.CnpjFieldsAgree | coruja/forms.py:93-150 | the organ and institution CNPJ fields accept the same strings; they differ only in the message for blank input |
| Forms.CnpjUnescapedDots | coruja/forms.py:98 | letters where the dots go pass both CNPJ fields |
| Forms.CnpjTrailingNewline | coruja/forms.py:93-150 | every CNPJ followed by a newline passes both CNPJ fields |
| Forms.TelephoneLength | coruja/forms.py:111-120 | an accepted telephone has 14 to 16 characters, or 17 when a newline ends it |

## Left out

- Database access, commits and sessions. The database is a value passed in, and `commit_changes` has no effect.
- Flask's `abort`, `flash`, `redirect` and `current_user`. They become the `Outcome` and `Gate` results and an explicit `currentUser` parameter.
- Access.Resolve, Proxy.ProxyAccess: `abort(404, message=...)` in `can_access_organ` is not a 404. Werkzeug's HTTP exceptions take no `message` keyword, so the program fails there with a `TypeError` (a server error). The model records the missing organ as `OrganNotFound` and the decorator raises `TypeError`. The traceback and the server error page are not modelled.
- Password hashing with bcrypt (`check_password`). JSON encoding of telephones. `to_dict` and `as_dict` on other tables than `user`.
- Access.ResolveFollowsWalk, Access.AncestorGrantsDescendant and Access.OrganAdministratorGrantsReachable are stated for every store. That includes stores whose institutions, units and analyses carry `organ_id`, `institution_id` or `unit_id`, which the declared models lack. On the stores the schema allows (`Access.SchemaLinked`), walks stop at the loaded object, as `Access.SchemaChecksAreDirect` states.
- Units.AddAdministratorCommitted: keeps the session's order and puts a new user last. The relationship declares no ordering, so the list reloaded after the commit comes back in whatever order the database returns.
- Roles.Flatten: returns `[]` for an empty list of groups. Python's `reduce` with no initial value raises `TypeError` there. The only call passes seven groups, so that case is never reached.
- Roles.Grant: the seeding code calls `Permission(label=..., type=..., description=...)`, which the constructor does not accept. The model reads `label` as the object type and drops the description.
- Roles.RemoveFirst: compares permissions by value. Python compares these records by identity, which removes the same first element here because it is the list's own first object.
- Forms.ValidateCpf: counts only ASCII digits as numeric. Python's `isnumeric` also accepts other Unicode numerals.
- Forms.CnpjPatternShape: `\d` is taken as an ASCII digit. Python's `\d` also matches other Unicode decimal digits.
- Forms.TelephonePatternShape: `\d` is taken as an ASCII digit, as for the CNPJ.
- Proxy.PyRepr: models quoting and the escapes below U+0100. Above that, the model writes every character as itself. Python also escapes the non-printable ones there, which needs the Unicode database.
- Configurations.IsoFormat: naive datetimes only. Time zones and `isoformat` separators other than `T` are not used by the source.
- The e-mail validators, the other forms, and the routes' bodies after the parent check.
- Concurrency between requests.
