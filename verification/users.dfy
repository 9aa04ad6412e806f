/** The `User` model of coruja/models/users.py: CPF censoring, the filtered
    dictionary view and the grant list. */
module Users {
  import opened Wrappers
  import opened Permissions
  import opened Configurations

  /** A stored user. `password` holds the bcrypt hash, kept opaque here;
      `telephones` is the raw JSON text of the `_telephones` column. */
  datatype User = User(
    id: int,
    createdAt: Option<DateTime>,
    updatedAt: Option<DateTime>,
    name: string,
    cpf: string,
    password: string,
    emailPersonal: Option<string>,
    emailProfessional: string,
    address: Option<string>,
    telephones: Option<string>,
    title: Option<string>,
    lastSeen: Option<DateTime>,
    permissions: seq<Permission>)

  /** The columns of the `user` table, inherited `BaseTable` columns first. */
  const Columns: seq<string> := ["id", "created_at", "updated_at", "name", "cpf", "password",
                                 "email_personal", "email_professional", "address",
                                 "_telephones", "title", "last_seen"]

  function OptStr(o: Option<string>): Value {
    if o.Some? then Str(o.value) else Null
  }

  function OptDate(o: Option<DateTime>): Value {
    if o.Some? then Date(o.value) else Null
  }

  /** `getattr(user, column)` for a column of the table. */
  function ColumnValue(u: User, column: string): (v: Value)
    ensures column !in Columns ==> v == Null
    ensures column == "id" ==> v == Int(u.id)
    ensures column == "cpf" ==> v == Str(u.cpf)
    ensures v.Date? ==> column == "created_at" || column == "updated_at" || column == "last_seen"
  {
    match column
    case "id" => Int(u.id)
    case "created_at" => OptDate(u.createdAt)
    case "updated_at" => OptDate(u.updatedAt)
    case "name" => Str(u.name)
    case "cpf" => Str(u.cpf)
    case "password" => Str(u.password)
    case "email_personal" => OptStr(u.emailPersonal)
    case "email_professional" => Str(u.emailProfessional)
    case "address" => OptStr(u.address)
    case "_telephones" => OptStr(u.telephones)
    case "title" => OptStr(u.title)
    case "last_seen" => OptDate(u.lastSeen)
    case _ => Null
  }

  /** The mask placed between the visible head and tail of a censored CPF. */
  const CpfMask: string := ".***.**"

  /** `__censor_cpf`: the first three characters, a fixed mask, the third
      character from the end, a dash and the last two characters. `None` for
      fewer than three characters, where Python's `cpf[-3]` raises. */
  function CensorCpf(cpf: string): (r: Option<string>)
    ensures r.None? <==> |cpf| < 3
    ensures r.Some? ==> |r.value| == 14
    ensures r.Some? ==> r.value[..3] == cpf[..3] && r.value[3..10] == CpfMask && r.value[11] == '-'
    ensures r.Some? ==> r.value[10] == cpf[|cpf| - 3] && r.value[12..] == cpf[|cpf| - 2..]
  {
    if |cpf| < 3 then None
    else Some(cpf[..3] + CpfMask + [cpf[|cpf| - 3]] + "-" + cpf[|cpf| - 2..])
  }

  /** Two CPFs censor to the same text exactly when they agree on their first
      three and their last three characters: nothing else is revealed, and
      all of that is. */
  lemma CensorRevealsHeadAndTail(a: string, b: string)
    requires |a| >= 3 && |b| >= 3
    ensures CensorCpf(a) == CensorCpf(b) <==> a[..3] == b[..3] && a[|a| - 3..] == b[|b| - 3..]
  {
    var ra, rb := CensorCpf(a).value, CensorCpf(b).value;
    if a[..3] == b[..3] && a[|a| - 3..] == b[|b| - 3..] {
      assert a[|a| - 3] == a[|a| - 3..][0] == b[|b| - 3..][0] == b[|b| - 3];
      assert a[|a| - 2..] == a[|a| - 3..][1..] == b[|b| - 3..][1..] == b[|b| - 2..];
      assert ra == rb by {
        assert forall i | 0 <= i < 14 :: ra[i] == rb[i] by {
          forall i | 0 <= i < 14 ensures ra[i] == rb[i] {
            if i < 3 {
              assert ra[i] == ra[..3][i] == rb[..3][i] == rb[i];
            } else if i < 10 {
              assert ra[i] == ra[3..10][i - 3] == rb[3..10][i - 3] == rb[i];
            } else if i >= 12 {
              assert ra[i] == ra[12..][i - 12] == rb[12..][i - 12] == rb[i];
            }
          }
        }
      }
    }
    if ra == rb {
      assert a[|a| - 3..] == [a[|a| - 3]] + a[|a| - 2..];
      assert b[|b| - 3..] == [b[|b| - 3]] + b[|b| - 2..];
    }
  }

  /** An unformatted eleven-digit CPF censors to the text the source's
      documentation promises. */
  lemma CensorExample()
    ensures CensorCpf("12345678909") == Some("123.***.**9-09")
  {
    var cpf := "12345678909";
    assert cpf[..3] == "123";
    assert cpf[|cpf| - 2..] == "09";
    assert cpf[..3] + CpfMask + [cpf[|cpf| - 3]] + "-" + cpf[|cpf| - 2..] == "123.***.**9-09";
  }

  /** The documentation's own input, the formatted CPF 123.456.789-09, does
      not censor to the documented 123.***.**9-09: its third character from
      the end is the dash, so the dash appears twice. */
  lemma CensorDocumentedInput()
    ensures CensorCpf("123.456.789-09") == Some("123.***.**--09")
    ensures CensorCpf("123.456.789-09") != Some("123.***.**9-09")
  {
    var cpf := "123.456.789-09";
    assert cpf[..3] == "123";
    assert cpf[|cpf| - 3] == '-';
    assert cpf[|cpf| - 2..] == "09";
    assert cpf[..3] + CpfMask + [cpf[|cpf| - 3]] + "-" + cpf[|cpf| - 2..] == "123.***.**--09";
    assert "123.***.**--09"[10] != "123.***.**9-09"[10];
  }

  /** `as_dict`: the table columns named in `filter`, in a dictionary; the
      `cpf` value censored when `censor` holds. An empty filter gives an
      empty dictionary. `None` when censoring raises on a short CPF. */
  function AsDict(u: User, filter: seq<string>, censor: bool): (r: Option<map<string, Value>>)
    ensures r.None? <==> censor && "cpf" in filter && |u.cpf| < 3
    ensures r.Some? ==> r.value.Keys == set c | c in Columns && c in filter
    ensures r.Some? ==> forall c :: c in r.value && !(censor && c == "cpf") ==> r.value[c] == ColumnValue(u, c)
    ensures r.Some? && censor && "cpf" in filter ==> r.value["cpf"] == Str(CensorCpf(u.cpf).value)
  {
    var keys := set c | c in Columns && |filter| > 0 && c in filter;
    if censor && "cpf" in keys && |u.cpf| < 3 then None
    else Some(map c | c in keys :: if censor && c == "cpf" then Str(CensorCpf(u.cpf).value) else ColumnValue(u, c))
  }

  /** Without censoring, `as_dict` is `to_dict` restricted to the filter; with
      a filter naming every column it is `to_dict` itself. */
  lemma AsDictIsRestrictedToDict(u: User, filter: seq<string>)
    ensures AsDict(u, filter, false) ==
      Some(map c | c in ToDict(Columns, c => ColumnValue(u, c)) && c in filter :: ColumnValue(u, c))
    ensures AsDict(u, Columns, false) == Some(ToDict(Columns, c => ColumnValue(u, c)))
  {
    var t := ToDict(Columns, c => ColumnValue(u, c));
    var r := AsDict(u, filter, false).value;
    var expected := map c | c in t && c in filter :: ColumnValue(u, c);
    assert r.Keys == expected.Keys;
    assert r == expected;
    var all := AsDict(u, Columns, false).value;
    assert all.Keys == t.Keys;
    assert all == t;
  }

  /** The documented "empty filter returns everything" does not hold: an empty
      filter returns nothing. */
  lemma AsDictEmptyFilter(u: User, censor: bool)
    ensures AsDict(u, [], censor) == Some(map[])
  {
  }

  /** `add_permission`: the grant becomes the last element, earlier grants stay
      in order, nothing else in the user changes. No duplicate check is made. */
  function AddPermission(u: User, p: Permission): (r: User)
    ensures |r.permissions| == |u.permissions| + 1
    ensures r.permissions[..|u.permissions|] == u.permissions
    ensures r.permissions[|u.permissions|] == p
    ensures r.(permissions := u.permissions) == u
  {
    u.(permissions := u.permissions + [p])
  }

  /** In the session's list, before the commit, `add_permission` leaves the
      user holding exactly the earlier grants and the new one, and the new
      one once more than before, even if already held. */
  lemma AddPermissionHolds(u: User, p: Permission)
    ensures forall q :: q in AddPermission(u, p).permissions <==> q in u.permissions || q == p
    ensures multiset(AddPermission(u, p).permissions)[p] == multiset(u.permissions)[p] + 1
  {
    var r := AddPermission(u, p);
    assert r.permissions == u.permissions + [p];
  }
}
