/** Column values, `BaseTable.to_dict` and the change-snapshot serialisation
    of coruja/models/configurations.py. */
module Configurations {
  import opened Wrappers

  /** A naive `datetime.datetime`. */
  datatype DateTime = DateTime(year: int, month: int, day: int,
                               hour: int, minute: int, second: int, microsecond: int)
  {
    /** The ranges Python enforces when a `datetime` is built. */
    predicate Valid() {
      && 1 <= year <= 9999
      && 1 <= month <= 12
      && 1 <= day <= DaysInMonth(year, month)
      && 0 <= hour < 24 && 0 <= minute < 60 && 0 <= second < 60
      && 0 <= microsecond < 1000000
    }
  }

  predicate IsLeapYear(y: int) {
    y % 4 == 0 && (y % 100 != 0 || y % 400 == 0)
  }

  function DaysInMonth(y: int, m: int): (d: int)
    ensures 28 <= d <= 31
  {
    if m == 2 then (if IsLeapYear(y) then 29 else 28)
    else if m == 4 || m == 6 || m == 9 || m == 11 then 30
    else 31
  }

  /** A value read from a column or held in a snapshot dictionary. */
  datatype Value =
    | Null
    | Bool(b: bool)
    | Int(i: int)
    | Str(s: string)
    | Date(dt: DateTime)

  // ---------------------------------------------------------------------
  // Fixed-width decimal text, as used by `datetime.isoformat`
  // ---------------------------------------------------------------------

  function Pow10(w: nat): nat {
    if w == 0 then 1 else 10 * Pow10(w - 1)
  }

  predicate IsDigit(c: char) {
    '0' <= c <= '9'
  }

  predicate AllDigits(s: string) {
    forall i :: 0 <= i < |s| ==> IsDigit(s[i])
  }

  /** `n` written in exactly `w` decimal digits, with leading zeros. */
  function Pad(n: nat, w: nat): (s: string)
    requires n < Pow10(w)
    ensures |s| == w
    ensures AllDigits(s)
    decreases w
  {
    if w == 0 then ""
    else Pad(n / 10, w - 1) + [(('0' as int) + n % 10) as char]
  }

  /** The number an all-digit string denotes. */
  function DigitsValue(s: string): nat
    requires AllDigits(s)
  {
    if |s| == 0 then 0
    else 10 * DigitsValue(s[..|s| - 1]) + (s[|s| - 1] as int - '0' as int)
  }

  lemma {:induction false} PadRoundTrip(n: nat, w: nat)
    requires n < Pow10(w)
    ensures DigitsValue(Pad(n, w)) == n
    decreases w
  {
    if w > 0 {
      var s := Pad(n, w);
      assert s[..|s| - 1] == Pad(n / 10, w - 1);
      PadRoundTrip(n / 10, w - 1);
    }
  }

  // ---------------------------------------------------------------------
  // datetime.isoformat() and its inverse
  // ---------------------------------------------------------------------

  /** `datetime.isoformat()` of a naive datetime: `YYYY-MM-DDTHH:MM:SS`,
      followed by `.ffffff` only when the microsecond is not zero. */
  function IsoFormat(dt: DateTime): (s: string)
    requires dt.Valid()
    ensures |s| == (if dt.microsecond == 0 then 19 else 26)
  {
    var base := IsoBase(dt);
    if dt.microsecond == 0 then base else base + "." + Pad(dt.microsecond, 6)
  }

  /** Reads back the text `IsoFormat` produces; `None` for any other shape. */
  function ParseIso(s: string): Option<DateTime> {
    if !(|s| == 19 || (|s| == 26 && s[19] == '.' && AllDigits(s[20..26]))) then None
    else if !(s[4] == '-' && s[7] == '-' && s[10] == 'T' && s[13] == ':' && s[16] == ':') then None
    else if !(AllDigits(s[0..4]) && AllDigits(s[5..7]) && AllDigits(s[8..10])
              && AllDigits(s[11..13]) && AllDigits(s[14..16]) && AllDigits(s[17..19])) then None
    else
      Some(DateTime(DigitsValue(s[0..4]), DigitsValue(s[5..7]), DigitsValue(s[8..10]),
                    DigitsValue(s[11..13]), DigitsValue(s[14..16]), DigitsValue(s[17..19]),
                    if |s| == 26 then DigitsValue(s[20..26]) else 0))
  }

  /** Where each field sits in the text `IsoFormat` builds. */
  lemma IsoLayout(y: string, mo: string, d: string, h: string, mi: string, se: string)
    requires |y| == 4 && |mo| == 2 && |d| == 2 && |h| == 2 && |mi| == 2 && |se| == 2
    ensures var b := y + "-" + mo + "-" + d + "T" + h + ":" + mi + ":" + se;
      && |b| == 19
      && b[0..4] == y && b[5..7] == mo && b[8..10] == d
      && b[11..13] == h && b[14..16] == mi && b[17..19] == se
      && b[4] == '-' && b[7] == '-' && b[10] == 'T' && b[13] == ':' && b[16] == ':'
  {
    var b1 := y + "-";
    var b2 := b1 + mo + "-";
    var b3 := b2 + d + "T";
    var b4 := b3 + h + ":";
    var b5 := b4 + mi + ":";
    var b := b5 + se;
    assert b[0..4] == b1[0..4] == y;
    assert b[5..7] == b2[5..7] == mo;
    assert b[8..10] == b3[8..10] == d;
    assert b[11..13] == b4[11..13] == h;
    assert b[14..16] == b5[14..16] == mi;
    assert b[17..19] == se;
  }

  /** `isoformat` loses nothing: the text determines the datetime. */
  lemma IsoFormatRoundTrip(dt: DateTime)
    requires dt.Valid()
    ensures ParseIso(IsoFormat(dt)) == Some(dt)
  {
    var base := IsoBase(dt);
    PadRoundTrip(dt.year, 4);
    PadRoundTrip(dt.month, 2);
    PadRoundTrip(dt.day, 2);
    PadRoundTrip(dt.hour, 2);
    PadRoundTrip(dt.minute, 2);
    PadRoundTrip(dt.second, 2);
    if dt.microsecond != 0 {
      PadRoundTrip(dt.microsecond, 6);
      MicroLayout(base, Pad(dt.microsecond, 6));
    }
    ParseIsoFields(IsoFormat(dt));
  }

  /** The seconds-resolution part of `IsoFormat`, with its fields in place. */
  function IsoBase(dt: DateTime): (b: string)
    requires dt.Valid()
    ensures |b| == 19
    ensures b[0..4] == Pad(dt.year, 4) && b[5..7] == Pad(dt.month, 2) && b[8..10] == Pad(dt.day, 2)
    ensures b[11..13] == Pad(dt.hour, 2) && b[14..16] == Pad(dt.minute, 2) && b[17..19] == Pad(dt.second, 2)
    ensures b[4] == '-' && b[7] == '-' && b[10] == 'T' && b[13] == ':' && b[16] == ':'
  {
    var y, mo, d := Pad(dt.year, 4), Pad(dt.month, 2), Pad(dt.day, 2);
    var h, mi, se := Pad(dt.hour, 2), Pad(dt.minute, 2), Pad(dt.second, 2);
    IsoLayout(y, mo, d, h, mi, se);
    y + "-" + mo + "-" + d + "T" + h + ":" + mi + ":" + se
  }

  lemma MicroLayout(base: string, us: string)
    requires |base| == 19 && |us| == 6
    ensures var s := base + "." + us;
      |s| == 26 && s[0..19] == base && s[19] == '.' && s[20..26] == us
      && s[4] == base[4] && s[7] == base[7] && s[10] == base[10] && s[13] == base[13] && s[16] == base[16]
      && s[0..4] == base[0..4] && s[5..7] == base[5..7] && s[8..10] == base[8..10]
      && s[11..13] == base[11..13] && s[14..16] == base[14..16] && s[17..19] == base[17..19]
  {
  }

  /** What `ParseIso` reads from a text of the right shape. */
  lemma ParseIsoFields(s: string)
    requires |s| == 19 || (|s| == 26 && s[19] == '.' && AllDigits(s[20..26]))
    requires s[4] == '-' && s[7] == '-' && s[10] == 'T' && s[13] == ':' && s[16] == ':'
    requires AllDigits(s[0..4]) && AllDigits(s[5..7]) && AllDigits(s[8..10])
    requires AllDigits(s[11..13]) && AllDigits(s[14..16]) && AllDigits(s[17..19])
    ensures ParseIso(s) == Some(DateTime(DigitsValue(s[0..4]), DigitsValue(s[5..7]), DigitsValue(s[8..10]),
                    DigitsValue(s[11..13]), DigitsValue(s[14..16]), DigitsValue(s[17..19]),
                    if |s| == 26 then DigitsValue(s[20..26]) else 0))
  {
  }

  /** Distinct datetimes never share an ISO text. */
  lemma IsoFormatInjective(a: DateTime, b: DateTime)
    requires a.Valid() && b.Valid()
    requires IsoFormat(a) == IsoFormat(b)
    ensures a == b
  {
    IsoFormatRoundTrip(a);
    IsoFormatRoundTrip(b);
  }

  // ---------------------------------------------------------------------
  // Change snapshots
  // ---------------------------------------------------------------------

  /** The per-value step of `Change.serialize_dict`. */
  function SerializeValue(v: Value): (r: Value)
    ensures !r.Date?
    ensures v.Date? && v.dt.Valid() ==> r.Str? && ParseIso(r.s) == Some(v.dt)
    ensures !v.Date? ==> r == v
  {
    match v
    case Date(dt) =>
      if dt.Valid() then (IsoFormatRoundTrip(dt); Str(IsoFormat(dt))) else Str("")
    case _ => v
  }

  /** `Change.serialize_dict`: a fresh dictionary with the same keys, every
      `datetime` replaced by its ISO text and every other value copied. The
      argument is a value and is therefore never changed. */
  function SerializeDict(d: map<string, Value>): (r: map<string, Value>)
    requires forall k :: k in d && d[k].Date? ==> d[k].dt.Valid()
    ensures r.Keys == d.Keys
    ensures forall k :: k in d && !d[k].Date? ==> r[k] == d[k]
    ensures forall k :: k in d && d[k].Date? ==> r[k] == Str(IsoFormat(d[k].dt))
    ensures forall k :: k in r ==> !r[k].Date?
  {
    map k | k in d :: SerializeValue(d[k])
  }

  /** Serialising a snapshot twice changes nothing more. */
  lemma SerializeDictIdempotent(d: map<string, Value>)
    requires forall k :: k in d && d[k].Date? ==> d[k].dt.Valid()
    ensures SerializeDict(SerializeDict(d)) == SerializeDict(d)
  {
  }

  /** A logged change of one object: both snapshots serialised, author and
      object type stored as given. */
  datatype Change = Change(objectOld: map<string, Value>, objectNew: map<string, Value>,
                           userId: Option<int>, objectType: Option<string>)

  function NewChange(objectOld: map<string, Value>, objectNew: map<string, Value>,
                     userId: Option<int>, objectType: Option<string>): (c: Change)
    requires forall k :: k in objectOld && objectOld[k].Date? ==> objectOld[k].dt.Valid()
    requires forall k :: k in objectNew && objectNew[k].Date? ==> objectNew[k].dt.Valid()
    ensures c.userId == userId && c.objectType == objectType
    ensures c.objectOld.Keys == objectOld.Keys && c.objectNew.Keys == objectNew.Keys
    ensures forall k :: k in c.objectOld ==> !c.objectOld[k].Date?
    ensures forall k :: k in c.objectNew ==> !c.objectNew[k].Date?
    ensures forall k :: k in objectOld && !objectOld[k].Date? ==> c.objectOld[k] == objectOld[k]
    ensures forall k :: k in objectNew && !objectNew[k].Date? ==> c.objectNew[k] == objectNew[k]
    ensures forall k :: k in objectOld && objectOld[k].Date? ==> c.objectOld[k] == Str(IsoFormat(objectOld[k].dt))
    ensures forall k :: k in objectNew && objectNew[k].Date? ==> c.objectNew[k] == Str(IsoFormat(objectNew[k].dt))
  {
    Change(SerializeDict(objectOld), SerializeDict(objectNew), userId, objectType)
  }

  /** Nothing is lost in a logged change: every datetime of either snapshot
      reads back from its stored text, and logging the stored snapshots again
      gives the same change. */
  lemma NewChangeRecoversSnapshots(objectOld: map<string, Value>, objectNew: map<string, Value>,
                                   userId: Option<int>, objectType: Option<string>)
    requires forall k :: k in objectOld && objectOld[k].Date? ==> objectOld[k].dt.Valid()
    requires forall k :: k in objectNew && objectNew[k].Date? ==> objectNew[k].dt.Valid()
    ensures var c := NewChange(objectOld, objectNew, userId, objectType);
      && (forall k :: k in objectOld && objectOld[k].Date? ==> ParseIso(c.objectOld[k].s) == Some(objectOld[k].dt))
      && (forall k :: k in objectNew && objectNew[k].Date? ==> ParseIso(c.objectNew[k].s) == Some(objectNew[k].dt))
      && NewChange(c.objectOld, c.objectNew, userId, objectType) == c
  {
    var c := NewChange(objectOld, objectNew, userId, objectType);
    forall k | k in objectOld && objectOld[k].Date?
      ensures ParseIso(c.objectOld[k].s) == Some(objectOld[k].dt)
    {
      IsoFormatRoundTrip(objectOld[k].dt);
    }
    forall k | k in objectNew && objectNew[k].Date?
      ensures ParseIso(c.objectNew[k].s) == Some(objectNew[k].dt)
    {
      IsoFormatRoundTrip(objectNew[k].dt);
    }
    SerializeDictIdempotent(objectOld);
    SerializeDictIdempotent(objectNew);
  }

  // ---------------------------------------------------------------------
  // BaseTable.to_dict
  // ---------------------------------------------------------------------

  /** `to_dict`: one entry per table column, holding that column's value. */
  function ToDict(columns: seq<string>, get: string -> Value): (r: map<string, Value>)
    ensures r.Keys == set c | c in columns
    ensures forall c :: c in r ==> r[c] == get(c)
  {
    map c | c in columns :: get(c)
  }
}
