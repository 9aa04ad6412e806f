/** The CPF validator and the CNPJ and telephone field validators of
    coruja/forms.py. */
module Forms {
  import opened Patterns

  /** A field validator either lets the value through or raises with a
      message (`ValidationError`, or `StopValidation` from `DataRequired`). */
  datatype Validation = Valid | Invalid(message: string)

  predicate AllDigits(s: string) {
    forall i :: 0 <= i < |s| ==> IsDigit(s[i])
  }

  const CpfInvalidMessage: string := "CPF Inválido"

  /** `validate_cpf`: `cpf.isnumeric()` (false for the empty string) and a
      length of exactly eleven. */
  function ValidateCpf(cpf: string): (v: Validation)
    ensures v.Valid? <==> |cpf| == 11 && AllDigits(cpf)
    ensures v.Invalid? ==> v.message == CpfInvalidMessage
  {
    var isNumeric := |cpf| > 0 && AllDigits(cpf);
    if !isNumeric || |cpf| != 11 then Invalid(CpfInvalidMessage) else Valid
  }

  function DigitAt(s: string, i: nat): nat
    requires i < |s| && IsDigit(s[i])
  {
    s[i] as int - '0' as int
  }

  /** `sum(int(s[i]) * (w - i) for i in range(n))`. */
  function WeightedSum(s: string, n: nat, w: int): int
    requires n <= |s| && AllDigits(s)
  {
    if n == 0 then 0 else WeightedSum(s, n - 1, w) + DigitAt(s, n - 1) * (w - (n - 1))
  }

  /** The verifying-digit rule: `11 - sum % 11`, with 10 and 11 read as 0. */
  function VerifyingDigit(sum: int): int {
    var d := 11 - sum % 11;
    if d > 9 then 0 else d
  }

  /** The two CPF check digits the disabled part of `validate_cpf` describes. */
  predicate CheckDigitsHold(cpf: string)
    requires |cpf| == 11 && AllDigits(cpf)
  {
    && VerifyingDigit(WeightedSum(cpf, 9, 10)) == DigitAt(cpf, 9)
    && VerifyingDigit(WeightedSum(cpf, 10, 11)) == DigitAt(cpf, 10)
  }

  /** The weighted sums read only the first `n` characters. */
  lemma {:induction false} WeightedSumPrefix(s: string, t: string, n: nat, w: int)
    requires AllDigits(s) && AllDigits(t) && n <= |s| && n <= |t| && s[..n] == t[..n]
    ensures WeightedSum(s, n, w) == WeightedSum(t, n, w)
  {
    if n > 0 {
      assert s[n - 1] == s[..n][n - 1] == t[..n][n - 1] == t[n - 1];
      assert s[..n - 1] == s[..n][..n - 1] == t[..n][..n - 1] == t[..n - 1];
      WeightedSumPrefix(s, t, n - 1, w);
    }
  }

  /** Check digits are not verified. Every nine-digit prefix has a hundred
      completions and `validate_cpf` accepts them all, while the disabled
      rule would single out one: the pair whose digits are the verifying
      digits of the prefix's sums. */
  lemma CheckDigitsIgnored(p: string, a: char, b: char)
    requires |p| == 9 && AllDigits(p) && IsDigit(a) && IsDigit(b)
    ensures ValidateCpf(p + [a, b]).Valid?
    ensures CheckDigitsHold(p + [a, b])
            <==> && a as int - '0' as int == VerifyingDigit(WeightedSum(p, 9, 10))
                 && b as int - '0' as int == VerifyingDigit(WeightedSum(p, 9, 11) + 2 * (a as int - '0' as int))
  {
    var s := p + [a, b];
    assert AllDigits(s) by {
      forall i | 0 <= i < |s| ensures IsDigit(s[i]) {
        if i < 9 { assert s[i] == p[i]; }
      }
    }
    assert s[..9] == p[..9];
    WeightedSumPrefix(s, p, 9, 10);
    WeightedSumPrefix(s, p, 9, 11);
    assert DigitAt(s, 9) == a as int - '0' as int;
  }

  /** Every nine-digit prefix completes to an accepted CPF whose check digits
      are wrong. */
  lemma WrongCheckDigitsAccepted(p: string)
    requires |p| == 9 && AllDigits(p)
    ensures exists a, b :: IsDigit(a) && IsDigit(b) && ValidateCpf(p + [a, b]).Valid? && !CheckDigitsHold(p + [a, b])
  {
    var a := if VerifyingDigit(WeightedSum(p, 9, 10)) == 0 then '1' else '0';
    CheckDigitsIgnored(p, a, '0');
  }

  /** A CPF made of one repeated digit is accepted. */
  lemma RepeatedDigitAccepted()
    ensures ValidateCpf("00000000000").Valid?
  {
    var s := "00000000000";
    assert AllDigits(s);
  }

  // ---------------------------------------------------------------------
  // CNPJ
  // ---------------------------------------------------------------------

  /** `^\d{2}.\d{3}.\d{3}\/\d{4}-\d{2}$`. The dots are not escaped. */
  const CnpjPattern: seq<Atom> := [
    Atom(Digit, 2, 2), Atom(AnyButNewline, 1, 1), Atom(Digit, 3, 3), Atom(AnyButNewline, 1, 1),
    Atom(Digit, 3, 3), Atom(Exactly('/'), 1, 1), Atom(Digit, 4, 4), Atom(Exactly('-'), 1, 1),
    Atom(Digit, 2, 2)]

  /** `s[lo..hi]` exists and is all digits. */
  predicate DigitsIn(s: string, lo: nat, hi: nat) {
    lo <= hi <= |s| && forall i :: lo <= i < hi ==> IsDigit(s[i])
  }

  /** Eighteen characters: two digits, any character but a newline, three
      digits, any character but a newline, three digits, a slash, four
      digits, a dash, two digits. */
  predicate CnpjShape(s: string) {
    && |s| == 18
    && DigitsIn(s, 0, 2) && s[2] != '\n' && DigitsIn(s, 3, 6) && s[6] != '\n'
    && DigitsIn(s, 7, 10) && s[10] == '/' && DigitsIn(s, 11, 15) && s[15] == '-' && DigitsIn(s, 16, 18)
  }

  /** What a run of each kind of atom says about the characters. */
  lemma RunAtClass(s: string, off: nat, n: nat, c: char)
    ensures RunAt(s, off, Atom(Digit, n, n)) <==> DigitsIn(s, off, off + n)
    ensures RunAt(s, off, Atom(AnyButNewline, 1, 1)) <==> off < |s| && s[off] != '\n'
    ensures RunAt(s, off, Atom(Exactly(c), 1, 1)) <==> off < |s| && s[off] == c
  {
  }

  lemma CnpjLayout()
    ensures Fixed(CnpjPattern) && Width(CnpjPattern) == 18
    ensures Offset(CnpjPattern, 1) == 2 && Offset(CnpjPattern, 2) == 3 && Offset(CnpjPattern, 3) == 6
    ensures Offset(CnpjPattern, 4) == 7 && Offset(CnpjPattern, 5) == 10 && Offset(CnpjPattern, 6) == 11
    ensures Offset(CnpjPattern, 7) == 15 && Offset(CnpjPattern, 8) == 16
  {
    var p := CnpjPattern;
    assert Offset(p, 1) == 2;
    assert Offset(p, 2) == 3;
    assert Offset(p, 3) == 6;
    assert Offset(p, 4) == 7;
    assert Offset(p, 5) == 10;
    assert Offset(p, 6) == 11;
    assert Offset(p, 7) == 15;
    assert Offset(p, 8) == 16;
    assert Offset(p, 9) == 18;
  }

  /** Each run of the CNPJ pattern, at its offset. */
  lemma CnpjRunsAt(s: string)
    requires |s| == 18
    ensures RunAt(s, Offset(CnpjPattern, 0), CnpjPattern[0]) <==> DigitsIn(s, 0, 2)
    ensures RunAt(s, Offset(CnpjPattern, 1), CnpjPattern[1]) <==> s[2] != '\n'
    ensures RunAt(s, Offset(CnpjPattern, 2), CnpjPattern[2]) <==> DigitsIn(s, 3, 6)
    ensures RunAt(s, Offset(CnpjPattern, 3), CnpjPattern[3]) <==> s[6] != '\n'
    ensures RunAt(s, Offset(CnpjPattern, 4), CnpjPattern[4]) <==> DigitsIn(s, 7, 10)
    ensures RunAt(s, Offset(CnpjPattern, 5), CnpjPattern[5]) <==> s[10] == '/'
    ensures RunAt(s, Offset(CnpjPattern, 6), CnpjPattern[6]) <==> DigitsIn(s, 11, 15)
    ensures RunAt(s, Offset(CnpjPattern, 7), CnpjPattern[7]) <==> s[15] == '-'
    ensures RunAt(s, Offset(CnpjPattern, 8), CnpjPattern[8]) <==> DigitsIn(s, 16, 18)
  {
    CnpjLayout();
    RunAtClass(s, 0, 2, '/');
    RunAtClass(s, 2, 1, '/');
    RunAtClass(s, 3, 3, '/');
    RunAtClass(s, 6, 1, '/');
    RunAtClass(s, 7, 3, '/');
    RunAtClass(s, 10, 1, '/');
    RunAtClass(s, 11, 4, '/');
    RunAtClass(s, 15, 1, '-');
    RunAtClass(s, 16, 2, '/');
  }

  /** The runs of the CNPJ pattern, position by position. */
  lemma CnpjRuns(s: string)
    requires |s| == 18
    ensures (forall j :: 0 <= j < |CnpjPattern| ==> RunAt(s, Offset(CnpjPattern, j), CnpjPattern[j])) <==> CnpjShape(s)
  {
    var p := CnpjPattern;
    CnpjRunsAt(s);
    if CnpjShape(s) {
      forall j | 0 <= j < |p| ensures RunAt(s, Offset(p, j), p[j]) {
        if j == 0 { } else if j == 1 { } else if j == 2 { } else if j == 3 { }
        else if j == 4 { } else if j == 5 { } else if j == 6 { } else if j == 7 { } else { }
      }
    }
    if forall j :: 0 <= j < |p| ==> RunAt(s, Offset(p, j), p[j]) {
      assert RunAt(s, Offset(p, 0), p[0]) && RunAt(s, Offset(p, 1), p[1]) && RunAt(s, Offset(p, 2), p[2]);
      assert RunAt(s, Offset(p, 3), p[3]) && RunAt(s, Offset(p, 4), p[4]) && RunAt(s, Offset(p, 5), p[5]);
      assert RunAt(s, Offset(p, 6), p[6]) && RunAt(s, Offset(p, 7), p[7]) && RunAt(s, Offset(p, 8), p[8]);
    }
  }

  /** The CNPJ pattern accepts exactly the strings of that shape. */
  lemma CnpjPatternShape(s: string)
    ensures FullMatch(CnpjPattern, s) <==> CnpjShape(s)
  {
    CnpjLayout();
    FixedMatchAt(CnpjPattern, s);
    if |s| == 18 {
      CnpjRuns(s);
    }
  }

  /** A formatted CNPJ passes. */
  lemma CnpjExample()
    ensures FullMatch(CnpjPattern, "12.345.678/0001-95")
  {
    var s := "12.345.678/0001-95";
    assert CnpjShape(s);
    CnpjPatternShape(s);
  }

  // ---------------------------------------------------------------------
  // Telephone
  // ---------------------------------------------------------------------

  /** `^\(\d{2,3}\) \d{4,5}-\d{4}$`. */
  const TelephonePattern: seq<Atom> := [
    Atom(Exactly('('), 1, 1), Atom(Digit, 2, 3), Atom(Exactly(')'), 1, 1), Atom(Exactly(' '), 1, 1),
    Atom(Digit, 4, 5), Atom(Exactly('-'), 1, 1), Atom(Digit, 4, 4)]

  /** The telephone pattern with `a` area digits and `b` leading digits. */
  function TelephoneWith(a: nat, b: nat): seq<Atom> {
    [Atom(Exactly('('), 1, 1), Atom(Digit, a, a), Atom(Exactly(')'), 1, 1), Atom(Exactly(' '), 1, 1),
     Atom(Digit, b, b), Atom(Exactly('-'), 1, 1), Atom(Digit, 4, 4)]
  }

  /** `(`, `a` digits, `) `, `b` digits, `-`, four digits. */
  predicate TelephoneShape(s: string, a: nat, b: nat) {
    && |s| == 8 + a + b
    && s[0] == '(' && DigitsIn(s, 1, 1 + a) && s[1 + a] == ')' && s[2 + a] == ' '
    && DigitsIn(s, 3 + a, 3 + a + b) && s[3 + a + b] == '-' && DigitsIn(s, 4 + a + b, 8 + a + b)
  }

  lemma TelephoneLayout(a: nat, b: nat)
    ensures Fixed(TelephoneWith(a, b)) && Width(TelephoneWith(a, b)) == 8 + a + b
    ensures Offset(TelephoneWith(a, b), 1) == 1 && Offset(TelephoneWith(a, b), 2) == 1 + a
    ensures Offset(TelephoneWith(a, b), 3) == 2 + a && Offset(TelephoneWith(a, b), 4) == 3 + a
    ensures Offset(TelephoneWith(a, b), 5) == 3 + a + b && Offset(TelephoneWith(a, b), 6) == 4 + a + b
  {
    var p := TelephoneWith(a, b);
    assert Offset(p, 1) == 1;
    assert Offset(p, 2) == 1 + a;
    assert Offset(p, 3) == 2 + a;
    assert Offset(p, 4) == 3 + a;
    assert Offset(p, 5) == 3 + a + b;
    assert Offset(p, 6) == 4 + a + b;
    assert Offset(p, 7) == 8 + a + b;
  }

  /** The runs of a fixed telephone pattern, position by position. */
  lemma TelephoneRuns(s: string, a: nat, b: nat)
    requires |s| == 8 + a + b
    ensures (forall j :: 0 <= j < |TelephoneWith(a, b)| ==> RunAt(s, Offset(TelephoneWith(a, b), j), TelephoneWith(a, b)[j]))
      <==> TelephoneShape(s, a, b)
  {
    var p := TelephoneWith(a, b);
    TelephoneLayout(a, b);
    RunAtClass(s, 0, 0, '(');
    RunAtClass(s, 1, a, '(');
    RunAtClass(s, 1 + a, 0, ')');
    RunAtClass(s, 2 + a, 0, ' ');
    RunAtClass(s, 3 + a, b, ' ');
    RunAtClass(s, 3 + a + b, 0, '-');
    RunAtClass(s, 4 + a + b, 4, '-');
    if TelephoneShape(s, a, b) {
      forall j | 0 <= j < |p| ensures RunAt(s, Offset(p, j), p[j]) {
        if j == 0 { } else if j == 1 { } else if j == 2 { } else if j == 3 { }
        else if j == 4 { } else if j == 5 { } else { }
      }
    }
    if forall j :: 0 <= j < |p| ==> RunAt(s, Offset(p, j), p[j]) {
      assert RunAt(s, Offset(p, 0), p[0]) && RunAt(s, Offset(p, 1), p[1]) && RunAt(s, Offset(p, 2), p[2]);
      assert RunAt(s, Offset(p, 3), p[3]) && RunAt(s, Offset(p, 4), p[4]) && RunAt(s, Offset(p, 5), p[5]);
      assert RunAt(s, Offset(p, 6), p[6]);
    }
  }

  lemma TelephoneWithShape(a: nat, b: nat, s: string)
    ensures FullMatch(TelephoneWith(a, b), s) <==> TelephoneShape(s, a, b)
  {
    TelephoneLayout(a, b);
    FixedMatchAt(TelephoneWith(a, b), s);
    if |s| == 8 + a + b {
      TelephoneRuns(s, a, b);
    }
  }

  /** The fixed instances of the telephone pattern are the patterns with
      two or three area digits and four or five leading digits. */
  lemma TelephoneInstance(q: seq<Atom>)
    requires Instance(q, TelephonePattern)
    ensures 2 <= q[1].min <= 3 && 4 <= q[4].min <= 5 && q == TelephoneWith(q[1].min, q[4].min)
  {
    var p := TelephonePattern;
    assert q[0].cls == p[0].cls && p[0].min <= q[0].min == q[0].max <= p[0].max;
    assert q[1].cls == p[1].cls && p[1].min <= q[1].min == q[1].max <= p[1].max;
    assert q[2].cls == p[2].cls && p[2].min <= q[2].min == q[2].max <= p[2].max;
    assert q[3].cls == p[3].cls && p[3].min <= q[3].min == q[3].max <= p[3].max;
    assert q[4].cls == p[4].cls && p[4].min <= q[4].min == q[4].max <= p[4].max;
    assert q[5].cls == p[5].cls && p[5].min <= q[5].min == q[5].max <= p[5].max;
    assert q[6].cls == p[6].cls && p[6].min <= q[6].min == q[6].max <= p[6].max;
    var r := TelephoneWith(q[1].min, q[4].min);
    assert |q| == |r|;
    assert q[0] == r[0] && q[1] == r[1] && q[2] == r[2] && q[3] == r[3];
    assert q[4] == r[4] && q[5] == r[5] && q[6] == r[6];
  }

  /** Every telephone pattern with two or three area digits and four or
      five leading digits is an instance of the telephone pattern. */
  lemma TelephoneWithInstance(a: nat, b: nat)
    requires 2 <= a <= 3 && 4 <= b <= 5
    ensures Instance(TelephoneWith(a, b), TelephonePattern)
  {
    var p, q := TelephonePattern, TelephoneWith(a, b);
    forall j | 0 <= j < |p|
      ensures q[j].cls == p[j].cls && p[j].min <= q[j].min == q[j].max <= p[j].max
    {
      if j == 0 { } else if j == 1 { } else if j == 2 { } else if j == 3 { }
      else if j == 4 { } else if j == 5 { } else { }
    }
  }

  /** The telephone pattern accepts exactly the strings with two or three
      area digits and four or five leading digits; hence 14 to 16 characters. */
  lemma TelephonePatternShape(s: string)
    ensures FullMatch(TelephonePattern, s) <==> TelephoneForm(s)
    ensures FullMatch(TelephonePattern, s) ==> 14 <= |s| <= 16
  {
    if FullMatch(TelephonePattern, s) {
      var q := MatchHasInstance(TelephonePattern, s);
      TelephoneInstance(q);
      TelephoneWithShape(q[1].min, q[4].min, s);
    }
    if TelephoneForm(s) {
      var a, b :| 2 <= a <= 3 && 4 <= b <= 5 && TelephoneShape(s, a, b);
      TelephoneWithShape(a, b, s);
      TelephoneWithInstance(a, b);
      InstanceMatch(TelephonePattern, TelephoneWith(a, b), s);
    }
  }

  lemma TelephoneExample()
    ensures FullMatch(TelephonePattern, "(99) 99999-9999")
  {
    var s := "(99) 99999-9999";
    assert TelephoneShape(s, 2, 5);
    TelephonePatternShape(s);
  }

  // ---------------------------------------------------------------------
  // Field validator chains
  // ---------------------------------------------------------------------

  /** The characters Python's `str.strip()` removes (`str.isspace`). */
  predicate IsWhitespace(c: char) {
    var n := c as int;
    || (9 <= n <= 13) || (0x1c <= n <= 0x20) || n == 0x85 || n == 0xa0 || n == 0x1680
    || (0x2000 <= n <= 0x200a) || n == 0x2028 || n == 0x2029 || n == 0x202f || n == 0x205f || n == 0x3000
  }

  /** Empty, or only whitespace: what `DataRequired` rejects. */
  predicate Blank(s: string) {
    forall i :: 0 <= i < |s| ==> IsWhitespace(s[i])
  }

  const RequiredMessage: string := "Este campo é obrigatório"
  const LoginRequiredMessage: string := "Preencha esse campo"
  const CnpjMessage: string := "Insira um CNPJ válido"
  const TelephoneMessage: string := "Formato de telefone inválido. Use (99) 99999-9999."

  /** `DataRequired` then `Regexp(pattern)`: the first failing validator's
      message. */
  function RequiredMatching(s: string, p: seq<Atom>, message: string): (v: Validation)
    ensures v.Valid? <==> !Blank(s) && AnchoredMatch(p, s)
    ensures Blank(s) ==> v == Invalid(RequiredMessage)
    ensures !Blank(s) && !AnchoredMatch(p, s) ==> v == Invalid(message)
  {
    if Blank(s) then Invalid(RequiredMessage)
    else if !AnchoredMatch(p, s) then Invalid(message)
    else Valid
  }

  /** `LoginForm.cpf`: `DataRequired("Preencha esse campo")`, then
      `validate_cpf`, which a blank value never reaches. */
  function LoginCpf(s: string): (v: Validation)
    ensures v.Valid? <==> ValidateCpf(s).Valid?
    ensures Blank(s) ==> v == Invalid(LoginRequiredMessage)
    ensures !Blank(s) ==> v == ValidateCpf(s)
  {
    if Blank(s) then
      assert |s| == 11 && AllDigits(s) ==> !IsWhitespace(s[0]);
      Invalid(LoginRequiredMessage)
    else ValidateCpf(s)
  }

  /** What the CNPJ pattern lets through: a CNPJ, or a CNPJ and a newline. */
  predicate CnpjAccepted(s: string)
    ensures CnpjAccepted(s) ==> (|s| == 18 || |s| == 19) && !Blank(s)
  {
    assert CnpjShape(s) ==> !IsWhitespace(s[0]);
    assert |s| == 19 && CnpjShape(s[..18]) ==> s[..18][0] == s[0];
    CnpjShape(s) || (|s| == 19 && s[18] == '\n' && CnpjShape(s[..18]))
  }

  lemma CnpjAnchored(s: string)
    ensures AnchoredMatch(CnpjPattern, s) <==> CnpjAccepted(s)
  {
    CnpjPatternShape(s);
    if 0 < |s| {
      var t := s[..|s| - 1];
      CnpjPatternShape(t);
      assert CnpjShape(t) ==> |s| == 19 && t == s[..18];
    }
  }

  /** `OrganForm.cnpj`: required, then the pattern. */
  function OrganCnpj(s: string): (v: Validation)
    ensures v.Valid? <==> CnpjAccepted(s)
    ensures Blank(s) ==> v == Invalid(RequiredMessage)
    ensures !Blank(s) && !CnpjAccepted(s) ==> v == Invalid(CnpjMessage)
  {
    CnpjAnchored(s);
    RequiredMatching(s, CnpjPattern, CnpjMessage)
  }

  /** `InstitutionForm.cnpj`: only the pattern. */
  function InstitutionCnpj(s: string): (v: Validation)
    ensures v.Valid? <==> CnpjAccepted(s)
    ensures v.Invalid? ==> v.message == CnpjMessage
  {
    CnpjAnchored(s);
    if !AnchoredMatch(CnpjPattern, s) then Invalid(CnpjMessage) else Valid
  }

  /** The telephone shapes: two or three area digits, four or five leading
      digits. */
  predicate TelephoneForm(s: string) {
    exists a, b :: 2 <= a <= 3 && 4 <= b <= 5 && TelephoneShape(s, a, b)
  }

  /** What the telephone pattern lets through: a telephone, or a telephone
      and a newline. */
  predicate TelephoneAccepted(s: string) {
    TelephoneForm(s) || (0 < |s| && s[|s| - 1] == '\n' && TelephoneForm(s[..|s| - 1]))
  }

  /** The telephone field of both forms: required, then the pattern. */
  function Telephone(s: string): (v: Validation)
    ensures v.Valid? <==> TelephoneAccepted(s)
    ensures Blank(s) ==> v == Invalid(RequiredMessage)
    ensures !Blank(s) && !TelephoneAccepted(s) ==> v == Invalid(TelephoneMessage)
  {
    TelephoneAnchored(s);
    BlankIsNotTelephone(s);
    RequiredMatching(s, TelephonePattern, TelephoneMessage)
  }

  /** The anchored telephone pattern accepts exactly the telephone shapes,
      with or without a final newline. */
  lemma TelephoneAnchored(s: string)
    ensures AnchoredMatch(TelephonePattern, s) <==> TelephoneAccepted(s)
  {
    TelephonePatternShape(s);
    if 0 < |s| {
      TelephonePatternShape(s[..|s| - 1]);
    }
  }

  /** An accepted telephone starts with a parenthesis, so it is never blank. */
  lemma BlankIsNotTelephone(s: string)
    ensures TelephoneAccepted(s) ==> !Blank(s)
  {
    if TelephoneForm(s) {
      var a, b :| 2 <= a <= 3 && 4 <= b <= 5 && TelephoneShape(s, a, b);
      assert !IsWhitespace(s[0]);
    } else if TelephoneAccepted(s) {
      var t := s[..|s| - 1];
      var a, b :| 2 <= a <= 3 && 4 <= b <= 5 && TelephoneShape(t, a, b);
      assert s[0] == t[0];
      assert !IsWhitespace(s[0]);
    }
  }



  /** A blank value is never let through by the CNPJ pattern. */
  lemma BlankIsNotCnpj(s: string)
    ensures Blank(s) ==> !CnpjAccepted(s)
  {
    if Blank(s) && |s| == 19 {
      assert s[..18][0] == s[0];
    }
  }

  /** The two CNPJ fields accept the same strings; they differ only in the
      message for a blank value. */
  lemma CnpjFieldsAgree(s: string)
    ensures OrganCnpj(s).Valid? <==> InstitutionCnpj(s).Valid?
    ensures !Blank(s) ==> OrganCnpj(s) == InstitutionCnpj(s)
    ensures Blank(s) ==> OrganCnpj(s) == Invalid(RequiredMessage) && InstitutionCnpj(s) == Invalid(CnpjMessage)
  {
    CnpjAnchored(s);
    BlankIsNotCnpj(s);
    if Blank(s) {
      assert OrganCnpj(s) == Invalid(RequiredMessage);
      assert InstitutionCnpj(s) == Invalid(CnpjMessage);
    } else if CnpjAccepted(s) {
      assert OrganCnpj(s) == Valid == InstitutionCnpj(s);
    } else {
      assert OrganCnpj(s) == Invalid(CnpjMessage) == InstitutionCnpj(s);
    }
  }

  /** The dots are unescaped: other characters where they go pass both CNPJ
      fields. */
  lemma CnpjUnescapedDots()
    ensures OrganCnpj("12x345y678/0001-95").Valid? && InstitutionCnpj("12x345y678/0001-95").Valid?
  {
    var s := "12x345y678/0001-95";
    assert CnpjShape(s);
    CnpjFieldsAgree(s);
  }

  /** Any CNPJ followed by a newline passes both CNPJ fields. */
  lemma CnpjTrailingNewline(s: string)
    requires CnpjShape(s)
    ensures OrganCnpj(s + "\n").Valid? && InstitutionCnpj(s + "\n").Valid?
  {
    var t := s + "\n";
    assert t[..18] == s;
    CnpjFieldsAgree(t);
  }

  /** An accepted telephone has 14 to 16 characters, and one more when a
      newline ends it. */
  lemma TelephoneLength(s: string)
    requires Telephone(s).Valid?
    ensures 14 <= |s| <= 17
    ensures |s| == 17 ==> s[16] == '\n'
  {
    if TelephoneForm(s) {
      var a, b :| 2 <= a <= 3 && 4 <= b <= 5 && TelephoneShape(s, a, b);
    } else {
      var t := s[..|s| - 1];
      var a, b :| 2 <= a <= 3 && 4 <= b <= 5 && TelephoneShape(t, a, b);
    }
  }

}
