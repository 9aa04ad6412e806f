/** Anchored regular expressions made of character-class runs, the shape of
    the CNPJ and telephone patterns of coruja/forms.py: a sequence of atoms
    `class{min,max}` between `^` and Python's `$`, which also matches just
    before a newline that ends the string. */
module Patterns {

  /** `\d` (an ASCII digit), `.` (any character but a newline), or a literal. */
  datatype CharClass = Digit | AnyButNewline | Exactly(c: char)

  /** `class{min,max}`; a bare atom is `{1,1}`. */
  datatype Atom = Atom(cls: CharClass, min: nat, max: nat)

  predicate IsDigit(c: char) {
    '0' <= c <= '9'
  }

  predicate InClass(c: char, cls: CharClass) {
    match cls
    case Digit => IsDigit(c)
    case AnyButNewline => c != '\n'
    case Exactly(d) => c == d
  }

  predicate AllIn(s: string, cls: CharClass) {
    forall i :: 0 <= i < |s| ==> InClass(s[i], cls)
  }

  /** The fewest characters a match of `p` can take. */
  function MinLength(p: seq<Atom>): nat {
    if |p| == 0 then 0 else p[0].min + MinLength(p[1..])
  }

  /** The most characters a match of `p` can take. */
  function MaxLength(p: seq<Atom>): nat {
    if |p| == 0 then 0 else p[0].max + MaxLength(p[1..])
  }

  /** The whole of `s` matches `p`: the first atom takes some permitted
      number of characters of its class and the rest matches the remainder
      (the backtracking semantics of Python's `re.match` with `^...$`, the
      end taken strictly). */
  predicate FullMatch(p: seq<Atom>, s: string)
    decreases |p|
  {
    if |p| == 0 then |s| == 0
    else exists k :: p[0].min <= k <= p[0].max && k <= |s| && AllIn(s[..k], p[0].cls) && FullMatch(p[1..], s[k..])
  }

  /** `re.match` of `^p$`: without the multi-line flag, `$` matches at the end
      of the string and also just before a newline that ends it. */
  predicate AnchoredMatch(p: seq<Atom>, s: string) {
    FullMatch(p, s) || (0 < |s| && s[|s| - 1] == '\n' && FullMatch(p, s[..|s| - 1]))
  }

  /** A match is never shorter or longer than the atoms' counts allow. */
  lemma {:induction false} FullMatchLength(p: seq<Atom>, s: string)
    requires FullMatch(p, s)
    ensures MinLength(p) <= |s| <= MaxLength(p)
  {
    if |p| > 0 {
      var k :| p[0].min <= k <= p[0].max && k <= |s| && AllIn(s[..k], p[0].cls) && FullMatch(p[1..], s[k..]);
      FullMatchLength(p[1..], s[k..]);
    }
  }

  /** An anchored match may be one character longer than the atoms allow,
      and only when that character is a final newline. */
  lemma AnchoredMatchLength(p: seq<Atom>, s: string)
    requires AnchoredMatch(p, s)
    ensures MinLength(p) <= |s| <= MaxLength(p) + 1
    ensures |s| > MaxLength(p) ==> s[|s| - 1] == '\n'
  {
    if FullMatch(p, s) {
      FullMatchLength(p, s);
    } else {
      FullMatchLength(p, s[..|s| - 1]);
    }
  }

  /** An atom with a fixed count consumes exactly that many characters. */
  lemma FixedAtom(p: seq<Atom>, s: string)
    requires |p| > 0 && p[0].min == p[0].max
    ensures FullMatch(p, s) <==> p[0].min <= |s| && AllIn(s[..p[0].min], p[0].cls) && FullMatch(p[1..], s[p[0].min..])
  {
    var n := p[0].min;
    if FullMatch(p, s) {
      var k :| n <= k <= p[0].max && k <= |s| && AllIn(s[..k], p[0].cls) && FullMatch(p[1..], s[k..]);
      assert k == n;
    }
  }

  /** An atom `{n,n+1}` consumes `n` or `n + 1` characters. */
  lemma TwoChoiceAtom(p: seq<Atom>, s: string)
    requires |p| > 0 && p[0].max == p[0].min + 1
    ensures var n := p[0].min;
      FullMatch(p, s) <==>
        || (n <= |s| && AllIn(s[..n], p[0].cls) && FullMatch(p[1..], s[n..]))
        || (n + 1 <= |s| && AllIn(s[..n + 1], p[0].cls) && FullMatch(p[1..], s[n + 1..]))
  {
    var n := p[0].min;
    var c := p[0].cls;
    if FullMatch(p, s) {
      var k :| n <= k <= n + 1 && k <= |s| && AllIn(s[..k], c) && FullMatch(p[1..], s[k..]);
      assert k == n || k == n + 1;
    }
    if n <= |s| && AllIn(s[..n], c) && FullMatch(p[1..], s[n..]) {
      assert p[0].min <= n <= p[0].max;
    }
    if n + 1 <= |s| && AllIn(s[..n + 1], c) && FullMatch(p[1..], s[n + 1..]) {
      assert p[0].min <= n + 1 <= p[0].max;
    }
  }

  /** Every atom of `p` has a fixed count. */
  predicate Fixed(p: seq<Atom>) {
    forall j :: 0 <= j < |p| ==> p[j].min == p[j].max
  }

  /** Where the run of atom `j` starts in a match of a fixed pattern: the
      counts of the atoms before it. */
  function Offset(p: seq<Atom>, j: nat): nat
    requires j <= |p|
  {
    if j == 0 then 0 else Offset(p, j - 1) + p[j - 1].min
  }

  /** The length every match of a fixed pattern has. */
  function Width(p: seq<Atom>): nat {
    Offset(p, |p|)
  }

  /** Dropping the first atom shifts every offset by its count. */
  lemma {:induction false} OffsetShift(p: seq<Atom>, j: nat)
    requires 0 < |p| && j < |p|
    ensures Offset(p, j + 1) == p[0].min + Offset(p[1..], j)
  {
    if j > 0 {
      OffsetShift(p, j - 1);
      assert p[1..][j - 1] == p[j];
    }
  }

  /** The characters `s[off..off + a.min]` exist and belong to `a`'s class. */
  predicate RunAt(s: string, off: nat, a: Atom) {
    off + a.min <= |s| && forall i :: off <= i < off + a.min ==> InClass(s[i], a.cls)
  }

  /** Atom `j + 1` of `p` sits in `s` where atom `j` of `p[1..]` sits in the
      rest of `s` after the first run. */
  lemma RunShift(p: seq<Atom>, s: string, j: nat)
    requires 0 < |p| && j + 1 < |p| && p[0].min <= |s|
    ensures RunAt(s[p[0].min..], Offset(p[1..], j), p[1..][j]) <==> RunAt(s, Offset(p, j + 1), p[j + 1])
  {
    var n := p[0].min;
    var t := s[n..];
    assert p[1..][j] == p[j + 1];
    OffsetShift(p, j);
    var a := p[j + 1];
    var off := Offset(p[1..], j);
    if RunAt(t, off, a) {
      forall i | n + off <= i < n + off + a.min ensures InClass(s[i], a.cls) {
        assert s[i] == t[i - n];
      }
    }
    if RunAt(s, n + off, a) {
      forall i | off <= i < off + a.min ensures InClass(t[i], a.cls) {
        assert t[i] == s[n + i];
      }
    }
  }

  /** A fixed pattern matches exactly the strings of its width whose every
      run sits at its offset and belongs to its class. */
  lemma {:induction false} FixedMatchAt(p: seq<Atom>, s: string)
    requires Fixed(p)
    ensures FullMatch(p, s) <==> |s| == Width(p) && forall j :: 0 <= j < |p| ==> RunAt(s, Offset(p, j), p[j])
  {
    if |p| > 0 {
      var n := p[0].min;
      var q := p[1..];
      assert Fixed(q) by {
        forall j | 0 <= j < |q| ensures q[j].min == q[j].max {
          assert q[j] == p[j + 1];
        }
      }
      FixedAtom(p, s);
      OffsetShift(p, |q|);
      if n <= |s| {
        var t := s[n..];
        FixedMatchAt(q, t);
        assert AllIn(s[..n], p[0].cls) <==> RunAt(s, 0, p[0]) by {
          assert forall i :: 0 <= i < n ==> s[..n][i] == s[i];
        }
        forall j | 0 <= j < |q|
          ensures RunAt(t, Offset(q, j), q[j]) <==> RunAt(s, Offset(p, j + 1), p[j + 1])
        {
          RunShift(p, s, j);
        }
        if |s| == Width(p) && (forall j :: 0 <= j < |p| ==> RunAt(s, Offset(p, j), p[j])) {
          forall j | 0 <= j < |q| ensures RunAt(t, Offset(q, j), q[j]) {
            assert RunAt(s, Offset(p, j + 1), p[j + 1]);
          }
        }
        if FullMatch(p, s) {
          forall j | 0 <= j < |p| ensures RunAt(s, Offset(p, j), p[j]) {
            if j > 0 {
              assert RunAt(t, Offset(q, j - 1), q[j - 1]);
            }
          }
        }
      }
    }
  }

  /** `q` fixes, atom by atom, one permitted count of `p`. */
  predicate Instance(q: seq<Atom>, p: seq<Atom>) {
    && |q| == |p|
    && forall j :: 0 <= j < |p| ==> q[j].cls == p[j].cls && p[j].min <= q[j].min == q[j].max <= p[j].max
  }

  /** Whatever a fixed instance matches, the pattern matches. */
  lemma {:induction false} InstanceMatch(p: seq<Atom>, q: seq<Atom>, s: string)
    requires Instance(q, p) && FullMatch(q, s)
    ensures FullMatch(p, s)
  {
    if |p| > 0 {
      var k := q[0].min;
      assert Instance(q[1..], p[1..]) by {
        forall j | 0 <= j < |p| - 1
          ensures q[1..][j].cls == p[1..][j].cls && p[1..][j].min <= q[1..][j].min == q[1..][j].max <= p[1..][j].max
        {
          assert q[1..][j] == q[j + 1] && p[1..][j] == p[j + 1];
        }
      }
      FixedAtom(q, s);
      InstanceMatch(p[1..], q[1..], s[k..]);
    }
  }

  /** Whatever the pattern matches, some fixed instance of it matches. */
  lemma {:induction false} MatchHasInstance(p: seq<Atom>, s: string) returns (q: seq<Atom>)
    requires FullMatch(p, s)
    ensures Instance(q, p) && FullMatch(q, s)
  {
    if |p| == 0 {
      q := [];
    } else {
      var k :| p[0].min <= k <= p[0].max && k <= |s| && AllIn(s[..k], p[0].cls) && FullMatch(p[1..], s[k..]);
      var rest := MatchHasInstance(p[1..], s[k..]);
      q := [Atom(p[0].cls, k, k)] + rest;
      assert q[1..] == rest;
      forall j | 0 <= j < |p|
        ensures q[j].cls == p[j].cls && p[j].min <= q[j].min == q[j].max <= p[j].max
      {
        if j > 0 {
          assert q[j] == rest[j - 1] && p[j] == p[1..][j - 1];
        }
      }
      FixedAtom(q, s);
    }
  }
}
