/** The ids that replanning makes up: `f"{step_id}-replan-v{version}"`. */
module StepNames {

  function Digit(d: int): char
    requires 0 <= d < 10
  {
    ('0' as int + d) as char
  }

  function Digits(n: nat): (s: string)
    ensures s != [] && forall i :: 0 <= i < |s| ==> '0' <= s[i] <= '9'
  {
    if n < 10 then [Digit(n)] else Digits(n / 10) + [Digit(n % 10)]
  }

  /** Python's decimal rendering of an integer. */
  function Decimal(n: int): string {
    if n < 0 then "-" + Digits(-n) else Digits(n)
  }

  /** Reads a digit string back. */
  function Value(s: string): int {
    if s == [] then 0 else Value(s[..|s| - 1]) * 10 + (s[|s| - 1] as int - '0' as int)
  }

  lemma {:induction false} DigitsRoundTrip(n: nat)
    ensures Value(Digits(n)) == n
  {
    var s := Digits(n);
    if n < 10 {
      assert s[..|s| - 1] == [];
    } else {
      DigitsRoundTrip(n / 10);
      assert s[..|s| - 1] == Digits(n / 10);
    }
  }

  lemma DecimalSign(n: int)
    ensures Decimal(n)[0] == '-' <==> n < 0
    ensures n < 0 ==> Decimal(n)[1..] == Digits(-n)
    ensures n >= 0 ==> Decimal(n) == Digits(n)
  {
  }

  lemma DecimalInjective(m: int, n: int)
    requires Decimal(m) == Decimal(n)
    ensures m == n
  {
    DecimalSign(m);
    DecimalSign(n);
    hide *;
    if m < 0 {
      DigitsRoundTrip(-m);
      DigitsRoundTrip(-n);
    } else {
      DigitsRoundTrip(m);
      DigitsRoundTrip(n);
    }
  }

  const MARK := "-replan-v"

  function Renamed(id: string, version: int): string {
    id + MARK + Decimal(version)
  }

  /** A renamed id, spelled out. */
  lemma RenamedSpelled()
    ensures Renamed("step-2", 12) == "step-2-replan-v12"
  {
    assert Digits(12) == Digits(1) + ['2'];
    assert Digits(1) == ['1'];
  }

  lemma DecimalHasNoV(n: int)
    ensures 'v' !in Decimal(n)
  {
  }

  function LastV(s: string): int {
    if s == [] || s[|s| - 1] == 'v' then |s| - 1 else LastV(s[..|s| - 1])
  }

  lemma {:induction false} LastVIs(a: string, x: string)
    requires 'v' !in x
    ensures LastV(a + ['v'] + x) == |a|
  {
    var s := a + ['v'] + x;
    if x != [] {
      assert s[..|s| - 1] == a + ['v'] + x[..|x| - 1];
      LastVIs(a, x[..|x| - 1]);
    }
  }

  /** The suffix can be read off: a renamed id determines the original id and the version. */
  lemma RenamedInjective(a: string, m: int, b: string, n: int)
    requires Renamed(a, m) == Renamed(b, n)
    ensures a == b && m == n
  {
    var x, y := Decimal(m), Decimal(n);
    DecimalHasNoV(m);
    DecimalHasNoV(n);
    assert MARK == MARK[..8] + ['v'];
    assert Renamed(a, m) == (a + MARK[..8]) + ['v'] + x;
    assert Renamed(b, n) == (b + MARK[..8]) + ['v'] + y;
    LastVIs(a + MARK[..8], x);
    LastVIs(b + MARK[..8], y);
    assert Renamed(a, m)[|a + MARK|..] == x && Renamed(b, n)[|b + MARK|..] == y;
    DecimalInjective(m, n);
    assert Renamed(a, m)[..|a|] == a && Renamed(b, n)[..|b|] == b;
  }

  /** No replan after `version` has produced this id. */
  ghost predicate Settled(id: string, version: int) {
    forall base, later :: later > version ==> id != Renamed(base, later)
  }

  /** Ids without the letter `v`, such as the planner's own `step-1`, are always settled. */
  lemma PlainIdIsSettled(id: string, version: int)
    requires 'v' !in id
    ensures Settled(id, version)
  {
    forall base, later | later > version ensures id != Renamed(base, later) {
      assert Renamed(base, later)[|base| + 8] == MARK[8];
    }
  }

  lemma SettledLater(id: string, version: int, later: int)
    requires Settled(id, version) && version <= later
    ensures Settled(id, later)
  {
  }

  lemma RenamedIsSettled(id: string, version: int)
    ensures Settled(Renamed(id, version), version)
  {
    forall base, later | later > version ensures Renamed(id, version) != Renamed(base, later) {
      if Renamed(id, version) == Renamed(base, later) {
        RenamedInjective(id, version, base, later);
      }
    }
  }
}
