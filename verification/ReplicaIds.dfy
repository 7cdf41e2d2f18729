/** The ids generated for replicas, `name_index`, and why no two of them collide. */
module ReplicaIds {

  function DigitChar(d: nat): char
    requires d < 10
  {
    '0' + d as char
  }

  /** `std::to_string` of an unsigned number. */
  function Decimal(n: nat): string {
    if n < 10 then [DigitChar(n)] else Decimal(n / 10) + [DigitChar(n % 10)]
  }

  function ReplicaId(name: string, idx: nat): string {
    name + "_" + Decimal(idx)
  }

  /** The number that a string of digits stands for. */
  function ValueOf(digits: string): int {
    if digits == [] then 0
    else 10 * ValueOf(digits[..|digits| - 1]) + (digits[|digits| - 1] as int - '0' as int)
  }

  /** Digits only, no leading zero, and the right number. */
  lemma {:induction false} DecimalIsNumber(n: nat)
    ensures ValueOf(Decimal(n)) == n
    ensures forall c <- Decimal(n) :: '0' <= c <= '9'
    ensures Decimal(n) != [] && (n > 0 ==> Decimal(n)[0] != '0')
  {
    var d := Decimal(n);
    if n >= 10 {
      DecimalIsNumber(n / 10);
      assert d[..|d| - 1] == Decimal(n / 10);
    } else {
      assert d[..0] == [] && ValueOf(d[..0]) == 0;
    }
  }

  lemma {:induction false} DecimalHasNoUnderscore(n: nat)
    ensures '_' !in Decimal(n) && |Decimal(n)| >= 1 && (n >= 10 ==> |Decimal(n)| >= 2)
  {
    if n >= 10 {
      DecimalHasNoUnderscore(n / 10);
    }
  }

  lemma {:induction false} DecimalInjective(m: nat, n: nat)
    requires Decimal(m) == Decimal(n)
    ensures m == n
  {
    var a, b := Decimal(m), Decimal(n);
    DecimalHasNoUnderscore(m);
    DecimalHasNoUnderscore(n);
    assert a[|a| - 1] == DigitChar(m % 10) && b[|b| - 1] == DigitChar(n % 10);
    assert m % 10 == n % 10;
    if m >= 10 {
      assert a[..|a| - 1] == Decimal(m / 10) && b[..|b| - 1] == Decimal(n / 10);
      DecimalInjective(m / 10, n / 10);
    }
  }

  lemma LastUnderscore(a: string, x: string)
    requires '_' !in x
    ensures var s := a + "_" + x; s[|a|] == '_' && forall k :: |a| < k < |s| ==> s[k] != '_'
  {
    var s := a + "_" + x;
    forall k | |a| < k < |s| ensures s[k] != '_' {
      assert s[k] == x[k - |a| - 1] && x[k - |a| - 1] in x;
    }
  }

  /** The last underscore tells name and index apart. */
  lemma SplitAtUnderscore(a: string, b: string, x: string, y: string)
    requires a + "_" + x == b + "_" + y && '_' !in x && '_' !in y
    ensures a == b && x == y
  {
    var s := a + "_" + x;
    LastUnderscore(a, x);
    LastUnderscore(b, y);
    assert |a| == |b|;
    assert a == s[..|a|] && b == s[..|b|];
    assert x == s[|a| + 1..] && y == s[|b| + 1..];
  }

  lemma ReplicaIdInjective(a: string, i: nat, b: string, j: nat)
    requires ReplicaId(a, i) == ReplicaId(b, j)
    ensures a == b && i == j
  {
    DecimalHasNoUnderscore(i);
    DecimalHasNoUnderscore(j);
    SplitAtUnderscore(a, b, Decimal(i), Decimal(j));
    DecimalInjective(i, j);
  }
}
