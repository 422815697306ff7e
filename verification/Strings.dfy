/** String operations of the Go standard library that the control plane relies on:
    substring search, decimal formatting and parsing. */
module Strings {

  datatype Option<+T> = None | Some(value: T)

  // ----- Substring search (strings.Index, strings.Contains) -----

  predicate OccursAt(s: string, sub: string, i: int) {
    0 <= i && i + |sub| <= |s| && s[i..i + |sub|] == sub
  }

  predicate Contains(s: string, sub: string) {
    exists i | 0 <= i <= |s| :: OccursAt(s, sub, i)
  }

  /** First occurrence of sub in s at or after position i, or -1. */
  function IndexFrom(s: string, sub: string, i: nat): (r: int)
    requires i <= |s|
    ensures r == -1 || (i <= r && OccursAt(s, sub, r))
    ensures r == -1 ==> forall k | i <= k <= |s| :: !OccursAt(s, sub, k)
    ensures r >= 0 ==> forall k | i <= k < r :: !OccursAt(s, sub, k)
    decreases |s| - i
  {
    if OccursAt(s, sub, i) then i
    else if i == |s| then -1
    else IndexFrom(s, sub, i + 1)
  }

  function IndexOf(s: string, sub: string): (r: int)
    ensures r == -1 <==> !Contains(s, sub)
    ensures r >= 0 ==> OccursAt(s, sub, r) && forall k | 0 <= k < r :: !OccursAt(s, sub, k)
  {
    IndexFrom(s, sub, 0)
  }

  // ----- Decimal numbers (fmt %d, strconv.Atoi) -----

  const MAX_INT := 0x7fff_ffff_ffff_ffff
  const DIGITS := "0123456789"

  predicate IsDigit(c: char) { '0' <= c <= '9' }

  predicate AllDigits(s: string) { forall i | 0 <= i < |s| :: IsDigit(s[i]) }

  function ItoaNat(n: nat): (s: string)
    ensures |s| > 0 && AllDigits(s)
  {
    if n < 10 then [DIGITS[n]] else ItoaNat(n / 10) + [DIGITS[n % 10]]
  }

  function Itoa(n: int): (s: string)
    ensures |s| > 0
  {
    if n < 0 then "-" + ItoaNat(-n) else ItoaNat(n)
  }

  function DigitsValue(s: string): nat
    requires AllDigits(s)
  {
    if s == "" then 0 else DigitsValue(s[..|s| - 1]) * 10 + (s[|s| - 1] as int - '0' as int)
  }

  /** strconv.Atoi: optional sign, at least one digit, 64-bit range. */
  function Atoi(s: string): Option<int> {
    var negative := s != "" && s[0] == '-';
    var digits := if s != "" && (s[0] == '-' || s[0] == '+') then s[1..] else s;
    if digits == "" || !AllDigits(digits) then None
    else
      var v: int := DigitsValue(digits);
      if negative then (if v <= MAX_INT + 1 then Some(-v) else None)
      else if v <= MAX_INT then Some(v) else None
  }

  lemma {:induction false} ItoaNatValue(n: nat)
    ensures DigitsValue(ItoaNat(n)) == n
  {
    var s := ItoaNat(n);
    if n >= 10 {
      ItoaNatValue(n / 10);
      assert s[..|s| - 1] == ItoaNat(n / 10);
    } else {
      assert s[..|s| - 1] == "";
    }
  }

  lemma AtoiItoa(n: nat)
    requires n <= MAX_INT
    ensures Atoi(Itoa(n)) == Some(n)
  {
    ItoaNatValue(n);
    assert IsDigit(ItoaNat(n)[0]);
  }

  lemma ItoaInjective(m: nat, n: nat)
    requires ItoaNat(m) == ItoaNat(n)
    ensures m == n
  {
    ItoaNatValue(m);
    ItoaNatValue(n);
  }

  // ----- Separators -----

  /** A separator-free head makes "head sep tail" split in one way only. */
  lemma CutFirst(a: string, b: string, x: string, y: string, sep: char)
    requires sep !in a && sep !in b
    requires a + [sep] + x == b + [sep] + y
    ensures a == b && x == y
  {
    var s := a + [sep] + x;
    assert s[|a|] == sep && s[|b|] == sep;
    assert s[..|a|] == a && s[..|b|] == b;
    assert forall i | 0 <= i < |a| :: s[i] == a[i];
    assert forall i | 0 <= i < |b| :: s[i] == b[i];
    assert s[|a| + 1..] == x && s[|b| + 1..] == y;
  }

  /** A separator-free tail makes "head sep tail" split in one way only. */
  lemma CutLast(a: string, b: string, x: string, y: string, sep: char)
    requires sep !in x && sep !in y
    requires a + [sep] + x == b + [sep] + y
    ensures a == b && x == y
  {
    var s := a + [sep] + x;
    assert s[|a|] == sep && s[|b|] == sep;
    assert forall i | |a| < i < |s| :: s[i] == x[i - |a| - 1];
    assert forall i | |b| < i < |s| :: s[i] == y[i - |b| - 1];
    assert s[..|a|] == a && s[..|b|] == b;
    assert s[|a| + 1..] == x && s[|b| + 1..] == y;
  }
}
