/** Versions of republished configurations ("<accepted>.retry<n>") and the backoff of the
    retry ladder. */
module RetryVersion {
  import opened Strings

  const SUFFIX := ".retry"
  const NANOSECONDS := 1_000_000_000
  const MAX_DELAY := 30 * NANOSECONDS

  function RetryBase(version: string): string {
    var i := IndexOf(version, SUFFIX);
    if i > 0 then version[..i] else version
  }

  function RetryAttempt(version: string): nat {
    var i := IndexOf(version, SUFFIX);
    if i <= 0 then 0
    else match Atoi(version[i + |SUFFIX|..])
      case None => 0
      case Some(n) => if n < 0 then 0 else n
  }

  /** The version a retry is published under. */
  function Derived(version: string, attempt: int): string {
    version + SUFFIX + Itoa(attempt)
  }

  /** What every accepted version looks like: "sha256:<hex>" is never empty and never
      contains the suffix. */
  predicate Plain(version: string) {
    version != "" && !Contains(version, SUFFIX)
  }

  lemma PlainDecodes(version: string)
    requires Plain(version)
    ensures RetryBase(version) == version && RetryAttempt(version) == 0
  {
  }

  /** The suffix has no border, so appending it cannot create an earlier occurrence. */
  lemma FirstSuffix(version: string, rest: string)
    requires !Contains(version, SUFFIX)
    ensures IndexOf(version + SUFFIX + rest, SUFFIX) == |version|
  {
    var s := version + SUFFIX + rest;
    assert s[|version|..|version| + |SUFFIX|] == SUFFIX;
    assert OccursAt(s, SUFFIX, |version|);
    forall k | 0 <= k < |version| ensures !OccursAt(s, SUFFIX, k) {
      if k + |SUFFIX| <= |version| {
        assert s[k..k + |SUFFIX|] == version[k..k + |SUFFIX|];
        assert !OccursAt(version, SUFFIX, k);
      } else {
        assert s[|version|] == '.' != SUFFIX[|version| - k];
        assert s[k..k + |SUFFIX|][|version| - k] == s[|version|];
      }
    }
  }

  /** A derived version decodes to the version and attempt it was made from exactly when the
      version is non-empty and free of the suffix. */
  lemma DerivedRoundTripIff(version: string, attempt: nat)
    requires 0 < attempt <= MAX_INT
    ensures Plain(version) <==>
      RetryBase(Derived(version, attempt)) == version && RetryAttempt(Derived(version, attempt)) == attempt
  {
    var s := Derived(version, attempt);
    if Plain(version) {
      FirstSuffix(version, Itoa(attempt));
      assert s[..|version|] == version;
      assert s[|version| + |SUFFIX|..] == Itoa(attempt);
      AtoiItoa(attempt);
    } else if version != "" {
      var k :| 0 <= k <= |version| && OccursAt(version, SUFFIX, k);
      assert s[k..k + |SUFFIX|] == version[k..k + |SUFFIX|];
      assert OccursAt(s, SUFFIX, k);
    } else {
      assert OccursAt(s, SUFFIX, 0);
    }
  }

  lemma DerivedDecodes(version: string, attempt: nat)
    requires Plain(version) && 0 < attempt <= MAX_INT
    ensures RetryBase(Derived(version, attempt)) == version
    ensures RetryAttempt(Derived(version, attempt)) == attempt
  {
    DerivedRoundTripIff(version, attempt);
  }

  /** A derived version keeps its base for every attempt, also one too large to decode. */
  lemma DerivedBase(version: string, attempt: int)
    requires Plain(version)
    ensures RetryBase(Derived(version, attempt)) == version
  {
    FirstSuffix(version, Itoa(attempt));
    assert Derived(version, attempt)[..|version|] == version;
  }

  /** A version whose suffix is not followed by a number is no retry: attempt 0, whatever follows. */
  lemma GarbageIsNoRetry(version: string, rest: string)
    requires Plain(version) && (rest == "" || exists i | 0 <= i < |rest| :: !IsDigit(rest[i]) && rest[i] != '+')
    ensures RetryAttempt(version + SUFFIX + rest) == 0 && RetryBase(version + SUFFIX + rest) == version
  {
    FirstSuffix(version, rest);
    var v := version + SUFFIX + rest;
    assert v[|version| + |SUFFIX|..] == rest && v[..|version|] == version;
  }

  // ----- Backoff -----

  function Pow2(n: nat): (r: nat)
    ensures r > 0
  {
    if n == 0 then 1 else 2 * Pow2(n - 1)
  }

  function Min(a: int, b: int): int { if a <= b then a else b }

  /** The delay of a rung, without the loop. */
  function Rung(base: int, attempt: int): int {
    if base <= 0 || attempt <= 1 then base else Min(base * Pow2(attempt - 1), MAX_DELAY)
  }

  lemma {:induction false} DoublingGrows(base: int, m: nat, n: nat)
    requires base > 0 && m <= n
    ensures base * Pow2(m) <= base * Pow2(n)
  {
    if m < n {
      DoublingGrows(base, m, n - 1);
      assert base * Pow2(n) == 2 * (base * Pow2(n - 1));
    }
  }

  const MIN_INT := -MAX_INT - 1

  /** The int64 that doubling an int64 gives. */
  function Doubled(x: int): int
    requires MIN_INT <= x <= MAX_INT
  {
    if 2 * x > MAX_INT then 2 * x - 2 * (MAX_INT + 1)
    else if 2 * x < MIN_INT then 2 * x + 2 * (MAX_INT + 1)
    else 2 * x
  }

  /** n rounds of doubling with the early return. */
  function Doublings(delay: int, n: nat): int
    requires MIN_INT <= delay <= MAX_INT
    decreases n
  {
    if n == 0 then delay
    else if Doubled(delay) >= MAX_DELAY then MAX_DELAY
    else Doublings(Doubled(delay), n - 1)
  }

  /** nackDelay with its wrap-around. */
  function Backoff(base: int, attempt: int): int
    requires MIN_INT <= base <= MAX_INT
  {
    if base <= 0 || attempt <= 1 then base else Doublings(base, attempt - 1)
  }

  lemma {:induction false} DoublingsReach(base: int, delay: int, i: nat, n: nat)
    requires 0 < base <= MAX_INT / 2 && delay == base * Pow2(i) && i + n > 0
    requires i == 0 || delay < MAX_DELAY
    ensures delay <= MAX_INT && Doublings(delay, n) == Min(base * Pow2(i + n), MAX_DELAY)
    decreases n
  {
    assert i == 0 ==> delay == base;
    if n > 0 {
      assert base * Pow2(i + 1) == 2 * (base * Pow2(i));
      if 2 * delay >= MAX_DELAY {
        DoublingGrows(base, i + 1, i + n);
      } else {
        DoublingsReach(base, 2 * delay, i + 1, n - 1);
      }
    }
  }

  /** The delay is the ladder's, for every attempt, exactly when doubling the base once does not
      leave int64. */
  lemma BackoffIsRungIff(base: int)
    requires MIN_INT <= base <= MAX_INT
    ensures base <= MAX_INT / 2 <==> forall attempt :: Backoff(base, attempt) == Rung(base, attempt)
  {
    if base <= MAX_INT / 2 {
      forall attempt ensures Backoff(base, attempt) == Rung(base, attempt) {
        if base > 0 && attempt > 1 { DoublingsReach(base, base, 0, attempt - 1); }
      }
    } else {
      assert Pow2(1) == 2;
      assert Doubled(base) < 0 && Doublings(Doubled(base), 0) == Doubled(base);
      assert Backoff(base, 2) == Doubled(base) != Rung(base, 2);
    }
  }

  /** nackDelay: doubling with an early return. */
  method NackDelay(base: int, attempt: int) returns (delay: int)
    requires MIN_INT <= base <= MAX_INT
    ensures delay == Backoff(base, attempt)
    ensures base <= MAX_INT / 2 ==> delay == Rung(base, attempt)
  {
    BackoffIsRungIff(base);
    if base <= 0 || attempt <= 1 {
      return base;
    }
    delay := base;
    for i := 0 to attempt - 1
      invariant MIN_INT <= delay <= MAX_INT
      invariant Doublings(delay, attempt - 1 - i) == Doublings(base, attempt - 1)
    {
      delay := Doubled(delay);
      if delay >= MAX_DELAY {
        return MAX_DELAY;
      }
    }
  }

  /** Later rungs never wait less, for every attempt, exactly when the base does not exceed the
      cap: with a larger base the second rung is shorter than the first. */
  lemma RungMonotoneIff(base: int)
    ensures base <= 30_000_000_000 <==> forall m, n | m <= n :: Rung(base, m) <= Rung(base, n)
  {
    if base <= MAX_DELAY {
      forall m, n | m <= n ensures Rung(base, m) <= Rung(base, n) {
        if base > 0 && n > 1 {
          DoublingGrows(base, if m <= 1 then 0 else m - 1, n - 1);
        }
      }
    } else {
      DoublingGrows(base, 0, 1);
      assert Rung(base, 2) == MAX_DELAY < Rung(base, 1);
    }
  }
}
