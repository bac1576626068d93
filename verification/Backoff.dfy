/** The pause before a retry, in 64-bit arithmetic (downloader/downloader.go). */
module Backoff {
  import opened Prelude
  import opened Chunking

  function Pow2(k: nat): (r: nat)
    ensures r >= 1
  {
    if k == 0 then 1 else 2 * Pow2(k - 1)
  }

  /** time.Duration(1 << k). */
  function Shifted(k: nat): int
  {
    if k < 63 then Pow2(k) else if k == 63 then -TWO_63 else 0
  }

  /** cfg.RetryBaseDelay * time.Duration(1 << uint(attempt-1)), as the machine computes it. */
  function RawDelay(base: int, attempt: nat): int
    requires attempt >= 1
  {
    Wrap(base * Shifted(attempt - 1))
  }

  /** Go's division by four, which truncates toward zero. */
  function Quarter(d: int): int { if d >= 0 then d / 4 else -(-d / 4) }

  /** The pause of one attempt; None stands for the panic of rand.Int63n on a bound below 1. */
  method Pause(base: int, attempt: nat) returns (delay: Option<int>, jitter: int)
    requires attempt >= 1 && -TWO_63 <= base <= MAX_INT64
    ensures delay.None? <==> RawDelay(base, attempt) < 4
    ensures delay.Some? ==>
        0 <= jitter < RawDelay(base, attempt) / 4 && delay.value == Wrap(RawDelay(base, attempt) + jitter)
  {
    var d := RawDelay(base, attempt);
    if Quarter(d) <= 0 {
      return None, 0;
    }
    jitter :| 0 <= jitter < Quarter(d);
    return Some(Wrap(d + jitter)), jitter;
  }

  /** The pauses stay in range: 5/4 * base * 2^(retries - 1) fits, and base is at least 4 ns. */
  predicate Sane(base: int, retries: nat)
  {
    base >= 4 && (retries >= 1 ==> 5 * (base * Pow2(retries - 1)) <= 4 * MAX_INT64)
  }

  lemma {:induction false} Pow2Monotone(j: nat, k: nat)
    requires j <= k
    ensures Pow2(j) <= Pow2(k)
    decreases k - j
  {
    if j < k { Pow2Monotone(j, k - 1); }
  }

  lemma {:induction false} Pow2Large(k: nat)
    requires k >= 63
    ensures Pow2(k) >= TWO_63
  {
    if k == 63 {
      Pow2Word();
    } else {
      Pow2Large(k - 1);
    }
  }

  lemma {:induction false} Pow2Add(j: nat, k: nat)
    ensures Pow2(j + k) == Pow2(j) * Pow2(k)
  {
    if k > 0 {
      Pow2Add(j, k - 1);
      assert Pow2(j) * (2 * Pow2(k - 1)) == 2 * (Pow2(j) * Pow2(k - 1));
    }
  }

  lemma Pow2Word()
    ensures Pow2(63) == TWO_63
  {
    Pow2Small();
    Pow2Add(21, 21);
    Pow2Add(42, 21);
  }

  lemma TimesLarger(base: int, x: int, y: int)
    requires base >= 0 && x <= y
    ensures base * x <= base * y
  {
  }

  /** With base positive, no attempt overflows exactly when the last one does not. */
  lemma OverflowExact(base: int, retries: nat)
    requires 1 <= base <= MAX_INT64 && retries >= 1
    ensures (forall k :: 1 <= k <= retries ==> RawDelay(base, k) == base * Pow2(k - 1))
            <==> base * Pow2(retries - 1) <= MAX_INT64
  {
    if base * Pow2(retries - 1) <= MAX_INT64 {
      forall k | 1 <= k <= retries
        ensures RawDelay(base, k) == base * Pow2(k - 1)
      {
        NoOverflow(base, retries, k);
      }
    } else {
      assert RawDelay(base, retries) <= MAX_INT64;
    }
  }

  lemma NoOverflow(base: int, retries: nat, k: nat)
    requires 1 <= base && 1 <= k <= retries && base * Pow2(retries - 1) <= MAX_INT64
    ensures RawDelay(base, k) == base * Pow2(k - 1) <= base * Pow2(retries - 1)
  {
    Pow2Monotone(k - 1, retries - 1);
    TimesLarger(base, Pow2(k - 1), Pow2(retries - 1));
    if retries - 1 >= 63 {
      Pow2Large(retries - 1);
      TimesBase(base, Pow2(retries - 1));
      assert false;
    }
  }

  lemma TimesBase(base: int, x: int)
    requires base >= 1 && x >= 0
    ensures base * x >= x
  {
  }

  /** In range, every attempt pauses, for at least base * 2^(k-1) and less than 5/4 of it. */
  lemma PauseRange(base: int, retries: nat, k: nat, jitter: int)
    requires Sane(base, retries) && 1 <= k <= retries
    ensures var d := RawDelay(base, k);
            && d == base * Pow2(k - 1) && d >= 4 && Quarter(d) == d / 4 >= 1
            && (0 <= jitter < Quarter(d) ==>
                  Wrap(d + jitter) == d + jitter && d <= d + jitter && 4 * (d + jitter) < 5 * (base * Pow2(k - 1)))
  {
    NoOverflow(base, retries, k);
    TimesLarger(base, 1, Pow2(k - 1));
  }

  lemma Doubling(base: int, x: int)
    ensures base * (2 * x - 1) == base * (x - 1) + base * x
  {
  }

  /** The pauses of a run, each as PauseRange bounds it, add up to less than
      5/4 * base * (2^retries - 1). */
  lemma {:induction false} TotalPause(base: int, pauses: seq<int>)
    requires base >= 4
    requires forall k :: 0 <= k < |pauses| ==> 4 * pauses[k] < 5 * (base * Pow2(k))
    ensures 4 * Sum(pauses) <= 5 * (base * (Pow2(|pauses|) - 1)) - |pauses|
  {
    if pauses != [] {
      var n := |pauses| - 1;
      TotalPause(base, pauses[..n]);
      assert pauses == pauses[..n] + [pauses[n]];
      SumAppend(pauses[..n], [pauses[n]]);
      SumConstant([pauses[n]], pauses[n]);
      Doubling(base, Pow2(n));
    }
  }

  /** The first product of the doubling that does not fit comes out negative. */
  lemma FirstOverflow(base: int, k: nat)
    requires 4 <= base && k >= 2 && base * Pow2(k - 2) <= MAX_INT64 < base * Pow2(k - 1)
    ensures RawDelay(base, k) < 0
  {
    assert base * Pow2(k - 1) == 2 * (base * Pow2(k - 2));
    if k - 1 >= 63 {
      Pow2Word();
      Pow2Monotone(62, k - 2);
      TimesLarger(base, Pow2(62), Pow2(k - 2));
    }
  }

  /** If the last product does not fit, one of them is the first. */
  lemma {:induction false} SomeFirstOverflow(base: int, retries: nat) returns (k: nat)
    requires 4 <= base <= MAX_INT64 && retries >= 1 && base * Pow2(retries - 1) > MAX_INT64
    ensures 2 <= k <= retries && base * Pow2(k - 2) <= MAX_INT64 < base * Pow2(k - 1)
  {
    if base * Pow2(retries - 2) > MAX_INT64 {
      k := SomeFirstOverflow(base, retries - 1);
    } else {
      k := retries;
    }
  }

  /** No attempt panics exactly when there are no retries, or the base is at least 4 ns and the last
      product fits in 64 bits. */
  lemma NeverPanics(base: int, retries: nat)
    requires -TWO_63 <= base <= MAX_INT64
    ensures (forall k :: 1 <= k <= retries ==> RawDelay(base, k) >= 4)
            <==> retries == 0 || (base >= 4 && base * Pow2(retries - 1) <= MAX_INT64)
  {
    if retries >= 1 {
      assert RawDelay(base, 1) == base;
      if base >= 4 {
        if base * Pow2(retries - 1) <= MAX_INT64 {
          forall k | 1 <= k <= retries ensures RawDelay(base, k) >= 4 {
            NoOverflow(base, retries, k);
            TimesLarger(base, 1, Pow2(k - 1));
          }
        } else {
          var k := SomeFirstOverflow(base, retries);
          FirstOverflow(base, k);
        }
      }
    }
  }

  /** The delay with its jitter, as the machine adds them. */
  function Jittered(d: int, jitter: int): int { Wrap(d + jitter) }

  /** The pause of attempt k is what was meant, whatever the jitter. */
  predicate Meant(base: int, k: nat)
    requires k >= 1
  {
    var d := RawDelay(base, k);
    d == base * Pow2(k - 1) >= 4 && forall jitter :: 0 <= jitter < d / 4 ==> Jittered(d, jitter) == d + jitter
  }

  /** The largest jitter still fits. */
  predicate Roomy(d: int) { d >= 4 && d + d / 4 - 1 <= MAX_INT64 }

  lemma JitterFits(d: int)
    requires 4 <= d <= MAX_INT64
    ensures Roomy(d) <==> forall jitter :: 0 <= jitter < d / 4 ==> Jittered(d, jitter) == d + jitter
  {
    if !Roomy(d) { assert Jittered(d, d / 4 - 1) != d + (d / 4 - 1); }
  }

  lemma MeantExactly(base: int, retries: nat, k: nat)
    requires 4 <= base && 1 <= k <= retries && base * Pow2(retries - 1) <= MAX_INT64
    ensures Meant(base, k) <==> Roomy(base * Pow2(k - 1))
    ensures 4 <= base * Pow2(k - 1) <= base * Pow2(retries - 1)
  {
    NoOverflow(base, retries, k);
    TimesLarger(base, 1, Pow2(k - 1));
    JitterFits(base * Pow2(k - 1));
  }

  lemma RoomyBelow(x: int, y: int)
    requires 4 <= x <= y && Roomy(y)
    ensures Roomy(x)
  {
  }

  lemma AllMeant(base: int, retries: nat, k: nat)
    requires 4 <= base && 1 <= k <= retries && Roomy(base * Pow2(retries - 1))
    ensures Meant(base, k)
  {
    MeantExactly(base, retries, k);
    RoomyBelow(base * Pow2(k - 1), base * Pow2(retries - 1));
  }

  /** Every pause is what was meant exactly when, besides, the last one fits with its largest jitter. */
  lemma PausesExactly(base: int, retries: nat)
    requires -TWO_63 <= base <= MAX_INT64
    ensures (forall k :: 1 <= k <= retries ==> Meant(base, k))
            <==> retries == 0 || (base >= 4 && Roomy(base * Pow2(retries - 1)))
  {
    if retries >= 1 {
      if base >= 4 && Roomy(base * Pow2(retries - 1)) {
        forall k | 1 <= k <= retries ensures Meant(base, k) { AllMeant(base, retries, k); }
      } else if forall k :: 1 <= k <= retries ==> Meant(base, k) {
        assert RawDelay(base, 1) == base && Meant(base, 1) && Meant(base, retries);
        assert base * Pow2(retries - 1) <= MAX_INT64;
        MeantExactly(base, retries, retries);
      }
    }
  }

  /** The defaults, 500 ms and three retries, are in range, up to 34 retries and no further. */
  lemma DefaultsSane()
    ensures Sane(500_000_000, 3)
    ensures forall retries :: 0 <= retries ==> (Sane(500_000_000, retries) <==> retries <= 34)
  {
    Pow2Small();
    forall retries | 0 <= retries
      ensures Sane(500_000_000, retries) <==> retries <= 34
    {
      if 1 <= retries <= 34 { Pow2Monotone(retries - 1, 33); }
      if retries > 34 { Pow2Monotone(34, retries - 1); }
    }
  }

  lemma Pow2Small()
    ensures Pow2(2) == 4 && Pow2(21) == 0x20_0000 && Pow2(33) == 0x2_0000_0000 && Pow2(34) == 0x4_0000_0000
  {
    assert Pow2(6) == 64;
    assert Pow2(9) == 512;
    assert Pow2(12) == 0x1000;
    assert Pow2(15) == 0x8000;
    assert Pow2(18) == 0x4_0000;
    assert Pow2(21) == 0x20_0000;
    assert Pow2(24) == 0x100_0000;
    assert Pow2(27) == 0x800_0000;
    assert Pow2(30) == 0x4000_0000;
  }
}
