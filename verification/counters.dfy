/** The simulated sensor values both peripherals notify: `hrs_notify`'s heart
    rate, a `uint8_t` counting up from a profile-specific floor and reset on
    reaching 160, and `bas_notify`'s battery level, counting down and reset
    to 100 on reaching 0. */
module Counters {
  import opened Ble

  /** The heart rate that triggers a reset. */
  const HeartRateCeiling: uint8 := 160

  /** The battery level written instead of 0. */
  const BatteryFull: uint8 := 100

  /** One `hrs_notify` update: increment as `uint8_t`, back to `floor` on
      reaching 160. */
  function HeartRateNext(floor: uint8, hr: uint8): (r: uint8)
    requires floor < HeartRateCeiling
    ensures floor <= hr < HeartRateCeiling ==> floor <= r < HeartRateCeiling
    ensures r != HeartRateCeiling
    ensures hr < HeartRateCeiling - 1 ==> r == hr + 1
    ensures hr == HeartRateCeiling - 1 ==> r == floor
  {
    var next := Inc8(hr);
    if next == HeartRateCeiling then floor else next
  }

  /** The stored heart rate after `n` updates from its initial value `floor`;
      the value notified by update `n` is `HeartRateAfter(floor, n)`. */
  function HeartRateAfter(floor: uint8, n: nat): (r: uint8)
    requires floor < HeartRateCeiling
    ensures floor <= r < HeartRateCeiling
    ensures n > 0 ==> r != floor || HeartRateAfter(floor, n - 1) == HeartRateCeiling - 1
  {
    if n == 0 then floor else HeartRateNext(floor, HeartRateAfter(floor, n - 1))
  }

  /** Starting from the floor, the heart rate climbs by one per update until
      it reaches 159. */
  lemma {:induction false} HeartRateClimbs(floor: uint8, k: nat)
    requires floor < HeartRateCeiling
    requires k < HeartRateCeiling - floor
    ensures HeartRateAfter(floor, k) == floor + k
  {
    if k > 0 {
      HeartRateClimbs(floor, k - 1);
    }
  }

  /** Each update adds exactly one, except the one after 159, which resets. */
  lemma HeartRateStep(floor: uint8, n: nat)
    requires floor < HeartRateCeiling
    ensures HeartRateAfter(floor, n) < HeartRateCeiling - 1 ==> HeartRateAfter(floor, n + 1) == HeartRateAfter(floor, n) + 1
    ensures HeartRateAfter(floor, n) == HeartRateCeiling - 1 ==> HeartRateAfter(floor, n + 1) == floor
  {
  }

  /** The heart rate repeats with period `160 - floor`. */
  lemma {:induction false} HeartRatePeriodic(floor: uint8, n: nat)
    requires floor < HeartRateCeiling
    ensures HeartRateAfter(floor, n + (HeartRateCeiling - floor)) == HeartRateAfter(floor, n)
  {
    var p := HeartRateCeiling - floor;
    if n == 0 {
      HeartRateClimbs(floor, p - 1);
    } else {
      HeartRatePeriodic(floor, n - 1);
      assert n + p - 1 == (n - 1) + p;
    }
  }

  /** No shorter period: within one period the value never returns to the
      floor, and it is the floor again only at a multiple of the period. */
  lemma HeartRateFirstReturn(floor: uint8, k: nat)
    requires floor < HeartRateCeiling
    requires 0 < k < HeartRateCeiling - floor
    ensures HeartRateAfter(floor, k) != floor
  {
    HeartRateClimbs(floor, k);
  }

  /** One `bas_notify` update: decrement as `uint8_t`, 100 instead of 0. */
  function BatteryNext(level: uint8): (r: uint8)
    ensures r != 0
    ensures 1 <= level <= BatteryFull ==> 1 <= r <= BatteryFull
    ensures level >= 2 ==> r == level - 1
    ensures level == 1 ==> r == BatteryFull
    ensures level == 0 ==> r == 255
  {
    var next := Dec8(level);
    if next == 0 then BatteryFull else next
  }

  /** The battery level after `n` updates from `start`. */
  function BatteryAfter(start: uint8, n: nat): (r: uint8)
    requires 1 <= start <= BatteryFull
    ensures 1 <= r <= BatteryFull
  {
    if n == 0 then start else BatteryNext(BatteryAfter(start, n - 1))
  }

  /** Counting down: `k` updates below the start level subtract `k`. */
  lemma {:induction false} BatteryDrains(start: uint8, k: nat)
    requires 1 <= start <= BatteryFull
    requires k < start
    ensures BatteryAfter(start, k) == start - k
  {
    if k > 0 {
      BatteryDrains(start, k - 1);
    }
  }

  /** Updates compose: `m + k` updates are `k` updates after the first `m`. */
  lemma {:induction false} BatteryAfterAdd(start: uint8, m: nat, k: nat)
    requires 1 <= start <= BatteryFull
    ensures BatteryAfter(start, m + k) == BatteryAfter(BatteryAfter(start, m), k)
  {
    if k > 0 {
      BatteryAfterAdd(start, m, k - 1);
      assert m + k - 1 == m + (k - 1);
    }
  }

  /** The battery level repeats with period 100. */
  lemma BatteryPeriodic(start: uint8, n: nat)
    requires 1 <= start <= BatteryFull
    ensures BatteryAfter(start, n + 100) == BatteryAfter(start, n)
  {
    var at := BatteryAfter(start, n);
    BatteryAfterAdd(start, n, 100);
    // From any level the 100 updates reach 1, wrap to 100 and climb back down.
    BatteryAfterAdd(at, at, 100 - at);
    BatteryDrains(at, at - 1);
    assert BatteryAfter(at, at) == BatteryFull;
    BatteryDrains(BatteryFull, 100 - at);
  }
}
