/**
  The adaptive limits: additive increase and multiplicative decrease, one
  calibration at a time.
 */
module Adaptive {

  datatype Setting = Setting(initial: int, max: int, min: int, backoffFactor: real)

  /** What the calculator expects of a limit's configuration. */
  predicate ValidSetting(s: Setting) {
    1 <= s.min <= s.initial <= s.max && 0.0 <= s.backoffFactor < 1.0
  }

  function NextLimit(s: Setting, current: int, backoff: bool): int {
    if !backoff then
      var n := current + 1;
      if n > s.max then s.max else n
    else
      var n := (current as real * s.backoffFactor).Floor;
      if n < s.min then s.min else n
  }

  /** The limit after a number of calibrations that all went the same way. */
  function Repeat(s: Setting, current: int, backoff: bool, n: nat): int {
    if n == 0 then current else NextLimit(s, Repeat(s, current, backoff, n - 1), backoff)
  }

  lemma BackoffShrinks(s: Setting, current: int)
    requires ValidSetting(s) && s.min <= current
    ensures (current as real * s.backoffFactor).Floor < current
  {
    var c, f := current as real, s.backoffFactor;
    assert c * f < c by {
      assert c * (1.0 - f) > 0.0;
      assert c * f == c - c * (1.0 - f);
    }
    assert c.Floor == current;
  }

  lemma StaysInRange(s: Setting, current: int, backoff: bool)
    requires ValidSetting(s) && s.min <= current <= s.max
    ensures s.min <= NextLimit(s, current, backoff) <= s.max
    ensures backoff ==> NextLimit(s, current, backoff) < current || NextLimit(s, current, backoff) == s.min
  {
    BackoffShrinks(s, current);
  }

  /** Repeated pressure brings a limit down to its minimum, and it stays there. */
  lemma {:induction false} BackoffsReachMin(s: Setting, current: int, n: nat)
    requires ValidSetting(s) && s.min <= current <= s.max
    ensures s.min <= Repeat(s, current, true, n) <= s.max
    ensures Repeat(s, current, true, n) <= current - n || Repeat(s, current, true, n) == s.min
    ensures n >= current - s.min ==> Repeat(s, current, true, n) == s.min
  {
    if n > 0 {
      BackoffsReachMin(s, current, n - 1);
      var before, after := Repeat(s, current, true, n - 1), Repeat(s, current, true, n);
      assert s.min <= after <= s.max && (after < before || after == s.min) by {
        StaysInRange(s, before, true);
      }
    }
  }

  /** Repeated calm intervals bring it up to its maximum, one unit at a time. */
  lemma {:induction false} CalmReachesMax(s: Setting, current: int, n: nat)
    requires ValidSetting(s) && s.min <= current <= s.max
    ensures Repeat(s, current, false, n) == if current + n <= s.max then current + n else s.max
  {
    if n > 0 {
      CalmReachesMax(s, current, n - 1);
    }
  }

  /** The values that the hooks have been run with, after an update from `current`. */
  function HooksRun(before: seq<int>, current: int, val: int): seq<int> {
    if val == current then before else before + [val]
  }

  /** One adaptive limit.  `notified` is what its hooks were called with so far; what they
      do to the semaphores is in `Limiter`. */
  class AdaptiveLimit {
    const setting: Setting
    var current: int
    var notified: seq<int>

    constructor (setting: Setting)
      ensures this.setting == setting && current == setting.initial && notified == []
    {
      this.setting := setting;
      current, notified := setting.initial, [];
    }

    /** The hooks are called exactly when the value changes. */
    method Update(val: int)
      modifies this
      ensures current == val && notified == HooksRun(old(notified), old(current), val)
    {
      if val != current {
        current := val;
        notified := notified + [val];
      }
    }
  }

  /** Start: every limit goes back to its initial value. */
  method ResetLimits(limits: seq<AdaptiveLimit>)
    modifies limits
    ensures forall l :: l in limits ==> l.current == l.setting.initial
  {
    for i := 0 to |limits|
      invariant forall j :: 0 <= j < i ==> limits[j].current == limits[j].setting.initial
    {
      limits[i].Update(limits[i].setting.initial);
    }
  }

  /** One calibration point, for limits that were each registered once; nothing happens
      once the context is done. */
  method CalibrateLimits(limits: seq<AdaptiveLimit>, backoff: bool, cancelled: bool)
    requires forall i, j :: 0 <= i < j < |limits| ==> limits[i] != limits[j]
    modifies limits
    ensures forall l :: l in limits ==>
              l.current == if cancelled then old(l.current) else NextLimit(l.setting, old(l.current), backoff)
    ensures forall l :: l in limits ==> l.notified == HooksRun(old(l.notified), old(l.current), l.current)
  {
    if cancelled {
      return;
    }
    for i := 0 to |limits|
      invariant forall j :: 0 <= j < i ==>
                  && limits[j].current == NextLimit(limits[j].setting, old(limits[j].current), backoff)
                  && limits[j].notified == HooksRun(old(limits[j].notified), old(limits[j].current), limits[j].current)
      invariant forall j :: i <= j < |limits| ==>
                  limits[j].current == old(limits[j].current) && limits[j].notified == old(limits[j].notified)
    {
      var limit := limits[i];
      var newLimit: int;
      if !backoff {
        newLimit := limit.current + 1;
        if newLimit > limit.setting.max {
          newLimit := limit.setting.max;
        }
      } else {
        newLimit := (limit.current as real * limit.setting.backoffFactor).Floor;
        if newLimit < limit.setting.min {
          newLimit := limit.setting.min;
        }
      }
      limit.Update(newLimit);
    }
  }
}
