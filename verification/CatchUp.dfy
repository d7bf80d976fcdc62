/** The arithmetic by which a repeatable task whose time has passed moves on to its next slot. */
module CatchUp {
  /** `math.ceil((now - time) / interval)`. */
  function Gap(time: int, interval: int, now: int): int
    requires interval > 0
  {
    -((time - now) / interval)
  }

  /** Going on one interval at a time until the time is not in the past: the time reached, and the number of steps. */
  function Stepped(time: int, interval: int, now: int): (int, nat)
    requires interval > 0
    decreases now - time
  {
    if time >= now then (time, 0) else
      var (t, n) := Stepped(time + interval, interval, now);
      (t, n + 1)
  }

  lemma GapBounds(time: int, interval: int, now: int)
    requires interval > 0 && time < now
    ensures var g := Gap(time, interval, now); 1 <= g && interval * (g - 1) < now - time <= interval * g
  {
    var d := time - now;
    var q := d / interval;
    assert d == interval * q + d % interval;
    Negated(interval, q);
    if q >= 0 {
      MulOrder(interval, 0, q);
      assert false;
    }
  }

  lemma Negated(interval: int, q: int)
    ensures interval * -q == -(interval * q) && interval * (-q - 1) == -(interval * q) - interval
  {
  }

  lemma MulOrder(interval: int, a: int, b: int)
    requires interval > 0 && a <= b
    ensures interval * a <= interval * b
  {
  }

  lemma MulStrict(interval: int, a: int, b: int)
    requires interval > 0 && interval * a < interval * b
    ensures a < b
  {
    if b <= a {
      MulOrder(interval, b, a);
    }
  }

  lemma OneMore(interval: int, a: int)
    ensures interval * (a + 1) == interval * a + interval
  {
  }

  /** A distance lies within one multiple of the interval only. */
  lemma OnlyMultiple(interval: int, a: int, b: int, d: int)
    requires interval > 0
    requires interval * (a - 1) < d <= interval * a && interval * (b - 1) < d <= interval * b
    ensures a == b
  {
    MulStrict(interval, a - 1, b);
    MulStrict(interval, b - 1, a);
  }

  /** One interval further on, the gap is one less. */
  lemma GapOfNext(time: int, interval: int, now: int)
    requires interval > 0 && time + interval < now
    ensures Gap(time, interval, now) == Gap(time + interval, interval, now) + 1
  {
    var g, h := Gap(time, interval, now), Gap(time + interval, interval, now);
    GapBounds(time, interval, now);
    GapBounds(time + interval, interval, now);
    OneMore(interval, h);
    OneMore(interval, h - 1);
    OnlyMultiple(interval, g, h + 1, now - time);
  }

  lemma LastGap(time: int, interval: int, now: int)
    requires interval > 0 && time < now <= time + interval
    ensures Gap(time, interval, now) == 1
  {
    GapBounds(time, interval, now);
    OnlyMultiple(interval, Gap(time, interval, now), 1, now - time);
  }

  /** Jumping over the whole gap is stepping one interval at a time; it lands in [now, now + interval). */
  lemma {:induction false} JumpIsStepping(time: int, interval: int, now: int)
    requires interval > 0 && time < now
    ensures var g := Gap(time, interval, now);
            && Stepped(time, interval, now) == (time + interval * g, g)
            && now <= time + interval * g < now + interval
    decreases now - time
  {
    GapBounds(time, interval, now);
    OneMore(interval, Gap(time, interval, now) - 1);
    if time + interval < now {
      GapOfNext(time, interval, now);
      JumpIsStepping(time + interval, interval, now);
    } else {
      LastGap(time, interval, now);
    }
  }

  /** The budget is enough exactly when now is not past the last slot, time + interval * repeat. */
  lemma EnoughIff(time: int, interval: int, repeat: int, now: int)
    requires interval > 0 && time < now
    ensures repeat >= Gap(time, interval, now) <==> now <= time + interval * repeat
  {
    var g := Gap(time, interval, now);
    GapBounds(time, interval, now);
    if repeat >= g {
      MulOrder(interval, g, repeat);
    } else {
      MulOrder(interval, repeat, g - 1);
    }
  }
}
