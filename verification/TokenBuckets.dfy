/** The debt-model token bucket (src/qos.rs), with balances as reals and the clock as an argument. */
module TokenBuckets {

  datatype Bucket = Bucket(rate: nat, tokens: real, last: real)

  /** Credit the time since the last refill, at most one second's worth. */
  function Refill(b: Bucket, now: real): Bucket {
    if b.rate == 0 then b.(tokens := 0.0, last := now)
    else
      var credit := b.tokens + (now - b.last) * b.rate as real;
      b.(tokens := if credit <= b.rate as real then credit else b.rate as real, last := now)
  }

  /** Refill at the old rate, then switch; unlimited forgives any debt. */
  function SetRate(b: Bucket, now: real, rate: nat): Bucket {
    var r := Refill(b, now);
    r.(rate := rate, tokens := if rate == 0 then 0.0 else r.tokens)
  }

  /** Debit at once; unlimited debits nothing. */
  function Debit(b: Bucket, now: real, n: nat): Bucket {
    var r := Refill(b, now);
    if r.rate == 0 then r else r.(tokens := r.tokens - n as real)
  }

  /** How long the caller then sleeps off the debt. */
  function Wait(b: Bucket): real {
    if b.rate == 0 || b.tokens >= 0.0 then 0.0 else -b.tokens / b.rate as real
  }

  class TokenBucket {
    var rate: nat
    var tokens: real
    var last: real

    ghost function State(): Bucket
      reads this
    {
      Bucket(rate, tokens, last)
    }

    constructor (rate: nat, now: real)
      ensures State() == Bucket(rate, 0.0, now)
    {
      this.rate := rate;
      tokens := 0.0;
      last := now;
    }

    method RefillNow(now: real)
      modifies this
      ensures State() == Refill(old(State()), now)
    {
      var dt := now - last;
      last := now;
      if rate == 0 {
        tokens := 0.0;
        return;
      }
      tokens := tokens + dt * rate as real;
      if tokens > rate as real {
        tokens := rate as real;
      }
    }

    method ChangeRate(now: real, newRate: nat)
      modifies this
      ensures State() == SetRate(old(State()), now, newRate)
    {
      RefillNow(now);
      rate := newRate;
      if rate == 0 {
        tokens := 0.0;
      }
    }

    /** Debit `n` bytes and say how long to sleep. */
    method Acquire(now: real, n: nat) returns (wait: real)
      modifies this
      ensures State() == Debit(old(State()), now, n) && wait == Wait(State())
    {
      RefillNow(now);
      if rate == 0 {
        return 0.0;
      }
      tokens := tokens - n as real;
      if tokens >= 0.0 {
        return 0.0;
      }
      return -tokens / rate as real;
    }
  }

  // ----------------------------------------------------------------- every run

  /** An acquire of `n` bytes debited at `at` that returned at `done`, or a retuning. */
  datatype Event = Took(at: real, n: nat, done: real) | Retuned(at: real, rate: nat)

  function Next(b: Bucket, e: Event): Bucket {
    if e.Took? then Debit(b, e.at, e.n) else SetRate(b, e.at, e.rate)
  }

  function After(b: Bucket, es: seq<Event>): Bucket
    decreases |es|
  {
    if es == [] then b else Next(After(b, es[..|es| - 1]), es[|es| - 1])
  }

  /** Events happen in lock order, sleeps last at least as long as asked, and rates stay in 1..max. */
  predicate Happens(b: Bucket, es: seq<Event>, max: nat)
    decreases |es|
  {
    es == [] ||
    (var init, e := es[..|es| - 1], es[|es| - 1];
     && Happens(b, init, max) && e.at >= After(b, init).last
     && (e.Took? ==> e.done >= e.at + Wait(After(b, es)))
     && (e.Retuned? ==> 0 < e.rate <= max))
  }

  /** Bytes debited from `s` on. */
  function Debited(es: seq<Event>, s: real): nat
    decreases |es|
  {
    if es == [] then 0
    else
      var e := es[|es| - 1];
      Debited(es[..|es| - 1], s) + if e.Took? && e.at >= s then e.n else 0
  }

  /** Bytes debited from `s` on whose acquire had returned by `t`. */
  function Returned(es: seq<Event>, s: real, t: real): nat
    decreases |es|
  {
    if es == [] then 0
    else
      var e := es[|es| - 1];
      Returned(es[..|es| - 1], s, t) + if e.Took? && e.at >= s && e.done <= t then e.n else 0
  }

  lemma {:induction false} ReturnedWereDebited(es: seq<Event>, s: real, t: real)
    ensures Returned(es, s, t) <= Debited(es, s)
    decreases |es|
  {
    if es != [] {
      ReturnedWereDebited(es[..|es| - 1], s, t);
    }
  }

  /** What the cap earns over a stretch of time. */
  function Earned(max: nat, since: real, until: real): real {
    max as real * (until - since)
  }

  lemma EarnedAdds(max: nat, x: real, y: real, z: real)
    ensures Earned(max, x, y) + Earned(max, y, z) == Earned(max, x, z)
  {
    assert (y - x) + (z - y) == z - x;
  }

  lemma EarnedGrows(max: nat, x: real, y: real)
    requires x <= y
    ensures Earned(max, x, y) >= 0.0
  {
  }

  /** A slower rate earns no more than the cap. */
  lemma Scales(rate: real, max: real, dt: real)
    requires rate <= max && dt >= 0.0
    ensures dt * rate <= max * dt
  {
    var slack := max - rate;
    assert slack * dt >= 0.0;
    assert max * dt == rate * dt + slack * dt by {
      assert max == rate + slack;
    }
  }

  lemma GainIsEarned(rate: nat, max: nat, x: real, y: real)
    requires rate <= max && x <= y
    ensures (y - x) * rate as real <= Earned(max, x, y)
  {
    Scales(rate as real, max as real, y - x);
  }

  /** The clock follows the events, and the rate stays within the cap. */
  lemma {:induction false} RunShape(b: Bucket, es: seq<Event>, max: nat)
    requires 0 < b.rate <= max && Happens(b, es, max)
    ensures var a := After(b, es); 0 < a.rate <= max && a.last >= b.last && (es != [] ==> a.last == es[|es| - 1].at)
    decreases |es|
  {
    if es != [] {
      RunShape(b, es[..|es| - 1], max);
    }
  }

  lemma RefillGains(b: Bucket, now: real)
    requires b.rate > 0
    ensures var r := Refill(b, now);
            && r.last == now && r.rate == b.rate
            && r.tokens <= b.tokens + (now - b.last) * b.rate as real && r.tokens <= b.rate as real
  {
  }

  /** A step adds at most what the cap earns meanwhile, and takes what it debits. */
  lemma StepGains(b: Bucket, e: Event, max: nat)
    requires 0 < b.rate <= max && e.at >= b.last && (e.Retuned? ==> e.rate > 0)
    ensures var a, n := Next(b, e), if e.Took? then e.n else 0;
            && a.last == e.at
            && a.tokens + n as real <= b.tokens + Earned(max, b.last, e.at)
            && a.tokens + n as real <= max as real
  {
    GainIsEarned(b.rate, max, b.last, e.at);
    RefillGains(b, e.at);
  }

  /** Debits since `s` plus the balance never exceed one burst plus what was earned since `s`. */
  lemma {:induction false} DebtSince(b: Bucket, es: seq<Event>, max: nat, s: real)
    requires 0 < b.rate <= max && b.tokens <= max as real && Happens(b, es, max)
    ensures var a := After(b, es);
            && (a.last < s ==> Debited(es, s) == 0 && a.tokens <= max as real)
            && (a.last >= s ==> Debited(es, s) as real + a.tokens <= max as real + Earned(max, s, a.last))
    decreases |es|
  {
    if es == [] {
      if b.last >= s {
        EarnedGrows(max, s, b.last);
      }
    } else {
      var init, e := es[..|es| - 1], es[|es| - 1];
      DebtSince(b, init, max, s);
      RunShape(b, init, max);
      var m := After(b, init);
      StepGains(m, e, max);
      if m.last >= s {
        EarnedAdds(max, s, m.last, e.at);
      } else if e.at >= s {
        EarnedGrows(max, s, e.at);
      }
    }
  }

  /** Counted from creation there is no burst: the bucket starts empty. */
  lemma {:induction false} DebtFromStart(b: Bucket, es: seq<Event>, max: nat)
    requires 0 < b.rate <= max && b.tokens == 0.0 && Happens(b, es, max)
    ensures var a := After(b, es);
            Debited(es, b.last) as real + a.tokens <= Earned(max, b.last, a.last)
    decreases |es|
  {
    if es != [] {
      var init, e := es[..|es| - 1], es[|es| - 1];
      DebtFromStart(b, init, max);
      RunShape(b, init, max);
      var m := After(b, init);
      StepGains(m, e, max);
      EarnedAdds(max, b.last, m.last, e.at);
    }
  }

  /** An acquire that has returned by `t` left no more debt than the cap earns until `t`. */
  lemma SleptOff(b: Bucket, at: real, done: real, max: nat, t: real)
    requires 0 < b.rate <= max && done >= at + Wait(b) && done <= t
    ensures -b.tokens <= Earned(max, at, t)
  {
    if b.tokens < 0.0 {
      var wait := -b.tokens / b.rate as real;
      assert wait * b.rate as real == -b.tokens;
      assert wait >= 0.0;
      Scales(b.rate as real, max as real, wait);
      EarnedAdds(max, at, at + wait, t);
      EarnedGrows(max, at + wait, t);
    } else {
      assert Wait(b) == 0.0;
      EarnedGrows(max, at, t);
    }
  }

  /**
   The bound: bytes debited from `s` on whose acquires returned by `t`, however
   they overlapped, are at most what the cap earns in between plus one second's burst.
   */
  lemma {:induction false} RateIsBounded(b: Bucket, es: seq<Event>, max: nat, s: real, t: real)
    requires 0 < b.rate <= max && b.tokens <= max as real && Happens(b, es, max) && s <= t
    ensures Returned(es, s, t) as real <= Earned(max, s, t) + max as real
    decreases |es|
  {
    EarnedGrows(max, s, t);
    if es != [] {
      var init, e := es[..|es| - 1], es[|es| - 1];
      if e.Took? && e.at >= s && e.done <= t {
        ReturnedWereDebited(es, s, t);
        RunShape(b, es, max);
        DebtSince(b, es, max, s);
        SleptOff(After(b, es), e.at, e.done, max, t);
        EarnedAdds(max, s, e.at, t);
      } else {
        RateIsBounded(b, init, max, s, t);
      }
    }
  }

  /** From creation on, the cap holds with no burst at all. */
  lemma {:induction false} RateFromCreation(b: Bucket, es: seq<Event>, max: nat, t: real)
    requires 0 < b.rate <= max && b.tokens == 0.0 && Happens(b, es, max) && b.last <= t
    ensures Returned(es, b.last, t) as real <= Earned(max, b.last, t)
    decreases |es|
  {
    EarnedGrows(max, b.last, t);
    if es != [] {
      var init, e := es[..|es| - 1], es[|es| - 1];
      if e.Took? && e.at >= b.last && e.done <= t {
        ReturnedWereDebited(es, b.last, t);
        RunShape(b, es, max);
        DebtFromStart(b, es, max);
        SleptOff(After(b, es), e.at, e.done, max, t);
        EarnedAdds(max, b.last, e.at, t);
      } else {
        RateFromCreation(b, init, max, t);
      }
    }
  }

  // --------------------------------------------------------------- conservation

  function Gain(b: Bucket, now: real): real {
    (now - b.last) * b.rate as real
  }

  /** Credit beyond one second's worth. */
  function Over(b: Bucket, now: real): real {
    var over := b.tokens + Gain(b, now) - b.rate as real;
    if over > 0.0 then over else 0.0
  }

  lemma StepConserves(b: Bucket, e: Event)
    requires b.rate > 0 && (e.Retuned? ==> e.rate > 0)
    ensures Next(b, e).tokens + (if e.Took? then e.n else 0) as real + Over(b, e.at) == b.tokens + Gain(b, e.at)
  {
  }

  /** What the rates in force earn along a run. */
  function EarnedAlong(b: Bucket, es: seq<Event>): real
    decreases |es|
  {
    if es == [] then 0.0
    else
      var m := After(b, es[..|es| - 1]);
      EarnedAlong(b, es[..|es| - 1]) + Gain(m, es[|es| - 1].at)
  }

  /** What the one-second clamp throws away along a run. */
  function Spilled(b: Bucket, es: seq<Event>): real
    decreases |es|
  {
    if es == [] then 0.0
    else
      var m := After(b, es[..|es| - 1]);
      Spilled(b, es[..|es| - 1]) + Over(m, es[|es| - 1].at)
  }

  function Total(es: seq<Event>): nat
    decreases |es|
  {
    if es == [] then 0
    else Total(es[..|es| - 1]) + if es[|es| - 1].Took? then es[|es| - 1].n else 0
  }

  /** Balance, debits and spill account for every token earned: a caller waits for its own debt and no more. */
  lemma {:induction false} TokensAreConserved(b: Bucket, es: seq<Event>, max: nat)
    requires 0 < b.rate <= max && Happens(b, es, max)
    ensures After(b, es).tokens + Total(es) as real + Spilled(b, es) == b.tokens + EarnedAlong(b, es)
    decreases |es|
  {
    if es != [] {
      var init := es[..|es| - 1];
      TokensAreConserved(b, init, max);
      RunShape(b, init, max);
      StepConserves(After(b, init), es[|es| - 1]);
    }
  }

  /** Switching to unlimited and back forgives the debt and the credit, whatever was taken meanwhile. */
  lemma UnlimitedForgives(b: Bucket, es: seq<Event>, from: Event, back: Event)
    requires from.Retuned? && from.rate == 0 && back.Retuned? && forall i :: 0 <= i < |es| ==> es[i].Took?
    ensures var a := After(b, [from] + es); a.rate == 0 && a.tokens == 0.0 && Wait(a) == 0.0
    ensures After(b, [from] + es + [back]).tokens == 0.0 && After(b, [from] + es + [back]).rate == back.rate
  {
    StaysUnlimited(b, es, from);
    assert ([from] + es + [back])[..|es| + 1] == [from] + es;
  }

  lemma {:induction false} StaysUnlimited(b: Bucket, es: seq<Event>, from: Event)
    requires from.Retuned? && from.rate == 0 && forall i :: 0 <= i < |es| ==> es[i].Took?
    ensures After(b, [from] + es).rate == 0 && After(b, [from] + es).tokens == 0.0
    decreases |es|
  {
    if es == [] {
      assert ([from] + es)[..0] == [] && ([from] + es)[0] == from;
    } else {
      StaysUnlimited(b, es[..|es| - 1], from);
      assert ([from] + es)[..|es|] == [from] + es[..|es| - 1];
    }
  }

  /** The bound is tight: after an idle second, one acquire of `k + 1` seconds' worth meets it exactly. */
  lemma BoundIsTight(rate: nat, k: nat)
    requires rate > 0
    ensures var b := Bucket(rate, 0.0, 0.0);
            var es := [Took(1.0, rate * (k + 1), 1.0 + k as real)];
            && Happens(b, es, rate)
            && Returned(es, 1.0, 1.0 + k as real) as real == Earned(rate, 1.0, 1.0 + k as real) + rate as real
  {
    var b := Bucket(rate, 0.0, 0.0);
    var e := Took(1.0, rate * (k + 1), 1.0 + k as real);
    var es := [e];
    assert es[..0] == [];
    TightStep(rate, k);
    assert After(b, es[..0]) == b && After(b, es) == Next(b, e);
    assert Happens(b, es[..0], rate);
    assert Returned(es[..0], 1.0, 1.0 + k as real) == 0;
    Bytes(rate, k);
  }

  lemma Bytes(rate: nat, k: nat)
    ensures (rate * (k + 1)) as real == rate as real * k as real + rate as real
    ensures Earned(rate, 1.0, 1.0 + k as real) == rate as real * k as real
  {
    assert rate * (k + 1) == rate * k + rate;
    assert (rate * k) as real == rate as real * k as real;
    assert (1.0 + k as real) - 1.0 == k as real;
  }

  lemma TightStep(rate: nat, k: nat)
    requires rate > 0
    ensures Wait(Next(Bucket(rate, 0.0, 0.0), Took(1.0, rate * (k + 1), 1.0 + k as real))) == k as real
  {
    var b := Bucket(rate, 0.0, 0.0);
    assert (1.0 - 0.0) * rate as real == rate as real;
    assert Refill(b, 1.0) == Bucket(rate, rate as real, 1.0);
    Bytes(rate, k);
    assert Next(b, Took(1.0, rate * (k + 1), 1.0 + k as real)) == Bucket(rate, -(rate as real * k as real), 1.0);
    WaitIs(rate, k);
  }

  lemma WaitIs(rate: nat, k: nat)
    requires rate > 0
    ensures Wait(Bucket(rate, -(rate as real * k as real), 1.0)) == k as real
  {
    if k == 0 {
      assert rate as real * 0.0 == 0.0;
    } else {
      Positive(rate as real, k as real);
      Cancels(rate as real, k as real);
    }
  }

  lemma Positive(x: real, y: real)
    requires x > 0.0 && y > 0.0
    ensures x * y > 0.0
  {
  }

  lemma Cancels(r: real, k: real)
    requires r > 0.0
    ensures -(-(r * k)) / r == k
  {
    assert -(-(r * k)) == r * k;
    assert r * k / r == k;
  }
}
