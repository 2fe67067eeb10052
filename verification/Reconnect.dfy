/** The runtime client's reconnect loop and its bounded exponential backoff. */
module Reconnect {

  function Min(a: real, b: real): real {
    if a <= b then a else b
  }

  function Pow(factor: real, n: nat): real {
    if n == 0 then 1.0 else Pow(factor, n - 1) * factor
  }

  /** The delay n steps into the backoff. */
  function Delay(initial: real, factor: real, maximum: real, n: nat): real {
    Min(initial * Pow(factor, n), maximum)
  }

  lemma {:induction false} PowIsAtLeastOne(factor: real, n: nat)
    requires factor >= 1.0
    ensures Pow(factor, n) >= 1.0
  {
    if n > 0 {
      PowIsAtLeastOne(factor, n - 1);
      TimesAtLeastOne(Pow(factor, n - 1), factor);
    }
  }

  lemma TimesAtLeastOne(x: real, factor: real)
    requires factor >= 1.0 && x >= 0.0
    ensures x * factor >= x
  {
    assert x * factor - x == x * (factor - 1.0);
  }

  lemma TimesAssociates(x: real, y: real, z: real, yz: real)
    requires yz == y * z
    ensures x * yz == x * y * z
  {
    assert x * yz == x * (y * z);
  }

  lemma ScaledPow(initial: real, factor: real, n: nat)
    ensures initial * Pow(factor, n + 1) == initial * Pow(factor, n) * factor
  {
    TimesAssociates(initial, Pow(factor, n), factor, Pow(factor, n + 1));
  }

  /** Capping before multiplying makes no difference to the capped result. */
  lemma CapThenGrow(x: real, factor: real, maximum: real)
    requires factor >= 1.0 && maximum >= 0.0 && x >= 0.0
    ensures Min(Min(x, maximum) * factor, maximum) == Min(x * factor, maximum)
  {
    TimesAtLeastOne(x, factor);
    TimesAtLeastOne(maximum, factor);
  }

  lemma DelayGrows(initial: real, factor: real, maximum: real, n: nat)
    requires factor >= 1.0 && initial >= 0.0 && maximum >= 0.0
    ensures Min(Delay(initial, factor, maximum, n) * factor, maximum) == Delay(initial, factor, maximum, n + 1)
  {
    PowIsAtLeastOne(factor, n);
    assert initial * Pow(factor, n) >= 0.0;
    CapThenGrow(initial * Pow(factor, n), factor, maximum);
    ScaledPow(initial, factor, n);
  }

  /** Multiplying a stored delay and capping it goes one step further. */
  lemma StoredDelayGrows(current: real, initial: real, factor: real, maximum: real, n: nat)
    requires factor >= 1.0 && initial >= 0.0 && maximum >= 0.0 && current >= 0.0
    requires Min(current, maximum) == Delay(initial, factor, maximum, n)
    ensures current * factor >= 0.0
    ensures Min(Min(current * factor, maximum), maximum) == Delay(initial, factor, maximum, n + 1)
  {
    DelayGrows(initial, factor, maximum, n);
    CapThenGrow(current, factor, maximum);
    TimesAtLeastOne(current, factor);
  }

  class Backoff {
    const initial: real
    const factor: real
    const maximum: real
    var current: real

    /** `n` delays have been taken since the start or the last reset. */
    ghost predicate At(n: nat)
      reads this
    {
      && factor >= 1.0 && initial >= 0.0 && maximum >= 0.0 && current >= 0.0
      && (n == 0 ==> current == initial)
      && Min(current, maximum) == Delay(initial, factor, maximum, n)
    }

    constructor (initial: real, factor: real, maximum: real)
      requires factor >= 1.0 && initial >= 0.0 && maximum >= 0.0
      ensures this.initial == initial && this.factor == factor && this.maximum == maximum
      ensures At(0)
    {
      this.initial, this.factor, this.maximum, current := initial, factor, maximum, initial;
    }

    method Reset()
      requires factor >= 1.0 && initial >= 0.0 && maximum >= 0.0
      modifies this
      ensures At(0) && current == initial
    {
      current := initial;
    }

    method NextDelay(ghost n: nat) returns (delay: real)
      requires At(n)
      modifies this
      ensures delay == Delay(initial, factor, maximum, n)
      ensures At(n + 1)
      ensures delay <= maximum && delay <= old(current) && (delay == maximum || delay == old(current))
      ensures old(current) <= current || current == maximum
    {
      delay := Min(current, maximum);
      StoredDelayGrows(current, initial, factor, maximum, n);
      current := Min(current * factor, maximum);
    }
  }

  /** One turn of the loop: whether the connect succeeded, and whether `stop` was called by its end. */
  datatype Attempt = Attempt(connected: bool, stopped: bool)

  predicate EverConnected(attempts: seq<Attempt>) {
    exists i :: 0 <= i < |attempts| && attempts[i].connected
  }

  /** Consecutive failed connects up to and including the latest attempt. */
  function Failures(attempts: seq<Attempt>): nat {
    if attempts == [] || attempts[|attempts| - 1].connected then 0
    else 1 + Failures(attempts[..|attempts| - 1])
  }

  /** How far into the backoff the delay after the latest attempt is: the end of a session takes
      the first delay, so failures after it are one further along than failures at start-up. */
  function StepsTaken(attempts: seq<Attempt>): nat {
    if EverConnected(attempts) || attempts == [] then Failures(attempts) else Failures(attempts) - 1
  }

  lemma {:induction false} FailuresAtStartUp(attempts: seq<Attempt>)
    requires !EverConnected(attempts)
    ensures Failures(attempts) == |attempts|
  {
    if attempts != [] {
      FailuresAtStartUp(attempts[..|attempts| - 1]);
    }
  }

  lemma StepsAdvance(attempts: seq<Attempt>, latest: Attempt)
    ensures StepsTaken(attempts + [latest])
            == if latest.connected then 0 else if attempts == [] then 0 else StepsTaken(attempts) + 1
  {
    var all := attempts + [latest];
    assert all[..|attempts|] == attempts && all[|attempts|] == latest;
    if latest.connected {
      assert EverConnected(all);
    } else {
      if EverConnected(attempts) {
        var i :| 0 <= i < |attempts| && attempts[i].connected;
        assert all[i].connected;
      }
      assert EverConnected(all) == EverConnected(attempts);
    }
    if !EverConnected(attempts) {
      FailuresAtStartUp(attempts);
    }
  }

  class RuntimeChannelClient {
    const backoff: Backoff

    constructor (backoff: Backoff)
      ensures this.backoff == backoff
    {
      this.backoff := backoff;
    }

    /** The reconnect loop against an environment that answers with `attempts`. */
    method Run(attempts: seq<Attempt>) returns (delays: seq<real>)
      requires backoff.At(0)
      modifies backoff
      ensures |delays| <= |attempts|
      ensures forall i | 0 <= i < |delays| ::
                delays[i] == Delay(backoff.initial, backoff.factor, backoff.maximum, StepsTaken(attempts[..i + 1]))
      ensures forall i | 0 <= i < |delays| :: !attempts[i].stopped
      ensures |delays| < |attempts| ==> attempts[|delays|].stopped
    {
      delays := [];
      ghost var n := 0;
      while |delays| < |attempts|
        invariant |delays| <= |attempts|
        invariant backoff.At(n) && n == if delays == [] then 0 else StepsTaken(attempts[..|delays|]) + 1
        invariant forall i | 0 <= i < |delays| ::
                    delays[i] == Delay(backoff.initial, backoff.factor, backoff.maximum, StepsTaken(attempts[..i + 1]))
        invariant forall i | 0 <= i < |delays| :: !attempts[i].stopped
      {
        var latest := attempts[|delays|];
        StepsAdvance(attempts[..|delays|], latest);
        assert attempts[..|delays| + 1] == attempts[..|delays|] + [latest];
        if latest.connected {
          backoff.Reset();
          n := 0;
        }
        if latest.stopped {
          return;
        }
        var delay := backoff.NextDelay(n);
        n := n + 1;
        delays := delays + [delay];
      }
    }
  }

  lemma PositiveProduct(x: real, y: real)
    requires x > 0.0 && y > 0.0
    ensures x * y > 0.0
  {
  }

  /** One step of the backoff makes no difference exactly when it is constant or capped. */
  lemma StepMakesNoDifference(x: real, factor: real, maximum: real)
    requires factor >= 1.0 && x >= 0.0 && maximum >= 0.0
    ensures Min(x * factor, maximum) == Min(x, maximum) <==> factor == 1.0 || x == 0.0 || x >= maximum
  {
    TimesAtLeastOne(x, factor);
    var growth := x * (factor - 1.0);
    assert x * factor == x + growth;
    if factor > 1.0 && x > 0.0 {
      PositiveProduct(x, factor - 1.0);
    }
  }

  /** The delay after k >= 1 consecutive failures is initial * factor^(k-1), capped, exactly when
      no connection was ever made, or the backoff is constant or has reached its cap by then. */
  lemma CountingFromTheLastSuccess(attempts: seq<Attempt>, initial: real, factor: real, maximum: real)
    requires factor >= 1.0 && initial >= 0.0 && maximum >= 0.0
    requires Failures(attempts) > 0
    ensures Delay(initial, factor, maximum, StepsTaken(attempts))
            == Delay(initial, factor, maximum, Failures(attempts) - 1)
            <==>
            || !EverConnected(attempts)
            || factor == 1.0 || initial == 0.0 || initial * Pow(factor, Failures(attempts) - 1) >= maximum
  {
    var k := Failures(attempts);
    var p := Pow(factor, k - 1);
    if EverConnected(attempts) {
      PowIsAtLeastOne(factor, k - 1);
      var x := initial * p;
      assert x >= 0.0 && (x == 0.0 <==> initial == 0.0) by {
        if initial > 0.0 {
          PositiveProduct(initial, p);
        }
      }
      ScaledPow(initial, factor, k - 1);
      StepMakesNoDifference(x, factor, maximum);
    }
  }

  /** After one session and one failed connect the wait is the second step of the backoff. */
  lemma FirstFailureAfterASessionWaitsLonger()
    ensures var attempts := [Attempt(true, false), Attempt(false, false)];
            Failures(attempts) == 1 && Delay(0.5, 2.0, 30.0, StepsTaken(attempts)) == 1.0
            && Delay(0.5, 2.0, 30.0, Failures(attempts) - 1) == 0.5
  {
    var attempts := [Attempt(true, false), Attempt(false, false)];
    assert attempts[0].connected;
    assert attempts[..1] == [Attempt(true, false)];
    assert Pow(2.0, 1) == Pow(2.0, 0) * 2.0;
  }
}
