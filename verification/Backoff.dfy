/** PollingWorkerRuntime: how long a worker sleeps between poll cycles. */
module Backoff {
  import opened Common

  /** The seconds the constructor is given. */
  datatype Settings = Settings(pollInterval: real, initial: real, max: real)

  predicate Valid(c: Settings) { 0.0 < c.initial <= c.max }

  function MinReal(a: real, b: real): real { if a <= b then a else b }

  /** The delay the next failure would sleep, and every sleep so far. */
  datatype State = State(current: real, sleeps: seq<real>)

  function Start(c: Settings): State { State(c.initial, []) }

  function Cycle(c: Settings, s: State, raised: bool): State {
    if raised then State(MinReal(s.current * 2.0, c.max), s.sleeps + [s.current])
    else State(c.initial, s.sleeps + [c.pollInterval])
  }

  function Cycles(c: Settings, raised: seq<bool>): State {
    if raised == [] then Start(c) else Cycle(c, Cycles(c, raised[..|raised| - 1]), raised[|raised| - 1])
  }

  function Pow2(k: nat): (r: real)
    ensures r >= 1.0
  {
    if k == 0 then 1.0 else 2.0 * Pow2(k - 1)
  }

  /** How many failures in a row a history ends with. */
  function Streak(raised: seq<bool>): nat {
    if raised == [] || !raised[|raised| - 1] then 0 else Streak(raised[..|raised| - 1]) + 1
  }

  function Capped(c: Settings, k: nat): real { MinReal(c.initial * Pow2(k), c.max) }

  lemma Doubles(c: Settings, k: nat)
    requires Valid(c)
    ensures MinReal(Capped(c, k) * 2.0, c.max) == Capped(c, k + 1)
  {
  }

  lemma {:induction false} CurrentIsCapped(c: Settings, raised: seq<bool>)
    requires Valid(c)
    ensures Cycles(c, raised).current == Capped(c, Streak(raised))
    ensures |Cycles(c, raised).sleeps| == |raised|
  {
    if raised != [] {
      CurrentIsCapped(c, raised[..|raised| - 1]);
      Doubles(c, Streak(raised[..|raised| - 1]));
    }
  }

  lemma {:induction false} SleepsByStreak(c: Settings, raised: seq<bool>, i: nat)
    requires Valid(c) && i < |raised|
    ensures |Cycles(c, raised).sleeps| == |raised|
    ensures Cycles(c, raised).sleeps[i] == if raised[i] then Capped(c, Streak(raised[..i + 1]) - 1) else c.pollInterval
  {
    var n := |raised| - 1;
    CurrentIsCapped(c, raised);
    CurrentIsCapped(c, raised[..n]);
    if i < n {
      SleepsByStreak(c, raised[..n], i);
      assert raised[..n][..i + 1] == raised[..i + 1];
    } else {
      assert raised[..i + 1] == raised;
    }
  }

  /** The k cycles before the i-th raised, and the one before those, if there is one, did not. */
  ghost predicate FailuresBefore(raised: seq<bool>, i: nat, k: nat)
    requires i < |raised|
  {
    && k <= i
    && (forall j :: i - k <= j < i ==> raised[j])
    && (k < i ==> !raised[i - k - 1])
  }

  lemma {:induction false} StreakMeans(raised: seq<bool>, i: nat, k: nat)
    requires i < |raised| && FailuresBefore(raised, i, k)
    ensures Streak(raised[..i]) == k
  {
    assert k < i ==> raised[..i][i - 1] == raised[i - 1];
    if k > 0 {
      StreakMeans(raised, i - 1, k - 1);
      assert raised[..i][..i - 1] == raised[..i - 1];
      assert raised[..i][i - 1];
    }
  }

  /** What a cycle sleeps after k failures in a row: initial * 2^k at most max if it fails too, else the interval. */
  predicate SleepsFor(c: Settings, k: nat, raised: bool, sleep: real) {
    && (!raised ==> sleep == c.pollInterval)
    && (raised ==> sleep == if c.initial * Pow2(k) <= c.max then c.initial * Pow2(k) else c.max)
  }

  lemma CappedSleep(c: Settings, k: nat, raised: bool)
    ensures SleepsFor(c, k, raised, if raised then Capped(c, k) else c.pollInterval)
  {
  }

  lemma StreakAfter(raised: seq<bool>, i: nat, k: nat)
    requires i < |raised| && FailuresBefore(raised, i, k) && raised[i]
    ensures Streak(raised[..i + 1]) == k + 1
  {
    StreakMeans(raised, i, k);
    assert raised[..i + 1][..i] == raised[..i];
  }

  /** Over any history of cycles, the failures in a row before a cycle decide what it sleeps, and nothing else does. */
  lemma ClosedForm(c: Settings, raised: seq<bool>, i: nat, k: nat)
    requires Valid(c) && i < |raised| && FailuresBefore(raised, i, k)
    ensures |Cycles(c, raised).sleeps| == |raised|
    ensures SleepsFor(c, k, raised[i], Cycles(c, raised).sleeps[i])
  {
    SleepsByStreak(c, raised, i);
    CappedSleep(c, k, raised[i]);
    if raised[i] { StreakAfter(raised, i, k); }
  }

  class PollingWorkerRuntime {
    const settings: Settings
    var current: real
    var sleeps: seq<real>

    function View(): State
      reads this
    {
      State(current, sleeps)
    }

    constructor (c: Settings)
      requires Valid(c)
      ensures settings == c && View() == Start(c)
    {
      settings := c;
      current := c.initial;
      sleeps := [];
    }

    /** The constructor's two ValueErrors. */
    static method Make(c: Settings) returns (r: Result<PollingWorkerRuntime, string>)
      ensures r.Ok? <==> Valid(c)
      ensures r.Ok? ==> fresh(r.value) && r.value.settings == c && r.value.View() == Start(c)
      ensures r.Err? ==> r.error == if c.initial <= 0.0 then "error backoff initial value must be positive"
                                    else "error backoff maximum must be at least the initial value"
    {
      if c.initial <= 0.0 { return Err("error backoff initial value must be positive"); }
      if c.max < c.initial { return Err("error backoff maximum must be at least the initial value"); }
      var runtime := new PollingWorkerRuntime(c);
      r := Ok(runtime);
    }

    /** run_poll_cycle, whose run_once raises or not. */
    method RunPollCycle(raised: bool)
      modifies this
      ensures View() == Cycle(settings, old(View()), raised)
      ensures sleeps == old(sleeps) + [if raised then old(current) else settings.pollInterval]
      ensures !raised ==> current == settings.initial
      ensures raised && old(current) * 2.0 <= settings.max ==> current == old(current) * 2.0
      ensures raised && old(current) * 2.0 > settings.max ==> current == settings.max
    {
      if raised {
        var delay := current;
        current := MinReal(delay * 2.0, settings.max);
        sleeps := sleeps + [delay];
      } else {
        current := settings.initial;
        sleeps := sleeps + [settings.pollInterval];
      }
    }

    /** A worker's life as far as `raised` describes it. */
    method RunCycles(raised: seq<bool>)
      requires Valid(settings) && View() == Start(settings)
      modifies this
      ensures View() == Cycles(settings, raised)
      ensures |sleeps| == |raised|
      ensures forall i, k: nat :: 0 <= i < |raised| && FailuresBefore(raised, i, k) ==>
                SleepsFor(settings, k, raised[i], sleeps[i])
    {
      for i := 0 to |raised|
        invariant View() == Cycles(settings, raised[..i])
      {
        RunPollCycle(raised[i]);
        assert raised[..i + 1][..i] == raised[..i];
      }
      assert raised[..|raised|] == raised;
      CurrentIsCapped(settings, raised);
      forall i, k: nat | 0 <= i < |raised| && FailuresBefore(raised, i, k)
        ensures SleepsFor(settings, k, raised[i], sleeps[i])
      {
        ClosedForm(settings, raised, i, k);
      }
    }
  }
}
