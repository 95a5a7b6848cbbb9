/**
 * What polling on after a failed cycle can lose, message by message and event by event. An offset that is committed
 * past while open is no loss as long as another copy of its event, such as a resend leaves, is still to come.
 */
module Losses {
  import opened Common
  import opened Envelopes
  import opened Consumer

  // ----- every run -------------------------------------------------------------------------------

  /** The step polls on although the message in hand, at offset k, is not dealt with. */
  predicate Passes(s: State, step: Step, k: nat) {
    step.CarryOn? && !s.phase.Idle? && s.phase.at == k && IsOpen(s, k)
  }

  /** Some step of the run does. */
  predicate PolledPast(s: State, steps: seq<Step>, k: nat) {
    steps != [] && (PolledPast(s, steps[..|steps| - 1], k)
                    || Passes(Run(s, steps[..|steps| - 1]), steps[|steps| - 1], k))
  }

  /** The message at offset k is dealt with, or in hand. */
  predicate InHandOrSettled(s: State, k: nat) {
    k < |s.log| && (SettledAt(s, k) || (!s.phase.Idle? && s.phase.at == k))
  }

  lemma SettledStays(s: State, step: Step, k: nat)
    requires k < |s.log| && SettledAt(s, k)
    ensures k < |Next(s, step).log| && SettledAt(Next(s, step), k)
  {
  }

  /** A message leaves the hand dealt with, to be taken again, or by being polled past. */
  lemma OffsetStep(s: State, step: Step, k: nat)
    requires PhaseOk(s) && k < Next(s, step).position && (k < s.position ==> InHandOrSettled(s, k))
    ensures InHandOrSettled(Next(s, step), k) || Passes(s, step, k)
  {
    if k < s.position && SettledAt(s, k) { SettledStays(s, step, k); }
  }

  lemma {:induction false} RunKeepsSound(s: State, steps: seq<Step>)
    requires Sound(s)
    ensures Sound(Run(s, steps))
  {
    if steps != [] {
      RunKeepsSound(s, steps[..|steps| - 1]);
      StepKeepsSound(Run(s, steps[..|steps| - 1]), steps[|steps| - 1]);
    }
  }

  /** An offset once accounted for is so until it is polled past. */
  lemma OffsetGoesOn(s: State, step: Step, k: nat, passed: bool)
    requires PhaseOk(s) && k < Next(s, step).position && (k < s.position ==> InHandOrSettled(s, k) || passed)
    ensures InHandOrSettled(Next(s, step), k) || Passes(s, step, k) || passed
  {
    if !passed { OffsetStep(s, step, k); }
  }

  lemma {:induction false} EveryOffset(steps: seq<Step>, k: nat)
    requires k < Run(INITIAL, steps).position
    ensures InHandOrSettled(Run(INITIAL, steps), k) || PolledPast(INITIAL, steps, k)
  {
    if steps != [] {
      var before := steps[..|steps| - 1];
      RunKeepsSound(INITIAL, before);
      if k < Run(INITIAL, before).position { EveryOffset(before, k); }
      OffsetGoesOn(Run(INITIAL, before), steps[|steps| - 1], k, PolledPast(INITIAL, before, k));
    }
  }

  /**
   * Over every run, whatever follows its failures: each offset below the committed one is dead-lettered, or processed
   * after its handler committed, or was polled past while it was open.
   */
  lemma CommittedOrPolledPast(steps: seq<Step>, k: nat)
    requires k < Run(INITIAL, steps).committed
    ensures var s := Run(INITIAL, steps);
            k < |s.log|
            && (PolledPast(INITIAL, steps, k)
                || match s.log[k]
                   case Err(_) => k in s.deadLetters
                   case Ok(m) => m.eventId in s.processed && m.eventId in s.handles)
  {
    RunKeepsSound(INITIAL, steps);
    EveryOffset(steps, k);
  }

  // ----- events ------------------------------------------------------------------------------------

  /** A message at or behind `from` announces the same event as the one at k. */
  predicate HasCopyFrom(log: seq<Item>, k: nat, from: nat)
    requires k < |log|
  {
    exists j :: from <= j < |log| && SameEvent(log[k], log[j])
  }

  /** The message at offset k is lost: committed past, not dealt with, and no copy of its event is still to come. */
  predicate Lost(s: State, k: nat) {
    k < s.committed && IsOpen(s, k) && !HasCopyFrom(s.log, k, s.committed)
  }

  ghost predicate NothingLost(s: State) {
    forall k: nat :: !Lost(s, k)
  }

  /** The message at k is dealt with, or its event is in hand, or still to be polled. */
  predicate KeptAt(s: State, k: nat)
    requires k < |s.log|
  {
    || SettledAt(s, k)
    || (!s.phase.Idle? && s.phase.at < |s.log| && (k == s.phase.at || SameEvent(s.log[k], s.log[s.phase.at])))
    || HasCopyFrom(s.log, k, s.position)
  }

  predicate Kept(s: State) {
    s.position <= |s.log| && forall k :: 0 <= k < s.position ==> KeptAt(s, k)
  }

  /** The message in hand is already dealt with, or a copy of its event is still to be polled. */
  predicate MayRecover(s: State) {
    !s.phase.Idle? ==> s.phase.at < |s.log| && (SettledAt(s, s.phase.at) || HasCopyFrom(s.log, s.phase.at, s.position))
  }

  lemma MayCarryOnMayRecover(s: State)
    requires MayCarryOn(s)
    ensures MayRecover(s)
  {
  }

  lemma SameEventBoth(log: seq<Item>, j: nat, k: nat, from: nat)
    requires j < |log| && k < |log| && SameEvent(log[k], log[j]) && HasCopyFrom(log, j, from)
    ensures HasCopyFrom(log, k, from)
  {
    var i :| from <= i < |log| && SameEvent(log[j], log[i]);
    assert SameEvent(log[k], log[i]);
  }

  lemma SameEventSettles(s: State, j: nat, k: nat)
    requires j < |s.log| && k < |s.log| && SameEvent(s.log[k], s.log[j]) && SettledAt(s, j)
    ensures SettledAt(s, k)
  {
  }

  lemma CopyStays(s: State, step: Step, k: nat, from: nat)
    requires k < |s.log| && HasCopyFrom(s.log, k, from)
    ensures k < |Next(s, step).log| && HasCopyFrom(Next(s, step).log, k, from)
  {
    var j :| from <= j < |s.log| && SameEvent(s.log[k], s.log[j]);
    assert SameEvent(Next(s, step).log[k], Next(s, step).log[j]);
  }

  /** A restart takes up again everything from the committed offset on. */
  lemma RestartKeeps(s: State)
    requires PhaseOk(s) && Kept(s)
    ensures Kept(Next(s, Restart))
  {
    forall k | 0 <= k < s.committed ensures KeptAt(Next(s, Restart), k) {
      assert KeptAt(s, k);
      if HasCopyFrom(s.log, k, s.position) {
        var j :| s.position <= j < |s.log| && SameEvent(s.log[k], s.log[j]);
        assert s.committed <= j;
      }
    }
  }

  lemma PollKeeps(s: State)
    requires PhaseOk(s) && Kept(s)
    ensures Kept(Next(s, Poll))
  {
    if s.phase.Idle? && s.position < |s.log| {
      forall k | 0 <= k < s.position + 1 ensures KeptAt(Next(s, Poll), k) {
        if k < s.position && !SettledAt(s, k) {
          assert KeptAt(s, k);
          var j :| s.position <= j < |s.log| && SameEvent(s.log[k], s.log[j]);
          assert j == s.position || s.position + 1 <= j;
        }
      }
    }
  }

  /** Putting the message in hand down, dealt with or with a copy to come. */
  lemma PutDownKeeps(s: State, committed: nat)
    requires PhaseOk(s) && Kept(s) && MayRecover(s)
    ensures Kept(s.(phase := Idle, committed := committed))
  {
    var s' := s.(phase := Idle, committed := committed);
    forall k | 0 <= k < s.position ensures KeptAt(s', k) {
      assert KeptAt(s, k);
      if !s.phase.Idle? && SameEvent(s.log[k], s.log[s.phase.at]) && !HasCopyFrom(s.log, k, s.position) {
        if SettledAt(s, s.phase.at) {
          SameEventSettles(s, s.phase.at, k);
        } else {
          SameEventBoth(s.log, s.phase.at, k, s.position);
        }
      }
    }
  }

  /** The other steps deal with the message in hand, or are somebody else's. */
  lemma WorkKeeps(s: State, step: Step)
    requires PhaseOk(s) && Kept(s) && !step.Poll? && !step.Commit? && !step.Restart? && !step.CarryOn?
    ensures Kept(Next(s, step))
  {
    forall k | 0 <= k < s.position ensures k < |Next(s, step).log| && KeptAt(Next(s, step), k) {
      assert KeptAt(s, k);
      if SettledAt(s, k) { SettledStays(s, step, k); }
      if HasCopyFrom(s.log, k, s.position) { CopyStays(s, step, k, s.position); }
    }
  }

  lemma StepKeepsKept(s: State, step: Step)
    requires PhaseOk(s) && Kept(s) && (step.CarryOn? ==> MayRecover(s))
    ensures Kept(Next(s, step))
  {
    match step
    case Poll => PollKeeps(s);
    case Commit => if s.phase.Settled? { PutDownKeeps(s, s.position); }
    case Restart => RestartKeeps(s);
    case CarryOn => PutDownKeeps(s, s.committed);
    case _ => WorkKeeps(s, step);
  }

  /** Below the committed offset nothing is lost, as long as the events behind the position are kept. */
  lemma KeptLosesNothing(s: State)
    requires PhaseOk(s) && Kept(s)
    ensures NothingLost(s)
  {
    forall k: nat ensures !Lost(s, k) {
      if k < s.committed && IsOpen(s, k) {
        assert KeptAt(s, k);
        if HasCopyFrom(s.log, k, s.position) {
          var j :| s.position <= j < |s.log| && SameEvent(s.log[k], s.log[j]);
          assert s.committed <= j;
        }
      }
    }
  }

  /** So once the whole log is committed, all of it is dealt with. */
  lemma KeptToTheEnd(s: State, k: nat)
    requires PhaseOk(s) && Kept(s) && s.committed == |s.log| && k < |s.log|
    ensures SettledAt(s, k)
  {
    KeptLosesNothing(s);
    assert !Lost(s, k);
  }

  /** The settled prefix is one way to keep every event. */
  lemma InvKeeps(s: State)
    requires Inv(s)
    ensures Kept(s)
  {
    forall k | 0 <= k < s.position ensures KeptAt(s, k) {
      if k < s.committed { assert SettledAt(s, k); } else { assert Covered(s, k); }
    }
  }

  lemma {:induction false} RunKeepsKept(s: State, steps: seq<Step>)
    requires Sound(s) && Kept(s) && Disciplined(steps)
    ensures Sound(Run(s, steps)) && Kept(Run(s, steps))
  {
    if steps != [] {
      RunKeepsKept(s, steps[..|steps| - 1]);
      StepKeepsSound(Run(s, steps[..|steps| - 1]), steps[|steps| - 1]);
      StepKeepsKept(Run(s, steps[..|steps| - 1]), steps[|steps| - 1]);
    }
  }

  /** No later run whose failures restart ever loses an event. */
  ghost predicate LosesNothingFrom(s: State) {
    forall steps :: Disciplined(steps) ==> NothingLost(Run(s, steps))
  }

  lemma KeptIsSafe(s: State)
    requires Sound(s) && Kept(s)
    ensures LosesNothingFrom(s)
  {
    forall steps | Disciplined(steps) ensures NothingLost(Run(s, steps)) {
      RunKeepsKept(s, steps);
      KeptLosesNothing(Run(s, steps));
    }
  }

  /** With no copy to come, the next message in the topic commits the open one away for good. */
  lemma PassedIsLost(s: State) returns (steps: seq<Step>)
    requires Sound(s) && !MayRecover(s)
    ensures Disciplined(steps) && Lost(Run(Next(s, CarryOn), steps), s.phase.at)
  {
    var k := s.phase.at;
    var idle := Next(s, CarryOn);
    var item: Item := Err(InvalidJson);
    if s.position < |s.log| {
      assert !SameEvent(s.log[k], s.log[s.position]);
      steps := CommitPast(idle, k);
    } else {
      var grown := Next(idle, Append(item));
      assert IsOpen(grown, k);
      var rest := CommitPast(grown, k);
      steps := [Append(item)] + rest;
      Run1(idle, Append(item));
      RunConcat(idle, [Append(item)], rest);
    }
  }

  /**
   * Exactly when polling on after a failed cycle loses nothing: when the message in hand was already dealt with, or a
   * copy of its event is still to be polled, however far behind. Restarting never loses anything.
   */
  lemma CarryOnLosesNothingIff(s: State)
    requires Sound(s) && Kept(s)
    ensures LosesNothingFrom(Next(s, CarryOn)) <==> MayRecover(s)
    ensures LosesNothingFrom(Next(s, Restart))
  {
    StepKeepsSound(s, Restart);
    StepKeepsKept(s, Restart);
    KeptIsSafe(Next(s, Restart));
    if MayRecover(s) {
      StepKeepsSound(s, CarryOn);
      StepKeepsKept(s, CarryOn);
      KeptIsSafe(Next(s, CarryOn));
    } else {
      var steps := PassedIsLost(s);
    }
  }

  /** A copy further on makes the difference: polling on past a here leaves a, b, a with nothing lost. */
  lemma ResendIsRecovered(a: Message, b: Message) returns (failed: State)
    requires a.eventId != b.eventId
    ensures failed == Run(INITIAL, [Append(Ok(a)), Append(Ok(b)), Append(Ok(a))] + [Poll, Check])
    ensures failed.phase == New(0) && !MayCarryOn(failed) && LosesNothingFrom(Next(failed, CarryOn))
  {
    var log := [Append(Ok(a)), Append(Ok(b)), Append(Ok(a))];
    Run3(INITIAL, Append(Ok(a)), Append(Ok(b)), Append(Ok(a)));
    var s := Run(INITIAL, log);
    Run2(s, Poll, Check);
    RunConcat(INITIAL, log, [Poll, Check]);
    failed := Run(s, [Poll, Check]);
    assert SameEvent(failed.log[0], failed.log[2]);
    CarryOnLosesNothingIff(failed);
  }
}
