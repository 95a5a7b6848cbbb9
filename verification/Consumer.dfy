/**
 * The consumer's offset protocol: take a message, dead-letter it or run the handler and record its event id,
 * then commit the offset. A process may die between any two of these; a cycle that raises may be followed by a
 * restart at the committed offset, or by more polling from where the consumer stands.
 */
module Consumer {
  import opened Common
  import opened Envelopes

  /** What consume_one makes of one log entry. */
  type Item = Result<Message, DecodeError>

  /** Where run_once is with the message at an offset. */
  datatype Phase = Idle | Holding(at: nat) | New(at: nat) | Handled(at: nat) | Settled(at: nat)

  /**
   * log, committed, deadLetters, processed and handles are durable; position and phase die with the process.
   * deadLetters is the dead-letter topic by offset, handles the events whose handler ran to its commit.
   */
  datatype State = State(
    log: seq<Item>,
    committed: nat,
    deadLetters: seq<nat>,
    processed: set<Id>,
    handles: seq<Id>,
    position: nat,
    phase: Phase)

  const INITIAL := State([], 0, [], {}, [], 0, Idle)

  datatype Step =
    | Append(item: Item)
    | Poll
    | DeadLetter
    | Check
    | Handle
    | Mark
    | Commit
    | Restart
    | CarryOn

  /** `Restart` is a crash or a rebalance, `CarryOn` an exception after which the same consumer polls on. */
  function Next(s: State, step: Step): State {
    match step
    case Append(item) => s.(log := s.log + [item])
    case Poll =>
      if s.phase.Idle? && s.position < |s.log| then s.(phase := Holding(s.position), position := s.position + 1) else s
    case DeadLetter =>
      if s.phase.Holding? && s.phase.at < |s.log| && s.log[s.phase.at].Err?
      then s.(deadLetters := s.deadLetters + [s.phase.at], phase := Settled(s.phase.at)) else s
    case Check =>
      if s.phase.Holding? && s.phase.at < |s.log| && s.log[s.phase.at].Ok?
      then s.(phase := if s.log[s.phase.at].value.eventId in s.processed then Settled(s.phase.at) else New(s.phase.at))
        else s
    case Handle =>
      if s.phase.New? && s.phase.at < |s.log| && s.log[s.phase.at].Ok?
      then s.(handles := s.handles + [s.log[s.phase.at].value.eventId], phase := Handled(s.phase.at)) else s
    case Mark =>
      if s.phase.Handled? && s.phase.at < |s.log| && s.log[s.phase.at].Ok?
      then s.(processed := s.processed + {s.log[s.phase.at].value.eventId}, phase := Settled(s.phase.at)) else s
    case Commit => if s.phase.Settled? then s.(committed := s.position, phase := Idle) else s
    case Restart => s.(position := s.committed, phase := Idle)
    case CarryOn => s.(phase := Idle)
  }

  function Run(s: State, steps: seq<Step>): State {
    if steps == [] then s else Next(Run(s, steps[..|steps| - 1]), steps[|steps| - 1])
  }

  // ----- what must never be lost -----------------------------------------------------------------

  /** The message at offset k is dealt with: dead-lettered, or its event recorded as processed. */
  predicate SettledAt(s: State, k: nat)
    requires k < |s.log|
  {
    match s.log[k]
    case Err(_) => k in s.deadLetters
    case Ok(m) => m.eventId in s.processed
  }

  /** No offset below the committed one is open: a consumer that starts there misses nothing. */
  predicate PrefixSettled(s: State) {
    s.committed <= |s.log| && forall k :: 0 <= k < s.committed ==> SettledAt(s, k)
  }

  predicate SameEvent(a: Item, b: Item) {
    a.Ok? && b.Ok? && a.value.eventId == b.value.eventId
  }

  /** The offset in hand, or while idle the one that comes next. */
  function Current(s: State): nat {
    if s.phase.Idle? then s.position else s.phase.at
  }

  /** An open offset behind the current one is harmless only if settling the current one settles it too. */
  predicate Covered(s: State, k: nat)
    requires k < |s.log|
  {
    SettledAt(s, k) || k == Current(s) || (Current(s) < |s.log| && SameEvent(s.log[k], s.log[Current(s)]))
  }

  predicate PhaseOk(s: State) {
    && s.committed <= s.position <= |s.log|
    && (!s.phase.Idle? ==> s.committed <= s.phase.at && s.position == s.phase.at + 1)
    && (s.phase.New? || s.phase.Handled? ==> s.log[s.phase.at].Ok?)
    && (s.phase.Handled? ==> s.log[s.phase.at].value.eventId in s.handles)
    && (s.phase.Settled? ==> SettledAt(s, s.phase.at))
  }

  /** What every step keeps, whatever happens after a cycle that raised. */
  predicate Sound(s: State) {
    && PhaseOk(s)
    && (forall id :: id in s.processed ==> id in s.handles)
    && (forall k :: k in s.deadLetters ==> k < |s.log| && s.log[k].Err?)
  }

  lemma StepKeepsSound(s: State, step: Step)
    requires Sound(s)
    ensures Sound(Next(s, step))
  {
    forall k | 0 <= k < |s.log| && SettledAt(s, k) ensures SettledAt(Next(s, step), k) {
    }
  }

  predicate Inv(s: State) {
    && Sound(s)
    && PrefixSettled(s)
    && (forall k :: s.committed <= k < s.position ==> Covered(s, k))
  }

  lemma StepKeepsInv(s: State, step: Step)
    requires Inv(s) && !step.CarryOn?
    ensures Inv(Next(s, step))
  {
    var s' := Next(s, step);
    StepKeepsSound(s, step);
    forall k | s'.committed <= k < s'.position ensures Covered(s', k) { CoveredStays(s, step, k); }
    forall k | 0 <= k < s'.committed ensures SettledAt(s', k) { PrefixStays(s, step, k); }
  }

  lemma CoveredStays(s: State, step: Step, k: nat)
    requires Inv(s) && !step.CarryOn? && Next(s, step).committed <= k < Next(s, step).position
    ensures k < |Next(s, step).log| && Covered(Next(s, step), k)
  {
    if s.committed <= k < s.position { assert Covered(s, k); }
  }

  lemma PrefixStays(s: State, step: Step, k: nat)
    requires Inv(s) && !step.CarryOn? && k < Next(s, step).committed
    ensures k < |Next(s, step).log| && SettledAt(Next(s, step), k)
  {
    if k < s.committed { assert SettledAt(s, k); } else { assert Covered(s, k); }
  }

  // ----- a cycle that fails restarts at the committed offset --------------------------------------

  predicate Disciplined(steps: seq<Step>) {
    forall i :: 0 <= i < |steps| ==> !steps[i].CarryOn?
  }

  lemma {:induction false} RunKeepsInv(s: State, steps: seq<Step>)
    requires Inv(s) && Disciplined(steps)
    ensures Inv(Run(s, steps))
  {
    if steps != [] {
      RunKeepsInv(s, steps[..|steps| - 1]);
      StepKeepsInv(Run(s, steps[..|steps| - 1]), steps[|steps| - 1]);
    }
  }

  /**
   * Dedup row before offset commit: over every run whose failures restart at the committed offset, with crashes
   * anywhere, each offset below the committed one is dead-lettered, or processed after its handler committed.
   */
  lemma NothingBelowCommitIsLost(steps: seq<Step>, k: nat)
    requires Disciplined(steps) && k < Run(INITIAL, steps).committed
    ensures var s := Run(INITIAL, steps);
            k < |s.log|
            && match s.log[k]
               case Err(_) => k in s.deadLetters
               case Ok(m) => m.eventId in s.processed && m.eventId in s.handles
  {
    RunKeepsInv(INITIAL, steps);
    assert SettledAt(Run(INITIAL, steps), k);
  }

  // ----- a cycle that fails and polls on ---------------------------------------------------------

  /** No later run, itself disciplined, ever commits past an open offset. */
  ghost predicate SafeFrom(s: State) {
    forall steps :: Disciplined(steps) ==> PrefixSettled(Run(s, steps))
  }

  /** The message in hand is already dealt with, or the very next one announces the same event. */
  predicate MayCarryOn(s: State) {
    !s.phase.Idle? ==>
      s.phase.at < |s.log|
      && (SettledAt(s, s.phase.at) || (s.position < |s.log| && SameEvent(s.log[s.phase.at], s.log[s.position])))
  }

  lemma CarryOnKeepsInv(s: State)
    requires Inv(s) && MayCarryOn(s)
    ensures Inv(Next(s, CarryOn))
  {
    var s' := Next(s, CarryOn);
    forall k | 0 <= k < s'.committed ensures SettledAt(s', k) { assert SettledAt(s, k); }
    forall k | s'.committed <= k < s'.position ensures Covered(s', k) { assert Covered(s, k); }
  }

  lemma RunSnoc(s: State, steps: seq<Step>, step: Step)
    ensures Run(s, steps + [step]) == Next(Run(s, steps), step)
  {
  }

  predicate IsOpen(s: State, k: nat) { k < |s.log| && !SettledAt(s, k) }

  lemma Run1(s: State, a: Step)
    ensures Run(s, [a]) == Next(s, a)
  {
  }

  lemma {:induction false} RunConcat(s: State, a: seq<Step>, b: seq<Step>)
    ensures Run(s, a + b) == Run(Run(s, a), b)
  {
    if b == [] {
      assert a + b == a;
    } else {
      RunConcat(s, a, b[..|b| - 1]);
      assert (a + b)[..|a + b| - 1] == a + b[..|b| - 1];
    }
  }

  /** The next message is taken, settled and committed, and the open offset k behind it stays open. */
  lemma CommitPast(s: State, k: nat) returns (steps: seq<Step>)
    requires s.phase.Idle? && k < s.position < |s.log| && IsOpen(s, k) && !SameEvent(s.log[k], s.log[s.position])
    ensures Disciplined(steps)
    ensures k < Run(s, steps).committed && Run(s, steps).log == s.log && IsOpen(Run(s, steps), k)
  {
    var t;
    steps := SettleNext(s);
    steps, t := Do(s, steps, Commit);
  }

  /** The next message is taken and dealt with; nothing but it is settled by that. */
  lemma SettleNext(s: State) returns (steps: seq<Step>)
    requires s.phase.Idle? && s.position < |s.log|
    ensures Disciplined(steps)
    ensures var t := Run(s, steps);
            && t.phase == Settled(s.position) && t.position == s.position + 1 && t.log == s.log
            && t.deadLetters == s.deadLetters + (if s.log[s.position].Err? then [s.position] else [])
            && t.processed == s.processed + (if s.log[s.position].Ok? then {s.log[s.position].value.eventId} else {})
  {
    var item := s.log[s.position];
    var held := Next(s, Poll);
    if item.Err? {
      steps := [Poll, DeadLetter];
      Run2(s, Poll, DeadLetter);
    } else if item.value.eventId in s.processed {
      steps := [Poll, Check];
      Run2(s, Poll, Check);
      assert s.processed + {item.value.eventId} == s.processed;
    } else {
      steps := [Poll, Check] + [Handle, Mark];
      Run2(s, Poll, Check);
      Run2(Next(held, Check), Handle, Mark);
      RunConcat(s, [Poll, Check], [Handle, Mark]);
    }
  }

  lemma Run3(s: State, a: Step, b: Step, c: Step)
    ensures Run(s, [a, b, c]) == Next(Next(Next(s, a), b), c)
  {
    Run2(s, a, b);
    RunSnoc(s, [a, b], c);
    assert [a, b] + [c] == [a, b, c];
  }

  lemma Run2(s: State, a: Step, b: Step)
    ensures Run(s, [a, b]) == Next(Next(s, a), b)
  {
    Run1(s, a);
    RunSnoc(s, [a], b);
    assert [a] + [b] == [a, b];
  }

  /** One more step of a run. */
  lemma Do(s: State, steps: seq<Step>, step: Step) returns (steps': seq<Step>, t: State)
    requires !step.CarryOn? && Disciplined(steps)
    ensures steps' == steps + [step] && Disciplined(steps')
    ensures t == Run(s, steps') == Next(Run(s, steps), step)
  {
    steps' := steps + [step];
    RunSnoc(s, steps, step);
    t := Run(s, steps');
  }

  /** Polling on past an open message commits it away: one more message in the topic is enough. */
  lemma CarryOnLoses(s: State) returns (steps: seq<Step>)
    requires Inv(s) && !MayCarryOn(s)
    ensures Disciplined(steps) && !PrefixSettled(Run(Next(s, CarryOn), steps))
  {
    var k := s.phase.at;
    var idle := Next(s, CarryOn);
    var item: Item := Err(InvalidJson);
    if s.position < |s.log| {
      steps := CommitPast(idle, k);
    } else {
      var grown := Next(idle, Append(item));
      assert IsOpen(grown, k);
      var rest := CommitPast(grown, k);
      steps := [Append(item)] + rest;
      Run1(idle, Append(item));
      RunConcat(idle, [Append(item)], rest);
    }
    assert !SettledAt(Run(idle, steps), k);
  }

  /**
   * Exactly when polling on after a failed cycle never leaves an open offset behind the committed one: when the message
   * in hand was already dealt with, or the next one announces the same event. Restarting at the committed offset never
   * does. An offset left behind is not yet an event lost; `Losses` says when it is.
   */
  lemma CarryOnSafeIff(s: State)
    requires Inv(s)
    ensures SafeFrom(Next(s, CarryOn)) <==> MayCarryOn(s)
    ensures SafeFrom(Next(s, Restart))
  {
    StepKeepsInv(s, Restart);
    forall steps | Disciplined(steps) ensures PrefixSettled(Run(Next(s, Restart), steps)) {
      RunKeepsInv(Next(s, Restart), steps);
    }
    if MayCarryOn(s) {
      CarryOnKeepsInv(s);
      forall steps | Disciplined(steps) ensures PrefixSettled(Run(Next(s, CarryOn), steps)) {
        RunKeepsInv(Next(s, CarryOn), steps);
      }
    } else {
      var steps := CarryOnLoses(s);
    }
  }

  /** The smallest such loss: the handler raises on the first message, the second is processed, the first is gone. */
  lemma HandlerFailureLosesMessage(a: Message, b: Message) returns (failed: State, steps: seq<Step>)
    requires a.eventId != b.eventId
    ensures failed == Next(Next(Next(Next(INITIAL, Append(Ok(a))), Append(Ok(b))), Poll), Check)
            && failed.phase == New(0)
    ensures var s := Run(Next(failed, CarryOn), steps);
            Disciplined(steps) && s.committed > 0 && a.eventId !in s.processed
  {
    failed := Next(Next(Next(Next(INITIAL, Append(Ok(a))), Append(Ok(b))), Poll), Check);
    steps := CommitPast(Next(failed, CarryOn), 0);
    assert failed.log[0] == Ok(a);
  }
}
