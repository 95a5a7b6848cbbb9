/** Exactly which events can still be processed, over everything any process may do from here on. */
module LostEvents {
  import opened Common
  import opened Envelopes
  import opened Pipeline
  import opened Progress
  import opened OverLimits
  import G = Guarantees
  import K = Consumer
  import L = Losses
  import O = Outbox

  /** A new entry carries e only if it is a send of row e. */
  lemma NewEntryIsNot(log: seq<O.Entry>, e: Id, k: nat)
    requires k < |log| && (log[k].Foreign? ==> Decode(log[k].raw).Err?) && (log[k].Sent? ==> log[k].eventId != e)
    ensures !G.Carries(Decoded(log), k, e)
  {
    if log[k].Sent? { DecodeEncode(log[k].eventId, log[k].event); }
  }

  /** What is being marked lies at or beyond the committed offset. */
  lemma MarkedIsAwaited(c: K.State)
    requires K.PhaseOk(c) && c.phase.Handled?
    ensures Awaited(c, c.log[c.phase.at].value.eventId)
  {
    assert G.Carries(c.log, c.phase.at, c.log[c.phase.at].value.eventId);
  }

  /** A consumer with nothing of e ahead never processes it, whatever it does next. */
  lemma ConsumerStaysAway(c: K.State, step: K.Step, e: Id)
    requires K.PhaseOk(c) && !Awaited(c, e) && (step.Append? ==> step.item.Err? || step.item.value.eventId != e)
    ensures !Awaited(K.Next(c, step), e)
  {
    var c' := K.Next(c, step);
    forall k: nat | G.Carries(c'.log, k, e) ensures k < c'.committed {
      if k < |c.log| { assert G.Carries(c.log, k, e); }
    }
    if step.Mark? && c.phase.Handled? { MarkedIsAwaited(c); }
  }

  /** What a publisher's step appends does not carry an event nobody may send any more. */
  lemma AppendedIsNot(o: O.State, x: O.Step, item: K.Item, e: Id)
    requires O.LogOk(O.Next(o, x)) && e in o.rows && !O.MayStillSend(o, e)
    requires Decoded(O.Next(o, x).log) == Decoded(o.log) + [item]
    ensures item.Ok? ==> item.value.eventId != e
  {
    O.SentForGood(o, x, e);
    var log := O.Next(o, x).log;
    assert |log| == |o.log| + 1 && Decoded(log)[|o.log|] == item;
    NewEntryIsNot(log, e, |o.log|);
  }

  lemma PublishStaysAway(s: State, x: O.Step, e: Id)
    requires IsReachable(s) && e in s.outbox.rows && !MayArrive(s, e) && !x.Add?
    ensures !Awaited(PublishStep(s, x).consumer, e)
  {
    LogIsDecoded(s);
    OutboxOk(s);
    ConsumerIsSound(s);
    var item := PublishAppends(s, x);
    if item.Some? {
      O.StepKeepsInv(s.outbox, x);
      AppendedIsNot(s.outbox, x, item.value, e);
      ConsumerStaysAway(s.consumer, K.Append(item.value), e);
    }
  }

  lemma ConsumerIsSound(s: State)
    requires IsReachable(s)
    ensures K.Sound(s.consumer)
  {
    var steps :| s == Run(INITIAL, steps);
    G.ConsumerIsSound(steps);
  }

  /** What a step of the pipeline is to the outbox. */
  lemma OutboxSteps(s: State, step: Step) returns (x: Option<O.Step>)
    ensures Next(s, step).outbox == if x.Some? then O.Next(s.outbox, x.value) else s.outbox
  {
    x := None;
    match step
    case Insert(c, id, eventId) =>
      if CanInsert(s, c, id, eventId) { x := Some(O.Add(eventId, EventFor(s.creation.callers[c].ticket, id))); }
    case Publish(y) => if !y.Add? { x := Some(y); }
    case Replay(r, ids, eventId) =>
      if Next(s, step).outbox != s.outbox { x := Some(O.Add(eventId, EventOfReplay(r, ids))); }
    case _ =>
  }

  lemma NotSentAgain(s: State, step: Step, e: Id)
    requires e in s.outbox.rows && !O.MayStillSend(s.outbox, e)
    ensures e in Next(s, step).outbox.rows && !O.MayStillSend(Next(s, step).outbox, e)
  {
    var x := OutboxSteps(s, step);
    if x.Some? {
      O.SentForGood(s.outbox, x.value, e);
      O.StepExtends(s.outbox, x.value);
    }
  }

  lemma StaysAway(s: State, step: Step, e: Id)
    requires IsReachable(s) && e in s.outbox.rows && !MayArrive(s, e)
    ensures !Awaited(Next(s, step).consumer, e)
  {
    ConsumerIsSound(s);
    match step
    case Ask(x) => AskConsumer(s, x);
    case Insert(c, id, eventId) => InsertConsumer(s, c, id, eventId);
    case Publish(x) => if !x.Add? { PublishStaysAway(s, x, e); }
    case Consume(x) => if OnlyConsumes(x) { ConsumerStaysAway(s.consumer, x, e); }
    case Handle(job) =>
      HandleIs(s, job);
      HandleNextConsumer(s, job);
      ConsumerStaysAway(s.consumer, K.Handle, e);
    case Work(x) => WorkConsumer(s, x);
    case Replay(r, ids, eventId) => ReplayConsumer(s, r, ids, eventId);
  }

  /** What can no longer arrive never does. */
  lemma {:induction false} GoneForGood(s: State, more: seq<Step>, e: Id)
    requires IsReachable(s) && e in s.outbox.rows && !MayArrive(s, e)
    ensures IsReachable(Run(s, more)) && e in Run(s, more).outbox.rows && !MayArrive(Run(s, more), e)
  {
    if more != [] {
      var before, step := more[..|more| - 1], more[|more| - 1];
      GoneForGood(s, before, e);
      StepReachable(Run(s, before), step);
      NotSentAgain(Run(s, before), step, e);
      StaysAway(Run(s, before), step, e);
    }
  }

  lemma CanBeProcessed(s: State, e: Id) returns (steps: seq<Step>, t: State)
    requires IsReachable(s) && e in s.outbox.rows && MayArrive(s, e)
    ensures Under(s, steps, t) && e in t.consumer.processed
  {
    var first, m := CanArrive(s, e);
    DesertedFits(m.fanout);
    var rest;
    rest, t := WorkThrough(m, Deserted(m.fanout));
    AwaitedIsProcessed(m.consumer, t.consumer, e);
    steps := Then(s, first, m, rest, t);
  }

  ghost predicate CanStillBeProcessed(s: State, e: Id) {
    exists more :: e in Run(s, more).consumer.processed
  }

  /**
   * In every reachable state: an event can still be processed if and only if it has been, or a log entry with it lies
   * at or beyond the committed offset, or its outbox row is still to be published, or somebody who claimed it has not
   * sent it yet. Otherwise it is lost, and no step of any process brings it back.
   */
  lemma CanStillBeProcessedIff(steps: seq<Step>, e: Id)
    requires e in Run(INITIAL, steps).outbox.rows
    ensures CanStillBeProcessed(Run(INITIAL, steps), e) <==> MayArrive(Run(INITIAL, steps), e)
  {
    var s := Run(INITIAL, steps);
    if MayArrive(s, e) {
      var more, t := CanBeProcessed(s, e);
    } else {
      forall more ensures e !in Run(s, more).consumer.processed { GoneForGood(s, more, e); }
    }
  }

  // ----- what polling on can lose for good -----------------------------------------------------------

  /** A publisher's step that appends nothing is nothing to the consumer. */
  lemma Quietly(s: State, steps: seq<Step>, t: State, x: O.Step) returns (steps': seq<Step>, t': State)
    requires Under(s, steps, t) && !x.Add? && O.Next(t.outbox, x).log == t.outbox.log
    ensures Under(s, steps', t') && t'.outbox == O.Next(t.outbox, x) && t'.consumer == t.consumer
  {
    LogIsDecoded(t);
    steps', t' := Publishing(s, steps, t, x);
  }

  function StillToSend(o: O.State, e: Id): set<Id> {
    set token | token in o.claims && O.ToBeSent(o, token, e)
  }

  /** Whoever still has to send e may do so without reaching the broker. */
  lemma {:induction false} CanMissAll(s: State, e: Id) returns (steps: seq<Step>, t: State)
    requires IsReachable(s) && e in s.outbox.rows && s.outbox.rows[e].status in {O.Published, O.FailedTerminal}
    ensures Under(s, steps, t) && t.consumer == s.consumer && !O.MayStillSend(t.outbox, e)
    decreases StillToSend(s.outbox, e)
  {
    if StillToSend(s.outbox, e) == {} {
      steps, t := [], s;
      assert forall token ::
               token in s.outbox.claims && O.ToBeSent(s.outbox, token, e) ==> token in StillToSend(s.outbox, e);
    } else {
      var token :| token in StillToSend(s.outbox, e);
      var first, m := Quietly(s, [], s, O.Send(token, O.Lost));
      assert StillToSend(m.outbox, e) == StillToSend(s.outbox, e) - {token};
      var rest;
      rest, t := CanMissAll(m, e);
      steps := Then(s, first, m, rest, t);
    }
  }

  /** No row need ever be sent again. */
  lemma CanBeGivenUp(s: State, e: Id) returns (steps: seq<Step>, t: State)
    requires IsReachable(s) && e in s.outbox.rows
    ensures Under(s, steps, t) && t.consumer == s.consumer && !O.MayStillSend(t.outbox, e)
  {
    var m := s;
    steps := [];
    if s.outbox.rows[e].status !in {O.Published, O.FailedTerminal} { steps, m := CanFailForGood(s, e); }
    var rest;
    rest, t := CanMissAll(m, e);
    steps := Then(s, steps, m, rest, t);
  }

  lemma CanFailForGood(s: State, e: Id) returns (steps: seq<Step>, t: State)
    requires IsReachable(s) && e in s.outbox.rows && s.outbox.rows[e].status !in {O.Published, O.FailedTerminal}
    ensures Under(s, steps, t) && t.consumer == s.consumer
    ensures e in t.outbox.rows && t.outbox.rows[e].status == O.FailedTerminal
  {
    OutboxOk(s);
    var claim, send, finish := O.CanGiveUp(s.outbox, e);
    LogOnlyGrows(s.outbox, claim, send, finish);
    steps, t := Quietly(s, [], s, claim);
    steps, t := Quietly(s, steps, t, send);
    steps, t := Quietly(s, steps, t, finish);
  }

  lemma LogOnlyGrows(o: O.State, a: O.Step, b: O.Step, c: O.Step)
    requires O.Next(O.Next(O.Next(o, a), b), c).log == o.log
    ensures O.Next(o, a).log == o.log && O.Next(O.Next(o, a), b).log == o.log
  {
    O.StepExtends(o, a);
    O.StepExtends(O.Next(o, a), b);
    O.StepExtends(O.Next(O.Next(o, a), b), c);
  }

  /** Every event that reached the log can still be processed, and what is no event is in the dead-letter topic. */
  ghost predicate NothingGone(s: State) {
    && (forall e :: G.ReachesConsumer(s, e) ==> CanStillBeProcessed(s, e))
    && (forall k :: 0 <= k < s.consumer.committed ==> DeadLettered(s.consumer, k))
  }

  predicate DeadLettered(c: K.State, k: nat) {
    k < |c.log| && (c.log[k].Err? ==> k in c.deadLetters)
  }

  /** No later run whose failures restart gets to where an event is gone. */
  ghost predicate NothingGoneFrom(s: State) {
    forall more :: Restarting(more) ==> NothingGone(Run(s, more))
  }

  lemma KeptIsNotGone(s: State)
    requires IsMindfullyReachable(s)
    ensures NothingGone(s)
  {
    ConsumerKeeps(s);
    L.KeptLosesNothing(s.consumer);
    forall e | G.ReachesConsumer(s, e) ensures CanStillBeProcessed(s, e) {
      KeptAwaits(s.consumer, e);
      EventHasRow(s, e);
      var more, t := CanBeProcessed(s, e);
    }
    forall k | 0 <= k < s.consumer.committed ensures DeadLettered(s.consumer, k) {
      assert !L.Lost(s.consumer, k);
    }
  }

  /** What the consumer can decode is an outbox row's. */
  lemma EventHasRow(s: State, e: Id)
    requires IsReachable(s) && G.ReachesConsumer(s, e)
    ensures e in s.outbox.rows
  {
    LogIsDecoded(s);
    OutboxOk(s);
    var k: nat :| G.Carries(s.consumer.log, k, e);
    MessageIsRow(s.outbox, k);
  }

  lemma MindfulGoesOn(s: State, step: Step)
    requires IsMindfullyReachable(s) && MindfulStep(s, step)
    ensures NothingGoneFrom(Next(s, step))
  {
    MindfulNext(s, step);
    forall more | Restarting(more) ensures NothingGone(Run(Next(s, step), more)) {
      MindfullyOn(Next(s, step), more);
      KeptIsNotGone(Run(Next(s, step), more));
    }
  }

  /** What is lost in the log is gone for good once nobody sends it again. */
  lemma LostIsGone(s: State, k: nat) returns (steps: seq<Step>, t: State)
    requires IsReachable(s) && L.Lost(s.consumer, k)
    ensures Under(s, steps, t) && !NothingGone(t)
  {
    if s.consumer.log[k].Err? {
      steps, t := [], s;
      assert !DeadLettered(t.consumer, k);
    } else {
      var e := s.consumer.log[k].value.eventId;
      assert G.Carries(s.consumer.log, k, e);
      EventHasRow(s, e);
      steps, t := CanBeGivenUp(s, e);
      LostIsNotAwaited(t.consumer, k);
      StillHasRow(t, e);
      forall more ensures e !in Run(t, more).consumer.processed { GoneForGood(t, more, e); }
      assert G.ReachesConsumer(t, e) && !CanStillBeProcessed(t, e);
    }
  }

  lemma StillHasRow(s: State, e: Id)
    requires IsReachable(s) && exists k: nat :: G.Carries(s.consumer.log, k, e)
    ensures e in s.outbox.rows
  {
    assert G.ReachesConsumer(s, e);
    EventHasRow(s, e);
  }

  lemma LostIsNotAwaited(c: K.State, k: nat)
    requires L.Lost(c, k) && c.log[k].Ok?
    ensures !Awaited(c, c.log[k].value.eventId)
  {
    forall j: nat | c.committed <= j ensures !G.Carries(c.log, j, c.log[k].value.eventId) {
      if j < |c.log| { assert !K.SameEvent(c.log[k], c.log[j]); }
    }
  }

  /**
   * Whatever processes do next: polling on after a cycle that raised can lose an event for good if and only if the
   * message in hand is not dealt with and no copy of its event is still to be polled. Restarting never can.
   */
  lemma CarryOnIsSafeForGoodIff(s: State)
    requires IsMindfullyReachable(s)
    ensures NothingGoneFrom(Next(s, Consume(K.CarryOn))) <==> L.MayRecover(s.consumer)
    ensures NothingGoneFrom(Next(s, Consume(K.Restart)))
  {
    MindfulGoesOn(s, Consume(K.Restart));
    if L.MayRecover(s.consumer) {
      MindfulGoesOn(s, Consume(K.CarryOn));
    } else {
      var steps := CanLoseForGood(s);
    }
  }

  lemma CanLoseForGood(s: State) returns (steps: seq<Step>)
    requires IsMindfullyReachable(s) && !L.MayRecover(s.consumer)
    ensures Restarting(steps) && !NothingGone(Run(Next(s, Consume(K.CarryOn)), steps))
  {
    ConsumerKeeps(s);
    var first := PassedIsLost(s);
    var on := Next(s, Consume(K.CarryOn));
    StepReachable(s, Consume(K.CarryOn));
    RunReachable(on, first);
    var m := Run(on, first);
    var rest, t := LostIsGone(m, s.consumer.phase.at);
    steps := Then(on, first, m, rest, t);
  }

  lemma {:induction false} RunReachable(s: State, steps: seq<Step>)
    requires IsReachable(s)
    ensures IsReachable(Run(s, steps))
  {
    if steps != [] {
      RunReachable(s, steps[..|steps| - 1]);
      StepReachable(Run(s, steps[..|steps| - 1]), steps[|steps| - 1]);
    }
  }
}
