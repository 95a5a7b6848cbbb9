/**
 * What an event whose fanout exceeds the limits does to the consumer. If every cycle that raises restarts, the event is
 * never passed, nor anything behind it; the runtime, which polls on, loses it at its next commit.
 */
module OverLimits {
  import opened Common
  import opened Envelopes
  import opened Pipeline
  import opened Progress
  import A = Audience
  import C = Creation
  import D = Deliveries
  import F = Fanout
  import G = Guarantees
  import I = Idempotency
  import K = Consumer
  import L = Losses
  import O = Outbox
  import R = Replays

  /** Offset k carries event e about n, and its handler has never succeeded. */
  predicate Unhandled(s: State, k: nat, e: Id, n: Id, notification: F.Notification) {
    && k < |s.consumer.log| && s.consumer.log[k].Ok? && s.consumer.log[k].value.eventId == e
    && NotificationOf(s.consumer.log[k].value.payload) == Some(n)
    && e !in s.consumer.handles
    && n in s.fanout.notifications
    && s.fanout.notifications[n].audience == notification.audience
    && s.fanout.notifications[n].channels == notification.channels
  }

  /** Whoever handles n sees this directory under these limits. */
  predicate HandledAt(step: Step, site: Site, n: Id) {
    step.Handle? && step.job.notificationId == n ==>
      && n in site.items
      && step.job == JobFor(site, n, step.job.recipientIds, step.job.deliveryIds).(now := step.job.now)
  }

  lemma TooManyCannotFan(f: F.State, site: Site, n: Id, step: Step)
    requires n in f.notifications && !Fits(f.notifications[n], site, n) && HandledAt(step, site, n)
    requires step.Handle? && step.job.notificationId == n
    ensures !F.CanFan(f, step.job)
  {
  }

  /** Two messages with one event id say the same. */
  lemma SameMessage(s: State, j: nat, k: nat)
    requires IsReachable(s) && j < |s.consumer.log| && k < |s.consumer.log| && s.consumer.log[j].Ok?
             && s.consumer.log[k].Ok?
    requires s.consumer.log[j].value.eventId == s.consumer.log[k].value.eventId
    ensures s.consumer.log[j].value.payload == s.consumer.log[k].value.payload
  {
    var steps :| s == Run(INITIAL, steps);
    Reachable(steps);
    MessageIsRow(s.outbox, j);
    MessageIsRow(s.outbox, k);
  }

  lemma AskConsumer(s: State, x: C.Step)
    ensures Next(s, Ask(x)).consumer == s.consumer
  {
  }

  lemma InsertConsumer(s: State, c: nat, id: Id, eventId: Id)
    ensures Next(s, Insert(c, id, eventId)).consumer == s.consumer
  {
  }

  lemma WorkConsumer(s: State, x: D.Step)
    ensures Next(s, Work(x)).consumer == s.consumer
  {
  }

  lemma ReplayConsumer(s: State, r: R.Retry, ids: seq<Id>, eventId: Id)
    ensures Next(s, Replay(r, ids, eventId)).consumer == s.consumer
  {
  }

  lemma PublishConsumer(s: State, x: O.Step, k: nat)
    requires s.consumer.log == Decoded(s.outbox.log) && k < |s.consumer.log|
    ensures var c := Next(s, Publish(x)).consumer;
            c.handles == s.consumer.handles && k < |c.log| && c.log[k] == s.consumer.log[k]
  {
    if !x.Add? { PublishQuiet(s.outbox, x); }
  }

  lemma ConsumeConsumer(s: State, x: K.Step)
    ensures var c := Next(s, Consume(x)).consumer; c.handles == s.consumer.handles && c.log == s.consumer.log
  {
    if OnlyConsumes(x) { ConsumeQuiet(s.consumer, x); }
  }

  lemma HandleNextConsumer(s: State, job: F.Job)
    ensures HandleNext(s, job).consumer == if CanHandle(s, job) then K.Next(s.consumer, K.Handle) else s.consumer
  {
  }

  lemma HandleQuiet(c: K.State)
    ensures var c' := K.Next(c, K.Handle);
            && c'.log == c.log
            && (c.phase.New? && c.phase.at < |c.log| && c.log[c.phase.at].Ok? ==>
                  c'.handles == c.handles + [c.log[c.phase.at].value.eventId])
  {
  }

  /** Only a handler that succeeds adds to what was handled, and that is the event in hand. */
  lemma HandleConsumer(s: State, job: F.Job, e: Id)
    requires e !in s.consumer.handles
    requires !(CanHandle(s, job) && s.consumer.log[s.consumer.phase.at].value.eventId == e)
    ensures HandleNext(s, job).consumer.log == s.consumer.log && e !in HandleNext(s, job).consumer.handles
  {
    HandleNextConsumer(s, job);
    HandleQuiet(s.consumer);
  }

  lemma ConsumerStep(s: State, step: Step, k: nat, e: Id)
    requires IsReachable(s) && k < |s.consumer.log| && e !in s.consumer.handles
    requires step.Handle? ==> !(CanHandle(s, step.job) && s.consumer.log[s.consumer.phase.at].value.eventId == e)
    ensures var c := Next(s, step).consumer;
            k < |c.log| && c.log[k] == s.consumer.log[k] && e !in c.handles
  {
    match step
    case Ask(x) => AskConsumer(s, x);
    case Insert(c, id, eventId) => InsertConsumer(s, c, id, eventId);
    case Publish(x) =>
      LogIsDecoded(s);
      PublishConsumer(s, x, k);
    case Consume(x) => ConsumeConsumer(s, x);
    case Handle(job) =>
      HandleIs(s, job);
      HandleConsumer(s, job, e);
    case Work(x) => WorkConsumer(s, x);
    case Replay(r, ids, eventId) => ReplayConsumer(s, r, ids, eventId);
  }

  lemma ReplayIs(s: State, r: R.Retry, ids: seq<Id>, eventId: Id)
    ensures var f := Next(s, Replay(r, ids, eventId)).fanout;
            f == s.fanout || f == F.Next(s.fanout, F.Work(D.Replay(r.eligible, r.candidate, r.at)))
  {
  }

  lemma RequestStays(s: State, step: Step, n: Id)
    requires n in s.fanout.notifications
    ensures F.Keeps(s.fanout, Next(s, step).fanout, n)
  {
    match step
    case Insert(c, id, eventId) =>
      if CanInsert(s, c, id, eventId) {
        F.RecipientsStep(s.fanout, F.Create(id, A.Store(s.creation.callers[c].ticket.call.request.audience),
                                            s.creation.callers[c].ticket.call.request.channels), n);
      }
    case Handle(job) =>
      HandleIs(s, job);
      F.RecipientsStep(s.fanout, F.Fan(job), n);
    case Work(x) => F.RecipientsStep(s.fanout, F.Work(x), n);
    case Replay(r, ids, eventId) =>
      ReplayIs(s, r, ids, eventId);
      F.RecipientsStep(s.fanout, F.Work(D.Replay(r.eligible, r.candidate, r.at)), n);
    case _ =>
  }

  lemma CannotHandle(s: State, step: Step, site: Site, k: nat, e: Id, n: Id, notification: F.Notification)
    requires IsReachable(s) && Unhandled(s, k, e, n, notification) && !Fits(notification, site, n)
             && HandledAt(step, site, n)
    ensures step.Handle? ==> !(CanHandle(s, step.job) && s.consumer.log[s.consumer.phase.at].value.eventId == e)
  {
    var c := s.consumer;
    if step.Handle? && c.phase.New? && c.phase.at < |c.log| && c.log[c.phase.at].Ok?
        && c.log[c.phase.at].value.eventId == e {
      SameMessage(s, c.phase.at, k);
      if step.job.notificationId == n { TooManyCannotFan(s.fanout, site, n, step); }
    }
  }

  lemma StaysUnhandled(s: State, step: Step, site: Site, k: nat, e: Id, n: Id, notification: F.Notification)
    requires IsReachable(s) && Unhandled(s, k, e, n, notification) && !Fits(notification, site, n)
             && HandledAt(step, site, n)
    ensures Unhandled(Next(s, step), k, e, n, notification)
  {
    CannotHandle(s, step, site, k, e, n, notification);
    ConsumerStep(s, step, k, e);
    RequestStays(s, step, n);
  }

  /** s is where a run stands that polled on only where `MayCarryOn` allows it. */
  ghost predicate IsCarefullyReachable(s: State) {
    exists steps :: Careful(INITIAL, steps) && s == Run(INITIAL, steps)
  }

  lemma CarefullyOn(s: State, more: seq<Step>)
    requires IsCarefullyReachable(s) && Careful(s, more)
    ensures IsCarefullyReachable(Run(s, more))
  {
    var steps :| Careful(INITIAL, steps) && s == Run(INITIAL, steps);
    CarefulConcat(INITIAL, steps, more);
    RunConcat(INITIAL, steps, more);
  }

  lemma ConsumerOk(s: State)
    requires IsCarefullyReachable(s)
    ensures K.Inv(s.consumer) && IsReachable(s)
  {
    var steps :| Careful(INITIAL, steps) && s == Run(INITIAL, steps);
    CarefullyReachable(steps);
  }

  lemma {:induction false} RemainsUnhandled(s: State, more: seq<Step>, site: Site, k: nat, e: Id, n: Id,
          notification: F.Notification)
    requires IsReachable(s) && Unhandled(s, k, e, n, notification) && !Fits(notification, site, n)
    requires forall i :: 0 <= i < |more| ==> HandledAt(more[i], site, n)
    ensures IsReachable(Run(s, more)) && Unhandled(Run(s, more), k, e, n, notification)
  {
    if more != [] {
      RemainsUnhandled(s, more[..|more| - 1], site, k, e, n, notification);
      StaysUnhandled(Run(s, more[..|more| - 1]), more[|more| - 1], site, k, e, n, notification);
      StepReachable(Run(s, more[..|more| - 1]), more[|more| - 1]);
    }
  }

  /**
   * An event whose fanout exceeds the limits stops a consumer that restarts whenever a cycle raises: however the run
   * goes on, as long as the directory and the limits stay as they are, its offset is never committed, nor any behind.
   */
  lemma OverLimitBlocks(s: State, more: seq<Step>, site: Site, k: nat, e: Id, n: Id)
    requires IsCarefullyReachable(s) && Careful(s, more)
    requires n in s.fanout.notifications && Unhandled(s, k, e, n, s.fanout.notifications[n])
    requires !Fits(s.fanout.notifications[n], site, n)
    requires forall i :: 0 <= i < |more| ==> HandledAt(more[i], site, n)
    ensures Run(s, more).consumer.committed <= k && e !in Run(s, more).consumer.processed
  {
    ConsumerOk(s);
    CarefullyOn(s, more);
    RemainsUnhandled(s, more, site, k, e, n, s.fanout.notifications[n]);
    NotCommitted(Run(s, more), k);
  }

  lemma NotCommitted(s: State, k: nat)
    requires IsCarefullyReachable(s) && k < |s.consumer.log| && s.consumer.log[k].Ok?
    requires s.consumer.log[k].value.eventId !in s.consumer.handles
    ensures s.consumer.committed <= k && s.consumer.log[k].value.eventId !in s.consumer.processed
  {
    ConsumerOk(s);
    assert k < s.consumer.committed ==> K.SettledAt(s.consumer, k);
  }

  // ----- exactly when polling on is safe -----------------------------------------------------------

  /** No later run whose failures restart ever commits past an open offset. */
  ghost predicate SafeFrom(s: State) {
    forall more :: Restarting(more) ==> K.PrefixSettled(Run(s, more).consumer)
  }

  /** The labels of a stored audience, listed in some order. */
  ghost function Listed(labels: map<string, string>): (items: seq<A.Label>)
    ensures A.ItemsOf(items, labels)
  {
    if labels == map[] then []
    else
      var k :| k in labels;
      var rest := Listed(labels - {k});
      ListOneMore(labels, rest, k);
      rest + [(k, labels[k])]
  }

  lemma ListOneMore(labels: map<string, string>, rest: seq<A.Label>, k: string)
    requires k in labels && A.ItemsOf(rest, labels - {k})
    ensures A.ItemsOf(rest + [(k, labels[k])], labels)
  {
    A.DictKeys(rest);
    assert (rest + [(k, labels[k])])[..|rest|] == rest;
  }

  const NOBODY := A.Directory({}, {}, {})

  ghost function ItemsFor(audience: A.Stored): seq<A.Label> {
    if audience.StoredLabels? then Listed(audience.labels) else []
  }

  /** A site at which every fanout fits: nobody is in the directory. */
  ghost function Deserted(f: F.State): Site {
    Site(NOBODY, map n | n in f.notifications :: ItemsFor(f.notifications[n].audience), 0, 0)
  }

  lemma DesertedFits(f: F.State)
    ensures AllFit(f, Deserted(f))
  {
    forall n | n in f.notifications ensures Fits(f.notifications[n], Deserted(f), n) {
      NobodySelected(f.notifications[n].audience);
    }
  }

  lemma NobodySelected(audience: A.Stored)
    ensures A.ResolveStored(NOBODY, audience, ItemsFor(audience)) == []
  {
  }

  /** The next message is taken, settled and committed, and the open offset k behind it stays open. */
  lemma CommitPast(s: State, k: nat) returns (steps: seq<Step>, t: State)
    requires IsReachable(s) && s.consumer.phase.Idle? && k < s.consumer.position < |s.consumer.log|
    requires !K.SettledAt(s.consumer, k) && !K.SameEvent(s.consumer.log[k], s.consumer.log[s.consumer.position])
    ensures Under(s, steps, t) && t.consumer.committed == s.consumer.position + 1 && t.consumer.log == s.consumer.log
    ensures !K.SettledAt(t.consumer, k)
  {
    DesertedFits(s.fanout);
    steps, t := Consuming(s, [], s, K.Poll);
    steps, t := Deal(s, steps, t, Deserted(s.fanout));
    steps, t := Consuming(s, steps, t, K.Commit);
  }

  const GARBAGE := Raw(None, NotJson)

  lemma Polluting(s: State) returns (steps: seq<Step>, t: State)
    requires IsReachable(s)
    ensures Under(s, steps, t) && NobodyHandles(steps) && t.fanout == s.fanout && t.outbox.rows == s.outbox.rows
    ensures t.consumer == s.consumer.(log := s.consumer.log + [Err(InvalidJson)])
  {
    LogIsDecoded(s);
    DecodedSnoc(s.outbox.log, O.Foreign(GARBAGE));
    steps, t := OneMore(s, [], s, Publish(O.Poison(GARBAGE)));
  }

  /** Bytes from elsewhere are dead-lettered and committed, whatever lies open behind them. */
  lemma CommitGarbage(s: State) returns (steps: seq<Step>, t: State)
    requires IsReachable(s) && s.consumer.phase.Idle? && s.consumer.position == |s.consumer.log|
    ensures Under(s, steps, t) && NobodyHandles(steps) && t.fanout == s.fanout && t.outbox.rows == s.outbox.rows
    ensures t.consumer == s.consumer.(
              log := s.consumer.log + [Err(InvalidJson)],
              deadLetters := s.consumer.deadLetters + [|s.consumer.log|],
              position := |s.consumer.log| + 1,
              committed := |s.consumer.log| + 1)
  {
    steps, t := Polluting(s);
    steps, t := Consuming(s, steps, t, K.Poll);
    steps, t := Consuming(s, steps, t, K.DeadLetter);
    steps, t := Consuming(s, steps, t, K.Commit);
  }

  lemma CarryOnLoses(s: State) returns (steps: seq<Step>)
    requires IsCarefullyReachable(s) && !K.MayCarryOn(s.consumer)
    ensures Restarting(steps) && !K.PrefixSettled(Run(Next(s, Consume(K.CarryOn)), steps).consumer)
  {
    ConsumerOk(s);
    StepReachable(s, Consume(K.CarryOn));
    var k, idle, t := s.consumer.phase.at, Next(s, Consume(K.CarryOn)), s;
    if s.consumer.position < |s.consumer.log| {
      steps, t := CommitPast(idle, k);
      assert !K.SettledAt(t.consumer, k);
    } else {
      steps, t := CommitGarbage(idle);
      assert !K.SettledAt(t.consumer, k);
    }
  }

  lemma CarefulIsSafe(s: State, step: Step)
    requires IsCarefullyReachable(s) && CarefulStep(s, step)
    ensures SafeFrom(Next(s, step))
  {
    var steps :| Careful(INITIAL, steps) && s == Run(INITIAL, steps);
    RunSnoc(INITIAL, steps, step);
    assert Careful(INITIAL, steps + [step]);
    forall more | Restarting(more) ensures K.PrefixSettled(Run(Next(s, step), more).consumer) {
      RestartingIsCareful(Next(s, step), more);
      CarefullyOn(Next(s, step), more);
      ConsumerOk(Run(Next(s, step), more));
    }
  }

  /**
   * `Consumer.CarryOnSafeIff` for the whole pipeline, whose handlers and publishers decide what the consumer can do:
   * polling on after a cycle that raised keeps the prefix settled at every instant exactly if the message in hand was
   * dealt with or the next one announces the same event; restarting always does.
   */
  lemma CarryOnSafeIff(s: State)
    requires IsCarefullyReachable(s)
    ensures SafeFrom(Next(s, Consume(K.CarryOn))) <==> K.MayCarryOn(s.consumer)
    ensures SafeFrom(Next(s, Consume(K.Restart)))
  {
    CarefulIsSafe(s, Consume(K.Restart));
    if K.MayCarryOn(s.consumer) {
      CarefulIsSafe(s, Consume(K.CarryOn));
    } else {
      var steps := CarryOnLoses(s);
    }
  }

  // ----- exactly when polling on loses no event ----------------------------------------------------

  /** s is where a run stands that polled on only where a copy of the event was still to come. */
  ghost predicate IsMindfullyReachable(s: State) {
    exists steps :: Mindful(INITIAL, steps) && s == Run(INITIAL, steps)
  }

  lemma {:induction false} MindfullyOn(s: State, more: seq<Step>)
    requires IsMindfullyReachable(s) && Restarting(more)
    ensures IsMindfullyReachable(Run(s, more))
  {
    if more != [] {
      var before := more[..|more| - 1];
      MindfullyOn(s, before);
      MindfulNext(Run(s, before), more[|more| - 1]);
    }
  }

  lemma MindfulNext(s: State, step: Step)
    requires IsMindfullyReachable(s) && MindfulStep(s, step)
    ensures IsMindfullyReachable(Next(s, step))
  {
    var steps :| Mindful(INITIAL, steps) && s == Run(INITIAL, steps);
    RunSnoc(INITIAL, steps, step);
    MindfulSnoc(INITIAL, steps, step);
  }

  lemma MindfulSnoc(s: State, steps: seq<Step>, step: Step)
    requires Mindful(s, steps) && MindfulStep(Run(s, steps), step)
    ensures Mindful(s, steps + [step])
  {
    assert (steps + [step])[..|steps|] == steps;
  }

  lemma ConsumerKeeps(s: State)
    requires IsMindfullyReachable(s)
    ensures K.Sound(s.consumer) && L.Kept(s.consumer) && IsReachable(s)
  {
    var steps :| Mindful(INITIAL, steps) && s == Run(INITIAL, steps);
    MindfullyReachable(steps);
    G.ConsumerIsSound(steps);
  }

  /** No later run whose failures restart ever loses an event. */
  ghost predicate LosesNothingFrom(s: State) {
    forall more :: Restarting(more) ==> L.NothingLost(Run(s, more).consumer)
  }

  lemma MindfulIsSafe(s: State, step: Step)
    requires IsMindfullyReachable(s) && MindfulStep(s, step)
    ensures LosesNothingFrom(Next(s, step))
  {
    MindfulNext(s, step);
    forall more | Restarting(more) ensures L.NothingLost(Run(Next(s, step), more).consumer) {
      MindfullyOn(Next(s, step), more);
      ConsumerKeeps(Run(Next(s, step), more));
      L.KeptLosesNothing(Run(Next(s, step), more).consumer);
    }
  }

  lemma PassedIsLost(s: State) returns (steps: seq<Step>)
    requires IsReachable(s) && K.Sound(s.consumer) && !L.MayRecover(s.consumer)
    ensures Restarting(steps) && L.Lost(Run(Next(s, Consume(K.CarryOn)), steps).consumer, s.consumer.phase.at)
  {
    StepReachable(s, Consume(K.CarryOn));
    var k, idle, t := s.consumer.phase.at, Next(s, Consume(K.CarryOn)), s;
    if s.consumer.position < |s.consumer.log| {
      assert !K.SameEvent(s.consumer.log[k], s.consumer.log[s.consumer.position]);
      steps, t := CommitPast(idle, k);
    } else {
      steps, t := CommitGarbage(idle);
    }
  }

  /**
   * `Losses.CarryOnLosesNothingIff` for the whole pipeline: polling on after a cycle that raised loses no event exactly
   * if the message in hand was dealt with or a copy of its event is still to be polled; restarting never loses one.
   */
  lemma CarryOnLosesNothingIff(s: State)
    requires IsMindfullyReachable(s)
    ensures LosesNothingFrom(Next(s, Consume(K.CarryOn))) <==> L.MayRecover(s.consumer)
    ensures LosesNothingFrom(Next(s, Consume(K.Restart)))
  {
    ConsumerKeeps(s);
    MindfulIsSafe(s, Consume(K.Restart));
    if L.MayRecover(s.consumer) {
      MindfulIsSafe(s, Consume(K.CarryOn));
    } else {
      var steps := PassedIsLost(s);
    }
  }

  // ----- the runtime loses an over-limit request ---------------------------------------------------

  lemma Asking(t: C.Ticket) returns (steps: seq<Step>, s: State)
    ensures Under(INITIAL, steps, s) && NobodyHandles(steps)
    ensures s == INITIAL.(creation := C.INITIAL.(callers := map[0 := C.Missed(t)]))
  {
    assert INITIAL == Run(INITIAL, []);
    steps, s := OneMore(INITIAL, [], INITIAL, Ask(C.Begin(0, t)));
    steps, s := OneMore(INITIAL, steps, s, Ask(C.Find(0)));
  }

  predicate NobodyHandles(steps: seq<Step>) {
    forall i :: 0 <= i < |steps| ==> !steps[i].Handle?
  }

  /** Request 0 and outbox row 0 are there, and nothing else. */
  ghost predicate JustRequested(s: State, t: C.Ticket)
    requires I.ValidRequest(t.call.request)
  {
    && s.outbox == O.EMPTY.(rows := map[0 := O.NewRow(EventFor(t, 0))])
    && s.fanout == F.INITIAL.(notifications := map[0 := NewNotification(t.call.request)])
    && s.consumer == K.INITIAL
  }

  lemma Requesting(t: C.Ticket) returns (steps: seq<Step>, s: State)
    requires I.ValidRequest(t.call.request)
    ensures Under(INITIAL, steps, s) && NobodyHandles(steps) && JustRequested(s, t)
  {
    steps, s := Asking(t);
    InsertEffect(s, 0, 0, 0);
    steps, s := OneMore(INITIAL, steps, s, Insert(0, 0, 0));
  }

  /** Outbox row 0 is published, and its message is all the log holds. */
  ghost predicate JustPublished(s: State, t: C.Ticket)
    requires I.ValidRequest(t.call.request)
  {
    && 0 in s.outbox.rows && s.outbox.rows[0].status == O.Published && s.outbox.rows[0].event == EventFor(t, 0)
    && s.fanout == F.INITIAL.(notifications := map[0 := NewNotification(t.call.request)])
    && s.consumer == K.INITIAL.(log := [Decode(Encode(0, EventFor(t, 0)))])
  }

  function Claiming(t: C.Ticket): O.Step {
    O.Claim(t.call.now, 1, "", t.call.now, {}, map[0 := 0])
  }

  function Finishing(t: C.Ticket): O.Step {
    O.Finish(0, t.call.now, 0, "", 1)
  }

  ghost function AfterPublishing(o: O.State, t: C.Ticket): O.State {
    O.Next(O.Next(O.Next(o, Claiming(t)), O.Send(0, O.Acknowledged)), Finishing(t))
  }

  lemma Published(o: O.State, t: C.Ticket)
    requires o == O.EMPTY.(rows := map[0 := O.NewRow(EventFor(t, 0))])
    ensures var o' := AfterPublishing(o, t);
            && 0 in o'.rows && o'.rows[0].status == O.Published && o'.rows[0].event == EventFor(t, 0)
            && o'.log == [O.Sent(0, EventFor(t, 0))]
  {
    O.ClaimOnly(o, 0, 0, t.call.now, {});
  }

  /** To everything but the outbox, publishing is a longer log. */
  lemma PublishedLog(s: State, a: O.Step, b: O.Step, c: O.Step)
    requires !a.Add? && !b.Add? && !c.Add?
    ensures var o := O.Next(O.Next(O.Next(s.outbox, a), b), c);
            PublishNext(PublishNext(PublishNext(s, a), b), c)
                == s.(outbox := o, consumer := s.consumer.(log := Decoded(o.log)))
  {
  }

  lemma PublishIs(s: State, x: O.Step)
    ensures Next(s, Publish(x)) == PublishNext(s, x)
  {
  }

  lemma ThreePublished(s: State, t: C.Ticket)
    requires I.ValidRequest(t.call.request) && JustRequested(s, t)
    ensures JustPublished(PublishNext(PublishNext(PublishNext(s, Claiming(t)), O.Send(0, O.Acknowledged)),
                                      Finishing(t)), t)
  {
    Published(s.outbox, t);
    PublishedLog(s, Claiming(t), O.Send(0, O.Acknowledged), Finishing(t));
    assert Decoded([O.Sent(0, EventFor(t, 0))]) == [Decode(Encode(0, EventFor(t, 0)))];
  }

  lemma PublishThree(s: State, steps: seq<Step>, t: State, a: O.Step, b: O.Step, c: O.Step)
    returns (steps': seq<Step>, t': State)
    requires Under(s, steps, t)
    ensures Under(s, steps', t') && steps' == steps + [Publish(a), Publish(b), Publish(c)]
    ensures t' == PublishNext(PublishNext(PublishNext(t, a), b), c)
  {
    PublishIs(t, a);
    steps', t' := OneMore(s, steps, t, Publish(a));
    PublishIs(t', b);
    steps', t' := OneMore(s, steps', t', Publish(b));
    PublishIs(t', c);
    steps', t' := OneMore(s, steps', t', Publish(c));
  }

  lemma FirstMessage(t: C.Ticket) returns (steps: seq<Step>, s: State)
    requires I.ValidRequest(t.call.request)
    ensures Under(INITIAL, steps, s) && NobodyHandles(steps) && JustPublished(s, t)
  {
    var asked, m := Requesting(t);
    ThreePublished(m, t);
    var a, b, c := Claiming(t), O.Send(0, O.Acknowledged), Finishing(t);
    steps, s := PublishThree(INITIAL, asked, m, a, b, c);
    PublishingHandlesNothing(asked, a, b, c);
  }

  lemma PublishingHandlesNothing(steps: seq<Step>, a: O.Step, b: O.Step, c: O.Step)
    requires NobodyHandles(steps)
    ensures NobodyHandles(steps + [Publish(a), Publish(b), Publish(c)])
  {
  }

  /** The consumer has taken message 0 and found that it is new. */
  ghost predicate InHand(s: State, t: C.Ticket)
    requires I.ValidRequest(t.call.request)
  {
    && G.Announces(s.outbox.rows, 0, 0) && s.outbox.rows[0].status == O.Published
    && s.fanout == F.INITIAL.(notifications := map[0 := NewNotification(t.call.request)])
    && s.consumer.phase == K.New(0) && s.consumer.position == 1 == |s.consumer.log| && s.consumer.processed == {}
    && Unhandled(s, 0, 0, 0, NewNotification(t.call.request))
  }

  lemma Taken(t: C.Ticket) returns (steps: seq<Step>, s: State)
    requires I.ValidRequest(t.call.request)
    ensures Under(INITIAL, steps, s) && NobodyHandles(steps) && InHand(s, t)
  {
    steps, s := FirstMessage(t);
    DecodeEncode(0, EventFor(t, 0));
    ServicesNameTheirNotification(0, t.call.source, Timestamp(t.call.now, Some(0)), [], 0);
    steps, s := Consuming(INITIAL, steps, s, K.Poll);
    steps, s := Consuming(INITIAL, steps, s, K.Check);
  }

  /**
   * For every request and every site whose limits it exceeds: a run in which it is created and published, the handler
   * cannot succeed, the consumer polls on as the runtime does, and other bytes in the topic are dead-lettered. The log
   * is then committed to its end, the event was never processed, and there is no delivery row.
   */
  lemma OverLimitLost(t: C.Ticket, site: Site) returns (before: seq<Step>, after: seq<Step>)
    requires I.ValidRequest(t.call.request) && !Fits(NewNotification(t.call.request), site, 0)
    ensures Restarting(before + after) && NobodyHandles(before + after)
    ensures var s := Run(INITIAL, before);
            && InHand(s, t) && forall job: F.Job :: job.notificationId == 0 && HandledAt(Handle(job), site, 0) ==>
                 !CanHandle(s, job)
    ensures var e := Run(Next(Run(INITIAL, before), Consume(K.CarryOn)), after);
            && G.Announces(e.outbox.rows, 0, 0) && e.outbox.rows[0].status == O.Published
            && e.consumer.committed == |e.consumer.log|
            && 0 !in e.consumer.processed && e.fanout.table.rows == map[]
  {
    var s, e;
    before, s := Taken(t);
    forall job: F.Job | job.notificationId == 0 && HandledAt(Handle(job), site, 0) ensures !CanHandle(s, job) {
      TooManyCannotFan(s.fanout, site, 0, Handle(job));
    }
    StepReachable(s, Consume(K.CarryOn));
    after, e := CommitGarbage(Next(s, Consume(K.CarryOn)));
  }
}
