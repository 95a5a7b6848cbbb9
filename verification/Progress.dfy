/**
 * Nothing is stuck for good. From every reachable state the consumer can work through the whole log, whatever is in
 * it, as long as every fanout fits the limits; and a request can be brought to all its delivery rows, delivered.
 */
module Progress {
  import opened Common
  import opened Envelopes
  import opened Pipeline
  import A = Audience
  import D = Deliveries
  import DeliveryRuns
  import F = Fanout
  import K = Consumer
  import L = Losses
  import O = Outbox
  import G = Guarantees

  /** What fanout sees and is configured with: the directory, the label order of each row, and the two limits. */
  datatype Site = Site(directory: A.Directory, items: map<Id, seq<A.Label>>, maxRecipients: int, maxDeliveries: int)

  function JobFor(site: Site, n: Id, recipientIds: map<Id, Id>, deliveryIds: map<Id, F.Pair>): F.Job
    requires n in site.items
  {
    F.Job(n, site.directory, site.items[n], 0, site.maxRecipients, site.maxDeliveries, recipientIds, deliveryIds)
  }

  /** The handler would succeed on n: the limits allow everyone its audience selects. */
  predicate Fits(notification: F.Notification, site: Site, n: Id) {
    && n in site.items && F.ItemsMatch(notification.audience, site.items[n])
    && var users := A.ResolveStored(site.directory, notification.audience, site.items[n]);
       |users| <= site.maxRecipients && |users| * |notification.channels| <= site.maxDeliveries
  }

  predicate AllFit(f: F.State, site: Site) {
    forall n :: n in f.notifications ==> Fits(f.notifications[n], site, n)
  }

  // ----- there are always ids for the rows of a fanout ---------------------------------------------

  lemma {:induction false} IdsForUsers(users: set<Id>, used: set<Id>) returns (ids: map<Id, Id>)
    ensures ids.Keys == users
    ensures forall u :: u in ids ==> ids[u] !in used
    ensures forall u, v :: u in ids && v in ids && u != v ==> ids[u] != ids[v]
  {
    if users == {} {
      ids := map[];
    } else {
      var u :| u in users;
      FreshId(used);
      var id: Id :| id !in used;
      var rest := IdsForUsers(users - {u}, used + {id});
      ids := rest[u := id];
    }
  }

  lemma {:induction false} IdsForPairs(pairs: set<F.Pair>, used: set<Id>) returns (ids: map<Id, F.Pair>)
    ensures ids.Values == pairs
    ensures forall x :: x in ids ==> x !in used
    ensures forall x, y :: x in ids && y in ids && x != y ==> ids[x] != ids[y]
  {
    if pairs == {} {
      ids := map[];
      assert ids.Values == {};
    } else {
      var p :| p in pairs;
      FreshId(used);
      var id: Id :| id !in used;
      var rest := IdsForPairs(pairs - {p}, used + {id});
      ids := rest[id := p];
      OneMoreValue(rest, id, p);
    }
  }

  lemma OneMoreValue(ids: map<Id, F.Pair>, id: Id, p: F.Pair)
    requires id !in ids && p !in ids.Values
    ensures ids[id := p].Values == ids.Values + {p}
    ensures forall x :: x in ids ==> ids[x] != p
  {
    var more := ids[id := p];
    assert more[id] == p;
    forall q | q in ids.Values ensures q in more.Values {
      var x :| x in ids && ids[x] == q;
      assert more[x] == q;
    }
    forall x | x in ids ensures ids[x] != p { assert ids[x] in ids.Values; }
  }

  lemma JobExists(f: F.State, site: Site, n: Id) returns (job: F.Job)
    requires n in f.notifications && Fits(f.notifications[n], site, n)
    ensures job.notificationId == n && job.directory == site.directory && F.CanFan(f, job)
  {
    var users := set u | u in A.ResolveStored(site.directory, f.notifications[n].audience, site.items[n]);
    var recipientIds := IdsForUsers(users - F.Users(f.recipients, n), f.recipients.Values);
    var deliveryIds :=
        IdsForPairs(F.Product(users, f.notifications[n].channels) - F.Pairs(f.table.rows, n), f.table.rows.Keys);
    job := JobFor(site, n, recipientIds, deliveryIds);
  }

  // ----- runs put together -------------------------------------------------------------------------

  ghost predicate IsReachable(s: State) {
    exists steps :: s == Run(INITIAL, steps)
  }

  lemma RunSnoc(s: State, steps: seq<Step>, step: Step)
    ensures Run(s, steps + [step]) == Next(Run(s, steps), step)
  {
    assert (steps + [step])[..|steps|] == steps;
  }

  lemma StepReachable(s: State, step: Step)
    requires IsReachable(s)
    ensures IsReachable(Next(s, step))
  {
    var steps :| s == Run(INITIAL, steps);
    RunSnoc(INITIAL, steps, step);
  }

  lemma {:induction false} RunConcat(s: State, a: seq<Step>, b: seq<Step>)
    ensures Run(s, a + b) == Run(Run(s, a), b)
  {
    if b == [] {
      assert a + b == a;
    } else {
      RunConcat(s, a, b[..|b| - 1]);
      assert (a + b)[..|a + b| - 1] == a + b[..|b| - 1];
    }
  }

  /** No cycle of these steps polls on after it raised. */
  predicate Restarting(steps: seq<Step>) {
    forall i :: 0 <= i < |steps| ==> steps[i] != Consume(K.CarryOn)
  }

  lemma {:induction false} CarefulConcat(s: State, a: seq<Step>, b: seq<Step>)
    requires Careful(s, a) && Careful(Run(s, a), b)
    ensures Careful(s, a + b)
  {
    if b == [] {
      assert a + b == a;
    } else {
      CarefulConcat(s, a, b[..|b| - 1]);
      RunConcat(s, a, b[..|b| - 1]);
      assert (a + b)[..|a + b| - 1] == a + b[..|b| - 1];
    }
  }

  lemma {:induction false} RestartingIsCareful(s: State, steps: seq<Step>)
    requires Restarting(steps)
    ensures Careful(s, steps)
  {
    if steps != [] { RestartingIsCareful(s, steps[..|steps| - 1]); }
  }

  /** A run under way: where it started, the steps so far, and where it is now. */
  ghost predicate Under(s: State, steps: seq<Step>, t: State) {
    t == Run(s, steps) && Restarting(steps) && IsReachable(t)
  }

  lemma OneMore(s: State, steps: seq<Step>, t: State, step: Step) returns (steps': seq<Step>, t': State)
    requires Under(s, steps, t) && step != Consume(K.CarryOn)
    ensures Under(s, steps', t') && steps' == steps + [step] && t' == Next(t, step)
  {
    steps' := steps + [step];
    RunSnoc(s, steps, step);
    StepReachable(t, step);
    t' := Next(t, step);
  }

  lemma Then(s: State, a: seq<Step>, t: State, b: seq<Step>, u: State) returns (steps: seq<Step>)
    requires Under(s, a, t) && Under(t, b, u)
    ensures Under(s, steps, u)
  {
    steps := a + b;
    RunConcat(s, a, b);
  }

  // ----- one message ------------------------------------------------------------------------------

  lemma Consuming(s: State, steps: seq<Step>, t: State, x: K.Step) returns (steps': seq<Step>, t': State)
    requires Under(s, steps, t) && OnlyConsumes(x) && !x.CarryOn?
    ensures Under(s, steps', t') && steps' == steps + [Consume(x)] && t' == t.(consumer := K.Next(t.consumer, x))
  {
    steps', t' := OneMore(s, steps, t, Consume(x));
  }

  /** Rows of deliveries only come in new, as pending ones. */
  ghost predicate Grew(rows: map<Id, D.Tracked>, rows': map<Id, D.Tracked>) {
    && (forall id :: id in rows ==> id in rows' && rows'[id] == rows[id])
    && (forall id :: id in rows' && id !in rows ==> rows'[id].row.status == D.Pending)
  }

  /** What was fanned out since was fanned out with this directory. */
  predicate SeenIn(fanned: map<Id, Fanned>, fanned': map<Id, Fanned>, d: A.Directory) {
    forall e :: e in fanned' ==> (e in fanned && fanned'[e] == fanned[e]) || fanned'[e].directory == d
  }

  ghost predicate OnlyFanned(s: State, t: State, site: Site) {
    Grew(s.fanout.table.rows, t.fanout.table.rows) && SeenIn(s.fanned, t.fanned, site.directory)
  }

  lemma FannedThen(s: State, m: State, t: State, site: Site)
    requires OnlyFanned(s, m, site) && OnlyFanned(m, t, site)
    ensures OnlyFanned(s, t, site)
  {
  }

  lemma FanGrows(f: F.State, job: F.Job)
    requires F.CanFan(f, job)
    ensures Grew(f.table.rows, F.Next(f, F.Fan(job)).table.rows)
  {
    F.FanIs(f, job);
    var n, users := job.notificationId, F.SelectedSet(f, job);
    F.RecipientsStay(f, n, users, job.recipientIds);
    F.Inserted(f, n, job.now, users, f.notifications[n].channels, F.AddRecipients(f.recipients, n, job.recipientIds),
               job.deliveryIds);
  }

  /** The audience and channels of a request never change, so what fits goes on fitting. */
  lemma FitsStay(f: F.State, step: F.Step, site: Site)
    requires AllFit(f, site) && !step.Create?
    ensures AllFit(F.Next(f, step), site)
  {
    var f' := F.Next(f, step);
    assert f'.notifications.Keys == f.notifications.Keys;
    forall n | n in f'.notifications ensures Fits(f'.notifications[n], site, n) {
      F.RecipientsStep(f, step, n);
      assert F.Keeps(f, f', n);
      SameFits(f.notifications[n], f'.notifications[n], site, n);
    }
  }

  lemma SameFits(a: F.Notification, b: F.Notification, site: Site, n: Id)
    requires Fits(a, site, n) && a.audience == b.audience && a.channels == b.channels
    ensures Fits(b, site, n)
  {
  }

  /** What the message in hand is about. */
  lemma MessageNames(s: State, k: nat) returns (n: Id)
    requires IsReachable(s) && k < |s.consumer.log| && s.consumer.log[k].Ok?
    ensures NotificationOf(s.consumer.log[k].value.payload) == Some(n) && n in s.fanout.notifications
  {
    var steps :| s == Run(INITIAL, steps);
    Reachable(steps);
    MessageIsRow(s.outbox, k);
    var e := s.consumer.log[k].value.eventId;
    assert EventOk(s.creation.events, s.creation.rows, e, s.outbox.rows[e].event);
    n := NotificationOf(s.outbox.rows[e].event.payload).value;
  }

  lemma Handling(s: State, steps: seq<Step>, t: State, site: Site) returns (steps': seq<Step>, t': State)
    requires Under(s, steps, t) && AllFit(t.fanout, site)
    requires t.consumer.phase.New? && t.consumer.phase.at < |t.consumer.log| && t.consumer.log[t.consumer.phase.at].Ok?
    ensures Under(s, steps', t') && AllFit(t'.fanout, site) && OnlyFanned(t, t', site)
    ensures t'.outbox == t.outbox && t'.consumer == K.Next(t.consumer, K.Handle)
  {
    var n := MessageNames(t, t.consumer.phase.at);
    var job := JobExists(t.fanout, site, n);
    FitsStay(t.fanout, F.Fan(job), site);
    FanGrows(t.fanout, job);
    steps', t' := OneMore(s, steps, t, Handle(job));
    HandleIs(t, job);
    HandleEffect(t, job);
  }

  lemma HandleIs(s: State, job: F.Job)
    ensures Next(s, Handle(job)) == HandleNext(s, job)
  {
  }

  lemma HandleEffect(s: State, job: F.Job)
    requires CanHandle(s, job)
    ensures var t := HandleNext(s, job);
            && t.fanout == F.Next(s.fanout, F.Fan(job)) && t.outbox == s.outbox
            && t.consumer == K.Next(s.consumer, K.Handle) && SeenIn(s.fanned, t.fanned, job.directory)
  {
  }

  /** The consumer has nothing in hand and stands where it last committed. */
  predicate AtRest(c: K.State) {
    c.phase.Idle? && c.position == c.committed <= |c.log|
  }

  /** What was settled between c and c' is the message at offset k. */
  predicate SettlesOnly(c: K.State, c': K.State, k: nat)
    requires k < |c.log|
  {
    && (forall j :: j in c'.deadLetters && j !in c.deadLetters ==> j == k)
    && (forall e :: e in c'.processed && e !in c.processed ==> c.log[k].Ok? && c.log[k].value.eventId == e)
  }

  /** The message at offset k is settled, and nothing else is. */
  predicate Settles(c: K.State, c': K.State, k: nat)
    requires k < |c.log|
  {
    && c'.phase == K.Settled(k) && c'.position == c.position && SettlesOnly(c, c', k)
    && Gains(c, c') && K.SettledAt(c', k)
  }

  /** The log is the same, and what was dealt with still is. */
  predicate Gains(c: K.State, c': K.State) {
    && c'.log == c.log && c.processed <= c'.processed
    && forall k :: k in c.deadLetters ==> k in c'.deadLetters
  }

  /** Everything in the log from this offset on has been dealt with. */
  predicate WorkedOff(c: K.State, c': K.State, from: nat) {
    Gains(c, c') && forall k :: from <= k < |c.log| ==> K.SettledAt(c', k)
  }

  lemma WorkedThen(c: K.State, m: K.State, c': K.State, from: nat)
    requires from < |c.log| && Gains(c, m) && K.SettledAt(m, from) && WorkedOff(m, c', from + 1)
    ensures WorkedOff(c, c', from)
  {
  }

  predicate Takes(c: K.State) {
    c.phase.Holding? && c.phase.at < |c.log|
  }

  lemma DeadLetterSettles(c: K.State)
    requires Takes(c) && c.log[c.phase.at].Err?
    ensures Settles(c, K.Next(c, K.DeadLetter), c.phase.at)
  {
  }

  lemma CheckSettles(c: K.State)
    requires Takes(c) && c.log[c.phase.at].Ok?
    ensures var c' := K.Next(c, K.Check);
            Settles(c, c', c.phase.at)
            || (c'.phase == K.New(c.phase.at) && Settles(c, K.Next(K.Next(c', K.Handle), K.Mark), c.phase.at))
  {
  }

  /** Dead-letter, skip, or handle and mark: the message in hand is dealt with, whatever it is. */
  lemma Deal(s: State, before: seq<Step>, m: State, site: Site) returns (steps: seq<Step>, t: State)
    requires Under(s, before, m) && AllFit(m.fanout, site) && Takes(m.consumer)
    ensures Under(s, steps, t) && AllFit(t.fanout, site) && t.outbox == m.outbox
            && OnlyFanned(m, t, site)
    ensures Settles(m.consumer, t.consumer, m.consumer.phase.at)
  {
    if m.consumer.log[m.consumer.phase.at].Err? {
      DeadLetterSettles(m.consumer);
      steps, t := Consuming(s, before, m, K.DeadLetter);
    } else {
      CheckSettles(m.consumer);
      steps, t := Consuming(s, before, m, K.Check);
      if t.consumer.phase.New? {
        steps, t := Handling(s, steps, t, site);
        steps, t := Consuming(s, steps, t, K.Mark);
      }
    }
  }

  /** Poll, deal with the message, and commit: the consumer gets past the next message. */
  lemma Pass(s: State, site: Site) returns (steps: seq<Step>, t: State)
    requires IsReachable(s) && AtRest(s.consumer) && s.consumer.committed < |s.consumer.log| && AllFit(s.fanout, site)
    ensures Under(s, steps, t) && AllFit(t.fanout, site) && AtRest(t.consumer)
            && OnlyFanned(s, t, site)
    ensures t.consumer.committed == s.consumer.committed + 1 && t.outbox == s.outbox
    ensures Gains(s.consumer, t.consumer) && K.SettledAt(t.consumer, s.consumer.committed)
  {
    steps, t := Consuming(s, [], s, K.Poll);
    steps, t := Deal(s, steps, t, site);
    steps, t := Consuming(s, steps, t, K.Commit);
  }

  lemma {:induction false} PassAll(s: State, site: Site) returns (steps: seq<Step>, t: State)
    requires IsReachable(s) && AtRest(s.consumer) && AllFit(s.fanout, site)
    ensures Under(s, steps, t) && OnlyFanned(s, t, site)
    ensures t.consumer.committed == |t.consumer.log| && t.outbox == s.outbox
    ensures WorkedOff(s.consumer, t.consumer, s.consumer.committed)
    decreases |s.consumer.log| - s.consumer.committed
  {
    if s.consumer.committed == |s.consumer.log| {
      steps, t := [], s;
    } else {
      var first, m := Pass(s, site);
      var rest;
      rest, t := PassAll(m, site);
      FannedThen(s, m, t, site);
      WorkedThen(s.consumer, m.consumer, t.consumer, s.consumer.committed);
      steps := Then(s, first, m, rest, t);
    }
  }

  // ----- the consumer ------------------------------------------------------------------------------

  lemma CommittedInLog(s: State)
    requires IsReachable(s)
    ensures s.consumer.committed <= |s.consumer.log|
  {
    var steps :| s == Run(INITIAL, steps);
    Reachable(steps);
  }

  lemma WorkThrough(s: State, site: Site) returns (steps: seq<Step>, t: State)
    requires IsReachable(s) && AllFit(s.fanout, site)
    ensures Under(s, steps, t) && OnlyFanned(s, t, site)
    ensures t.consumer.committed == |t.consumer.log| && t.outbox == s.outbox
    ensures WorkedOff(s.consumer, t.consumer, s.consumer.committed)
  {
    CommittedInLog(s);
    var first, m := Consuming(s, [], s, K.Restart);
    var rest;
    rest, t := PassAll(m, site);
    steps := Then(s, first, m, rest, t);
  }

  /** Event e is processed, or will be once the consumer gets through the log: an entry with it is not passed yet. */
  ghost predicate Awaited(c: K.State, e: Id) {
    e in c.processed || exists k: nat :: c.committed <= k && G.Carries(c.log, k, e)
  }

  lemma AwaitedIsProcessed(c: K.State, c': K.State, e: Id)
    requires WorkedOff(c, c', c.committed) && Awaited(c, e)
    ensures e in c'.processed
  {
    if e !in c.processed {
      var k: nat :| c.committed <= k && G.Carries(c.log, k, e);
      assert K.SettledAt(c', k);
    }
  }

  /** In a mindful run every event that reached the log is awaited. */
  lemma MindfulAwaits(steps: seq<Step>, e: Id)
    requires Mindful(INITIAL, steps) && G.ReachesConsumer(Run(INITIAL, steps), e)
    ensures Awaited(Run(INITIAL, steps).consumer, e)
  {
    G.ConsumerIsSound(steps);
    MindfullyReachable(steps);
    KeptAwaits(Run(INITIAL, steps).consumer, e);
  }

  lemma KeptAwaits(c: K.State, e: Id)
    requires K.Sound(c) && L.Kept(c) && exists k: nat :: G.Carries(c.log, k, e)
    ensures Awaited(c, e)
  {
    var k: nat :| G.Carries(c.log, k, e);
    L.KeptLosesNothing(c);
    if k < c.committed && e !in c.processed {
      assert !L.Lost(c, k);
      var j :| c.committed <= j < |c.log| && K.SameEvent(c.log[k], c.log[j]);
      assert G.Carries(c.log, j, e);
    }
  }

  /**
   * Nothing in the log wedges the consumer: from every reachable state, if the limits allow every fanout, there is a
   * way to go on after which the whole log is committed and every event that is still awaited is processed. In a
   * mindful run that is everything published.
   */
  lemma CanAlwaysFinish(steps: seq<Step>, site: Site) returns (more: seq<Step>)
    requires AllFit(Run(INITIAL, steps).fanout, site)
    ensures Restarting(more)
    ensures var s, t := Run(INITIAL, steps), Run(INITIAL, steps + more);
            && t.consumer.committed == |t.consumer.log| && t.outbox == s.outbox
            && (forall e :: Awaited(s.consumer, e) ==> e in t.consumer.processed)
            && (Mindful(INITIAL, steps) ==> forall e ::
                  e in s.outbox.rows && s.outbox.rows[e].status == O.Published ==> e in t.consumer.processed)
  {
    var s, t := Run(INITIAL, steps), Run(INITIAL, steps);
    more, t := WorkThrough(s, site);
    RunConcat(INITIAL, steps, more);
    forall e | Awaited(s.consumer, e) ensures e in t.consumer.processed {
      AwaitedIsProcessed(s.consumer, t.consumer, e);
    }
    if Mindful(INITIAL, steps) {
      forall e | e in s.outbox.rows && s.outbox.rows[e].status == O.Published ensures e in t.consumer.processed {
        G.PublishedReachesConsumer(steps, e);
        MindfulAwaits(steps, e);
      }
    }
  }

  // ----- from the request to the last delivery -----------------------------------------------------

  /** Event e is processed, or a log entry with it is not passed yet, or somebody may still send it. */
  ghost predicate MayArrive(s: State, e: Id) {
    Awaited(s.consumer, e) || O.MayStillSend(s.outbox, e)
  }

  lemma OutboxOk(s: State)
    requires IsReachable(s)
    ensures O.Inv(s.outbox)
  {
    var steps :| s == Run(INITIAL, steps);
    Reachable(steps);
  }

  lemma EventIsSupported(s: State, e: Id)
    requires IsReachable(s) && e in s.outbox.rows
    ensures Supported(s.outbox.rows[e].event)
  {
    var steps :| s == Run(INITIAL, steps);
    Reachable(steps);
    assert EventOk(s.creation.events, s.creation.rows, e, s.outbox.rows[e].event);
  }

  /** A send the broker acknowledges is one more entry for the consumer. */
  lemma Sending(s: State, steps: seq<Step>, t: State, token: Id, e: Id) returns (steps': seq<Step>, t': State)
    requires Under(s, steps, t) && O.ToBeSent(t.outbox, token, e)
    ensures Under(s, steps', t') && t'.fanout == t.fanout && t'.fanned == t.fanned
    ensures Awaited(t'.consumer, e) && SameEvents(t.outbox.rows, t'.outbox.rows)
  {
    OutboxOk(t);
    EventIsSupported(t, e);
    CommittedInLog(t);
    steps', t' := Publishing(s, steps, t, O.Send(token, O.Acknowledged));
    SentIsCarried(t, token, e);
  }

  lemma LogIsDecoded(s: State)
    requires IsReachable(s)
    ensures s.consumer.log == Decoded(s.outbox.log)
  {
    var steps :| s == Run(INITIAL, steps);
    Reachable(steps);
  }

  lemma SentIsCarried(t: State, token: Id, e: Id)
    requires IsReachable(t) && O.ClaimsOk(t.outbox) && O.ToBeSent(t.outbox, token, e)
    requires e in t.outbox.rows && Supported(t.outbox.rows[e].event) && t.consumer.committed <= |t.consumer.log|
    ensures Awaited(PublishStep(t, O.Send(token, O.Acknowledged)).consumer, e)
  {
    LogIsDecoded(t);
    var entry := O.Sent(e, t.outbox.rows[e].event);
    DecodedSnoc(t.outbox.log, entry);
    DecodeEncode(e, t.outbox.rows[e].event);
    var c := PublishStep(t, O.Send(token, O.Acknowledged)).consumer;
    assert c.log == Decoded(t.outbox.log + [entry]);
    assert G.Carries(c.log, |t.outbox.log|, e);
  }

  /** The event gets into the log, ahead of the consumer, if it may. */
  lemma CanArrive(s: State, e: Id) returns (steps: seq<Step>, t: State)
    requires IsReachable(s) && e in s.outbox.rows && MayArrive(s, e)
    ensures Under(s, steps, t) && t.fanout == s.fanout && t.fanned == s.fanned && Awaited(t.consumer, e)
    ensures SameEvents(s.outbox.rows, t.outbox.rows)
  {
    steps, t := [], s;
    if !Awaited(s.consumer, e) {
      var token: Id;
      if s.outbox.rows[e].status !in {O.Published, O.FailedTerminal} {
        OutboxOk(s);
        var claim, send, _ := O.NeverStuck(s.outbox, e);
        steps, t := Publishing(s, steps, t, claim);
        token := send.token;
      } else {
        token :| token in s.outbox.claims && O.ToBeSent(s.outbox, token, e);
      }
      steps, t := Sending(s, steps, t, token, e);
    }
  }

  lemma Publishing(s: State, steps: seq<Step>, t: State, x: O.Step) returns (steps': seq<Step>, t': State)
    requires Under(s, steps, t) && !x.Add?
    ensures Under(s, steps', t') && t' == PublishStep(t, x) && t'.outbox == O.Next(t.outbox, x)
    ensures t'.fanout == t.fanout && t'.fanned == t.fanned
    ensures SameEvents(t.outbox.rows, t'.outbox.rows)
  {
    PublishQuiet(t.outbox, x);
    steps', t' := OneMore(s, steps, t, Publish(x));
  }

  /** t is s but for the statuses and the like of delivery rows. */
  ghost predicate OnlyWorked(s: State, t: State) {
    && t == s.(fanout := s.fanout.(table := t.fanout.table))
    && F.SameShape(s.fanout.table.rows, t.fanout.table.rows)
  }

  lemma Working(s: State, steps: seq<Step>, t: State, x: D.Step) returns (steps': seq<Step>, t': State)
    requires Under(s, steps, t) && OnlyWorked(s, t) && (x.Claim? || x.Finalize?)
    ensures Under(s, steps', t') && OnlyWorked(s, t') && t'.fanout.table == D.Next(t.fanout.table, x)
  {
    steps', t' := OneMore(s, steps, t, Work(x));
    F.WorkKeepsShape(t.fanout.table, x);
  }

  lemma TableOk(s: State)
    requires IsReachable(s)
    ensures DeliveryRuns.Inv(s.fanout.table)
  {
    var steps :| s == Run(INITIAL, steps);
    Reachable(steps);
  }

  lemma CanDeliver(s: State, id: Id) returns (steps: seq<Step>, t: State)
    requires IsReachable(s) && id in s.fanout.table.rows && !D.Terminal(s.fanout.table.rows[id].row.status)
    ensures Under(s, steps, t) && OnlyWorked(s, t)
    ensures var rows, rows' := s.fanout.table.rows, t.fanout.table.rows;
            id in rows' && rows'[id].row.status == D.Delivered && rows' == rows[id := rows'[id]]
  {
    TableOk(s);
    var claim, finalize := DeliveryRuns.NeverStuck(s.fanout.table, id);
    steps, t := Working(s, [], s, claim);
    steps, t := Working(s, steps, t, finalize);
  }

  function Unfinished(rows: map<Id, D.Tracked>): set<Id> {
    set id | id in rows && !D.Terminal(rows[id].row.status)
  }

  /** Every row of `todo` is delivered, and no other row changes. */
  ghost predicate AllDelivered(rows: map<Id, D.Tracked>, rows': map<Id, D.Tracked>, todo: set<Id>) {
    && rows'.Keys == rows.Keys
    && forall id :: id in rows ==> if id in todo then rows'[id].row.status == D.Delivered else rows'[id] == rows[id]
  }

  lemma OneThenRest(rows: map<Id, D.Tracked>, m: map<Id, D.Tracked>, t: map<Id, D.Tracked>, id: Id, todo: set<Id>)
    requires id in todo && id in rows && id in m && m == rows[id := m[id]] && m[id].row.status == D.Delivered
    requires AllDelivered(m, t, todo - {id})
    ensures AllDelivered(rows, t, todo)
  {
  }

  lemma OnlyWorkedThen(s: State, m: State, t: State)
    requires OnlyWorked(s, m) && OnlyWorked(m, t)
    ensures OnlyWorked(s, t)
  {
  }

  lemma {:induction false} CanDeliverAll(s: State, todo: set<Id>) returns (steps: seq<Step>, t: State)
    requires IsReachable(s) && todo <= Unfinished(s.fanout.table.rows)
    ensures Under(s, steps, t) && OnlyWorked(s, t) && AllDelivered(s.fanout.table.rows, t.fanout.table.rows, todo)
    decreases todo
  {
    if todo == {} {
      steps, t := [], s;
    } else {
      var id :| id in todo;
      var first, m := CanDeliver(s, id);
      var rest;
      rest, t := CanDeliverAll(m, todo - {id});
      OneThenRest(s.fanout.table.rows, m.fanout.table.rows, t.fanout.table.rows, id, todo);
      OnlyWorkedThen(s, m, t);
      steps := Then(s, first, m, rest, t);
    }
  }

  /** The row for u on c is delivered, unless it had already failed for good in `rows`. */
  ghost predicate Done(s: State, rows: map<Id, D.Tracked>, n: Id, u: Id, c: Channel) {
    exists id :: id in s.fanout.table.rows && G.IsFor(s.fanout.table.rows[id].row, n, u, c)
                 && (s.fanout.table.rows[id].row.status == D.Delivered
                     || (id in rows && rows[id].row.status == D.FailedTerminal))
  }

  lemma WorkedIsDone(rows: map<Id, D.Tracked>, m: State, t: State, n: Id, u: Id, c: Channel)
    requires Grew(rows, m.fanout.table.rows) && OnlyWorked(m, t) && G.HasDelivery(m, n, u, c)
    requires AllDelivered(m.fanout.table.rows, t.fanout.table.rows, Unfinished(m.fanout.table.rows))
    ensures Done(t, rows, n, u, c)
  {
    var id :| id in m.fanout.table.rows && G.IsFor(m.fanout.table.rows[id].row, n, u, c);
    assert id in t.fanout.table.rows && G.IsFor(t.fanout.table.rows[id].row, n, u, c);
    if id !in Unfinished(m.fanout.table.rows) { assert t.fanout.table.rows[id] == m.fanout.table.rows[id]; }
  }

  /** Request n was fanned out with some directory, and every row it asked for is delivered or had failed for good. */
  ghost predicate AllDone(t: State, e: Id, n: Id, rows: map<Id, D.Tracked>) {
    && G.Announces(t.outbox.rows, e, n) && n in t.creation.rows && e in t.fanned && t.fanned[e].notificationId == n
    && A.Valid(t.creation.rows[n].request.audience)
    && (A.LabelsUnique(t.fanned[e].directory) ==>
          forall u, c ::
            A.Wanted(t.fanned[e].directory, t.creation.rows[n].request.audience, u)
                && c in t.creation.rows[n].request.channels ==>
              Done(t, rows, n, u, c))
  }

  /** Neither the request's event nor any of its rows is stuck. */
  lemma AllWorkedIsDone(rows: map<Id, D.Tracked>, m: State, t: State, e: Id, n: Id)
    requires Grew(rows, m.fanout.table.rows) && OnlyWorked(m, t)
    requires AllDelivered(m.fanout.table.rows, t.fanout.table.rows, Unfinished(m.fanout.table.rows))
    requires G.Announces(m.outbox.rows, e, n) && G.FannedOut(m, e, n)
    ensures AllDone(t, e, n, rows)
  {
    if A.LabelsUnique(m.fanned[e].directory) {
      forall u, c | A.Wanted(m.fanned[e].directory, m.creation.rows[n].request.audience, u)
                    && c in m.creation.rows[n].request.channels
        ensures Done(t, rows, n, u, c)
      {
        WorkedIsDone(rows, m, t, n, u, c);
      }
    }
  }

  lemma CanFanOut(steps: seq<Step>, site: Site, n: Id, e: Id) returns (more: seq<Step>, m: State)
    requires AllFit(Run(INITIAL, steps).fanout, site)
    requires G.Announces(Run(INITIAL, steps).outbox.rows, e, n) && MayArrive(Run(INITIAL, steps), e)
    ensures Under(Run(INITIAL, steps), more, m) && OnlyFanned(Run(INITIAL, steps), m, site)
    ensures G.Announces(m.outbox.rows, e, n) && G.FannedOut(m, e, n)
  {
    var s := Run(INITIAL, steps);
    var a, p := CanArrive(s, e);
    var b;
    b, m := WorkThrough(p, site);
    more := Then(s, a, p, b, m);
    AwaitedIsProcessed(p.consumer, m.consumer, e);
    RunConcat(INITIAL, steps, more);
    G.ProcessedMeans(steps + more, e, n);
  }

  /**
   * No request is stuck. From every reachable state, if the limits allow every fanout and the request's event may still
   * arrive, some continuation brings it to the consumer, fans it out, and leaves everyone its audience means with a
   * delivered row on every requested channel, save the rows that had already failed for good. What was not fanned out
   * before is fanned out with the directory as it is.
   */
  lemma CanAlwaysDeliver(steps: seq<Step>, site: Site, n: Id, e: Id) returns (more: seq<Step>)
    requires AllFit(Run(INITIAL, steps).fanout, site)
    requires G.Announces(Run(INITIAL, steps).outbox.rows, e, n) && MayArrive(Run(INITIAL, steps), e)
    ensures Restarting(more) && AllDone(Run(INITIAL, steps + more), e, n, Run(INITIAL, steps).fanout.table.rows)
    ensures SeenIn(Run(INITIAL, steps).fanned, Run(INITIAL, steps + more).fanned, site.directory)
  {
    var s := Run(INITIAL, steps);
    var first, m := CanFanOut(steps, site, n, e);
    var rest, t := CanDeliverAll(m, Unfinished(m.fanout.table.rows));
    more := Then(s, first, m, rest, t);
    RunConcat(INITIAL, steps, more);
    AllWorkedIsDone(s.fanout.table.rows, m, t, e, n);
  }

  lemma LoggedReachesConsumer(steps: seq<Step>, e: Id)
    requires O.InLog(Run(INITIAL, steps).outbox, e)
    ensures G.ReachesConsumer(Run(INITIAL, steps), e)
  {
    Reachable(steps);
    var s := Run(INITIAL, steps);
    assert EventOk(s.creation.events, s.creation.rows, e, s.outbox.rows[e].event);
    G.LoggedIsDecoded(s.outbox, e);
  }

  /** In a mindful run an event may arrive unless its row failed for good without ever having reached the log. */
  lemma MindfulMayArrive(steps: seq<Step>, e: Id)
    requires Mindful(INITIAL, steps) && e in Run(INITIAL, steps).outbox.rows
    requires Run(INITIAL, steps).outbox.rows[e].status == O.FailedTerminal ==> O.InLog(Run(INITIAL, steps).outbox, e)
    ensures MayArrive(Run(INITIAL, steps), e)
  {
    var s := Run(INITIAL, steps);
    if s.outbox.rows[e].status == O.Published {
      G.PublishedReachesConsumer(steps, e);
      MindfulAwaits(steps, e);
    } else if s.outbox.rows[e].status == O.FailedTerminal {
      LoggedReachesConsumer(steps, e);
      MindfulAwaits(steps, e);
    }
  }
}
