/** What holds of every run of the whole pipeline, from the answer a caller gets to the delivery rows. */
module Guarantees {
  import opened Common
  import opened Envelopes
  import opened Pipeline
  import A = Audience
  import C = Creation
  import D = Deliveries
  import DeliveryRuns
  import F = Fanout
  import K = Consumer
  import L = Losses
  import O = Outbox
  import R = Replays

  /** e is the `notification.requested` outbox row of request n. */
  predicate Announces(outbox: map<Id, O.Row>, e: Id, n: Id) {
    && e in outbox && outbox[e].event.eventType == REQUESTED
    && NotificationOf(outbox[e].event.payload) == Some(n)
  }

  /** Requests and `notification.requested` outbox rows correspond one to one. */
  lemma OneRequestedEvent(steps: seq<Step>, n: Id) returns (e: Id)
    requires n in Run(INITIAL, steps).creation.rows
    ensures var s := Run(INITIAL, steps);
            && Announces(s.outbox.rows, e, n)
            && (forall e' :: Announces(s.outbox.rows, e', n) ==> e' == e)
            && (forall e', n' :: Announces(s.outbox.rows, e', n') ==> n' in s.creation.rows)
  {
    Reachable(steps);
    var s := Run(INITIAL, steps);
    e := s.creation.births[n].eventId;
    EventsMatch(s.creation, s.outbox.rows, n, e);
  }

  lemma EventsMatch(c: C.State, outbox: map<Id, O.Row>, n: Id, e: Id)
    requires C.EventsOk(c) && EventsOk(c.events, c.rows, outbox)
    requires n in c.births && c.births[n].eventId == e
    ensures Announces(outbox, e, n)
    ensures forall e' :: Announces(outbox, e', n) ==> e' == e
    ensures forall e', n' :: Announces(outbox, e', n') ==> n' in c.rows
  {
  }

  /** A caller that was given an id was given one that exists and has been announced. */
  lemma AnsweredMeansAnnounced(steps: seq<Step>, caller: nat) returns (e: Id)
    requires C.Answered(Run(INITIAL, steps).creation, caller)
    requires !Run(INITIAL, steps).creation.callers[caller].answer.Conflict?
    ensures var s := Run(INITIAL, steps);
            var a := s.creation.callers[caller].answer;
            (a.Created? || a.Existing?) && a.id in s.creation.rows && Announces(s.outbox.rows, e, a.id)
  {
    Reachable(steps);
    var s := Run(INITIAL, steps);
    assert C.CallerOk(s.creation, caller);
    e := OneRequestedEvent(steps, s.creation.callers[caller].answer.id);
  }

  /** The log entry at offset k, decoded, carries event e. */
  predicate Carries(log: seq<K.Item>, k: nat, e: Id) {
    k < |log| && log[k].Ok? && log[k].value.eventId == e
  }

  /** Some log entry that the consumer can decode carries event e. */
  ghost predicate ReachesConsumer(s: State, e: Id) {
    exists k: nat :: Carries(s.consumer.log, k, e)
  }

  lemma LoggedIsDecoded(outbox: O.State, e: Id)
    requires O.InLog(outbox, e) && Supported(outbox.rows[e].event)
    ensures exists k: nat :: Carries(Decoded(outbox.log), k, e)
  {
    var k :| 0 <= k < |outbox.log| && outbox.log[k] == O.Sent(e, outbox.rows[e].event);
    DecodeEncode(e, outbox.rows[e].event);
    assert Carries(Decoded(outbox.log), k, e);
  }

  /** `published` means that the consumer will find the event in the log. */
  lemma PublishedReachesConsumer(steps: seq<Step>, e: Id)
    requires e in Run(INITIAL, steps).outbox.rows && Run(INITIAL, steps).outbox.rows[e].status == O.Published
    ensures ReachesConsumer(Run(INITIAL, steps), e)
  {
    Reachable(steps);
    var s := Run(INITIAL, steps);
    assert EventOk(s.creation.events, s.creation.rows, e, s.outbox.rows[e].event);
    assert O.RowOk(s.outbox, e);
    LoggedIsDecoded(s.outbox, e);
  }

  /** Nothing the publishers sent is ever dead-lettered: only what another producer wrote. */
  lemma OnlyForeignIsDeadLettered(steps: seq<Step>, k: nat)
    requires k in Run(INITIAL, steps).consumer.deadLetters
    ensures var s := Run(INITIAL, steps); k < |s.outbox.log| && s.outbox.log[k].Foreign?
  {
    Reachable(steps);
    var s := Run(INITIAL, steps);
    if s.outbox.log[k].Sent? {
      var id, event := s.outbox.log[k].eventId, s.outbox.log[k].event;
      assert EventOk(s.creation.events, s.creation.rows, id, s.outbox.rows[id].event);
      DecodeEncode(id, event);
    }
  }

  /**
   * Over every run, each log entry below the committed offset is dead-lettered, or its event processed, unless the
   * consumer polled past this very entry while it was open. A run that is careful settles even those.
   */
  lemma CommittedIsSettled(steps: seq<Step>, k: nat)
    requires k < Run(INITIAL, steps).consumer.committed
    ensures k < |Run(INITIAL, steps).consumer.log|
    ensures !PolledPast(INITIAL, steps, k) || Careful(INITIAL, steps) ==>
              var s := Run(INITIAL, steps);
              match s.consumer.log[k]
              case Err(_) => k in s.consumer.deadLetters
              case Ok(m) => m.eventId in s.consumer.processed
  {
    Reachable(steps);
    EveryOffset(steps, k);
    if Careful(INITIAL, steps) {
      CarefullyReachable(steps);
      assert K.SettledAt(Run(INITIAL, steps).consumer, k);
    }
  }

  /** Some log entry carries event e, and the consumer polled past each that does while it was open. */
  ghost predicate EveryCopyPolledPast(steps: seq<Step>, e: Id) {
    && ReachesConsumer(Run(INITIAL, steps), e)
    && forall k: nat :: Carries(Run(INITIAL, steps).consumer.log, k, e) ==> PolledPast(INITIAL, steps, k)
  }

  /** Once the whole log is committed, an event in it is processed, or all its entries were polled past. */
  lemma LoggedIsProcessed(steps: seq<Step>, e: Id)
    requires ReachesConsumer(Run(INITIAL, steps), e)
    requires Run(INITIAL, steps).consumer.committed == |Run(INITIAL, steps).consumer.log|
    ensures e in Run(INITIAL, steps).consumer.processed || EveryCopyPolledPast(steps, e)
    ensures Mindful(INITIAL, steps) ==> e in Run(INITIAL, steps).consumer.processed
  {
    var c := Run(INITIAL, steps).consumer;
    if e !in c.processed {
      forall k: nat | Carries(c.log, k, e) ensures PolledPast(INITIAL, steps, k) { CommittedIsSettled(steps, k); }
    }
    if Mindful(INITIAL, steps) { MindfulLosesNothing(steps, e); }
  }

  lemma MindfulLosesNothing(steps: seq<Step>, e: Id)
    requires Mindful(INITIAL, steps) && ReachesConsumer(Run(INITIAL, steps), e)
    requires Run(INITIAL, steps).consumer.committed == |Run(INITIAL, steps).consumer.log|
    ensures e in Run(INITIAL, steps).consumer.processed
  {
    var c := Run(INITIAL, steps).consumer;
    var k: nat :| Carries(c.log, k, e);
    ConsumerIsSound(steps);
    MindfullyReachable(steps);
    L.KeptToTheEnd(c, k);
  }

  lemma ConsumerIsSound(steps: seq<Step>)
    ensures K.Sound(Run(INITIAL, steps).consumer)
  {
    Reachable(steps);
  }

  /** There is a delivery row of notification n for user u on channel c. */
  predicate HasDelivery(s: State, n: Id, u: Id, c: Channel) {
    exists id :: id in s.fanout.table.rows && IsFor(s.fanout.table.rows[id].row, n, u, c)
  }

  predicate IsFor(d: D.Delivery, n: Id, u: Id, c: Channel) {
    d.notificationId == n && d.userId == u && d.channel == c
  }

  /**
   * Everyone the requested audience means in the directory has a delivery row on every requested channel. The
   * directory has at most one value per user and label key, as its unique constraint says.
   */
  ghost predicate DeliveredTo(s: State, n: Id, d: A.Directory) {
    && n in s.creation.rows && A.Valid(s.creation.rows[n].request.audience)
    && (A.LabelsUnique(d) ==>
          forall u, c ::
              A.Wanted(d, s.creation.rows[n].request.audience, u) && c in s.creation.rows[n].request.channels ==>
            HasDelivery(s, n, u, c))
  }

  lemma ProductHas(f: F.State, n: Id, u: Id, c: Channel)
    requires F.Inv(f) && n in f.notifications && u in F.Users(f.recipients, n) && c in f.notifications[n].channels
    ensures exists id :: id in f.table.rows && IsFor(f.table.rows[id].row, n, u, c)
  {
    assert F.ProductOk(f, n);
    assert (u, c) in F.Product(F.Users(f.recipients, n), f.notifications[n].channels);
    var id :| id in f.table.rows && f.table.rows[id].row.notificationId == n
              && (f.table.rows[id].row.userId, f.table.rows[id].row.channel) == (u, c);
    assert IsFor(f.table.rows[id].row, n, u, c);
  }

  /** A processed event's fanout has committed: deliveries exist for everyone it selected, and still do. */
  lemma ProcessedIsFannedOut(steps: seq<Step>, e: Id)
    requires e in Run(INITIAL, steps).consumer.processed
    ensures var s := Run(INITIAL, steps);
            && e in s.outbox.rows && e in s.fanned
            && NotificationOf(s.outbox.rows[e].event.payload) == Some(s.fanned[e].notificationId)
            && DeliveredTo(s, s.fanned[e].notificationId, s.fanned[e].directory)
  {
    Reachable(steps);
    var s := Run(INITIAL, steps);
    assert FannedOk(s.outbox.rows, s.fanout, s.fanned, e);
    var n := s.fanned[e].notificationId;
    assert SameNotification(s.creation.rows[n], s.fanout.notifications[n]);
    if A.LabelsUnique(s.fanned[e].directory) {
      var audience := s.creation.rows[n].request.audience;
      A.StoredMeansRequested(s.fanned[e].directory, audience, s.fanned[e].items);
      forall u, c | A.Wanted(s.fanned[e].directory, audience, u) && c in s.creation.rows[n].request.channels
        ensures HasDelivery(s, n, u, c)
      {
        A.ResolveMeans(s.fanned[e].directory, audience, u);
        assert u in SelectedBy(s.fanned[e], s.fanout.notifications[n].audience);
        ProductHas(s.fanout, n, u, c);
      }
    }
  }

  /** Event e of request n is processed, and everyone it was fanned out to has a row on every requested channel. */
  ghost predicate FannedOut(s: State, e: Id, n: Id) {
    && e in s.consumer.processed && e in s.fanned && s.fanned[e].notificationId == n
    && DeliveredTo(s, n, s.fanned[e].directory)
  }

  lemma ProcessedMeans(steps: seq<Step>, e: Id, n: Id)
    requires e in Run(INITIAL, steps).consumer.processed && Announces(Run(INITIAL, steps).outbox.rows, e, n)
    ensures FannedOut(Run(INITIAL, steps), e, n)
  {
    ProcessedIsFannedOut(steps, e);
  }

  /**
   * No lost notification. Over every run, with any process dying between any two of its transactions and any failed
   * cycle followed by a restart or by more polling: once a request exists, its event says published, and the consumer
   * has committed the log to its end, that event was processed, and everyone the requested audience meant when it was
   * fanned out has a delivery row on every requested channel. The one exception is an event whose every entry in the
   * log the consumer polled past while it was open, and in a mindful run there is none; `LostEvents` says exactly which
   * events are lost.
   */
  lemma NoLostNotification(steps: seq<Step>, n: Id) returns (e: Id)
    requires n in Run(INITIAL, steps).creation.rows
    ensures Announces(Run(INITIAL, steps).outbox.rows, e, n)
    ensures var s := Run(INITIAL, steps);
            s.outbox.rows[e].status == O.Published && s.consumer.committed == |s.consumer.log| ==>
              && (FannedOut(s, e, n) || EveryCopyPolledPast(steps, e))
              && (Mindful(INITIAL, steps) ==> FannedOut(s, e, n))
  {
    e := OneRequestedEvent(steps, n);
    var s := Run(INITIAL, steps);
    if s.outbox.rows[e].status == O.Published && s.consumer.committed == |s.consumer.log| {
      PublishedReachesConsumer(steps, e);
      LoggedIsProcessed(steps, e);
      if e in s.consumer.processed { ProcessedMeans(steps, e, n); }
    }
  }

  /** No delivery comes from nowhere: each is for a request, one of its recipients, and a channel it asked for. */
  lemma DeliveriesAreRequested(steps: seq<Step>, id: Id)
    requires id in Run(INITIAL, steps).fanout.table.rows
    ensures var s := Run(INITIAL, steps);
            var d := s.fanout.table.rows[id].row;
            && d.notificationId in s.creation.rows && d.channel in s.creation.rows[d.notificationId].request.channels
            && d.userId in F.Users(s.fanout.recipients, d.notificationId)
            && DeliveryRuns.RowOk(s.fanout.table.rows[id])
  {
    Reachable(steps);
    var s := Run(INITIAL, steps);
    DeliveryIsRequested(s.fanout, id);
    var n := s.fanout.table.rows[id].row.notificationId;
    assert SameNotification(s.creation.rows[n], s.fanout.notifications[n]);
  }

  lemma DeliveryIsRequested(f: F.State, id: Id)
    requires F.Inv(f) && id in f.table.rows
    ensures var d := f.table.rows[id].row;
            && d.notificationId in f.notifications && d.channel in f.notifications[d.notificationId].channels
            && d.userId in F.Users(f.recipients, d.notificationId)
  {
    var d := f.table.rows[id].row;
    assert (d.notificationId, d.userId) in f.recipients;
    assert F.ProductOk(f, d.notificationId);
    assert (d.userId, d.channel) in F.Pairs(f.table.rows, d.notificationId);
  }

  // ----- replays -----------------------------------------------------------------------------------

  /**
   * Outbox row e is that of the i-th replay: its payload lists, each once, exactly the delivery rows that replay's own
   * update moved, all of them rows of its own notification, and the i-th queued audit row counts them.
   */
  ghost predicate AnnouncesReplay(table: D.Table, outbox: map<Id, O.Row>, books: Books, e: Id, i: nat, ids: seq<Id>) {
    && i < |books.events| == |books.announced| == |R.QueuedAudits(books.audits)|
    && books.announced[i] == Announcement(e, ids) && e in outbox
    && var r, a := books.events[i], R.QueuedAudits(books.audits)[i];
       && outbox[e].event == ReplayRequestedEvent(r.notificationId, ids, r.replayId, Timestamp(r.at, Some(0)))
       && (forall id :: id in ids <==> WasReplayed(table.rows, id, r.replayId))
       && (forall j, k :: 0 <= j < k < |ids| ==> ids[j] != ids[k])
       && (forall id :: id in ids ==> table.rows[id].row.notificationId == r.notificationId)
       && a.replayId == Some(r.replayId) && a.notificationId == r.notificationId && a.replayedCount == |ids|
  }

  /** Each `notification.replay_requested` outbox row belongs to exactly one replay, and says what that replay did. */
  lemma ReplayEventIsExact(steps: seq<Step>, e: Id) returns (i: nat, ids: seq<Id>)
    requires var outbox := Run(INITIAL, steps).outbox.rows; e in outbox && outbox[e].event.eventType == REPLAY_REQUESTED
    ensures var s := Run(INITIAL, steps);
            && AnnouncesReplay(s.fanout.table, s.outbox.rows, s.books, e, i, ids)
            && forall j, q :: AnnouncesReplay(s.fanout.table, s.outbox.rows, s.books, e, j, q) ==> j == i
  {
    Reachable(steps);
    var s := Run(INITIAL, steps);
    i, ids := EventIsBooked(s.fanout.table, s.outbox.rows, s.books, e);
  }

  lemma EventIsBooked(table: D.Table, outbox: map<Id, O.Row>, books: Books, e: Id) returns (i: nat, ids: seq<Id>)
    requires Booked(table, outbox, books) && OwnRows(table.rows, books.events)
    requires e in outbox && outbox[e].event.eventType == REPLAY_REQUESTED
    ensures AnnouncesReplay(table, outbox, books, e, i, ids)
    ensures forall j, q :: AnnouncesReplay(table, outbox, books, e, j, q) ==> j == i
  {
    i :| 0 <= i < |books.announced| && books.announced[i].eventId == e;
    ids := books.announced[i].ids;
    assert IsAnnounced(outbox, books.events[i], books.announced[i]);
    var r := books.events[i];
    forall id ensures id in ids <==> WasReplayed(table.rows, id, r.replayId) {
      assert id in ids <==> id in R.Moved(table, r.replayId);
    }
    ListSize(ids, R.Moved(table, r.replayId));
  }

  /** This replay once put the row back into the queue. */
  predicate WasReplayed(rows: map<Id, D.Tracked>, id: Id, replayId: Id) {
    id in rows && exists k :: 0 <= k < |rows[id].events| && rows[id].events[k].Replayed?
                              && rows[id].events[k].replayId == replayId
  }

  lemma {:induction false} ListSize(ids: seq<Id>, rows: set<Id>)
    requires (forall id :: id in ids <==> id in rows) && forall j, k :: 0 <= j < k < |ids| ==> ids[j] != ids[k]
    ensures |rows| == |ids|
  {
    if ids != [] {
      var n := |ids| - 1;
      assert ids == ids[..n] + [ids[n]];
      assert ids[n] !in ids[..n];
      ListSize(ids[..n], rows - {ids[n]});
    }
  }

  lemma MoveHasEvent(table: D.Table, outbox: map<Id, O.Row>, books: Books, id: Id, replayId: Id)
      returns (e: Id, ids: seq<Id>, r: R.ReplayEvent)
    requires Booked(table, outbox, books) && WasReplayed(table.rows, id, replayId)
    ensures e in outbox && id in ids
    ensures outbox[e].event == ReplayRequestedEvent(r.notificationId, ids, replayId, Timestamp(r.at, Some(0)))
  {
    assert R.HasReplay(table.rows[id], replayId);
    var i :| 0 <= i < |books.events| && books.events[i].replayId == replayId;
    assert IsAnnounced(outbox, books.events[i], books.announced[i]);
    e, ids, r := books.announced[i].eventId, books.announced[i].ids, books.events[i];
    assert id in R.Moved(table, replayId);
  }

  /** Each move of a delivery row back to the queue is announced by an outbox row that names it. */
  lemma MoveIsAnnounced(steps: seq<Step>, id: Id, replayId: Id) returns (e: Id, ids: seq<Id>)
    requires WasReplayed(Run(INITIAL, steps).fanout.table.rows, id, replayId)
    ensures var s := Run(INITIAL, steps);
            && e in s.outbox.rows && id in ids
            && exists n, at :: s.outbox.rows[e].event == ReplayRequestedEvent(n, ids, replayId, at)
  {
    Reachable(steps);
    var s := Run(INITIAL, steps);
    var r;
    e, ids, r := MoveHasEvent(s.fanout.table, s.outbox.rows, s.books, id, replayId);
  }

  /** The counts in the audit rows add up to the moves that happened to the delivery rows. */
  lemma ReplaysAddUp(steps: seq<Step>)
    ensures var s := Run(INITIAL, steps);
            R.AuditTotal(s.books.audits) == R.Sum(R.Counts(s.fanout.table))
  {
    Reachable(steps);
  }
}
