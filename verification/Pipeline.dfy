/**
 * The whole path of a notification: request and outbox row in one transaction, the publisher, the log, the
 * consumer, fanout, the delivery rows and their replays, with every process free to die between any two of its
 * transactions. A consumer cycle that raises is followed by a restart at the committed offset, or, as the runtime
 * does, by more polling with the same consumer.
 */
module Pipeline {
  import opened Common
  import opened Envelopes
  import A = Audience
  import C = Creation
  import D = Deliveries
  import DeliveryRuns
  import F = Fanout
  import I = Idempotency
  import K = Consumer
  import L = Losses
  import O = Outbox
  import R = Replays

  /** With which directory an event was fanned out: the run's own record. */
  datatype Fanned = Fanned(notificationId: Id, directory: A.Directory, items: seq<A.Label>)

  /** The outbox row of a replay event, and the order in which its payload lists the rows that moved. */
  datatype Announcement = Announcement(eventId: Id, ids: seq<Id>)

  /** What the retriers wrote; events[i] is the outbox row announced[i], which is the run's own record. */
  datatype Books = Books(events: seq<R.ReplayEvent>, audits: seq<R.Audit>, used: set<Id>, announced: seq<Announcement>)

  datatype State = State(
    creation: C.State,
    outbox: O.State,
    consumer: K.State,
    fanout: F.State,
    fanned: map<Id, Fanned>,
    books: Books)

  const INITIAL := State(C.INITIAL, O.EMPTY, K.INITIAL, F.INITIAL, map[], Books([], [], {}, []))

  datatype Step =
    | Ask(ask: C.Step)
    | Insert(caller: nat, id: Id, eventId: Id)
    | Publish(publish: O.Step)
    | Consume(consume: K.Step)
    | Handle(job: F.Job)
    | Work(work: D.Step)
    | Replay(retry: R.Retry, ids: seq<Id>, eventId: Id)

  // ----- the transactions ------------------------------------------------------------------------

  /** Statements of create_notification that write nothing but the caller's own progress. */
  predicate OnlyAsks(step: C.Step) {
    step.Begin? || step.Find? || step.Refind?
  }

  predicate CanInsert(s: State, c: nat, id: Id, eventId: Id) {
    && c in s.creation.callers && s.creation.callers[c].Missed?
    && var t := s.creation.callers[c].ticket;
       t.identity !in s.creation.index && id !in s.creation.rows && eventId !in s.creation.events
       && eventId !in s.outbox.rows && I.ValidRequest(t.call.request)
  }

  function EventFor(t: C.Ticket, id: Id): Event {
    RequestedEvent(id, t.call.source, Timestamp(t.call.now, Some(0)))
  }

  /** The request, its outbox row, and with it a notification to fan out: one transaction. */
  ghost function InsertRequest(s: State, c: nat, id: Id, eventId: Id): State
    requires CanInsert(s, c, id, eventId)
  {
    var t := s.creation.callers[c].ticket;
    s.(creation := C.Inserted(s.creation, c, t, id, eventId),
       outbox := O.Next(s.outbox, O.Add(eventId, EventFor(t, id))),
       fanout := F.Next(s.fanout, F.Create(id, A.Store(t.call.request.audience), t.call.request.channels)))
  }

  /** A unique violation: nothing is written. */
  predicate Refused(s: State, c: nat) {
    && c in s.creation.callers && s.creation.callers[c].Missed?
    && s.creation.callers[c].ticket.identity in s.creation.index
  }

  /** What consume_one makes of the log. */
  function Decoded(log: seq<O.Entry>): seq<K.Item> {
    seq(|log|, i requires 0 <= i < |log| => Decode(O.Wire(log[i])))
  }

  /** A publisher step, or bytes from elsewhere; what reaches the log reaches the consumer. */
  ghost function PublishStep(s: State, step: O.Step): State {
    var outbox := O.Next(s.outbox, step);
    s.(outbox := outbox, consumer := s.consumer.(log := Decoded(outbox.log)))
  }

  predicate OnlyConsumes(step: K.Step) {
    step.Poll? || step.DeadLetter? || step.Check? || step.Mark? || step.Commit? || step.Restart? || step.CarryOn?
  }

  /** The handler runs on the message in hand: it fans out the notification the payload names. */
  ghost predicate CanHandle(s: State, job: F.Job) {
    && s.consumer.phase.New? && s.consumer.phase.at < |s.consumer.log| && s.consumer.log[s.consumer.phase.at].Ok?
    && NotificationOf(s.consumer.log[s.consumer.phase.at].value.payload) == Some(job.notificationId)
    && F.CanFan(s.fanout, job)
  }

  /** Event e is handled: fanout has committed, which has set the counts of the request as well. */
  ghost function Handled(s: State, e: Id, record: Fanned, fanout: F.State): State {
    var n := record.notificationId;
    s.(consumer := K.Next(s.consumer, K.Handle),
       fanout := fanout,
       creation := C.SetCounts(s.creation, n, |F.Users(fanout.recipients, n)|, |F.Pairs(fanout.table.rows, n)|),
       fanned := s.fanned[e := record])
  }

  ghost function HandleStep(s: State, job: F.Job): State
    requires CanHandle(s, job)
  {
    Handled(s, s.consumer.log[s.consumer.phase.at].value.eventId, Fanned(job.notificationId, job.directory, job.items),
            F.Next(s.fanout, F.Fan(job)))
  }

  /** The delivery table with the replay books: what a retrier's transaction reads and writes. */
  function Accounts(s: State): R.State {
    R.State(s.fanout.table, s.books.events, s.books.audits, s.books.used)
  }

  /** A retrier read, some time ago, failed rows of the notification it retries, and drew a replay id. */
  predicate CanRetry(s: State, r: R.Retry) {
    && r.notificationId in s.creation.rows && r.candidate !in s.books.used
    && forall id :: id in r.eligible ==>
         id in s.fanout.table.rows && s.fanout.table.rows[id].row.notificationId == r.notificationId
  }

  predicate Lists(ids: seq<Id>, rows: set<Id>) {
    (set id | id in ids) == rows && F.Distinct(ids)
  }

  predicate CanAnnounce(s: State, r: R.Retry, ids: seq<Id>, eventId: Id) {
    && eventId !in s.outbox.rows && eventId !in s.creation.events
    && Lists(ids, R.StillFailed(s.fanout.table, r.eligible))
  }

  function EventOfReplay(r: R.Retry, ids: seq<Id>): Event {
    ReplayRequestedEvent(r.notificationId, ids, r.candidate, Timestamp(r.at, Some(0)))
  }

  /** None of the rows is still failed: the retry is audited and that is all. */
  ghost function Audited(s: State, r: R.Retry): State {
    s.(books := s.books.(audits := R.RecordRetry(Accounts(s), r).audits))
  }

  /** The update of the rows that still are failed, the audit row and the outbox row: one transaction. */
  ghost function ReplayStep(s: State, r: R.Retry, ids: seq<Id>, eventId: Id): State {
    var after := R.RecordRetry(Accounts(s), r);
    s.(fanout := F.Next(s.fanout, F.Work(D.Replay(r.eligible, r.candidate, r.at))),
       outbox := O.Next(s.outbox, O.Add(eventId, EventOfReplay(r, ids))),
       books := Books(after.events, after.audits, after.used, s.books.announced + [Announcement(eventId, ids)]))
  }

  ghost function AskNext(s: State, x: C.Step): State {
    if OnlyAsks(x) then s.(creation := C.Next(s.creation, x)) else s
  }

  ghost function InsertNext(s: State, c: nat, id: Id, eventId: Id): State {
    if CanInsert(s, c, id, eventId) then InsertRequest(s, c, id, eventId)
    else if Refused(s, c) then s.(creation := C.Moved(s.creation, c, C.Violated(s.creation.callers[c].ticket))) else s
  }

  ghost function PublishNext(s: State, x: O.Step): State {
    if x.Add? then s else PublishStep(s, x)
  }

  ghost function ConsumeNext(s: State, x: K.Step): State {
    if OnlyConsumes(x) then s.(consumer := K.Next(s.consumer, x)) else s
  }

  ghost function HandleNext(s: State, job: F.Job): State {
    if CanHandle(s, job) then HandleStep(s, job) else s
  }

  ghost function WorkNext(s: State, x: D.Step): State {
    if x.Replay? then s else s.(fanout := F.Next(s.fanout, F.Work(x)))
  }

  ghost function ReplayNext(s: State, r: R.Retry, ids: seq<Id>, eventId: Id): State {
    if !CanRetry(s, r) then s
    else if R.StillFailed(s.fanout.table, r.eligible) == {} then Audited(s, r)
    else if CanAnnounce(s, r, ids, eventId) then ReplayStep(s, r, ids, eventId)
    else s
  }

  /** A handler that raises commits nothing; `Restart` or `CarryOn` is what happens after the cycle it ends. */
  ghost function Next(s: State, step: Step): State {
    match step
    case Ask(x) => AskNext(s, x)
    case Insert(c, id, eventId) => InsertNext(s, c, id, eventId)
    case Publish(x) => PublishNext(s, x)
    case Consume(x) => ConsumeNext(s, x)
    case Handle(job) => HandleNext(s, job)
    case Work(x) => WorkNext(s, x)
    case Replay(r, ids, eventId) => ReplayNext(s, r, ids, eventId)
  }

  ghost function Run(s: State, steps: seq<Step>): State {
    if steps == [] then s else Next(Run(s, steps[..|steps| - 1]), steps[|steps| - 1])
  }

  // ----- what a request writes ---------------------------------------------------------------------

  /** The request, one pending outbox row that names it and its sender, and the notification to fan out. */
  lemma RequestWrites(s: State, c: nat, t: C.Ticket, id: Id, eventId: Id)
    requires c in s.creation.callers && s.creation.callers[c] == C.Missed(t) && t.identity !in s.creation.index
    requires id !in s.creation.rows && id !in s.fanout.notifications && I.ValidRequest(t.call.request)
    requires eventId !in s.creation.events && eventId !in s.outbox.rows
    ensures var s' := Next(s, Insert(c, id, eventId));
            && s' == s.(creation := s'.creation, outbox := s'.outbox, fanout := s'.fanout)
            && s'.creation.rows
               == s.creation.rows[id := C.Row(t.identity, t.call.request, t.fingerprint, t.call.now, 0, 0)]
            && s'.creation.callers == s.creation.callers[c := C.Done(t, C.Created(id))]
            && s'.outbox == s.outbox.(rows := s'.outbox.rows) && eventId in s'.outbox.rows
            && s'.outbox.rows == s.outbox.rows[eventId := s'.outbox.rows[eventId]]
            && s'.outbox.rows[eventId].event
               == RequestedEvent(id, t.call.source, Timestamp(t.call.now, Some(0)))
            && s'.outbox.rows[eventId].status == O.Pending
            && s'.fanout == s.fanout.(notifications := s'.fanout.notifications)
            && s'.fanout.notifications
               == s.fanout.notifications[id := F.Notification(A.Store(t.call.request.audience), t.call.request.channels,
                                                              0, 0)]
  {
  }

  /**
   * Only a caller whose lookup found nothing inserts, and one whose identity is taken learns of it and writes
   * nothing.
   */
  lemma OnlyMissedInsert(s: State, c: nat, id: Id, eventId: Id)
    ensures !(c in s.creation.callers && s.creation.callers[c].Missed?) ==> Next(s, Insert(c, id, eventId)) == s
    ensures c in s.creation.callers && s.creation.callers[c].Missed?
            && s.creation.callers[c].ticket.identity in s.creation.index ==>
              Next(s, Insert(c, id, eventId))
              == s.(creation := s.creation.(
                      callers := s.creation.callers[c := C.Violated(s.creation.callers[c].ticket)]))
  {
  }

  // ----- what a retry does to the whole store ------------------------------------------------------

  /** With nothing left to replay only an audit row is written. */
  lemma IdleRetryMeans(s: State, r: R.Retry, ids: seq<Id>, eventId: Id)
    requires r.notificationId in s.creation.rows && r.candidate !in s.books.used
    requires forall id :: id in r.eligible ==>
               id in s.fanout.table.rows && s.fanout.table.rows[id].row.notificationId == r.notificationId
               && s.fanout.table.rows[id].row.status != D.FailedRetryable
    ensures Next(s, Replay(r, ids, eventId))
            == s.(books := s.books.(audits := s.books.audits
                  + [R.Audit(r.notificationId, r.webDeliveryId, r.requestedBy, R.NoEligible, None, 0, r.at)]))
  {
    R.RetryMeans(Accounts(s), r, {});
  }

  /** `moved` are the given rows that are failed_retryable, listed by `ids`; the outbox id is new. */
  ghost predicate Retriable(s: State, r: R.Retry, moved: set<Id>, ids: seq<Id>, eventId: Id) {
    && r.notificationId in s.creation.rows && r.candidate !in s.books.used
    && (forall id :: id in r.eligible ==>
          id in s.fanout.table.rows && s.fanout.table.rows[id].row.notificationId == r.notificationId)
    && moved == (set id | id in r.eligible && s.fanout.table.rows[id].row.status == D.FailedRetryable)
    && moved != {} && eventId !in s.outbox.rows && eventId !in s.creation.events
    && (forall id :: id in ids <==> id in moved) && (forall i, j :: 0 <= i < j < |ids| ==> ids[i] != ids[j])
  }

  lemma RetryIs(s: State, r: R.Retry, moved: set<Id>, ids: seq<Id>, eventId: Id)
    requires Retriable(s, r, moved, ids, eventId)
    ensures moved == R.StillFailed(s.fanout.table, r.eligible)
    ensures Next(s, Replay(r, ids, eventId)) == ReplayStep(s, r, ids, eventId)
  {
    assert moved == R.StillFailed(s.fanout.table, r.eligible);
    assert (set id | id in ids) == moved;
  }

  /** A retry moves exactly the given rows that are failed_retryable, back into the queue and due at once. */
  lemma RetryMovesRows(s: State, r: R.Retry, moved: set<Id>, ids: seq<Id>, eventId: Id, id: Id)
    requires Retriable(s, r, moved, ids, eventId) && id in s.fanout.table.rows
    ensures var s' := Next(s, Replay(r, ids, eventId));
            && s'.fanout == s.fanout.(table := s'.fanout.table)
            && s'.fanout.table.rows.Keys == s.fanout.table.rows.Keys
            && var before, after := s.fanout.table.rows[id], s'.fanout.table.rows[id];
               if id in moved then
                 after.row.status == D.ReplayRequested && after.row.replayId == Some(r.candidate)
                 && after.row.nextAttemptAt == r.at && after.row.attemptCount == before.row.attemptCount
               else after == before
  {
    RetryIs(s, r, moved, ids, eventId);
    DeliveryRuns.ReplayMeans(s.fanout.table, r.eligible, r.candidate, r.at, id);
  }

  /** In the same transaction it adds one outbox row that lists them in some order; the consumer sees nothing yet. */
  lemma RetryAnnounces(s: State, r: R.Retry, moved: set<Id>, ids: seq<Id>, eventId: Id)
    requires Retriable(s, r, moved, ids, eventId)
    ensures var s' := Next(s, Replay(r, ids, eventId));
            && s'.creation == s.creation && s'.consumer == s.consumer && s'.fanned == s.fanned
            && s'.outbox == s.outbox.(rows := s'.outbox.rows) && eventId in s'.outbox.rows
            && s'.outbox.rows == s.outbox.rows[eventId := s'.outbox.rows[eventId]]
            && s'.outbox.rows[eventId].status == O.Pending
            && s'.outbox.rows[eventId].event
               == ReplayRequestedEvent(r.notificationId, ids, r.candidate, Timestamp(r.at, Some(0)))
  {
    RetryIs(s, r, moved, ids, eventId);
  }

  /** And the audit row, and the record of the event. */
  lemma RetryIsAudited(s: State, r: R.Retry, moved: set<Id>, ids: seq<Id>, eventId: Id)
    requires Retriable(s, r, moved, ids, eventId)
    ensures var b, b' := s.books, Next(s, Replay(r, ids, eventId)).books;
            && b'.audits == b.audits + [R.Audit(r.notificationId, r.webDeliveryId, r.requestedBy, R.Queued,
                                                Some(r.candidate), |moved|, r.at)]
            && b'.events == b.events + [R.ReplayEvent(r.notificationId, r.candidate, moved, r.at)]
            && b'.used == b.used + {r.candidate}
  {
    RetryIs(s, r, moved, ids, eventId);
    R.RetryMeans(Accounts(s), r, moved);
  }

  // ----- what ties the components together --------------------------------------------------------

  predicate SameNotification(row: C.Row, n: F.Notification) {
    && I.ValidRequest(row.request)
    && n.audience == A.Store(row.request.audience) && n.channels == row.request.channels
    && n.recipientCount == row.recipientCount && n.deliveryCount == row.deliveryCount
  }

  /** What fanout reads is what was requested, and the counts are those it wrote. */
  predicate RequestsOk(rows: map<Id, C.Row>, notifications: map<Id, F.Notification>) {
    rows.Keys == notifications.Keys && forall n :: n in rows ==> SameNotification(rows[n], notifications[n])
  }

  /** Each outbox row is the event of one request, or of a replay of one. */
  predicate EventOk(events: map<Id, Id>, rows: map<Id, C.Row>, e: Id, event: Event) {
    && Supported(event) && (event.eventType == REQUESTED <==> e in events)
    && NotificationOf(event.payload).Some? && NotificationOf(event.payload).value in rows
    && (e in events ==> NotificationOf(event.payload).value == events[e])
  }

  predicate EventsOk(events: map<Id, Id>, rows: map<Id, C.Row>, outbox: map<Id, O.Row>) {
    && events.Keys <= outbox.Keys
    && forall e :: e in outbox ==> EventOk(events, rows, e, outbox[e].event)
  }

  /** The users event e was fanned out to are recipients. */
  predicate FannedOk(outbox: map<Id, O.Row>, fanout: F.State, fanned: map<Id, Fanned>, e: Id) {
    && e in outbox && e in fanned
    && NotificationOf(outbox[e].event.payload) == Some(fanned[e].notificationId)
    && fanned[e].notificationId in fanout.notifications
    && F.ItemsMatch(fanout.notifications[fanned[e].notificationId].audience, fanned[e].items)
    && SelectedBy(fanned[e], fanout.notifications[fanned[e].notificationId].audience)
        <= F.Users(fanout.recipients, fanned[e].notificationId)
  }

  function SelectedBy(f: Fanned, audience: A.Stored): set<Id> {
    set u | u in A.ResolveStored(f.directory, audience, f.items)
  }

  predicate HandlesOk(handles: seq<Id>, outbox: map<Id, O.Row>, fanout: F.State, fanned: map<Id, Fanned>) {
    forall e :: e in handles ==> FannedOk(outbox, fanout, fanned, e)
  }

  ghost predicate Components(s: State) {
    C.Inv(s.creation) && O.Inv(s.outbox) && K.Sound(s.consumer) && F.Inv(s.fanout) && DeliveryRuns.Inv(s.fanout.table)
  }

  ghost predicate Glue(s: State) {
    && s.consumer.log == Decoded(s.outbox.log)
    && RequestsOk(s.creation.rows, s.fanout.notifications)
    && EventsOk(s.creation.events, s.creation.rows, s.outbox.rows)
    && HandlesOk(s.consumer.handles, s.outbox.rows, s.fanout, s.fanned)
  }

  ghost predicate Core(s: State) {
    Components(s) && Glue(s)
  }

  /** Replay event r is outbox row a, whose payload lists exactly the rows it moved. */
  predicate IsAnnounced(outbox: map<Id, O.Row>, r: R.ReplayEvent, a: Announcement) {
    && a.eventId in outbox && Lists(a.ids, r.deliveryIds)
    && outbox[a.eventId].event == ReplayRequestedEvent(r.notificationId, a.ids, r.replayId, Timestamp(r.at, Some(0)))
  }

  /** Replay events and `notification.replay_requested` outbox rows correspond one to one. */
  predicate AnnouncedOk(outbox: map<Id, O.Row>, events: seq<R.ReplayEvent>, announced: seq<Announcement>) {
    && |announced| == |events|
    && (forall i :: 0 <= i < |events| ==> IsAnnounced(outbox, events[i], announced[i]))
    && (forall i, j :: 0 <= i < j < |announced| ==> announced[i].eventId != announced[j].eventId)
    && (forall e :: e in outbox && outbox[e].event.eventType == REPLAY_REQUESTED ==>
          exists i :: 0 <= i < |announced| && announced[i].eventId == e)
  }

  ghost predicate Booked(table: D.Table, outbox: map<Id, O.Row>, books: Books) {
    && R.Conserved(R.State(table, books.events, books.audits, books.used))
    && AnnouncedOk(outbox, books.events, books.announced)
  }

  ghost predicate BooksOk(s: State) {
    Booked(s.fanout.table, s.outbox.rows, s.books)
  }

  /** A replay names delivery rows of its own notification only. */
  ghost predicate OwnRows(rows: map<Id, D.Tracked>, events: seq<R.ReplayEvent>) {
    forall i, id :: 0 <= i < |events| && id in events[i].deliveryIds ==>
      id in rows && rows[id].row.notificationId == events[i].notificationId
  }

  // ----- each step keeps the components -----------------------------------------------------------

  lemma AskQuiet(s: C.State, step: C.Step)
    requires OnlyAsks(step)
    ensures var s' := C.Next(s, step); s'.rows == s.rows && s'.events == s.events
  {
  }

  lemma DecodedSnoc(log: seq<O.Entry>, e: O.Entry)
    ensures Decoded(log + [e]) == Decoded(log) + [Decode(O.Wire(e))]
  {
  }

  /** A publisher adds at most one entry to the log, changes no event and no set of rows. */
  lemma PublishQuiet(s: O.State, step: O.Step)
    requires !step.Add?
    ensures var s' := O.Next(s, step);
            && (s'.log == s.log || (s'.log != [] && s'.log == s.log + [s'.log[|s.log|]]))
            && SameEvents(s.rows, s'.rows)
  {
  }

  predicate SameEvents(rows: map<Id, O.Row>, rows': map<Id, O.Row>) {
    rows.Keys == rows'.Keys && forall e :: e in rows ==> rows'[e].event == rows[e].event
  }

  lemma PublishKeepsConsumer(s: State, step: O.Step)
    requires K.Sound(s.consumer) && s.consumer.log == Decoded(s.outbox.log) && !step.Add?
    ensures K.Sound(PublishStep(s, step).consumer)
  {
    var item := PublishAppends(s, step);
    if item.Some? { K.StepKeepsSound(s.consumer, K.Append(item.value)); }
  }

  /** To the consumer, a publisher's step is nothing or one more message. */
  lemma PublishAppends(s: State, step: O.Step) returns (item: Option<K.Item>)
    requires s.consumer.log == Decoded(s.outbox.log) && !step.Add?
    ensures PublishStep(s, step).consumer ==
            if item.Some? then K.Next(s.consumer, K.Append(item.value)) else s.consumer
  {
    PublishQuiet(s.outbox, step);
    var log := O.Next(s.outbox, step).log;
    if log != s.outbox.log {
      var e := log[|s.outbox.log|];
      DecodedSnoc(s.outbox.log, e);
      item := Some(Decode(O.Wire(e)));
    } else {
      item := None;
    }
  }

  lemma ConsumeQuiet(s: K.State, step: K.Step)
    requires OnlyConsumes(step)
    ensures var s' := K.Next(s, step); s'.log == s.log && s'.handles == s.handles
  {
  }

  lemma FanTable(s: F.State, job: F.Job)
    requires F.CanFan(s, job) && DeliveryRuns.Inv(s.table)
    ensures DeliveryRuns.Inv(F.Next(s, F.Fan(job)).table)
  {
    F.FanIs(s, job);
    var r := F.AddRecipients(s.recipients, job.notificationId, job.recipientIds);
    DeliveryRuns.StepKeepsInv(s.table, D.Insert(F.NewRows(r, job.notificationId, job.now, job.deliveryIds)));
  }

  // ----- each step keeps what ties them together ----------------------------------------------------

  /** What was fanned out stays so while rows, notifications and recipients only grow. */
  lemma HandlesStay(handles: seq<Id>, outbox: map<Id, O.Row>, outbox': map<Id, O.Row>, f: F.State, f': F.State,
          fanned: map<Id, Fanned>)
    requires HandlesOk(handles, outbox, f, fanned)
    requires forall e :: e in outbox ==> e in outbox' && outbox'[e].event == outbox[e].event
    requires forall n :: n in f.notifications ==> F.Keeps(f, f', n)
    ensures HandlesOk(handles, outbox', f', fanned)
  {
  }

  lemma StepKeepsAll(f: F.State, step: F.Step)
    ensures forall n :: n in f.notifications ==> F.Keeps(f, F.Next(f, step), n)
  {
    forall n | n in f.notifications ensures F.Keeps(f, F.Next(f, step), n) { F.RecipientsStep(f, step, n); }
  }

  lemma AskKeeps(s: State, step: C.Step)
    requires Core(s) && OnlyAsks(step)
    ensures Core(s.(creation := C.Next(s.creation, step)))
  {
    C.StepKeepsInv(s.creation, step);
    AskQuiet(s.creation, step);
  }

  lemma RefuseKeeps(s: State, c: nat)
    requires Core(s) && Refused(s, c)
    ensures Core(s.(creation := C.Moved(s.creation, c, C.Violated(s.creation.callers[c].ticket))))
  {
    C.MoveKeeps(s.creation, c, C.Violated(s.creation.callers[c].ticket));
  }

  lemma NewEvent(events: map<Id, Id>, rows: map<Id, C.Row>, outbox: map<Id, O.Row>, id: Id, row: C.Row, eventId: Id,
          o: O.Row, source: string, at: Timestamp)
    requires EventsOk(events, rows, outbox) && eventId !in outbox && o.event == RequestedEvent(id, source, at)
    ensures EventsOk(events[eventId := id], rows[id := row], outbox[eventId := o])
  {
    ServicesNameTheirNotification(id, source, at, [], 0);
    var outbox' := outbox[eventId := o];
    forall e | e in outbox' ensures EventOk(events[eventId := id], rows[id := row], e, outbox'[e].event) {
      if e != eventId { assert EventOk(events, rows, e, outbox[e].event); }
    }
  }

  lemma NewReplayEvent(events: map<Id, Id>, rows: map<Id, C.Row>, outbox: map<Id, O.Row>, n: Id, ids: seq<Id>,
          replayId: Id, eventId: Id, o: O.Row, at: Timestamp)
    requires EventsOk(events, rows, outbox) && eventId !in outbox
             && o.event == ReplayRequestedEvent(n, ids, replayId, at)
    requires n in rows
    ensures EventsOk(events, rows, outbox[eventId := o])
  {
    ServicesNameTheirNotification(n, "", at, ids, replayId);
    assert REQUESTED != REPLAY_REQUESTED by { assert |REQUESTED| != |REPLAY_REQUESTED|; }
    var outbox' := outbox[eventId := o];
    forall e | e in outbox' ensures EventOk(events, rows, e, outbox'[e].event) {
      if e != eventId { assert EventOk(events, rows, e, outbox[e].event); }
    }
  }

  lemma InsertKeepsComponents(s: State, c: nat, id: Id, eventId: Id)
    requires Components(s) && CanInsert(s, c, id, eventId)
    ensures Components(InsertRequest(s, c, id, eventId))
  {
    var t := s.creation.callers[c].ticket;
    C.InsertKeeps(s.creation, c, t, id, eventId);
    O.AddKeeps(s.outbox, eventId, EventFor(t, id));
    F.CreateKeepsInv(s.fanout, id, A.Store(t.call.request.audience), t.call.request.channels);
  }

  lemma NewRequest(rows: map<Id, C.Row>, notifications: map<Id, F.Notification>, id: Id, row: C.Row, n: F.Notification)
    requires RequestsOk(rows, notifications) && SameNotification(row, n)
    ensures RequestsOk(rows[id := row], notifications[id := n])
  {
  }

  function RequestRow(t: C.Ticket): C.Row {
    C.Row(t.identity, t.call.request, t.fingerprint, t.call.now, 0, 0)
  }

  function NewNotification(request: I.Request): F.Notification
    requires I.ValidRequest(request)
  {
    F.Notification(A.Store(request.audience), request.channels, 0, 0)
  }

  lemma InsertEffect(s: State, c: nat, id: Id, eventId: Id)
    requires CanInsert(s, c, id, eventId) && id !in s.fanout.notifications
    ensures var t, s' := s.creation.callers[c].ticket, InsertRequest(s, c, id, eventId);
            && s'.creation.rows == s.creation.rows[id := RequestRow(t)]
            && s'.creation.events == s.creation.events[eventId := id]
            && s'.outbox == s.outbox.(rows := s.outbox.rows[eventId := O.NewRow(EventFor(t, id))])
            && s'.fanout == s.fanout.(notifications := s.fanout.notifications[id := NewNotification(t.call.request)])
            && s'.consumer == s.consumer && s'.fanned == s.fanned
  {
  }

  lemma InsertKeepsEvents(s: State, t: C.Ticket, id: Id, eventId: Id)
    requires EventsOk(s.creation.events, s.creation.rows, s.outbox.rows) && eventId !in s.outbox.rows
    ensures EventsOk(s.creation.events[eventId := id], s.creation.rows[id := RequestRow(t)],
                     s.outbox.rows[eventId := O.NewRow(EventFor(t, id))])
  {
    NewEvent(s.creation.events, s.creation.rows, s.outbox.rows, id, RequestRow(t), eventId, O.NewRow(EventFor(t, id)),
             t.call.source, Timestamp(t.call.now, Some(0)));
  }

  lemma InsertKeepsHandles(handles: seq<Id>, outbox: map<Id, O.Row>, f: F.State, fanned: map<Id, Fanned>, e: Id,
          o: O.Row, n: Id, x: F.Notification)
    requires HandlesOk(handles, outbox, f, fanned) && e !in outbox && n !in f.notifications
    ensures HandlesOk(handles, outbox[e := o], f.(notifications := f.notifications[n := x]), fanned)
  {
  }

  lemma InsertKeepsGlue(s: State, c: nat, id: Id, eventId: Id)
    requires Glue(s) && CanInsert(s, c, id, eventId)
    ensures Glue(InsertRequest(s, c, id, eventId))
  {
    var t := s.creation.callers[c].ticket;
    InsertEffect(s, c, id, eventId);
    NewRequest(s.creation.rows, s.fanout.notifications, id, RequestRow(t), NewNotification(t.call.request));
    InsertKeepsEvents(s, t, id, eventId);
    InsertKeepsHandles(s.consumer.handles, s.outbox.rows, s.fanout, s.fanned, eventId, O.NewRow(EventFor(t, id)),
                       id, NewNotification(t.call.request));
  }

  lemma PublishKeeps(s: State, step: O.Step)
    requires Core(s) && !step.Add?
    ensures Core(PublishStep(s, step))
  {
    PublishKeepsConsumer(s, step);
    O.StepKeepsInv(s.outbox, step);
    PublishQuiet(s.outbox, step);
    SameEventsKeep(s.creation.events, s.creation.rows, s.outbox.rows, O.Next(s.outbox, step).rows);
    HandlesStay(s.consumer.handles, s.outbox.rows, O.Next(s.outbox, step).rows, s.fanout, s.fanout, s.fanned);
  }

  lemma SameEventsKeep(events: map<Id, Id>, rows: map<Id, C.Row>, outbox: map<Id, O.Row>, outbox': map<Id, O.Row>)
    requires EventsOk(events, rows, outbox) && SameEvents(outbox, outbox')
    ensures EventsOk(events, rows, outbox')
  {
  }

  lemma ConsumeKeeps(s: State, step: K.Step)
    requires Core(s) && OnlyConsumes(step)
    ensures Core(s.(consumer := K.Next(s.consumer, step)))
  {
    K.StepKeepsSound(s.consumer, step);
    ConsumeQuiet(s.consumer, step);
  }

  lemma WorkKeeps(s: State, step: D.Step)
    requires Core(s)
    ensures Core(s.(fanout := F.Next(s.fanout, F.Work(step))))
  {
    var f := F.Next(s.fanout, F.Work(step));
    F.StepKeepsInv(s.fanout, F.Work(step));
    DeliveryRuns.StepKeepsInv(s.fanout.table, step);
    StepKeepsAll(s.fanout, F.Work(step));
    HandlesStay(s.consumer.handles, s.outbox.rows, s.outbox.rows, s.fanout, f, s.fanned);
  }

  lemma AnnounceKeepsGlue(s: State, n: Id, ids: seq<Id>, replayId: Id, eventId: Id, at: Timestamp)
    requires Glue(s) && n in s.creation.rows && eventId !in s.outbox.rows
    ensures Glue(s.(outbox := O.Next(s.outbox, O.Add(eventId, ReplayRequestedEvent(n, ids, replayId, at)))))
  {
    var row := O.NewRow(ReplayRequestedEvent(n, ids, replayId, at));
    NewReplayEvent(s.creation.events, s.creation.rows, s.outbox.rows, n, ids, replayId, eventId, row, at);
    assert forall m :: m in s.fanout.notifications ==> F.Keeps(s.fanout, s.fanout, m);
    HandlesStay(s.consumer.handles, s.outbox.rows, s.outbox.rows[eventId := row], s.fanout, s.fanout, s.fanned);
  }

  lemma ReplayKeeps(s: State, r: R.Retry, ids: seq<Id>, eventId: Id)
    requires Core(s) && CanRetry(s, r) && CanAnnounce(s, r, ids, eventId)
    ensures Core(ReplayStep(s, r, ids, eventId))
  {
    var m := s.(fanout := F.Next(s.fanout, F.Work(D.Replay(r.eligible, r.candidate, r.at))));
    WorkKeeps(s, D.Replay(r.eligible, r.candidate, r.at));
    O.AddKeeps(m.outbox, eventId, EventOfReplay(r, ids));
    AnnounceKeepsGlue(m, r.notificationId, ids, r.candidate, eventId, Timestamp(r.at, Some(0)));
  }

  // ----- the handler -------------------------------------------------------------------------------

  /** A message the consumer could decode is an outbox row's own event. */
  lemma MessageIsRow(outbox: O.State, k: nat)
    requires O.LogOk(outbox) && k < |outbox.log| && Decoded(outbox.log)[k].Ok?
    ensures var m := Decoded(outbox.log)[k].value;
            m.eventId in outbox.rows && m.payload == outbox.rows[m.eventId].event.payload
  {
    assert outbox.log[k].Sent?;
    DecodeEncode(outbox.log[k].eventId, outbox.log[k].event);
  }

  lemma HandleKeepsComponents(s: State, job: F.Job)
    requires Components(s) && CanHandle(s, job)
    ensures Components(HandleStep(s, job))
  {
    K.StepKeepsSound(s.consumer, K.Handle);
    F.StepKeepsInv(s.fanout, F.Fan(job));
    FanTable(s.fanout, job);
    var f := F.Next(s.fanout, F.Fan(job));
    C.RecountKeeps(s.creation, job.notificationId, |F.Users(f.recipients, job.notificationId)|,
                   |F.Pairs(f.table.rows, job.notificationId)|);
  }

  lemma CountsAgree(cs: C.State, notifications: map<Id, F.Notification>, n: Id, r: nat, d: nat)
    requires RequestsOk(cs.rows, notifications) && n in notifications
    ensures RequestsOk(C.SetCounts(cs, n, r, d).rows,
                       notifications[n := notifications[n].(recipientCount := r, deliveryCount := d)])
    ensures C.SetCounts(cs, n, r, d).rows.Keys == cs.rows.Keys && C.SetCounts(cs, n, r, d).events == cs.events
  {
    NewRequest(cs.rows, notifications, n, cs.rows[n].(recipientCount := r, deliveryCount := d),
               notifications[n].(recipientCount := r, deliveryCount := d));
  }

  lemma FanKeepsRequests(cs: C.State, f: F.State, job: F.Job)
    requires RequestsOk(cs.rows, f.notifications) && job.notificationId in f.notifications
    ensures var n := job.notificationId;
            var f' := F.FanOut(f, n, job.now, job.recipientIds, job.deliveryIds);
            var cs' := C.SetCounts(cs, n, |F.Users(f'.recipients, n)|, |F.Pairs(f'.table.rows, n)|);
            RequestsOk(cs'.rows, f'.notifications) && cs'.rows.Keys == cs.rows.Keys && cs'.events == cs.events
  {
    var n := job.notificationId;
    var f' := F.FanOut(f, n, job.now, job.recipientIds, job.deliveryIds);
    CountsAgree(cs, f.notifications, n, |F.Users(f'.recipients, n)|, |F.Pairs(f'.table.rows, n)|);
  }

  lemma FanKeepsHandles(handles: seq<Id>, outbox: map<Id, O.Row>, f: F.State, fanned: map<Id, Fanned>, e: Id,
          job: F.Job)
    requires HandlesOk(handles, outbox, f, fanned) && F.CanFan(f, job)
    requires e in outbox && NotificationOf(outbox[e].event.payload) == Some(job.notificationId)
    ensures HandlesOk(handles + [e], outbox, F.Next(f, F.Fan(job)),
                      fanned[e := Fanned(job.notificationId, job.directory, job.items)])
  {
    var n, f' := job.notificationId, F.Next(f, F.Fan(job));
    StepKeepsAll(f, F.Fan(job));
    HandlesStay(handles, outbox, outbox, f, f', fanned);
    JustFanned(outbox, f, e, job);
    NewHandle(handles, outbox, f', fanned, e, Fanned(n, job.directory, job.items));
  }

  lemma JustFanned(outbox: map<Id, O.Row>, f: F.State, e: Id, job: F.Job)
    requires F.CanFan(f, job) && e in outbox && NotificationOf(outbox[e].event.payload) == Some(job.notificationId)
    ensures FannedOk(outbox, F.Next(f, F.Fan(job)), map[e := Fanned(job.notificationId, job.directory, job.items)], e)
  {
    F.FanMeans(f, job, job.notificationId);
    F.RecipientsStep(f, F.Fan(job), job.notificationId);
    assert SelectedBy(Fanned(job.notificationId, job.directory, job.items),
                      f.notifications[job.notificationId].audience) == F.SelectedSet(f, job);
  }

  lemma HandledKeepsGlue(s: State, e: Id, record: Fanned, f: F.State)
    requires Glue(s)
    requires s.consumer.phase.New? && s.consumer.phase.at < |s.consumer.log| && s.consumer.log[s.consumer.phase.at].Ok?
    requires e == s.consumer.log[s.consumer.phase.at].value.eventId
    requires var n := record.notificationId;
             var cs := C.SetCounts(s.creation, n, |F.Users(f.recipients, n)|, |F.Pairs(f.table.rows, n)|);
             RequestsOk(cs.rows, f.notifications) && cs.rows.Keys == s.creation.rows.Keys
                 && cs.events == s.creation.events
    requires HandlesOk(s.consumer.handles + [e], s.outbox.rows, f, s.fanned[e := record])
    ensures Glue(Handled(s, e, record, f))
  {
    SameKeysKeep(s.creation.events, s.creation.rows, Handled(s, e, record, f).creation.rows, s.outbox.rows);
  }

  lemma NewHandle(handles: seq<Id>, outbox: map<Id, O.Row>, f: F.State, fanned: map<Id, Fanned>, e: Id, record: Fanned)
    requires HandlesOk(handles, outbox, f, fanned)
    requires FannedOk(outbox, f, map[e := record], e)
    ensures HandlesOk(handles + [e], outbox, f, fanned[e := record])
  {
  }

  lemma HandleKeepsGlue(s: State, job: F.Job)
    requires O.LogOk(s.outbox) && Glue(s) && CanHandle(s, job)
    ensures Glue(HandleStep(s, job))
  {
    var e := s.consumer.log[s.consumer.phase.at].value.eventId;
    MessageIsRow(s.outbox, s.consumer.phase.at);
    F.FanIs(s.fanout, job);
    FanKeepsRequests(s.creation, s.fanout, job);
    FanKeepsHandles(s.consumer.handles, s.outbox.rows, s.fanout, s.fanned, e, job);
    HandledKeepsGlue(s, e, Fanned(job.notificationId, job.directory, job.items), F.Next(s.fanout, F.Fan(job)));
  }

  lemma SameKeysKeep(events: map<Id, Id>, rows: map<Id, C.Row>, rows': map<Id, C.Row>, outbox: map<Id, O.Row>)
    requires EventsOk(events, rows, outbox) && rows'.Keys == rows.Keys
    ensures EventsOk(events, rows', outbox)
  {
    forall e | e in outbox ensures EventOk(events, rows', e, outbox[e].event) {
      assert EventOk(events, rows, e, outbox[e].event);
    }
  }

  lemma AskNextKeeps(s: State, x: C.Step)
    requires Core(s)
    ensures Core(AskNext(s, x))
  {
    if OnlyAsks(x) { AskKeeps(s, x); }
  }

  lemma InsertNextKeeps(s: State, c: nat, id: Id, eventId: Id)
    requires Core(s)
    ensures Core(InsertNext(s, c, id, eventId))
  {
    if CanInsert(s, c, id, eventId) {
      InsertKeepsComponents(s, c, id, eventId);
      InsertKeepsGlue(s, c, id, eventId);
    } else if Refused(s, c) {
      RefuseKeeps(s, c);
    }
  }

  lemma PublishNextKeeps(s: State, x: O.Step)
    requires Core(s)
    ensures Core(PublishNext(s, x))
  {
    if !x.Add? { PublishKeeps(s, x); }
  }

  lemma ConsumeNextKeeps(s: State, x: K.Step)
    requires Core(s)
    ensures Core(ConsumeNext(s, x))
  {
    if OnlyConsumes(x) { ConsumeKeeps(s, x); }
  }

  lemma HandleNextKeeps(s: State, job: F.Job)
    requires Core(s)
    ensures Core(HandleNext(s, job))
  {
    if CanHandle(s, job) {
      HandleKeepsComponents(s, job);
      HandleKeepsGlue(s, job);
    }
  }

  lemma WorkNextKeeps(s: State, x: D.Step)
    requires Core(s)
    ensures Core(WorkNext(s, x))
  {
    if !x.Replay? { WorkKeeps(s, x); }
  }

  lemma BooksAreApart(s: State, books: Books)
    requires Core(s)
    ensures Core(s.(books := books))
  {
  }

  lemma ReplayNextKeeps(s: State, r: R.Retry, ids: seq<Id>, eventId: Id)
    requires Core(s)
    ensures Core(ReplayNext(s, r, ids, eventId))
  {
    if CanRetry(s, r) {
      if R.StillFailed(s.fanout.table, r.eligible) == {} {
        BooksAreApart(s, Audited(s, r).books);
      } else if CanAnnounce(s, r, ids, eventId) {
        ReplayKeeps(s, r, ids, eventId);
      }
    }
  }

  lemma StepKeepsCore(s: State, step: Step)
    requires Core(s)
    ensures Core(Next(s, step))
  {
    match step
    case Ask(x) => AskNextKeeps(s, x);
    case Insert(c, id, eventId) => InsertNextKeeps(s, c, id, eventId);
    case Publish(x) => PublishNextKeeps(s, x);
    case Consume(x) => ConsumeNextKeeps(s, x);
    case Handle(job) => HandleNextKeeps(s, job);
    case Work(x) => WorkNextKeeps(s, x);
    case Replay(r, ids, eventId) => ReplayNextKeeps(s, r, ids, eventId);
  }

  // ----- the replay books --------------------------------------------------------------------------

  lemma AnnouncedStays(outbox: map<Id, O.Row>, outbox': map<Id, O.Row>, books: Books)
    requires AnnouncedOk(outbox, books.events, books.announced)
    requires forall e :: e in outbox ==> e in outbox' && outbox'[e].event == outbox[e].event
    requires forall e :: e in outbox' && e !in outbox ==> outbox'[e].event.eventType != REPLAY_REQUESTED
    ensures AnnouncedOk(outbox', books.events, books.announced)
  {
    forall i | 0 <= i < |books.events| ensures IsAnnounced(outbox', books.events[i], books.announced[i]) {
      assert IsAnnounced(outbox, books.events[i], books.announced[i]);
    }
  }

  lemma OneMoreAnnounced(outbox: map<Id, O.Row>, books: Books, e: R.ReplayEvent, a: Announcement, row: O.Row)
    requires AnnouncedOk(outbox, books.events, books.announced) && a.eventId !in outbox
    requires IsAnnounced(outbox[a.eventId := row], e, a)
    ensures AnnouncedOk(outbox[a.eventId := row], books.events + [e], books.announced + [a])
  {
    var outbox', events', announced' := outbox[a.eventId := row], books.events + [e], books.announced + [a];
    forall i | 0 <= i < |events'| ensures IsAnnounced(outbox', events'[i], announced'[i]) {
      if i < |books.events| { assert IsAnnounced(outbox, books.events[i], books.announced[i]); }
    }
    forall x | x in outbox' && outbox'[x].event.eventType == REPLAY_REQUESTED
      ensures exists i :: 0 <= i < |announced'| && announced'[i].eventId == x
    {
      if x == a.eventId {
        assert announced'[|books.announced|].eventId == x;
      } else {
        var i :| 0 <= i < |books.announced| && books.announced[i].eventId == x;
        assert announced'[i].eventId == x;
      }
    }
  }

  /** A request's own outbox row is not a replay's. */
  lemma RequestIsNoReplay(outbox: map<Id, O.Row>, books: Books, e: Id, row: O.Row)
    requires AnnouncedOk(outbox, books.events, books.announced) && e !in outbox && row.event.eventType == REQUESTED
    ensures AnnouncedOk(outbox[e := row], books.events, books.announced)
  {
    assert REQUESTED != REPLAY_REQUESTED by { assert |REQUESTED| != |REPLAY_REQUESTED|; }
    AnnouncedStays(outbox, outbox[e := row], books);
  }

  lemma InsertKeepsBooks(s: State, c: nat, id: Id, eventId: Id)
    requires BooksOk(s) && CanInsert(s, c, id, eventId)
    ensures BooksOk(InsertRequest(s, c, id, eventId))
  {
    var row := O.NewRow(EventFor(s.creation.callers[c].ticket, id));
    RequestIsNoReplay(s.outbox.rows, s.books, eventId, row);
    InsertTouches(s, c, id, eventId);
  }

  lemma InsertTouches(s: State, c: nat, id: Id, eventId: Id)
    requires CanInsert(s, c, id, eventId)
    ensures var s' := InsertRequest(s, c, id, eventId);
            && s'.outbox.rows == s.outbox.rows[eventId := O.NewRow(EventFor(s.creation.callers[c].ticket, id))]
            && s'.fanout.table == s.fanout.table && s'.books == s.books
  {
  }

  lemma HandleKeepsBooks(s: State, job: F.Job)
    requires BooksOk(s) && CanHandle(s, job)
    ensures BooksOk(HandleStep(s, job))
  {
    F.FanIs(s.fanout, job);
    var r := F.AddRecipients(s.fanout.recipients, job.notificationId, job.recipientIds);
    R.TableStepKeeps(s.fanout.table, D.Insert(F.NewRows(r, job.notificationId, job.now, job.deliveryIds)),
                     s.books.events, s.books.audits, s.books.used);
  }

  lemma ReplayTouches(s: State, r: R.Retry, ids: seq<Id>, eventId: Id)
    requires CanAnnounce(s, r, ids, eventId) && R.StillFailed(s.fanout.table, r.eligible) != {}
    ensures var s', after := ReplayStep(s, r, ids, eventId), R.RecordRetry(Accounts(s), r);
            && s'.fanout.table == after.table
            && s'.outbox.rows == s.outbox.rows[eventId := O.NewRow(EventOfReplay(r, ids))]
            && s'.books
                == Books(after.events, after.audits, after.used, s.books.announced + [Announcement(eventId, ids)])
  {
  }

  /** The replay event and its outbox row say the same rows moved. */
  lemma ReplayAnnounces(outbox: map<Id, O.Row>, table: D.Table, books: Books, r: R.Retry, ids: seq<Id>, eventId: Id)
    requires AnnouncedOk(outbox, books.events, books.announced) && eventId !in outbox
    requires Lists(ids, R.StillFailed(table, r.eligible))
    ensures AnnouncedOk(outbox[eventId := O.NewRow(EventOfReplay(r, ids))],
                        books.events
                            + [R.ReplayEvent(r.notificationId, r.candidate, R.StillFailed(table, r.eligible), r.at)],
                        books.announced + [Announcement(eventId, ids)])
  {
    OneMoreAnnounced(outbox, books,
                     R.ReplayEvent(r.notificationId, r.candidate, R.StillFailed(table, r.eligible), r.at),
                     Announcement(eventId, ids), O.NewRow(EventOfReplay(r, ids)));
  }

  lemma ReplayKeepsBooks(s: State, r: R.Retry, ids: seq<Id>, eventId: Id)
    requires BooksOk(s) && CanRetry(s, r) && CanAnnounce(s, r, ids, eventId)
    requires R.StillFailed(s.fanout.table, r.eligible) != {}
    ensures BooksOk(ReplayStep(s, r, ids, eventId))
  {
    R.RetryKeeps(Accounts(s), r);
    ReplayTouches(s, r, ids, eventId);
    ReplayAnnounces(s.outbox.rows, s.fanout.table, s.books, r, ids, eventId);
  }

  lemma AuditKeepsBooks(s: State, r: R.Retry)
    requires BooksOk(s) && CanRetry(s, r) && R.StillFailed(s.fanout.table, r.eligible) == {}
    ensures BooksOk(Audited(s, r))
  {
    R.RetryKeeps(Accounts(s), r);
  }

  lemma ReplayNextKeepsBooks(s: State, r: R.Retry, ids: seq<Id>, eventId: Id)
    requires BooksOk(s)
    ensures BooksOk(ReplayNext(s, r, ids, eventId))
  {
    if CanRetry(s, r) {
      if R.StillFailed(s.fanout.table, r.eligible) == {} {
        AuditKeepsBooks(s, r);
      } else if CanAnnounce(s, r, ids, eventId) {
        ReplayKeepsBooks(s, r, ids, eventId);
      }
    }
  }

  lemma PublishKeepsBooks(s: State, x: O.Step)
    requires BooksOk(s)
    ensures BooksOk(PublishNext(s, x))
  {
    if !x.Add? {
      PublishQuiet(s.outbox, x);
      AnnouncedStays(s.outbox.rows, O.Next(s.outbox, x).rows, s.books);
    }
  }

  lemma WorkKeepsBooks(s: State, x: D.Step)
    requires BooksOk(s)
    ensures BooksOk(WorkNext(s, x))
  {
    if !x.Replay? { R.TableStepKeeps(s.fanout.table, x, s.books.events, s.books.audits, s.books.used); }
  }

  lemma StepKeepsBooks(s: State, step: Step)
    requires BooksOk(s)
    ensures BooksOk(Next(s, step))
  {
    match step
    case Insert(c, id, eventId) => if CanInsert(s, c, id, eventId) { InsertKeepsBooks(s, c, id, eventId); }
    case Publish(x) => PublishKeepsBooks(s, x);
    case Handle(job) => if CanHandle(s, job) { HandleKeepsBooks(s, job); }
    case Work(x) => WorkKeepsBooks(s, x);
    case Replay(r, ids, eventId) => ReplayNextKeepsBooks(s, r, ids, eventId);
    case _ =>
  }

  // ----- replays stay within their notification ----------------------------------------------------

  lemma StaysOf(t: D.Table, x: D.Step, id: Id)
    requires id in t.rows
    ensures id in D.Next(t, x).rows && D.Next(t, x).rows[id].row.notificationId == t.rows[id].row.notificationId
  {
  }

  lemma HandledRowStays(s: State, job: F.Job, id: Id)
    requires CanHandle(s, job) && id in s.fanout.table.rows
    ensures var rows := HandleStep(s, job).fanout.table.rows; id in rows && rows[id] == s.fanout.table.rows[id]
  {
    F.FanIs(s.fanout, job);
    F.FanTouchesNothing(s.fanout, job.notificationId, job.now, F.SelectedSet(s.fanout, job), job.recipientIds,
                        job.deliveryIds);
  }

  lemma WorkedRowStays(s: State, x: D.Step, id: Id)
    requires id in s.fanout.table.rows
    ensures var rows := WorkNext(s, x).fanout.table.rows;
            id in rows && rows[id].row.notificationId == s.fanout.table.rows[id].row.notificationId
  {
    StaysOf(s.fanout.table, x, id);
  }

  lemma ReplayedRowStays(s: State, r: R.Retry, ids: seq<Id>, eventId: Id, id: Id)
    requires id in s.fanout.table.rows
    ensures var rows := ReplayNext(s, r, ids, eventId).fanout.table.rows;
            id in rows && rows[id].row.notificationId == s.fanout.table.rows[id].row.notificationId
  {
    StaysOf(s.fanout.table, D.Replay(r.eligible, r.candidate, r.at), id);
  }

  lemma OtherRowsStay(s: State, step: Step)
    requires step.Ask? || step.Insert? || step.Publish? || step.Consume?
    ensures Next(s, step).fanout.table == s.fanout.table
  {
  }

  lemma RowStaysOf(s: State, step: Step, id: Id)
    requires id in s.fanout.table.rows
    ensures var rows := Next(s, step).fanout.table.rows;
            id in rows && rows[id].row.notificationId == s.fanout.table.rows[id].row.notificationId
  {
    match step
    case Handle(job) => if CanHandle(s, job) { HandledRowStays(s, job, id); }
    case Work(x) => WorkedRowStays(s, x, id);
    case Replay(r, ids, eventId) => ReplayedRowStays(s, r, ids, eventId, id);
    case _ => OtherRowsStay(s, step);
  }

  /** No step but a replay writes a replay event, and that one names rows its retry was given. */
  lemma NewEvents(s: State, step: Step)
    ensures var events := Next(s, step).books.events;
            || events == s.books.events
            || (step.Replay? && CanRetry(s, step.retry) && |events| == |s.books.events| + 1
                && events[..|s.books.events|] == s.books.events
                && events[|s.books.events|].notificationId == step.retry.notificationId
                && events[|s.books.events|].deliveryIds <= step.retry.eligible)
  {
  }

  lemma StepKeepsOwnRows(s: State, step: Step)
    requires OwnRows(s.fanout.table.rows, s.books.events)
    ensures OwnRows(Next(s, step).fanout.table.rows, Next(s, step).books.events)
  {
    var rows, events := Next(s, step).fanout.table.rows, Next(s, step).books.events;
    NewEvents(s, step);
    forall i, id | 0 <= i < |events| && id in events[i].deliveryIds
      ensures id in rows && rows[id].row.notificationId == events[i].notificationId
    {
      if i < |s.books.events| { assert events[i] == s.books.events[i]; }
      RowStaysOf(s, step, id);
    }
  }

  // ----- every run -----------------------------------------------------------------------------------

  ghost predicate Inv(s: State) {
    Core(s) && BooksOk(s) && OwnRows(s.fanout.table.rows, s.books.events)
  }

  lemma StepKeepsInv(s: State, step: Step)
    requires Inv(s)
    ensures Inv(Next(s, step))
  {
    StepKeepsCore(s, step);
    StepKeepsBooks(s, step);
    StepKeepsOwnRows(s, step);
  }

  lemma InitialBooks()
    ensures BooksOk(INITIAL)
  {
    assert R.Counts(D.EMPTY) == map[];
  }

  lemma InitialCore()
    ensures Core(INITIAL)
  {
  }

  lemma {:induction false} Reachable(steps: seq<Step>)
    ensures Inv(Run(INITIAL, steps))
  {
    if steps == [] {
      InitialCore();
      InitialBooks();
    } else {
      Reachable(steps[..|steps| - 1]);
      StepKeepsInv(Run(INITIAL, steps[..|steps| - 1]), steps[|steps| - 1]);
    }
  }

  // ----- runs in which no failed cycle polls past an open message ------------------------------------

  /** Polling on after a cycle that raised, only where the message in hand was dealt with or comes again at once. */
  predicate CarefulStep(s: State, step: Step) {
    step == Consume(K.CarryOn) ==> K.MayCarryOn(s.consumer)
  }

  ghost predicate Careful(s: State, steps: seq<Step>) {
    steps != [] ==>
      && Careful(s, steps[..|steps| - 1])
      && CarefulStep(Run(s, steps[..|steps| - 1]), steps[|steps| - 1])
  }

  /** What a step of the pipeline is to the consumer. */
  lemma ConsumerSteps(s: State, step: Step) returns (ks: seq<K.Step>)
    requires s.consumer.log == Decoded(s.outbox.log)
    ensures Next(s, step).consumer == K.Run(s.consumer, ks) && |ks| <= 1
    ensures K.CarryOn in ks ==> step == Consume(K.CarryOn)
  {
    ks := [];
    match step
    case Publish(x) =>
      if !x.Add? {
        var item := PublishAppends(s, x);
        if item.Some? { ks := [K.Append(item.value)]; }
      }
    case Consume(x) => if OnlyConsumes(x) { ks := [x]; }
    case Handle(job) => if CanHandle(s, job) { ks := [K.Handle]; }
    case _ =>
  }

  lemma StepKeepsConsumer(s: State, step: Step)
    requires Core(s) && K.Inv(s.consumer) && CarefulStep(s, step)
    ensures K.Inv(Next(s, step).consumer)
  {
    var ks := ConsumerSteps(s, step);
    if ks != [] {
      assert K.Run(s.consumer, ks) == K.Next(s.consumer, ks[0]);
      if ks[0].CarryOn? {
        K.CarryOnKeepsInv(s.consumer);
      } else {
        K.StepKeepsInv(s.consumer, ks[0]);
      }
    }
  }

  /** Over every careful run the consumer keeps its prefix settled, as `Consumer` proves it for its own runs. */
  lemma {:induction false} CarefullyReachable(steps: seq<Step>)
    requires Careful(INITIAL, steps)
    ensures K.Inv(Run(INITIAL, steps).consumer)
  {
    if steps != [] {
      var before := steps[..|steps| - 1];
      CarefullyReachable(before);
      Reachable(before);
      StepKeepsConsumer(Run(INITIAL, before), steps[|steps| - 1]);
    }
  }

  // ----- runs in which no failed cycle loses an event ------------------------------------------------

  /** Polling on after a cycle that raised, only where the message in hand was dealt with or comes again later. */
  ghost predicate MindfulStep(s: State, step: Step) {
    step == Consume(K.CarryOn) ==> L.MayRecover(s.consumer)
  }

  ghost predicate Mindful(s: State, steps: seq<Step>) {
    steps != [] ==>
      && Mindful(s, steps[..|steps| - 1])
      && MindfulStep(Run(s, steps[..|steps| - 1]), steps[|steps| - 1])
  }

  lemma {:induction false} CarefulIsMindful(s: State, steps: seq<Step>)
    requires Careful(s, steps)
    ensures Mindful(s, steps)
  {
    if steps != [] {
      var before := steps[..|steps| - 1];
      CarefulIsMindful(s, before);
      if steps[|steps| - 1] == Consume(K.CarryOn) { L.MayCarryOnMayRecover(Run(s, before).consumer); }
    }
  }

  lemma KeptStep(s: State, step: Step)
    requires Core(s) && L.Kept(s.consumer) && MindfulStep(s, step)
    ensures L.Kept(Next(s, step).consumer)
  {
    var ks := ConsumerSteps(s, step);
    if ks != [] {
      assert K.Run(s.consumer, ks) == K.Next(s.consumer, ks[0]);
      L.StepKeepsKept(s.consumer, ks[0]);
    }
  }

  /** Over every mindful run each event behind the consumer is processed, in hand, or still to be polled. */
  lemma {:induction false} MindfullyReachable(steps: seq<Step>)
    requires Mindful(INITIAL, steps)
    ensures L.Kept(Run(INITIAL, steps).consumer)
  {
    if steps != [] {
      var before := steps[..|steps| - 1];
      MindfullyReachable(before);
      Reachable(before);
      KeptStep(Run(INITIAL, before), steps[|steps| - 1]);
    }
  }

  // ----- every run, offset by offset -----------------------------------------------------------------

  /** The step polls on although the message in hand, at offset k, is not dealt with. */
  predicate Passes(s: State, step: Step, k: nat) {
    step == Consume(K.CarryOn) && L.Passes(s.consumer, K.CarryOn, k)
  }

  /** Some step of the run does. */
  ghost predicate PolledPast(s: State, steps: seq<Step>, k: nat) {
    steps != [] && (PolledPast(s, steps[..|steps| - 1], k)
                    || Passes(Run(s, steps[..|steps| - 1]), steps[|steps| - 1], k))
  }

  lemma OffsetStep(s: State, step: Step, k: nat, passed: bool)
    requires Core(s) && k < Next(s, step).consumer.position
    requires k < s.consumer.position ==> L.InHandOrSettled(s.consumer, k) || passed
    ensures L.InHandOrSettled(Next(s, step).consumer, k) || Passes(s, step, k) || passed
  {
    var ks := ConsumerSteps(s, step);
    if ks != [] {
      assert K.Run(s.consumer, ks) == K.Next(s.consumer, ks[0]);
      L.OffsetGoesOn(s.consumer, ks[0], k, passed);
    }
  }

  /** What the consumer has taken is dealt with, in hand, or was polled past while it was open. */
  lemma {:induction false} EveryOffset(steps: seq<Step>, k: nat)
    requires k < Run(INITIAL, steps).consumer.position
    ensures L.InHandOrSettled(Run(INITIAL, steps).consumer, k) || PolledPast(INITIAL, steps, k)
  {
    if steps != [] {
      var before := steps[..|steps| - 1];
      Reachable(before);
      if k < Run(INITIAL, before).consumer.position { EveryOffset(before, k); }
      OffsetStep(Run(INITIAL, before), steps[|steps| - 1], k, PolledPast(INITIAL, before, k));
    }
  }
}
