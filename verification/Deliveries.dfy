/**
 * Leased delivery rows as a state machine. A row is claimed with a fresh token and a lease, handed to
 * an adapter outside any transaction, and finalized by whoever still holds the token; failed rows may
 * be replayed. Each transaction of the repository is one step, so a run is any sequence of steps: a
 * crashed worker is one whose finalize never comes, a stale worker one whose finalize comes late.
 */
module Deliveries {
  import opened Common
  import opened Ordering

  datatype Status = Pending | Processing | ReplayRequested | Delivered | FailedRetryable | FailedTerminal

  datatype OutcomeStatus = SentOk | RetryableFailure | TerminalFailure

  datatype Outcome = Outcome(
    status: OutcomeStatus,
    errorCode: Option<string>,
    errorMessage: Option<string>,
    providerMessageId: Option<string>)

  datatype Delivery = Delivery(
    recipientId: Id,
    notificationId: Id,
    userId: Id,
    channel: Channel,
    status: Status,
    attemptCount: nat,
    maxAttempts: nat,
    nextAttemptAt: Time,
    processingStartedAt: Option<Time>,
    leaseExpiresAt: Option<Time>,
    claimedBy: Option<string>,
    claimToken: Option<Id>,
    replayId: Option<Id>,
    readAt: Option<Time>,
    deliveredAt: Option<Time>,
    providerMessageId: Option<string>,
    lastErrorCode: Option<string>,
    lastErrorMessage: Option<string>,
    updatedAt: Time)

  datatype Attempt = Attempt(
    number: nat,
    status: Status,
    errorCode: Option<string>,
    errorMessage: Option<string>,
    providerMessageId: Option<string>,
    startedAt: Time,
    finishedAt: Time)

  /** What happened to one row, in commit order. No column holds it: it is the run's own record. */
  datatype Event =
    | Claimed(token: Id, at: Time, lease: int)
    | Finalized(token: Id, at: Time, status: Status, retryDelay: int)
    | Replayed(replayId: Id, at: Time)

  datatype Tracked = Tracked(row: Delivery, attempts: seq<Attempt>, events: seq<Event>)

  /** The delivery table with its attempt rows, and every claim token issued so far. */
  datatype Table = Table(rows: map<Id, Tracked>, issued: set<Id>)

  predicate Terminal(s: Status) { s == Delivered || s == FailedTerminal }

  // ----- eligibility and order -------------------------------------------------------------------

  predicate Due(d: Delivery, now: Time, channels: Option<set<Channel>>) {
    && (|| (d.status in {Pending, ReplayRequested, FailedRetryable} && d.nextAttemptAt <= now)
        || (d.status == Processing && d.leaseExpiresAt.Some? && d.leaseExpiresAt.value < now))
    && (channels.Some? ==> d.channel in channels.value)
  }

  /** `next_attempt_at, id`: the order in which due rows are claimed. */
  function DueKey(id: Id, d: Delivery): Key {
    Key(d.nextAttemptAt, 0, id)
  }

  /** `locked` are the rows other transactions hold, which SKIP LOCKED passes over. */
  function DueKeys(rows: map<Id, Tracked>, now: Time, channels: Option<set<Channel>>, locked: set<Id>): set<Key> {
    set id | id in rows && id !in locked && Due(rows[id].row, now, channels) :: DueKey(id, rows[id].row)
  }

  /** The rows one claim query selects. */
  ghost function Batch(rows: map<Id, Tracked>, now: Time, limit: int, channels: Option<set<Channel>>,
          locked: set<Id>): (r: seq<Id>)
    ensures forall id :: id in r ==> id in rows && id !in locked && Due(rows[id].row, now, channels)
    ensures forall i, j :: 0 <= i < j < |r| ==> r[i] != r[j]
    ensures |r| <= if limit <= 0 then 0 else limit
  {
    var keys := DueKeys(rows, now, channels, locked);
    BatchKeys(rows, now, channels, locked);
    Ids(Limit(Sort(keys), limit))
  }

  lemma BatchKeys(rows: map<Id, Tracked>, now: Time, channels: Option<set<Channel>>, locked: set<Id>)
    ensures var q := Sort(DueKeys(rows, now, channels, locked));
            && (forall i ::
                  0 <= i < |q| ==> q[i].id in rows && q[i].id !in locked && Due(rows[q[i].id].row, now, channels))
            && (forall i, j :: 0 <= i < j < |q| ==> q[i].id != q[j].id)
  {
    var q := Sort(DueKeys(rows, now, channels, locked));
    forall i | 0 <= i < |q| ensures q[i].id in rows && q[i].id !in locked && Due(rows[q[i].id].row, now, channels)
      ensures q[i] == DueKey(q[i].id, rows[q[i].id].row)
    {
      assert q[i] in DueKeys(rows, now, channels, locked);
    }
    forall i, j | 0 <= i < j < |q| ensures q[i].id != q[j].id {
      assert Before(q[i], q[j]);
    }
  }

  /** `ORDER BY next_attempt_at, id`, on the columns. */
  predicate Earlier(rows: map<Id, Tracked>, a: Id, b: Id) {
    && a in rows && b in rows
    && var x, y := rows[a].row.nextAttemptAt, rows[b].row.nextAttemptAt;
       x < y || (x == y && a < b)
  }

  lemma KeysEarlier(rows: map<Id, Tracked>, a: Id, b: Id)
    requires a in rows && b in rows
    ensures Before(DueKey(a, rows[a].row), DueKey(b, rows[b].row)) <==> Earlier(rows, a, b)
  {
  }

  /** A claim query takes only rows nobody holds that wait and whose time has come, or whose lease has run out. */
  lemma BatchIsDue(rows: map<Id, Tracked>, now: Time, limit: int, channels: Option<set<Channel>>, locked: set<Id>,
          id: Id)
    requires id in Batch(rows, now, limit, channels, locked)
    ensures id in rows && id !in locked && (channels.Some? ==> rows[id].row.channel in channels.value)
    ensures var d := rows[id].row;
            || ((d.status == Pending || d.status == ReplayRequested || d.status == FailedRetryable)
                && d.nextAttemptAt <= now)
            || (d.status == Processing && d.leaseExpiresAt.Some? && d.leaseExpiresAt.value < now)
  {
  }

  /**
   * What a claim query selects, in order of next_attempt_at and id, is the front of the due rows: a due row that is
   * not locked is left out only if the batch is full and everything in it comes before that row.
   */
  lemma BatchIsFront(rows: map<Id, Tracked>, now: Time, limit: int, channels: Option<set<Channel>>, locked: set<Id>,
          id: Id)
    requires limit >= 1 && id in rows && id !in locked && (channels.Some? ==> rows[id].row.channel in channels.value)
    requires var d := rows[id].row;
             || ((d.status == Pending || d.status == ReplayRequested || d.status == FailedRetryable)
                 && d.nextAttemptAt <= now)
             || (d.status == Processing && d.leaseExpiresAt.Some? && d.leaseExpiresAt.value < now)
    ensures var batch := Batch(rows, now, limit, channels, locked);
            && (forall i, j :: 0 <= i < j < |batch| ==> Earlier(rows, batch[i], batch[j]))
            && (id in batch || (|batch| == limit && forall i :: 0 <= i < |batch| ==> Earlier(rows, batch[i], id)))
  {
    var keys := DueKeys(rows, now, channels, locked);
    var taken := Limit(Sort(keys), limit);
    var batch := Batch(rows, now, limit, channels, locked);
    var key := DueKey(id, rows[id].row);
    LimitIsFront(keys, limit, key);
    forall i | 0 <= i < |batch| ensures taken[i] == DueKey(batch[i], rows[batch[i]].row) {
      assert taken[i] in keys;
    }
    forall i, j | 0 <= i < j < |batch| ensures Earlier(rows, batch[i], batch[j]) {
      assert Before(taken[i], taken[j]);
      KeysEarlier(rows, batch[i], batch[j]);
    }
    if key in taken {
      var i :| 0 <= i < |taken| && taken[i] == key;
      assert batch[i] == id;
    } else {
      forall i | 0 <= i < |batch| ensures Earlier(rows, batch[i], id) {
        assert Before(taken[i], key);
        KeysEarlier(rows, batch[i], id);
      }
    }
  }

  // ----- what each transaction does to a row -----------------------------------------------------

  function ClaimRow(d: Delivery, now: Time, lease: int, worker: string, token: Id): Delivery {
    d.(status := Processing,
       processingStartedAt := Some(now),
       leaseExpiresAt := Some(now + lease),
       claimedBy := Some(worker),
       claimToken := Some(token),
       updatedAt := now)
  }

  predicate Owned(d: Delivery, token: Id) {
    d.status == Processing && d.claimToken == Some(token)
  }

  function FinalStatus(outcome: OutcomeStatus, attemptCount: nat, maxAttempts: nat): Status {
    if outcome.SentOk? then Delivered
    else if outcome.TerminalFailure? then FailedTerminal
    else if attemptCount >= maxAttempts then FailedTerminal
    else FailedRetryable
  }

  function FinalizeRow(d: Delivery, outcome: Outcome, now: Time, retryDelay: int): Delivery {
    var n := d.attemptCount + 1;
    var s := FinalStatus(outcome.status, n, d.maxAttempts);
    d.(attemptCount := n,
       status := s,
       providerMessageId := outcome.providerMessageId,
       lastErrorCode := if s == Delivered then None else outcome.errorCode,
       lastErrorMessage := if s == Delivered then None else outcome.errorMessage,
       updatedAt := now,
       deliveredAt := if s == Delivered then Some(now) else d.deliveredAt,
       nextAttemptAt := if s == FailedRetryable then now + retryDelay else now,
       processingStartedAt := None,
       leaseExpiresAt := None,
       claimedBy := None,
       claimToken := None)
  }

  function AttemptFor(d: Delivery, outcome: Outcome, now: Time): Attempt {
    var n := d.attemptCount + 1;
    Attempt(n, FinalStatus(outcome.status, n, d.maxAttempts), outcome.errorCode, outcome.errorMessage,
            outcome.providerMessageId, now, now)
  }

  function ReplayRow(d: Delivery, replayId: Id, at: Time): Delivery {
    d.(status := ReplayRequested,
       replayId := Some(replayId),
       nextAttemptAt := at,
       processingStartedAt := None,
       leaseExpiresAt := None,
       claimedBy := None,
       updatedAt := at,
       claimToken := None)
  }

  /** A web delivery its user can see. */
  predicate Visible(d: Delivery, userId: Id) {
    d.userId == userId && d.channel == Web && d.status == Delivered && d.deliveredAt.Some?
  }

  /** A row as fanout inserts it. */
  predicate IsNew(d: Delivery) {
    && d.status == Pending && d.attemptCount == 0 && d.maxAttempts > 0
    && d.processingStartedAt == None && d.leaseExpiresAt == None && d.claimedBy == None && d.claimToken == None
    && d.replayId == None && d.readAt == None && d.deliveredAt == None
  }

  // ----- steps and runs --------------------------------------------------------------------------

  datatype Step =
    | Insert(added: map<Id, Delivery>)
    | Claim(now: Time, limit: int, worker: string, lease: int, channels: Option<set<Channel>>,
            locked: set<Id>, tokens: map<Id, Id>)
    | Finalize(id: Id, token: Id, outcome: Outcome, now: Time, retryDelay: int)
    | Replay(ids: set<Id>, replayId: Id, at: Time)
    | Read(id: Id, userId: Id, at: Time)

  predicate CanInsert(t: Table, added: map<Id, Delivery>) {
    added.Keys !! t.rows.Keys && forall id :: id in added ==> IsNew(added[id])
  }

  /** `tokens` gives every row of the batch a token never issued before, no two the same. */
  predicate FreshTokens(t: Table, batch: seq<Id>, tokens: map<Id, Id>) {
    && (forall id :: id in batch ==> id in tokens && tokens[id] !in t.issued)
    && (forall a, b :: a in batch && b in batch && a != b ==> tokens[a] != tokens[b])
  }

  function ClaimTracked(tr: Tracked, now: Time, lease: int, worker: string, token: Id): Tracked {
    Tracked(ClaimRow(tr.row, now, lease, worker, token), tr.attempts, tr.events + [Claimed(token, now, lease)])
  }

  function FinalizeTracked(tr: Tracked, token: Id, outcome: Outcome, now: Time, retryDelay: int): Tracked {
    var row := FinalizeRow(tr.row, outcome, now, retryDelay);
    Tracked(row, tr.attempts + [AttemptFor(tr.row, outcome, now)],
            tr.events + [Finalized(token, now, row.status, retryDelay)])
  }

  function ReplayTracked(tr: Tracked, replayId: Id, at: Time): Tracked {
    Tracked(ReplayRow(tr.row, replayId, at), tr.attempts, tr.events + [Replayed(replayId, at)])
  }

  function ReadTracked(tr: Tracked, at: Time): Tracked {
    tr.(row := tr.row.(readAt := Some(at), updatedAt := at))
  }

  predicate Replayable(t: Table, id: Id) {
    id in t.rows && t.rows[id].row.status == FailedRetryable
  }

  /** The rows of `batch` become claimed; every other row stays as it is. */
  function ClaimAll(t: Table, batch: seq<Id>, now: Time, lease: int, worker: string, tokens: map<Id, Id>): Table
    requires forall id :: id in batch ==> id in tokens
  {
    Table(
      map id | id in t.rows ::
        if id in batch then ClaimTracked(t.rows[id], now, lease, worker, tokens[id]) else t.rows[id],
      t.issued + set id | id in batch :: tokens[id])
  }

  function InsertRows(t: Table, added: map<Id, Delivery>): Table {
    if CanInsert(t, added) then t.(rows := t.rows + map id | id in added :: Tracked(added[id], [], [])) else t
  }

  ghost function ClaimDue(t: Table, now: Time, limit: int, worker: string, lease: int, channels: Option<set<Channel>>,
                    locked: set<Id>, tokens: map<Id, Id>): Table {
    var batch := Batch(t.rows, now, limit, channels, locked);
    if FreshTokens(t, batch, tokens) then ClaimAll(t, batch, now, lease, worker, tokens) else t
  }

  predicate Holds(t: Table, id: Id, token: Id) {
    id in t.rows && Owned(t.rows[id].row, token)
  }

  function FinalizeOwned(t: Table, id: Id, token: Id, outcome: Outcome, now: Time, retryDelay: int): Table {
    if Holds(t, id, token) then t.(rows := t.rows[id := FinalizeTracked(t.rows[id], token, outcome, now, retryDelay)])
      else t
  }

  function ReplayEligible(t: Table, ids: set<Id>, replayId: Id, at: Time): Table {
    t.(rows := map id | id in t.rows ::
      if id in ids && Replayable(t, id) then ReplayTracked(t.rows[id], replayId, at) else t.rows[id])
  }

  function MarkRead(t: Table, id: Id, userId: Id, at: Time): Table {
    if id in t.rows && Visible(t.rows[id].row, userId) && t.rows[id].row.readAt.None? then
      t.(rows := t.rows[id := ReadTracked(t.rows[id], at)])
    else t
  }

  /** One committed transaction. A step that the database or the row's state rejects changes nothing. */
  ghost function Next(t: Table, step: Step): Table {
    match step
    case Insert(added) => InsertRows(t, added)
    case Claim(now, limit, worker, lease, channels, locked, tokens) =>
      ClaimDue(t, now, limit, worker, lease, channels, locked, tokens)
    case Finalize(id, token, outcome, now, retryDelay) => FinalizeOwned(t, id, token, outcome, now, retryDelay)
    case Replay(ids, replayId, at) => ReplayEligible(t, ids, replayId, at)
    case Read(id, userId, at) => MarkRead(t, id, userId, at)
  }

  ghost function Run(t: Table, steps: seq<Step>): Table {
    if steps == [] then t else Next(Run(t, steps[..|steps| - 1]), steps[|steps| - 1])
  }

  const EMPTY := Table(map[], {})

  lemma RunSnoc(t: Table, steps: seq<Step>, step: Step)
    ensures Run(t, steps + [step]) == Next(Run(t, steps), step)
  {
  }

  lemma {:induction false} RunConcat(t: Table, a: seq<Step>, b: seq<Step>)
    ensures Run(t, a + b) == Run(Run(t, a), b)
  {
    if b == [] {
      assert a + b == a;
    } else {
      RunConcat(t, a, b[..|b| - 1]);
      assert (a + b)[..|a + b| - 1] == a + b[..|b| - 1];
    }
  }
}
