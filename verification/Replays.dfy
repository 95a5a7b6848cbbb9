/**
 * Business replay. A retrier reads which deliveries have failed, and only later updates those of them that
 * still are: other retriers and workers commit in between. The update, the replay event and the audit row
 * are one transaction.
 */
module Replays {
  import opened Common
  import opened Deliveries
  import opened DeliveryRuns

  datatype RequestedBy = Service(name: string) | User(userId: Id)

  /** The payload of a `notification.replay_requested` outbox event. */
  datatype ReplayEvent = ReplayEvent(notificationId: Id, replayId: Id, deliveryIds: set<Id>, at: Time)

  datatype RetryStatus = Queued | NoEligible

  /** A row of notification_action_invocations. */
  datatype Audit = Audit(
    notificationId: Id,
    webDeliveryId: Option<Id>,
    requestedBy: RequestedBy,
    result: RetryStatus,
    replayId: Option<Id>,
    replayedCount: nat,
    at: Time)

  datatype State = State(table: Table, events: seq<ReplayEvent>, audits: seq<Audit>, used: set<Id>)

  datatype Retry = Retry(notificationId: Id, webDeliveryId: Option<Id>, requestedBy: RequestedBy,
                         eligible: set<Id>, candidate: Id, at: Time)

  /** `eligible` is what the retrier read before: it may be stale in any way. */
  datatype Step = TableStep(step: Deliveries.Step) | RetryStep(retry: Retry)

  function StillFailed(t: Table, eligible: set<Id>): set<Id> {
    set id | id in eligible && Replayable(t, id)
  }

  function RecordRetry(s: State, r: Retry): State {
    var moved := StillFailed(s.table, r.eligible);
    if r.eligible == {} || moved == {} then
      s.(audits := s.audits + [Audit(r.notificationId, r.webDeliveryId, r.requestedBy, NoEligible, None, 0, r.at)])
    else
      State(
        ReplayEligible(s.table, r.eligible, r.candidate, r.at),
        s.events + [ReplayEvent(r.notificationId, r.candidate, moved, r.at)],
        s.audits + [Audit(r.notificationId, r.webDeliveryId, r.requestedBy, Queued, Some(r.candidate), |moved|, r.at)],
        s.used + {r.candidate})
  }

  ghost function Next(s: State, step: Step): State {
    match step
    case TableStep(d) => if d.Replay? then s else s.(table := Deliveries.Next(s.table, d))
    case RetryStep(r) => if r.candidate in s.used then s else RecordRetry(s, r)
  }

  ghost function Run(s: State, steps: seq<Step>): State {
    if steps == [] then s else Next(Run(s, steps[..|steps| - 1]), steps[|steps| - 1])
  }

  const INITIAL := State(EMPTY, [], [], {})

  /**
   * A retry moves exactly the rows it was given that are failed_retryable when it comes to them, which are then due at
   * once and wait for a new claim; it writes one event and one audit row that name them, or, with nothing left to
   * move, only the audit row that says so. A replay id is used once.
   */
  lemma RetryMeans(s: State, r: Retry, moved: set<Id>)
    requires r.candidate !in s.used
    requires moved == set id | id in r.eligible && id in s.table.rows && s.table.rows[id].row.status == FailedRetryable
    ensures var s' := Next(s, RetryStep(r));
            if moved == {} then
              s' == s.(audits := s.audits
                  + [Audit(r.notificationId, r.webDeliveryId, r.requestedBy, NoEligible, None, 0, r.at)])
            else
              && s'.events == s.events + [ReplayEvent(r.notificationId, r.candidate, moved, r.at)]
              && s'.audits
                 == s.audits + [Audit(r.notificationId, r.webDeliveryId, r.requestedBy, Queued, Some(r.candidate),
                                      |moved|, r.at)]
              && s'.used == s.used + {r.candidate}
              && s'.table.issued == s.table.issued && s'.table.rows.Keys == s.table.rows.Keys
              && forall id :: id in s.table.rows ==>
                   var before, after := s.table.rows[id], s'.table.rows[id];
                   if id !in moved then after == before
                   else
                     && after.attempts == before.attempts
                     && after.events == before.events + [Replayed(r.candidate, r.at)]
                     && after.row
                        == before.row.(status := ReplayRequested, replayId := Some(r.candidate), nextAttemptAt := r.at,
                                       processingStartedAt := None, leaseExpiresAt := None, claimedBy := None,
                                       claimToken := None, updatedAt := r.at)
  {
    assert moved == StillFailed(s.table, r.eligible);
  }

  /**
   * Between retries the workers, readers and fanouts do to the rows what they do; a row is replayed by a retry only.
   */
  lemma WorkMeans(s: State, d: Deliveries.Step)
    ensures Next(s, TableStep(d)) == if d.Replay? then s else s.(table := Deliveries.Next(s.table, d))
  {
  }

  // ----- accounting ------------------------------------------------------------------------------

  predicate HasReplay(tr: Tracked, replayId: Id) {
    exists i :: 0 <= i < |tr.events| && tr.events[i].Replayed? && tr.events[i].replayId == replayId
  }

  /** The rows a replay moved from failed_retryable to replay_requested. */
  function Moved(t: Table, replayId: Id): set<Id> {
    set id | id in t.rows && HasReplay(t.rows[id], replayId)
  }

  function Counts(t: Table): map<Id, nat> {
    map id | id in t.rows :: ReplayCount(t.rows[id].events)
  }

  ghost function Sum(m: map<Id, nat>): nat {
    if m == map[] then 0
    else
      var k :| k in m;
      m[k] + Sum(m - {k})
  }

  lemma {:induction false} SumPick(m: map<Id, nat>, k: Id)
    requires k in m
    ensures Sum(m) == m[k] + Sum(m - {k})
    decreases |m|
  {
    var j :| j in m && Sum(m) == m[j] + Sum(m - {j});
    if j != k {
      SumPick(m - {j}, k);
      SumPick(m - {k}, j);
      assert m - {j} - {k} == m - {k} - {j};
    }
  }

  /** Raising the count of exactly the rows in r by one raises the total by |r|; new rows count nothing. */
  lemma {:induction false} SumBump(m: map<Id, nat>, m': map<Id, nat>, r: set<Id>)
    requires r <= m.Keys <= m'.Keys
    requires forall k :: k in m' ==> m'[k] == (if k in m then m[k] else 0) + One(k in r)
    ensures Sum(m') == Sum(m) + |r|
    decreases |m'|
  {
    if m' != map[] {
      var k :| k in m';
      SumPick(m', k);
      if k in m {
        SumPick(m, k);
        SumBump(m - {k}, m' - {k}, r - {k});
      } else {
        SumBump(m, m' - {k}, r);
      }
    } else {
      assert m == map[] && r == {};
    }
  }

  function AuditTotal(audits: seq<Audit>): nat {
    if audits == [] then 0 else AuditTotal(audits[..|audits| - 1]) + audits[|audits| - 1].replayedCount
  }

  /** The queued audit rows, in order. */
  function QueuedAudits(audits: seq<Audit>): seq<Audit> {
    if audits == [] then []
    else
      var last := audits[|audits| - 1];
      QueuedAudits(audits[..|audits| - 1]) + if last.result == Queued then [last] else []
  }

  /** Replay events and queued audit rows describe the same replays, one for one. */
  predicate Paired(events: seq<ReplayEvent>, queued: seq<Audit>) {
    && |events| == |queued|
    && forall i :: 0 <= i < |events| ==>
         && queued[i].replayId == Some(events[i].replayId)
         && queued[i].notificationId == events[i].notificationId
         && queued[i].replayedCount == |events[i].deliveryIds|
         && events[i].deliveryIds != {}
  }

  /** Every replay event names exactly the rows its own update moved, and no replay id is used twice. */
  ghost predicate MovesOk(t: Table, events: seq<ReplayEvent>, used: set<Id>) {
    && (forall i :: 0 <= i < |events| ==> events[i].deliveryIds == Moved(t, events[i].replayId))
    && (forall i, j :: 0 <= i < j < |events| ==> events[i].replayId != events[j].replayId)
    && (forall i :: 0 <= i < |events| ==> events[i].replayId in used)
    && (forall id, r :: id in t.rows && HasReplay(t.rows[id], r) ==> exists i ::
          0 <= i < |events| && events[i].replayId == r)
  }

  /** Events and queued audit rows pair up, and the audited counts add up to the moves that happened. */
  ghost predicate BooksOk(t: Table, events: seq<ReplayEvent>, audits: seq<Audit>) {
    Paired(events, QueuedAudits(audits)) && AuditTotal(audits) == Sum(Counts(t))
  }

  ghost predicate Conserved(s: State) {
    MovesOk(s.table, s.events, s.used) && BooksOk(s.table, s.events, s.audits)
  }

  // ----- preservation ----------------------------------------------------------------------------

  lemma AuditSnoc(audits: seq<Audit>, a: Audit)
    ensures AuditTotal(audits + [a]) == AuditTotal(audits) + a.replayedCount
    ensures QueuedAudits(audits + [a]) == QueuedAudits(audits) + if a.result == Queued then [a] else []
  {
  }

  lemma HasReplaySnoc(tr: Tracked, tr': Tracked, e: Event, replayId: Id)
    requires tr'.events == tr.events + [e]
    ensures HasReplay(tr', replayId) <==> HasReplay(tr, replayId) || (e.Replayed? && e.replayId == replayId)
    ensures ReplayCount(tr'.events) == ReplayCount(tr.events) + One(e.Replayed?)
  {
    Snoc(tr.events, e);
    if HasReplay(tr, replayId) {
      var i :| 0 <= i < |tr.events| && tr.events[i].Replayed? && tr.events[i].replayId == replayId;
      assert tr'.events[i] == tr.events[i];
    }
    assert tr'.events[|tr.events|] == e;
  }

  /** Workers and readers replay nothing. */
  lemma TableStepReplaysNothing(t: Table, d: Deliveries.Step, id: Id, replayId: Id)
    requires !d.Replay? && id in Deliveries.Next(t, d).rows
    ensures var t' := Deliveries.Next(t, d);
            var before := if id in t.rows then t.rows[id] else Tracked(t'.rows[id].row, [], []);
            && (HasReplay(t'.rows[id], replayId) <==> HasReplay(before, replayId))
            && ReplayCount(t'.rows[id].events) == ReplayCount(before.events)
  {
    var t' := Deliveries.Next(t, d);
    if id in t.rows && t'.rows[id].events != t.rows[id].events {
      var e := t'.rows[id].events[|t.rows[id].events|];
      assert t'.rows[id].events == t.rows[id].events + [e] && !e.Replayed?;
      HasReplaySnoc(t.rows[id], t'.rows[id], e, replayId);
    }
  }

  lemma TableStepKeeps(t: Table, d: Deliveries.Step, events: seq<ReplayEvent>, audits: seq<Audit>, used: set<Id>)
    requires MovesOk(t, events, used) && BooksOk(t, events, audits) && !d.Replay?
    ensures MovesOk(Deliveries.Next(t, d), events, used) && BooksOk(Deliveries.Next(t, d), events, audits)
  {
    var t' := Deliveries.Next(t, d);
    assert t.rows.Keys <= t'.rows.Keys;
    forall id, r | id in t'.rows ensures HasReplay(t'.rows[id], r) <==> id in t.rows && HasReplay(t.rows[id], r) {
      TableStepReplaysNothing(t, d, id, r);
    }
    forall r ensures Moved(t', r) == Moved(t, r) {}
    forall id | id in t'.rows ensures Counts(t')[id] == if id in t.rows then Counts(t)[id] else 0 {
      TableStepReplaysNothing(t, d, id, 0);
    }
    SumBump(Counts(t), Counts(t'), {});
  }

  lemma RetryRow(t: Table, eligible: set<Id>, candidate: Id, at: Time, id: Id, r: Id)
    requires id in t.rows
    ensures var t' := ReplayEligible(t, eligible, candidate, at);
            && id in t'.rows
            && (HasReplay(t'.rows[id], r) <==>
                  HasReplay(t.rows[id], r) || (id in StillFailed(t, eligible) && r == candidate))
            && ReplayCount(t'.rows[id].events) == ReplayCount(t.rows[id].events) + One(id in StillFailed(t, eligible))
  {
    var t' := ReplayEligible(t, eligible, candidate, at);
    if id in StillFailed(t, eligible) {
      HasReplaySnoc(t.rows[id], t'.rows[id], Event.Replayed(candidate, at), r);
    }
  }

  lemma RetryKeepsMoves(t: Table, events: seq<ReplayEvent>, used: set<Id>, r: Retry)
    requires MovesOk(t, events, used) && r.candidate !in used
    ensures MovesOk(ReplayEligible(t, r.eligible, r.candidate, r.at),
                    events + [ReplayEvent(r.notificationId, r.candidate, StillFailed(t, r.eligible), r.at)], used
                        + {r.candidate})
  {
    var t' := ReplayEligible(t, r.eligible, r.candidate, r.at);
    var events' := events + [ReplayEvent(r.notificationId, r.candidate, StillFailed(t, r.eligible), r.at)];
    forall id, q | id in t.rows
      ensures HasReplay(t'.rows[id], q) <==>
                HasReplay(t.rows[id], q) || (id in StillFailed(t, r.eligible) && q == r.candidate)
    {
      RetryRow(t, r.eligible, r.candidate, r.at, id, q);
    }
    assert forall id :: id in t.rows ==> !HasReplay(t.rows[id], r.candidate);
    assert Moved(t', r.candidate) == StillFailed(t, r.eligible);
    forall q | q != r.candidate ensures Moved(t', q) == Moved(t, q) {}
    forall id, q | id in t'.rows && HasReplay(t'.rows[id], q)
      ensures exists i :: 0 <= i < |events'| && events'[i].replayId == q
    {
      if q == r.candidate {
        assert events'[|events|].replayId == q;
      } else {
        var i :| 0 <= i < |events| && events[i].replayId == q;
        assert events'[i].replayId == q;
      }
    }
  }

  lemma RetryCounts(t: Table, eligible: set<Id>, candidate: Id, at: Time)
    ensures Sum(Counts(ReplayEligible(t, eligible, candidate, at))) == Sum(Counts(t)) + |StillFailed(t, eligible)|
  {
    var t' := ReplayEligible(t, eligible, candidate, at);
    forall id | id in t.rows ensures Counts(t')[id] == Counts(t)[id] + One(id in StillFailed(t, eligible)) {
      RetryRow(t, eligible, candidate, at, id, 0);
    }
    SumBump(Counts(t), Counts(t'), StillFailed(t, eligible));
  }

  lemma RetryKeepsBooks(s: State, r: Retry)
    requires BooksOk(s.table, s.events, s.audits)
    ensures var s' := RecordRetry(s, r); BooksOk(s'.table, s'.events, s'.audits)
  {
    var moved := StillFailed(s.table, r.eligible);
    if r.eligible == {} || moved == {} {
      AuditSnoc(s.audits, Audit(r.notificationId, r.webDeliveryId, r.requestedBy, NoEligible, None, 0, r.at));
    } else {
      AuditSnoc(s.audits,
                Audit(r.notificationId, r.webDeliveryId, r.requestedBy, Queued, Some(r.candidate), |moved|, r.at));
      RetryCounts(s.table, r.eligible, r.candidate, r.at);
      PairedSnoc(s.events, QueuedAudits(s.audits), ReplayEvent(r.notificationId, r.candidate, moved, r.at),
                 Audit(r.notificationId, r.webDeliveryId, r.requestedBy, Queued, Some(r.candidate), |moved|, r.at));
    }
  }

  lemma PairedSnoc(events: seq<ReplayEvent>, queued: seq<Audit>, e: ReplayEvent, a: Audit)
    requires Paired(events, queued) && e.deliveryIds != {}
    requires a.replayId == Some(e.replayId) && a.notificationId == e.notificationId
             && a.replayedCount == |e.deliveryIds|
    ensures Paired(events + [e], queued + [a])
  {
  }

  lemma RetryKeeps(s: State, r: Retry)
    requires Conserved(s) && r.candidate !in s.used
    ensures Conserved(RecordRetry(s, r))
  {
    RetryKeepsMoves(s.table, s.events, s.used, r);
    RetryKeepsBooks(s, r);
  }

  lemma StepKeepsTable(s: State, step: Step)
    requires Inv(s.table)
    ensures Inv(Next(s, step).table)
  {
    match step
    case TableStep(d) => StepKeepsInv(s.table, d);
    case RetryStep(r) => RetryKeepsTable(s, r);
  }

  lemma RetryKeepsTable(s: State, r: Retry)
    requires Inv(s.table)
    ensures Inv(RecordRetry(s, r).table)
  {
    ReplayKeepsInv(s.table, r.eligible, r.candidate, r.at);
    assert RecordRetry(s, r).table in {s.table, ReplayEligible(s.table, r.eligible, r.candidate, r.at)};
  }

  lemma StepKeepsConserved(s: State, step: Step)
    requires Conserved(s)
    ensures Conserved(Next(s, step))
  {
    match step
    case TableStep(d) => if !d.Replay? { TableStepKeeps(s.table, d, s.events, s.audits, s.used); }
    case RetryStep(r) => if r.candidate !in s.used { RetryKeeps(s, r); }
  }

  /**
   * Replay conservation, for any interleaving: every replay event names exactly the rows its own update moved,
   * events and queued audit rows pair up one for one, and the counts add up to the moves that happened.
   */
  lemma {:induction false} ReplaysConserved(steps: seq<Step>)
    ensures Conserved(Run(INITIAL, steps)) && Inv(Run(INITIAL, steps).table)
  {
    if steps == [] {
      assert Counts(EMPTY) == map[];
    } else {
      ReplaysConserved(steps[..|steps| - 1]);
      StepKeepsConserved(Run(INITIAL, steps[..|steps| - 1]), steps[|steps| - 1]);
      StepKeepsTable(Run(INITIAL, steps[..|steps| - 1]), steps[|steps| - 1]);
    }
  }

  /** However many retriers race, one delivery is replayed at most max_attempts - 1 times. */
  lemma ReplayedAtMost(steps: seq<Step>, id: Id)
    requires id in Run(INITIAL, steps).table.rows
    ensures var tr := Run(INITIAL, steps).table.rows[id];
            ReplayCount(tr.events) <= tr.row.maxAttempts - 1
  {
    ReplaysConserved(steps);
  }
}
