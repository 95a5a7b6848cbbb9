/** The retry service: three ways to choose the failed deliveries, one way to replay them. */
module RetryServices {
  import opened Common
  import opened Deliveries
  import opened Replays

  datatype RetryError = NotificationMissing | WebNotificationMissing | NotAllowed

  datatype RetryResult = RetryResult(notificationId: Id, status: RetryStatus, replayId: Option<Id>, replayedCount: nat,
          requestedAt: Time)

  /** list_failed_retryable_deliveries */
  function FailedOf(t: Table, notificationId: Id): set<Id> {
    set id | id in t.rows && t.rows[id].row.notificationId == notificationId && t.rows[id].row.status == FailedRetryable
  }

  /** list_user_retryable_sibling_deliveries: the same recipient's other channels. */
  function FailedSiblings(t: Table, web: Delivery): set<Id> {
    set id | id in t.rows && t.rows[id].row.recipientId == web.recipientId
        && t.rows[id].row.notificationId == web.notificationId
             && t.rows[id].row.userId == web.userId && t.rows[id].row.channel != Web
             && t.rows[id].row.status == FailedRetryable
  }

  /** The row is back in the queue, due now and held by nobody; attempts and counts are as they were. */
  predicate Requeued(before: Tracked, after: Tracked, replayId: Id, at: Time) {
    && after.row.status == ReplayRequested && after.row.replayId == Some(replayId) && after.row.nextAttemptAt == at
    && after.row.claimToken.None? && after.row.claimedBy.None? && after.row.leaseExpiresAt.None?
    && after.row.attemptCount == before.row.attemptCount && after.attempts == before.attempts
    && after.events == before.events + [Replayed(replayId, at)]
  }

  class RetryStore {
    var rows: map<Id, Tracked>
    var issued: set<Id>
    var events: seq<ReplayEvent>
    var audits: seq<Audit>
    var used: set<Id>
    /** notification_requests, as far as replay reads it: the service that sent each one. */
    const sources: map<Id, string>

    function View(): State
      reads this
    {
      State(Table(rows, issued), events, audits, used)
    }

    constructor (s: State, sources: map<Id, string>)
      ensures View() == s && this.sources == sources
    {
      rows, issued, events, audits, used := s.table.rows, s.table.issued, s.events, s.audits, s.used;
      this.sources := sources;
    }

    /** Any transactions that commit between the read and the update. Callers know only the contract. */
    method Others() returns (ghost steps: seq<Replays.Step>)
      modifies this
      ensures View() == Replays.Run(old(View()), steps)
    {
      steps := [];
    }

    /** UPDATE ... WHERE id IN (...) AND status = 'failed_retryable' RETURNING id. */
    method MarkDeliveriesReplayRequested(ids: set<Id>, replayId: Id, requestedAt: Time) returns (moved: set<Id>)
      modifies this`rows
      ensures forall id :: id in moved <==> id in ids && id in old(rows) && old(rows)[id].row.status == FailedRetryable
      ensures rows.Keys == old(rows).Keys
      ensures forall id :: id in rows && id !in moved ==> rows[id] == old(rows)[id]
      ensures forall id :: id in moved ==> Requeued(old(rows)[id], rows[id], replayId, requestedAt)
      ensures moved == StillFailed(old(View()).table, ids)
      ensures View().table == ReplayEligible(old(View()).table, ids, replayId, requestedAt)
    {
      var t := Table(rows, issued);
      moved := StillFailed(t, ids);
      rows := ReplayEligible(t, ids, replayId, requestedAt).rows;
    }

    /** The writes of _record_retry: the rows, and if any moved the replay event, and in any case the audit row. */
    method Write(retry: Retry) returns (result: RetryResult)
      requires Conserved(View()) && retry.candidate !in used
      modifies this
      ensures View() == Replays.RecordRetry(old(View()), retry)
      ensures ResultOk(old(View()), View(), retry, result)
    {
      ghost var before := View();
      RetryMovesItsOwn(before, retry);
      var moved: set<Id> := {};
      if retry.eligible != {} {
        moved := MarkDeliveriesReplayRequested(retry.eligible, retry.candidate, retry.at);
      }
      if moved != {} {
        used := used + {retry.candidate};
        events := events + [ReplayEvent(retry.notificationId, retry.candidate, moved, retry.at)];
        audits := audits
            + [Audit(retry.notificationId, retry.webDeliveryId, retry.requestedBy, Queued, Some(retry.candidate),
                     |moved|, retry.at)];
        result := RetryResult(retry.notificationId, Queued, Some(retry.candidate), |moved|, retry.at);
      } else {
        NothingMoved(before.table, retry.eligible, retry.candidate, retry.at);
        audits := audits
            + [Audit(retry.notificationId, retry.webDeliveryId, retry.requestedBy, NoEligible, None, 0, retry.at)];
        result := RetryResult(retry.notificationId, NoEligible, None, 0, retry.at);
      }
    }

    method RecordRetry(notificationId: Id, eligible: set<Id>, requestedBy: RequestedBy, requestedAt: Time,
            webDeliveryId: Option<Id>)
      returns (result: RetryResult, ghost retry: Retry)
      requires Conserved(View())
      modifies this
      ensures retry == Retry(notificationId, webDeliveryId, requestedBy, eligible, retry.candidate, requestedAt)
      ensures retry.candidate !in old(used)
      ensures View() == Replays.Next(old(View()), RetryStep(retry)) && Conserved(View())
      ensures ResultOk(old(View()), View(), retry, result)
    {
      FreshId(used);
      var candidate: Id :| candidate !in used;
      var order := Retry(notificationId, webDeliveryId, requestedBy, eligible, candidate, requestedAt);
      retry := order;
      RetryKeeps(View(), order);
      result := Write(order);
    }

    /** retry_notification */
    method RetryNotification(notificationId: Id, requestedBy: RequestedBy, requestedAt: Time)
      returns (res: Result<RetryResult, RetryError>, ghost steps: seq<Replays.Step>, ghost retry: Retry)
      requires Conserved(View())
      modifies this
      ensures res.Err? <==> notificationId !in sources
      ensures res.Err? ==> res.error == NotificationMissing && View() == old(View())
      ensures res.Ok? ==> retry == Retry(notificationId, None, requestedBy, FailedOf(old(View()).table, notificationId),
                                         retry.candidate, requestedAt)
                          && Retried(old(View()), steps, retry, View(), res.value)
      ensures res.Ok? ==> forall id :: id in retry.eligible <==>
                id in old(rows) && old(rows)[id].row.notificationId == notificationId
                && old(rows)[id].row.status == FailedRetryable
      ensures res.Ok? ==> forall id :: id in rows && HasReplay(rows[id], retry.candidate) ==>
                id in retry.eligible && rows[id].row.notificationId == notificationId
    {
      if notificationId !in sources {
        return Err(NotificationMissing), [], Retry(0, None, requestedBy, {}, 0, requestedAt);
      }
      ghost var start := View();
      var eligible := FailedOf(Table(rows, issued), notificationId);
      steps := Others();
      RunKeepsConserved(start, steps);
      var result;
      result, retry := RecordRetry(notificationId, eligible, requestedBy, requestedAt, None);
      MovedWereEligible(start, steps, retry, View());
      res := Ok(result);
    }

    /** retry_notification_for_service: the sender, or a service allowed to retry anything. */
    method RetryNotificationForService(notificationId: Id, requestedById: string, canRetryAny: bool, requestedAt: Time)
      returns (res: Result<RetryResult, RetryError>, ghost steps: seq<Replays.Step>, ghost retry: Retry)
      requires Conserved(View())
      modifies this
      ensures res.Ok? <==> notificationId in sources && (canRetryAny || sources[notificationId] == requestedById)
      ensures res.Err? ==>
                res.error == (if notificationId in sources then NotAllowed else NotificationMissing)
                    && View() == old(View())
      ensures res.Ok? ==> retry == Retry(notificationId, None, Service(requestedById),
                                         FailedOf(old(View()).table, notificationId), retry.candidate, requestedAt)
                          && Retried(old(View()), steps, retry, View(), res.value)
      ensures res.Ok? ==> forall id :: id in retry.eligible <==>
                id in old(rows) && old(rows)[id].row.notificationId == notificationId
                && old(rows)[id].row.status == FailedRetryable
      ensures res.Ok? ==> forall id :: id in rows && HasReplay(rows[id], retry.candidate) ==>
                id in retry.eligible && rows[id].row.notificationId == notificationId
    {
      steps, retry := [], Retry(0, None, Service(requestedById), {}, 0, requestedAt);
      if notificationId !in sources {
        return Err(NotificationMissing), steps, retry;
      }
      if !canRetryAny && sources[notificationId] != requestedById {
        return Err(NotAllowed), steps, retry;
      }
      res, steps, retry := RetryNotification(notificationId, Service(requestedById), requestedAt);
    }

    /**
     * retry_user_notification: only behind a delivery the user can see, and only the same recipient's other channels.
     */
    method RetryUserNotification(webDeliveryId: Id, userId: Id, requestedAt: Time)
      returns (res: Result<RetryResult, RetryError>, ghost steps: seq<Replays.Step>, ghost retry: Retry)
      requires Conserved(View())
      modifies this
      ensures res.Ok? <==> webDeliveryId in old(rows) && Visible(old(rows)[webDeliveryId].row, userId)
                           && old(rows)[webDeliveryId].row.notificationId in sources
      ensures res.Ok? ==> var web := old(rows)[webDeliveryId].row;
                web.userId == userId && web.channel == Web && web.status == Delivered && web.deliveredAt.Some?
      ensures res.Err? ==> res.error in {WebNotificationMissing, NotificationMissing} && View() == old(View())
      ensures res == Err(WebNotificationMissing) <==>
                !(webDeliveryId in old(rows)
                  && var web := old(rows)[webDeliveryId].row;
                     web.userId == userId && web.channel == Web && web.status == Delivered && web.deliveredAt.Some?)
      ensures res.Ok? ==> forall id :: id in retry.eligible <==>
                && id in old(rows)
                && var d, web := old(rows)[id].row, old(rows)[webDeliveryId].row;
                   d.recipientId == web.recipientId && d.notificationId == web.notificationId
                   && d.userId == web.userId && d.channel == Email && d.status == FailedRetryable
      ensures res.Ok? ==> forall id :: id in rows && HasReplay(rows[id], retry.candidate) ==>
                && id in retry.eligible && rows[id].row.channel == Email
                && rows[id].row.userId == userId && rows[id].row.notificationId == retry.notificationId
      ensures res.Ok? ==> retry == Retry(old(rows)[webDeliveryId].row.notificationId, Some(webDeliveryId), User(userId),
                                         FailedSiblings(old(View()).table, old(rows)[webDeliveryId].row),
                                         retry.candidate, requestedAt)
                          && Retried(old(View()), steps, retry, View(), res.value)
                          && (forall id ::
                                id in StillFailed(Replays.Run(old(View()), steps).table, retry.eligible) ==>
                                    id != webDeliveryId)
    {
      steps, retry := [], Retry(0, None, User(userId), {}, 0, requestedAt);
      if webDeliveryId !in rows || !Visible(rows[webDeliveryId].row, userId) {
        return Err(WebNotificationMissing), steps, retry;
      }
      var web := rows[webDeliveryId].row;
      if web.notificationId !in sources {
        return Err(NotificationMissing), steps, retry;
      }
      ghost var start := View();
      var eligible := FailedSiblings(Table(rows, issued), web);
      steps := Others();
      RunKeepsConserved(start, steps);
      var result;
      result, retry := RecordRetry(web.notificationId, eligible, User(userId), requestedAt, Some(webDeliveryId));
      MovedWereEligible(start, steps, retry, View());
      res := Ok(result);
    }
  }

  /**
   * What the caller is told is what happened: the rows its own replay id moved, which is none iff nothing was left to
   * move.
   */
  ghost predicate ResultOk(before: State, after: State, retry: Retry, result: RetryResult) {
    && result.notificationId == retry.notificationId && result.requestedAt == retry.at
    && Moved(after.table, retry.candidate) == StillFailed(before.table, retry.eligible)
    && result.replayedCount == |Moved(after.table, retry.candidate)|
    && (result.status == Queued <==> Moved(after.table, retry.candidate) != {})
    && result.replayId == (if result.status == Queued then Some(retry.candidate) else None)
  }

  /** Other transactions, then the retry. */
  ghost predicate Retried(start: State, steps: seq<Replays.Step>, retry: Retry, end: State, result: RetryResult) {
    && end == Replays.Next(Replays.Run(start, steps), RetryStep(retry))
    && ResultOk(Replays.Run(start, steps), end, retry, result)
    && Conserved(end)
  }

  lemma {:induction false} RunKeepsConserved(s: State, steps: seq<Replays.Step>)
    requires Conserved(s)
    ensures Conserved(Replays.Run(s, steps))
  {
    if steps != [] {
      RunKeepsConserved(s, steps[..|steps| - 1]);
      StepKeepsConserved(Replays.Run(s, steps[..|steps| - 1]), steps[|steps| - 1]);
    }
  }

  /** No transaction changes whom and what a row is for. */
  predicate SameRow(a: Delivery, b: Delivery) {
    && a.notificationId == b.notificationId && a.recipientId == b.recipientId
    && a.userId == b.userId && a.channel == b.channel
  }

  lemma {:induction false} RowsStay(s: State, steps: seq<Replays.Step>, id: Id)
    requires id in s.table.rows
    ensures id in Replays.Run(s, steps).table.rows
    ensures SameRow(s.table.rows[id].row, Replays.Run(s, steps).table.rows[id].row)
  {
    if steps != [] {
      RowsStay(s, steps[..|steps| - 1], id);
      RowStays(Replays.Run(s, steps[..|steps| - 1]), steps[|steps| - 1], id);
    }
  }

  lemma RowStays(s: State, step: Replays.Step, id: Id)
    requires id in s.table.rows
    ensures id in Replays.Next(s, step).table.rows
    ensures SameRow(s.table.rows[id].row, Replays.Next(s, step).table.rows[id].row)
  {
  }

  /** What the retry's own replay id moved was among the rows read before, and is still for what it was for. */
  lemma MovedWereEligible(start: State, steps: seq<Replays.Step>, retry: Retry, end: State)
    requires end == Replays.Next(Replays.Run(start, steps), RetryStep(retry))
    requires Moved(end.table, retry.candidate) == StillFailed(Replays.Run(start, steps).table, retry.eligible)
    requires forall id :: id in retry.eligible ==> id in start.table.rows
    ensures forall id :: id in end.table.rows && HasReplay(end.table.rows[id], retry.candidate) ==>
              id in retry.eligible && SameRow(start.table.rows[id].row, end.table.rows[id].row)
  {
    forall id | id in end.table.rows && HasReplay(end.table.rows[id], retry.candidate)
      ensures id in retry.eligible && SameRow(start.table.rows[id].row, end.table.rows[id].row)
    {
      assert id in Moved(end.table, retry.candidate);
      RowsStay(start, steps, id);
      RowStays(Replays.Run(start, steps), RetryStep(retry), id);
    }
  }

  lemma NothingMoved(t: Table, eligible: set<Id>, candidate: Id, at: Time)
    requires StillFailed(t, eligible) == {}
    ensures ReplayEligible(t, eligible, candidate, at) == t
  {
    forall id | id in t.rows ensures !(id in eligible && Replayable(t, id)) {
      assert id !in StillFailed(t, eligible);
    }
  }

  lemma RetryMovesItsOwn(s: State, r: Retry)
    requires Conserved(s) && r.candidate !in s.used
    ensures Moved(RecordRetry(s, r).table, r.candidate) == StillFailed(s.table, r.eligible)
  {
    if r.eligible == {} || StillFailed(s.table, r.eligible) == {} {
      NoMoveYet(s, r.candidate);
      assert StillFailed(s.table, {}) == {};
    } else {
      RetryKeepsMoves(s.table, s.events, s.used, r);
      var events := s.events + [ReplayEvent(r.notificationId, r.candidate, StillFailed(s.table, r.eligible), r.at)];
      assert events[|s.events|].replayId == r.candidate;
    }
  }

  lemma NoMoveYet(s: State, candidate: Id)
    requires Conserved(s) && candidate !in s.used
    ensures Moved(s.table, candidate) == {}
  {
  }
}
