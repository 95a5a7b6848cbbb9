/** What every run of the delivery table keeps, for any interleaving of workers, crashes and replays. */
module DeliveryRuns {
  import opened Common
  import opened Ordering
  import opened Deliveries

  // ----- the invariant of one row ----------------------------------------------------------------

  /** A lease is all there or not there at all, and exactly while the row is being processed. */
  predicate LeaseOk(d: Delivery) {
    && (d.status == Processing <==> d.claimToken.Some?)
    && (d.status == Processing <==> d.leaseExpiresAt.Some?)
    && (d.status == Processing <==> d.claimedBy.Some?)
    && (d.status == Processing <==> d.processingStartedAt.Some?)
  }

  /** The attempt log: numbered 1..n, every entry but the last retryable, the last one deciding the row. */
  predicate AttemptsOk(d: Delivery, attempts: seq<Attempt>) {
    && |attempts| == d.attemptCount
    && (forall i :: 0 <= i < |attempts| ==> attempts[i].number == i + 1)
    && (forall i :: 0 <= i < |attempts| - 1 ==> attempts[i].status == FailedRetryable)
    && (attempts != [] ==> var last := attempts[|attempts| - 1];
        && (last.status == FailedRetryable || Terminal(last.status))
        && (Terminal(d.status) <==> Terminal(last.status))
        && (Terminal(d.status) ==> d.status == last.status)
        && (d.status == Delivered ==> d.deliveredAt == Some(last.finishedAt)))
    && (Terminal(d.status) || d.status == FailedRetryable ==> attempts != [])
  }

  /** The CHECK constraint on attempts, with room left for one more in every state that can still be sent. */
  predicate BoundsOk(d: Delivery) {
    && 0 < d.maxAttempts
    && d.attemptCount <= d.maxAttempts
    && (!Terminal(d.status) ==> d.attemptCount < d.maxAttempts)
    && (d.deliveredAt.Some? <==> d.status == Delivered)
    && (d.readAt.Some? ==> d.status == Delivered)
  }

  // ----- the protocol between consecutive events of one row ---------------------------------------

  /** Which event may directly follow which, and how far apart. */
  predicate Follows(a: Event, b: Event) {
    match b
    case Claimed(_, at, _) =>
      (match a
       case Claimed(_, at0, lease) => at > at0 + lease
       case Finalized(_, at0, status, delay) => status == FailedRetryable && at >= at0 + delay
       case Replayed(_, at0) => at >= at0)
    case Finalized(token, _, status, _) =>
      a.Claimed? && a.token == token && (status == FailedRetryable || Terminal(status))
    case Replayed(_, _) => a.Finalized? && a.status == FailedRetryable
  }

  predicate PathOk(events: seq<Event>) {
    && (events != [] ==> events[0].Claimed?)
    && forall i :: 0 <= i < |events| - 1 ==> Follows(events[i], events[i + 1])
  }

  /** The row's columns agree with the last thing that happened to it. */
  predicate LastOk(d: Delivery, events: seq<Event>) {
    if events == [] then d.status == Pending
    else match events[|events| - 1]
      case Claimed(token, at, lease) => Owned(d, token) && d.leaseExpiresAt == Some(at + lease)
      case Finalized(_, at, status, delay) =>
        d.status == status && d.nextAttemptAt == if status == FailedRetryable then at + delay else at
      case Replayed(replayId, at) =>
        d.status == ReplayRequested && d.nextAttemptAt == at && d.replayId == Some(replayId)
  }

  /** The finalizations among the events, in order. */
  function Finals(events: seq<Event>): seq<Event> {
    if events == [] then []
    else
      var last := events[|events| - 1];
      Finals(events[..|events| - 1]) + if last.Finalized? then [last] else []
  }

  function ReplayCount(events: seq<Event>): nat {
    if events == [] then 0
    else ReplayCount(events[..|events| - 1]) + if events[|events| - 1].Replayed? then 1 else 0
  }

  lemma Snoc(events: seq<Event>, e: Event)
    ensures Finals(events + [e]) == Finals(events) + if e.Finalized? then [e] else []
    ensures ReplayCount(events + [e]) == ReplayCount(events) + if e.Replayed? then 1 else 0
  {
  }

  /** Attempt rows and finalizations are the same list seen twice. */
  predicate LogMatches(attempts: seq<Attempt>, finals: seq<Event>) {
    && |finals| == |attempts|
    && forall i :: 0 <= i < |finals| ==> finals[i].Finalized? && finals[i].status == attempts[i].status
                                         && finals[i].at == attempts[i].finishedAt
  }

  function One(b: bool): nat { if b then 1 else 0 }

  predicate RowOk(tr: Tracked) {
    && LeaseOk(tr.row)
    && AttemptsOk(tr.row, tr.attempts)
    && BoundsOk(tr.row)
    && PathOk(tr.events)
    && LastOk(tr.row, tr.events)
    && LogMatches(tr.attempts, Finals(tr.events))
    && ReplayCount(tr.events) + One(tr.row.status == FailedRetryable) + One(Terminal(tr.row.status))
        <= tr.row.attemptCount
  }

  // ----- tokens across the table -----------------------------------------------------------------

  predicate IsClaim(t: Table, id: Id, i: int) {
    id in t.rows && 0 <= i < |t.rows[id].events| && t.rows[id].events[i].Claimed?
  }

  /** Every token was issued by exactly one claim of one row. */
  ghost predicate TokensOk(t: Table) {
    && (forall id, i :: IsClaim(t, id, i) ==> t.rows[id].events[i].token in t.issued)
    && (forall id, i, id', i' ::
          IsClaim(t, id, i) && IsClaim(t, id', i') && t.rows[id].events[i].token == t.rows[id'].events[i'].token ==>
            id == id' && i == i')
  }

  ghost predicate Inv(t: Table) {
    (forall id :: id in t.rows ==> RowOk(t.rows[id])) && TokensOk(t)
  }

  // ----- preservation ----------------------------------------------------------------------------

  lemma PathSnoc(events: seq<Event>, e: Event)
    requires PathOk(events)
    requires if events == [] then e.Claimed? else Follows(events[|events| - 1], e)
    ensures PathOk(events + [e])
  {
  }

  lemma ClaimKeepsRow(tr: Tracked, now: Time, lease: int, worker: string, token: Id, channels: Option<set<Channel>>)
    requires RowOk(tr) && Due(tr.row, now, channels)
    ensures RowOk(ClaimTracked(tr, now, lease, worker, token))
  {
    var e := Claimed(token, now, lease);
    Snoc(tr.events, e);
    PathSnoc(tr.events, e);
  }

  lemma FinalizeKeepsRow(tr: Tracked, token: Id, outcome: Outcome, now: Time, retryDelay: int)
    requires RowOk(tr) && Owned(tr.row, token)
    ensures RowOk(FinalizeTracked(tr, token, outcome, now, retryDelay))
  {
    var e := Finalized(token, now, FinalizeRow(tr.row, outcome, now, retryDelay).status, retryDelay);
    FinalizeKeepsColumns(tr, token, outcome, now, retryDelay);
    Snoc(tr.events, e);
    assert tr.events != [] && tr.events[|tr.events| - 1].Claimed?;
    PathSnoc(tr.events, e);
  }

  lemma FinalizeKeepsColumns(tr: Tracked, token: Id, outcome: Outcome, now: Time, retryDelay: int)
    requires LeaseOk(tr.row) && AttemptsOk(tr.row, tr.attempts) && BoundsOk(tr.row) && Owned(tr.row, token)
    ensures var row := FinalizeRow(tr.row, outcome, now, retryDelay);
            LeaseOk(row) && AttemptsOk(row, tr.attempts + [AttemptFor(tr.row, outcome, now)]) && BoundsOk(row)
  {
  }

  lemma ReplayKeepsRow(tr: Tracked, replayId: Id, at: Time)
    requires RowOk(tr) && tr.row.status == FailedRetryable
    ensures RowOk(ReplayTracked(tr, replayId, at))
  {
    var e := Replayed(replayId, at);
    Snoc(tr.events, e);
    assert tr.events != [] && tr.events[|tr.events| - 1].Finalized?;
    PathSnoc(tr.events, e);
  }

  lemma NewRowOk(d: Delivery)
    requires IsNew(d)
    ensures RowOk(Tracked(d, [], []))
  {
  }

  lemma ReadKeepsRow(tr: Tracked, at: Time)
    requires RowOk(tr) && tr.row.status == Delivered
    ensures RowOk(ReadTracked(tr, at))
  {
  }

  lemma ClaimKeepsRows(t: Table, now: Time, limit: int, worker: string, lease: int, channels: Option<set<Channel>>,
                       locked: set<Id>, tokens: map<Id, Id>, id: Id)
    requires id in t.rows && RowOk(t.rows[id])
    ensures var t' := ClaimDue(t, now, limit, worker, lease, channels, locked, tokens);
            id in t'.rows && RowOk(t'.rows[id])
  {
    var batch := Batch(t.rows, now, limit, channels, locked);
    if FreshTokens(t, batch, tokens) && id in batch {
      ClaimKeepsRow(t.rows[id], now, lease, worker, tokens[id], channels);
    }
  }

  lemma StepKeepsRows(t: Table, step: Step, id: Id)
    requires forall x :: x in t.rows ==> RowOk(t.rows[x])
    requires id in Next(t, step).rows
    ensures RowOk(Next(t, step).rows[id])
  {
    match step
    case Insert(added) =>
      if id !in t.rows { NewRowOk(added[id]); }
    case Claim(now, limit, worker, lease, channels, locked, tokens) =>
      ClaimKeepsRows(t, now, limit, worker, lease, channels, locked, tokens, id);
    case Finalize(x, token, outcome, now, retryDelay) =>
      if x == id && Owned(t.rows[x].row, token) {
        FinalizeKeepsRow(t.rows[x], token, outcome, now, retryDelay);
      }
    case Replay(ids, replayId, at) =>
      if id in ids && Replayable(t, id) { ReplayKeepsRow(t.rows[id], replayId, at); }
    case Read(x, userId, at) =>
      if x == id && t.rows[id].row.status == Delivered { ReadKeepsRow(t.rows[id], at); }
  }

  lemma StepKeepsTokens(t: Table, step: Step)
    requires TokensOk(t)
    ensures TokensOk(Next(t, step))
  {
    var t' := Next(t, step);
    forall id, i | IsClaim(t', id, i)
      ensures t'.rows[id].events[i].token in t'.issued
      ensures (IsClaim(t, id, i) && t.rows[id].events[i] == t'.rows[id].events[i])
              || t'.rows[id].events[i].token !in t.issued
    {
      if IsClaim(t, id, i) { assert t.rows[id].events[i] == t'.rows[id].events[i]; }
    }
    forall id, i, id', i' | IsClaim(t', id, i) && IsClaim(t', id', i')
                            && t'.rows[id].events[i].token == t'.rows[id'].events[i'].token
      ensures id == id' && i == i'
    {
      if IsClaim(t, id, i) && IsClaim(t, id', i') {
        assert t.rows[id].events[i] == t'.rows[id].events[i];
        assert t.rows[id'].events[i'] == t'.rows[id'].events[i'];
      }
    }
  }

  lemma StepKeepsInv(t: Table, step: Step)
    requires Inv(t)
    ensures Inv(Next(t, step))
  {
    forall id | id in Next(t, step).rows ensures RowOk(Next(t, step).rows[id]) {
      StepKeepsRows(t, step, id);
    }
    StepKeepsTokens(t, step);
  }

  lemma ReplayKeepsInv(t: Table, ids: set<Id>, replayId: Id, at: Time)
    requires Inv(t)
    ensures Inv(ReplayEligible(t, ids, replayId, at))
  {
    var t' := Next(t, Replay(ids, replayId, at));
    assert t' == ReplayEligible(t, ids, replayId, at);
    StepKeepsInv(t, Replay(ids, replayId, at));
    assert Inv(t');
  }

  lemma {:induction false} RunKeepsInv(t: Table, steps: seq<Step>)
    requires Inv(t)
    ensures Inv(Run(t, steps))
  {
    if steps != [] {
      RunKeepsInv(t, steps[..|steps| - 1]);
      StepKeepsInv(Run(t, steps[..|steps| - 1]), steps[|steps| - 1]);
    }
  }

  // ----- what each transaction does, column by column ----------------------------------------------

  /** New rows come in as they are, with no attempt made, and only if they wait and no row has their id. */
  lemma InsertMeans(t: Table, added: map<Id, Delivery>)
    ensures var t' := Next(t, Insert(added));
            if forall id :: id in added ==>
                 && id !in t.rows && added[id].status == Pending && added[id].attemptCount == 0
                 && added[id].maxAttempts > 0 && added[id].processingStartedAt == None
                 && added[id].leaseExpiresAt == None && added[id].claimedBy == None && added[id].claimToken == None
                 && added[id].replayId == None && added[id].readAt == None && added[id].deliveredAt == None
            then
              && t'.issued == t.issued && t'.rows.Keys == t.rows.Keys + added.Keys
              && (forall id :: id in t.rows ==> t'.rows[id] == t.rows[id])
              && (forall id :: id in added ==> t'.rows[id] == Tracked(added[id], [], []))
            else t' == t
  {
  }

  /**
   * A finalization by the holder of the token. Delivered exactly for an accepted send; retried exactly after a
   * retryable failure with attempts left, and then after the retry delay; otherwise failed for good. Outcome and
   * number go into the row and, as they are, into one more attempt row; the lease is given back.
   */
  lemma FinalizeMeans(t: Table, id: Id, token: Id, outcome: Outcome, now: Time, retryDelay: int)
    requires id in t.rows && t.rows[id].row.status == Processing && t.rows[id].row.claimToken == Some(token)
    ensures var t' := Next(t, Finalize(id, token, outcome, now, retryDelay));
            && t'.issued == t.issued && id in t'.rows && t'.rows == t.rows[id := t'.rows[id]]
            && var d, d', attempts' := t.rows[id].row, t'.rows[id].row, t'.rows[id].attempts;
               && (d'.status == Delivered <==> outcome.status == SentOk)
               && (d'.status == FailedRetryable <==>
                     outcome.status == RetryableFailure && d.attemptCount + 1 < d.maxAttempts)
               && (d'.status != Delivered && d'.status != FailedRetryable ==> d'.status == FailedTerminal)
               && d' == d.(status := d'.status, attemptCount := d.attemptCount + 1,
                           providerMessageId := outcome.providerMessageId,
                           lastErrorCode := if outcome.status == SentOk then None else outcome.errorCode,
                           lastErrorMessage := if outcome.status == SentOk then None else outcome.errorMessage,
                           deliveredAt := if outcome.status == SentOk then Some(now) else d.deliveredAt,
                           nextAttemptAt := if d'.status == FailedRetryable then now + retryDelay else now,
                           processingStartedAt := None, leaseExpiresAt := None, claimedBy := None, claimToken := None,
                           updatedAt := now)
               && attempts' == t.rows[id].attempts
                               + [Attempt(d.attemptCount + 1, d'.status, outcome.errorCode, outcome.errorMessage,
                                          outcome.providerMessageId, now, now)]
               && t'.rows[id].events == t.rows[id].events + [Finalized(token, now, d'.status, retryDelay)]
  {
  }

  /** Anyone else's finalization changes nothing. */
  lemma FinalizeByOthers(t: Table, id: Id, token: Id, outcome: Outcome, now: Time, retryDelay: int)
    requires !(id in t.rows && t.rows[id].row.status == Processing && t.rows[id].row.claimToken == Some(token))
    ensures Next(t, Finalize(id, token, outcome, now, retryDelay)) == t
  {
  }

  /** A claim leases the rows of its batch to one worker until now + lease, each under a token of its own. */
  lemma ClaimMeans(t: Table, now: Time, limit: int, worker: string, lease: int, channels: Option<set<Channel>>,
          locked: set<Id>, tokens: map<Id, Id>, id: Id)
    requires var batch := Batch(t.rows, now, limit, channels, locked);
             && (forall x :: x in batch ==> x in tokens && tokens[x] !in t.issued)
             && (forall x, y :: x in batch && y in batch && x != y ==> tokens[x] != tokens[y])
    requires id in t.rows
    ensures var batch, t' := Batch(t.rows, now, limit, channels, locked),
                             Next(t, Claim(now, limit, worker, lease, channels, locked, tokens));
            && t'.rows.Keys == t.rows.Keys && t'.issued == t.issued + (set x | x in batch :: tokens[x])
            && (id !in batch ==> t'.rows[id] == t.rows[id])
            && (id in batch ==>
                  && t'.rows[id].row
                     == t.rows[id].row.(status := Processing, processingStartedAt := Some(now),
                                        leaseExpiresAt := Some(now + lease), claimedBy := Some(worker),
                                        claimToken := Some(tokens[id]), updatedAt := now)
                  && t'.rows[id].attempts == t.rows[id].attempts
                  && t'.rows[id].events == t.rows[id].events + [Claimed(tokens[id], now, lease)])
  {
  }

  /** A replay puts the given rows that are failed_retryable back into the queue, due at once, and no other row. */
  lemma ReplayMeans(t: Table, ids: set<Id>, replayId: Id, at: Time, id: Id)
    requires id in t.rows
    ensures var t' := Next(t, Replay(ids, replayId, at));
            && t'.rows.Keys == t.rows.Keys && t'.issued == t.issued
            && (id !in ids || t.rows[id].row.status != FailedRetryable ==> t'.rows[id] == t.rows[id])
            && (id in ids && t.rows[id].row.status == FailedRetryable ==>
                  && t'.rows[id].row
                     == t.rows[id].row.(status := ReplayRequested, replayId := Some(replayId), nextAttemptAt := at,
                                        processingStartedAt := None, leaseExpiresAt := None, claimedBy := None,
                                        claimToken := None, updatedAt := at)
                  && t'.rows[id].attempts == t.rows[id].attempts
                  && t'.rows[id].events == t.rows[id].events + [Replayed(replayId, at)])
  {
  }

  /** Reading marks a delivered web row of this user that has no mark yet, and changes nothing else. */
  lemma ReadMeans(t: Table, id: Id, userId: Id, at: Time)
    ensures var t' := Next(t, Read(id, userId, at));
            if && id in t.rows && t.rows[id].row.userId == userId && t.rows[id].row.channel == Web
               && t.rows[id].row.status == Delivered && t.rows[id].row.deliveredAt.Some? && t.rows[id].row.readAt.None?
            then
              && t'.issued == t.issued
              && t'.rows == t.rows[id := t.rows[id].(row := t.rows[id].row.(readAt := Some(at), updatedAt := at))]
            else t' == t
  {
  }

  // ----- theorems over every run from an empty table ---------------------------------------------

  lemma Reachable(steps: seq<Step>)
    ensures Inv(Run(EMPTY, steps))
  {
    RunKeepsInv(EMPTY, steps);
  }

  /** The attempt log of every row, the CHECK constraint, and the lease columns, in every reachable state. */
  lemma AttemptLog(steps: seq<Step>, id: Id)
    requires id in Run(EMPTY, steps).rows
    ensures var tr := Run(EMPTY, steps).rows[id];
            && AttemptsOk(tr.row, tr.attempts)
            && BoundsOk(tr.row)
            && LeaseOk(tr.row)
  {
    Reachable(steps);
  }

  /** A row is replayed at most max_attempts - 1 times, however many retriers compete for it. */
  lemma ReplaysBounded(steps: seq<Step>, id: Id)
    requires id in Run(EMPTY, steps).rows
    ensures var tr := Run(EMPTY, steps).rows[id];
            ReplayCount(tr.events) <= tr.row.maxAttempts - 1
  {
    Reachable(steps);
  }

  /** Everything about a row but its read mark. */
  function Unread(tr: Tracked): Tracked {
    tr.(row := tr.row.(readAt := None, updatedAt := 0))
  }

  /** `delivered` and `failed_terminal` are absorbing: later transactions can only set `read_at`, and that once. */
  lemma {:induction false} TerminalForever(t: Table, steps: seq<Step>, id: Id)
    requires id in t.rows && Terminal(t.rows[id].row.status)
    ensures id in Run(t, steps).rows
    ensures Unread(Run(t, steps).rows[id]) == Unread(t.rows[id])
    ensures t.rows[id].row.readAt.Some? ==> Run(t, steps).rows[id] == t.rows[id]
  {
    if steps != [] { TerminalForever(t, steps[..|steps| - 1], id); }
  }

  lemma {:induction false} IssuedStay(t: Table, steps: seq<Step>)
    ensures t.issued <= Run(t, steps).issued
  {
    if steps != [] { IssuedStay(t, steps[..|steps| - 1]); }
  }

  /**
   * Fencing. A token that was issued but no longer holds its row (it was finalized, or another worker
   * reclaimed the row) never holds it again, so the late worker's finalize changes nothing at all.
   */
  lemma {:induction false} StaleTokenChangesNothing(t: Table, steps: seq<Step>, id: Id, token: Id, outcome: Outcome,
          now: Time, retryDelay: int)
    requires token in t.issued && !Holds(t, id, token)
    ensures !Holds(Run(t, steps), id, token)
    ensures Next(Run(t, steps), Finalize(id, token, outcome, now, retryDelay)) == Run(t, steps)
  {
    if steps != [] {
      var before := steps[..|steps| - 1];
      StaleTokenChangesNothing(t, before, id, token, outcome, now, retryDelay);
      IssuedStay(t, before);
    }
  }

  /** A finalization spends the token of the claim just before it. */
  lemma FinalizedByItsClaim(steps: seq<Step>, id: Id, i: nat)
    requires id in Run(EMPTY, steps).rows
    requires i < |Run(EMPTY, steps).rows[id].events| && Run(EMPTY, steps).rows[id].events[i].Finalized?
    ensures var events := Run(EMPTY, steps).rows[id].events;
            0 < i && events[i - 1].Claimed? && events[i - 1].token == events[i].token
  {
    Reachable(steps);
    var events := Run(EMPTY, steps).rows[id].events;
    assert Follows(events[i - 1], events[i]);
  }

  /** No token finalizes twice, neither its own row nor any other. */
  lemma TokenFinalizesOnce(steps: seq<Step>, id: Id, i: nat, id': Id, i': nat)
    requires var t := Run(EMPTY, steps);
             && id in t.rows && i < |t.rows[id].events| && t.rows[id].events[i].Finalized?
             && id' in t.rows && i' < |t.rows[id'].events| && t.rows[id'].events[i'].Finalized?
             && t.rows[id].events[i].token == t.rows[id'].events[i'].token
    ensures id == id' && i == i'
  {
    Reachable(steps);
    FinalizedByItsClaim(steps, id, i);
    FinalizedByItsClaim(steps, id', i');
    var t := Run(EMPTY, steps);
    assert IsClaim(t, id, i - 1) && IsClaim(t, id', i' - 1);
  }

  /** A row is reclaimed only after the earlier lease has run out. */
  lemma {:induction false} LeasesDoNotOverlap(steps: seq<Step>, id: Id, i: nat, j: nat)
    requires id in Run(EMPTY, steps).rows
    requires var events := Run(EMPTY, steps).rows[id].events;
             && i < j < |events| && events[i].Claimed? && events[j].Claimed?
             && (forall k :: i < k < j ==> events[k].Claimed? ==> events[k].lease >= 0)
             && (forall k :: i < k < j ==> !events[k].Finalized?)
    ensures var events := Run(EMPTY, steps).rows[id].events;
            events[j].at > events[i].at + events[i].lease
    decreases j - i
  {
    Reachable(steps);
    var events := Run(EMPTY, steps).rows[id].events;
    assert Follows(events[i], events[i + 1]);
    if i + 1 < j {
      assert events[i + 1].Claimed?;
      LeasesDoNotOverlap(steps, id, i + 1, j);
    }
  }

  /** After a retryable failure the next claim waits for the retry delay, unless a replay came in between. */
  lemma RetryWaits(steps: seq<Step>, id: Id, i: nat, j: nat)
    requires id in Run(EMPTY, steps).rows
    requires var events := Run(EMPTY, steps).rows[id].events;
             && i < j < |events| && events[i].Finalized? && events[j].Claimed?
             && (forall k :: i < k < j ==> !events[k].Claimed? && !events[k].Replayed?)
    ensures var events := Run(EMPTY, steps).rows[id].events;
            && j == i + 1
            && events[i].status == FailedRetryable
            && events[j].at >= events[i].at + events[i].retryDelay
  {
    Reachable(steps);
    var events := Run(EMPTY, steps).rows[id].events;
    assert Follows(events[i], events[i + 1]);
  }

  // ----- what is not bounded, and what is never stuck --------------------------------------------

  lemma SingletonBatch(rows: map<Id, Tracked>, now: Time, channels: Option<set<Channel>>, locked: set<Id>, id: Id)
    requires id in rows && id !in locked && Due(rows[id].row, now, channels)
    requires forall x :: x in rows && x != id ==> x in locked
    ensures Batch(rows, now, 1, channels, locked) == [id]
  {
    var key := DueKey(id, rows[id].row);
    assert DueKeys(rows, now, channels, locked) == {key};
    SortIs({key}, [key]);
  }

  function DueAt(d: Delivery): Time {
    if d.status == Processing && d.leaseExpiresAt.Some? then d.leaseExpiresAt.value + 1 else d.nextAttemptAt
  }

  lemma ClaimOne(t: Table, id: Id, token: Id, now: Time, lease: int, locked: set<Id>)
    requires id in t.rows && id !in locked && Due(t.rows[id].row, now, None)
    requires forall x :: x in t.rows && x != id ==> x in locked
    requires token !in t.issued
    ensures var t' := Next(t, Claim(now, 1, "", lease, None, locked, map[id := token]));
            && t'.rows == t.rows[id := ClaimTracked(t.rows[id], now, lease, "", token)]
            && t'.issued == t.issued + {token}
  {
    SingletonBatch(t.rows, now, None, locked, id);
    var batch := Batch(t.rows, now, 1, None, locked);
    var tokens := map[id := token];
    assert batch == [id] && batch[0] == id;
    assert FreshTokens(t, batch, tokens);
    assert id in batch && tokens[id] == token;
    assert (set x | x in batch :: tokens[x]) == {token};
  }

  /** The two steps deliver row id and leave every other row as it is. */
  ghost predicate Delivers(t: Table, id: Id, claim: Step, finalize: Step) {
    var t' := Next(Next(t, claim), finalize);
    && claim.Claim? && finalize.Finalize? && id in t'.rows && t'.rows[id].row.status == Delivered
    && t'.rows == t.rows[id := t'.rows[id]]
  }

  lemma FinalizeOne(t: Table, id: Id, token: Id, now: Time)
    requires Holds(t, id, token)
    ensures var t' := Next(t, Finalize(id, token, Outcome(SentOk, None, None, None), now, 0));
            id in t'.rows && t'.rows[id].row.status == Delivered && t'.rows == t.rows[id := t'.rows[id]]
  {
  }

  lemma DueAtIsDue(d: Delivery)
    requires LeaseOk(d) && !Terminal(d.status)
    ensures Due(d, DueAt(d), None)
  {
  }

  /** No row is ever stuck: from every reachable state, a row that is not terminal can be claimed and delivered. */
  lemma NeverStuck(t: Table, id: Id) returns (claim: Step, finalize: Step)
    requires Inv(t) && id in t.rows && !Terminal(t.rows[id].row.status)
    ensures Delivers(t, id, claim, finalize)
  {
    FreshId(t.issued);
    var token: Id :| token !in t.issued;
    var d := t.rows[id].row;
    assert LeaseOk(d) by { assert RowOk(t.rows[id]); }
    DueAtIsDue(d);
    claim, finalize := ClaimThenDeliver(t, id, token, DueAt(d), t.rows.Keys - {id});
  }

  lemma ClaimThenDeliver(t: Table, id: Id, token: Id, now: Time, locked: set<Id>) returns (claim: Step, finalize: Step)
    requires id in t.rows && Due(t.rows[id].row, now, None) && locked == t.rows.Keys - {id} && token !in t.issued
    ensures Delivers(t, id, claim, finalize)
  {
    claim := Claim(now, 1, "", 0, None, locked, map[id := token]);
    finalize := Finalize(id, token, Outcome(SentOk, None, None, None), now, 0);
    ClaimOne(t, id, token, now, 0, locked);
    FinalizeOne(Next(t, claim), id, token, now);
  }

  /** Row 0 was claimed n times by workers that died: each may have sent the message, and no attempt was counted. */
  ghost predicate Crashing(t: Table, row: Delivery, n: nat) {
    && t.rows.Keys == {0}
    && t.rows[0].row.attemptCount == 0
    && |t.rows[0].events| == n
    && (forall i :: 0 <= i < n ==> t.rows[0].events[i].Claimed?)
    && (forall x :: x in t.issued ==> x <= n)
    && Due(t.rows[0].row, row.nextAttemptAt + n + 1, None)
  }

  lemma OneMoreCrash(steps: seq<Step>, row: Delivery, n: nat)
    requires n > 0 && Crashing(Run(EMPTY, steps), row, n - 1)
    ensures Crashing(Run(EMPTY, steps + [Claim(row.nextAttemptAt + n, 1, "", 0, None, {}, map[0 := n])]), row, n)
  {
    RunSnoc(EMPTY, steps, Claim(row.nextAttemptAt + n, 1, "", 0, None, {}, map[0 := n]));
    CrashStep(Run(EMPTY, steps), row, n);
  }

  lemma CrashStep(t: Table, row: Delivery, n: nat)
    requires n > 0 && Crashing(t, row, n - 1)
    ensures Crashing(Next(t, Claim(row.nextAttemptAt + n, 1, "", 0, None, {}, map[0 := n])), row, n)
  {
    ClaimOne(t, 0, n, row.nextAttemptAt + n, 0, {});
  }

  /** Only finalizations are bounded by max_attempts. Claims are not, and a worker sends after each claim. */
  lemma {:induction false} ClaimsAreUnbounded(row: Delivery, n: nat) returns (steps: seq<Step>)
    requires IsNew(row)
    ensures Crashing(Run(EMPTY, steps), row, n)
  {
    if n == 0 {
      CrashBase(row);
      steps := [Insert(map[0 := row])];
    } else {
      var before := ClaimsAreUnbounded(row, n - 1);
      OneMoreCrash(before, row, n);
      steps := before + [Claim(row.nextAttemptAt + n, 1, "", 0, None, {}, map[0 := n])];
    }
  }

  lemma CrashBase(row: Delivery)
    requires IsNew(row)
    ensures Crashing(Run(EMPTY, [Insert(map[0 := row])]), row, 0)
  {
    var t := Next(EMPTY, Insert(map[0 := row]));
    assert t.rows == map[0 := Tracked(row, [], [])];
    RunSnoc(EMPTY, [], Insert(map[0 := row]));
    assert [] + [Insert(map[0 := row])] == [Insert(map[0 := row])];
  }
}
