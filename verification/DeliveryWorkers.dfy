/** The delivery worker: claim a batch, then load, send and finalize each row in transactions of its own. */
module DeliveryWorkers {
  import opened Common
  import opened Ordering
  import opened Deliveries
  import opened DeliveryRuns

  datatype ClaimedDelivery = ClaimedDelivery(deliveryId: Id, claimToken: Id)

  datatype WorkerResult = WorkerResult(claimedCount: nat, processedCount: nat)

  /** `claims` names the rows of `batch` in order, each with its token. */
  predicate ClaimsOf(claims: seq<ClaimedDelivery>, batch: seq<Id>, tokens: map<Id, Id>) {
    && |claims| == |batch|
    && forall i :: 0 <= i < |batch| ==> batch[i] in tokens && claims[i] == ClaimedDelivery(batch[i], tokens[batch[i]])
  }

  /** A delivery row loaded into a session: the code assigns its attributes one by one. */
  class DeliveryRow {
    const source: Delivery
    var status: Status
    var attemptCount: nat
    var nextAttemptAt: Time
    var processingStartedAt: Option<Time>
    var leaseExpiresAt: Option<Time>
    var claimedBy: Option<string>
    var claimToken: Option<Id>
    var deliveredAt: Option<Time>
    var providerMessageId: Option<string>
    var lastErrorCode: Option<string>
    var lastErrorMessage: Option<string>
    var updatedAt: Time

    /** The columns the session writes back at commit. */
    function View(): Delivery
      reads this
    {
      source.(status := status, attemptCount := attemptCount, nextAttemptAt := nextAttemptAt,
              processingStartedAt := processingStartedAt, leaseExpiresAt := leaseExpiresAt, claimedBy := claimedBy,
              claimToken := claimToken, deliveredAt := deliveredAt, providerMessageId := providerMessageId,
              lastErrorCode := lastErrorCode, lastErrorMessage := lastErrorMessage, updatedAt := updatedAt)
    }

    constructor (d: Delivery)
      ensures View() == d && source == d
    {
      source := d;
      status, attemptCount, nextAttemptAt := d.status, d.attemptCount, d.nextAttemptAt;
      processingStartedAt, leaseExpiresAt := d.processingStartedAt, d.leaseExpiresAt;
      claimedBy, claimToken, deliveredAt := d.claimedBy, d.claimToken, d.deliveredAt;
      providerMessageId, lastErrorCode, lastErrorMessage := d.providerMessageId, d.lastErrorCode, d.lastErrorMessage;
      updatedAt := d.updatedAt;
    }

    method ReleaseLease()
      modifies this
      ensures View()
              == old(View()).(processingStartedAt := None, leaseExpiresAt := None, claimedBy := None,
                              claimToken := None)
      ensures status == old(status) && attemptCount == old(attemptCount)
    {
      processingStartedAt := None;
      leaseExpiresAt := None;
      claimedBy := None;
      claimToken := None;
    }

    /** One finalization: the counters, the outcome's columns, and the lease given back. */
    method RecordOutcome(outcome: Outcome, now: Time, retryDelay: int) returns (attempt: Attempt)
      modifies this
      ensures status == Delivered <==> outcome.status == SentOk
      ensures status == FailedRetryable <==>
                outcome.status == RetryableFailure && old(attemptCount) + 1 < source.maxAttempts
      ensures status == FailedTerminal <==>
                outcome.status == TerminalFailure
                || (outcome.status == RetryableFailure && old(attemptCount) + 1 >= source.maxAttempts)
      ensures attemptCount == old(attemptCount) + 1 && updatedAt == now
      ensures providerMessageId == outcome.providerMessageId
      ensures lastErrorCode == if status == Delivered then None else outcome.errorCode
      ensures lastErrorMessage == if status == Delivered then None else outcome.errorMessage
      ensures deliveredAt == if status == Delivered then Some(now) else old(deliveredAt)
      ensures nextAttemptAt == if status == FailedRetryable then now + retryDelay else now
      ensures processingStartedAt == None && leaseExpiresAt == None && claimedBy == None && claimToken == None
      ensures attempt == Attempt(attemptCount, status, outcome.errorCode, outcome.errorMessage,
                                 outcome.providerMessageId, now, now)
      ensures View() == FinalizeRow(old(View()), outcome, now, retryDelay)
      ensures attempt == AttemptFor(old(View()), outcome, now)
    {
      var attemptNumber := attemptCount + 1;
      attemptCount := attemptNumber;
      var finalStatus := FinalStatus(outcome.status, attemptNumber, source.maxAttempts);
      status := finalStatus;
      providerMessageId := outcome.providerMessageId;
      lastErrorCode := outcome.errorCode;
      lastErrorMessage := outcome.errorMessage;
      updatedAt := now;
      if finalStatus == Delivered {
        deliveredAt := Some(now);
        nextAttemptAt := now;
        lastErrorCode := None;
        lastErrorMessage := None;
      } else if finalStatus == FailedRetryable {
        nextAttemptAt := now + retryDelay;
      } else {
        nextAttemptAt := now;
      }
      ReleaseLease();
      attempt := Attempt(attemptNumber, finalStatus, outcome.errorCode, outcome.errorMessage,
                         outcome.providerMessageId, now, now);
    }

    method MarkProcessing(now: Time, leaseExpires: Time, workerId: string, token: Id)
      modifies this
      ensures View() == old(View()).(status := Processing, processingStartedAt := Some(now),
                                     leaseExpiresAt := Some(leaseExpires), claimedBy := Some(workerId),
                                     claimToken := Some(token), updatedAt := now)
      ensures View() == ClaimRow(old(View()), now, leaseExpires - now, workerId, token)
    {
      status := Processing;
      processingStartedAt := Some(now);
      leaseExpiresAt := Some(leaseExpires);
      claimedBy := Some(workerId);
      claimToken := Some(token);
      updatedAt := now;
    }
  }

  /** The tables notification_deliveries and delivery_attempts. */
  class DeliveryStore {
    var rows: map<Id, Tracked>
    var issued: set<Id>

    function View(): Table
      reads this
    {
      Table(rows, issued)
    }

    constructor (t: Table)
      ensures View() == t
    {
      rows, issued := t.rows, t.issued;
    }

    /** uuid4. */
    method FreshToken() returns (token: Id)
      modifies this`issued
      ensures token !in old(issued) && issued == old(issued) + {token}
    {
      FreshId(issued);
      token :| token !in issued;
      issued := issued + {token};
    }

    /**
     * Any transactions other processes commit meanwhile. The body is only one of the environments the
     * contract allows; callers know nothing but the contract. No other process knows the tokens in `mine`.
     */
    method Others(ghost mine: set<Id>) returns (ghost steps: seq<Step>)
      modifies this
      ensures View() == Run(old(View()), steps) && NoneFinalizes(steps, mine)
    {
      steps := [];
    }

    /** SELECT ... WHERE id, status and claim_token match. */
    method GetClaimedDelivery(claim: ClaimedDelivery) returns (row: DeliveryRow?)
      ensures row != null <==>
              && claim.deliveryId in rows && rows[claim.deliveryId].row.status == Processing
              && rows[claim.deliveryId].row.claimToken == Some(claim.claimToken)
      ensures row != null ==> fresh(row) && row.View() == rows[claim.deliveryId].row
    {
      row := null;
      if claim.deliveryId in rows {
        var d := rows[claim.deliveryId].row;
        if d.status == Processing && d.claimToken == Some(claim.claimToken) {
          row := new DeliveryRow(d);
        }
      }
    }

    method ClaimRowById(id: Id, now: Time, leaseExpiresAt: Time, workerId: string) returns (token: Id)
      requires id in rows
      modifies this
      ensures token !in old(issued)
      ensures View() == Table(old(rows)[id := ClaimTracked(old(rows)[id], now, leaseExpiresAt - now, workerId, token)],
                              old(issued) + {token})
    {
      var row := new DeliveryRow(rows[id].row);
      token := FreshToken();
      row.MarkProcessing(now, leaseExpiresAt, workerId, token);
      rows := rows[id := Tracked(row.View(), rows[id].attempts,
                                 rows[id].events + [Claimed(token, now, leaseExpiresAt - now)])];
    }

    method ClaimBatch(batch: seq<Id>, now: Time, leaseExpiresAt: Time, workerId: string)
      returns (claims: seq<ClaimedDelivery>, ghost tokens: map<Id, Id>)
      requires forall id :: id in batch ==> id in rows
      requires forall a, b :: 0 <= a < b < |batch| ==> batch[a] != batch[b]
      modifies this
      ensures ClaimsOf(claims, batch, tokens) && FreshTokens(old(View()), batch, tokens)
      ensures View() == ClaimAll(old(View()), batch, now, leaseExpiresAt - now, workerId, tokens)
    {
      claims, tokens := [], map[];
      ghost var t := View();
      ghost var lease := leaseExpiresAt - now;
      ClaimNone(t, now, lease, workerId);
      for i := 0 to |batch|
        invariant ClaimsOf(claims, batch[..i], tokens)
        invariant FreshTokens(t, batch[..i], tokens)
        invariant View() == ClaimAll(t, batch[..i], now, lease, workerId, tokens)
      {
        var id := batch[i];
        ClaimHasRow(t, batch[..i], now, lease, workerId, tokens, id);
        var token := ClaimRowById(id, now, leaseExpiresAt, workerId);
        ClaimOneMore(t, batch, i, now, lease, workerId, tokens, token);
        claims, tokens := claims + [ClaimedDelivery(id, token)], tokens[id := token];
      }
      assert batch[..|batch|] == batch;
    }

    /** SELECT ... ORDER BY next_attempt_at, id LIMIT limit FOR UPDATE SKIP LOCKED. */
    method SelectDue(now: Time, limit: int, channels: Option<set<Channel>>, locked: set<Id>) returns (batch: seq<Id>)
      ensures batch == Batch(rows, now, limit, channels, locked)
    {
      var keys := DueKeys(rows, now, channels, locked);
      SortIs(keys, Enumerate(keys));
      batch := Ids(Limit(Enumerate(keys), limit));
    }

    method ClaimDueDeliveries(now: Time, limit: int, workerId: string, leaseExpiresAt: Time,
                              channels: Option<set<Channel>>, locked: set<Id>)
      returns (claims: seq<ClaimedDelivery>, ghost tokens: map<Id, Id>)
      modifies this
      ensures var batch := Batch(old(rows), now, limit, channels, locked);
              ClaimsOf(claims, batch, tokens) && FreshTokens(old(View()), batch, tokens)
      ensures View() == Next(old(View()), Claim(now, limit, workerId, leaseExpiresAt - now, channels, locked, tokens))
    {
      var batch := SelectDue(now, limit, channels, locked);
      claims, tokens := ClaimBatch(batch, now, leaseExpiresAt, workerId);
    }
  }

  lemma ClaimNone(t: Table, now: Time, lease: int, worker: string)
    ensures ClaimAll(t, [], now, lease, worker, map[]) == t
  {
  }

  lemma ClaimHasRow(t: Table, batch: seq<Id>, now: Time, lease: int, worker: string, tokens: map<Id, Id>, id: Id)
    requires FreshTokens(t, batch, tokens) && id in t.rows
    ensures id in ClaimAll(t, batch, now, lease, worker, tokens).rows
  {
  }

  lemma ClaimOneMore(t: Table, batch: seq<Id>, i: nat, now: Time, lease: int, worker: string, tokens: map<Id, Id>,
          token: Id)
    requires i < |batch| && (forall a, b :: 0 <= a < b < |batch| ==> batch[a] != batch[b])
    requires batch[i] in t.rows && FreshTokens(t, batch[..i], tokens)
    requires token !in ClaimAll(t, batch[..i], now, lease, worker, tokens).issued
    ensures var id := batch[i];
            var before := ClaimAll(t, batch[..i], now, lease, worker, tokens);
            && batch[i] !in batch[..i]
            && batch[..i + 1] == batch[..i] + [id]
            && FreshTokens(t, batch[..i + 1], tokens[id := token])
            && before.rows[id] == t.rows[id]
            && ClaimAll(t, batch[..i + 1], now, lease, worker, tokens[id := token])
               == Table(before.rows[id := ClaimTracked(t.rows[id], now, lease, worker, token)], before.issued + {token})
  {
    var id := batch[i];
    assert batch[..i + 1] == batch[..i] + [id];
    assert id !in batch[..i];
    assert forall x :: x in batch[..i + 1] <==> x in batch[..i] || x == id;
    assert forall x :: x in batch[..i] ==> tokens[x] in ClaimAll(t, batch[..i], now, lease, worker, tokens).issued;
  }

  // ----- the worker ------------------------------------------------------------------------------

  /** What an adapter call did. */
  datatype Reply = Returned(outcome: Outcome) | Raised(exception: string)

  function ChannelName(c: Channel): string { if c.Web? then "web" else "email" }

  function Deliver(adapters: set<Channel>, channel: Channel, reply: Reply): Outcome {
    if channel !in adapters then
      Outcome(TerminalFailure, Some("missing_adapter"), Some("missing delivery adapter for " + ChannelName(channel)),
              None)
    else
      match reply
      case Returned(outcome) => outcome
      case Raised(name) =>
        Outcome(RetryableFailure, Some("adapter_exception"), Some("delivery adapter raised " + name), None)
  }

  /** What a worker has to record for a reply: an adapter's own outcome, a failure to retry, or one for good. */
  predicate Fits(adapters: set<Channel>, channel: Channel, reply: Reply, outcome: Outcome) {
    && (channel == Web && Web !in adapters ==>
          outcome == Outcome(TerminalFailure, Some("missing_adapter"), Some("missing delivery adapter for web"), None))
    && (channel == Email && Email !in adapters ==>
          outcome == Outcome(TerminalFailure, Some("missing_adapter"), Some("missing delivery adapter for email"),
                             None))
    && (channel in adapters && reply.Returned? ==> outcome == reply.outcome)
    && (channel in adapters && reply.Raised? ==>
          outcome.status == RetryableFailure && outcome.errorCode == Some("adapter_exception")
          && outcome.errorMessage == Some("delivery adapter raised " + reply.exception)
          && outcome.providerMessageId == None)
  }

  lemma DeliverFits(adapters: set<Channel>, channel: Channel, reply: Reply)
    ensures Fits(adapters, channel, reply, Deliver(adapters, channel, reply))
  {
    assert "missing delivery adapter for " + "web" == "missing delivery adapter for web";
    assert "missing delivery adapter for " + "email" == "missing delivery adapter for email";
  }

  predicate NoneFinalizes(steps: seq<Step>, tokens: set<Id>) {
    forall i :: 0 <= i < |steps| && steps[i].Finalize? ==> steps[i].token !in tokens
  }

  /** The claim's token finalized its row. */
  ghost predicate Spent(t: Table, claim: ClaimedDelivery) {
    claim.deliveryId in t.rows
    && exists i :: 0 <= i < |t.rows[claim.deliveryId].events| && t.rows[claim.deliveryId].events[i].Finalized?
                   && t.rows[claim.deliveryId].events[i].token == claim.claimToken
  }

  lemma SpentFrame(t: Table, step: Step, claim: ClaimedDelivery)
    requires step.Finalize? ==> step.token != claim.claimToken
    ensures Spent(Next(t, step), claim) <==> Spent(t, claim)
  {
    var t' := Next(t, step);
    var id := claim.deliveryId;
    if id in t.rows {
      var events, events' := t.rows[id].events, t'.rows[id].events;
      assert |events| <= |events'| && events'[..|events|] == events;
      assert forall i :: |events| <= i < |events'| ==> !events'[i].Finalized? || events'[i].token != claim.claimToken;
      forall i | 0 <= i < |events| ensures events'[i] == events[i] {
        assert events'[..|events|][i] == events[i];
      }
    }
  }

  lemma {:induction false} SpentFrames(t: Table, steps: seq<Step>, claim: ClaimedDelivery)
    requires NoneFinalizes(steps, {claim.claimToken})
    ensures Spent(Run(t, steps), claim) <==> Spent(t, claim)
  {
    if steps != [] {
      SpentFrames(t, steps[..|steps| - 1], claim);
      SpentFrame(Run(t, steps[..|steps| - 1]), steps[|steps| - 1], claim);
    }
  }

  lemma FinalizeSpends(t: Table, claim: ClaimedDelivery, outcome: Outcome, now: Time, retryDelay: int)
    requires !Spent(t, claim)
    ensures Spent(Next(t, Finalize(claim.deliveryId, claim.claimToken, outcome, now, retryDelay)), claim)
            <==> Holds(t, claim.deliveryId, claim.claimToken)
  {
    var t' := Next(t, Finalize(claim.deliveryId, claim.claimToken, outcome, now, retryDelay));
    if Holds(t, claim.deliveryId, claim.claimToken) {
      var events := t'.rows[claim.deliveryId].events;
      assert events[|events| - 1].Finalized? && events[|events| - 1].token == claim.claimToken;
    }
  }

  /** A token that is only now issued has not been spent. */
  lemma NewTokenUnspent(t: Table, claim: ClaimedDelivery)
    requires Inv(t) && claim.claimToken !in t.issued
    ensures !Spent(t, claim)
  {
    if Spent(t, claim) {
      var id := claim.deliveryId;
      var i :| 0 <= i < |t.rows[id].events| && t.rows[id].events[i].Finalized?
          && t.rows[id].events[i].token == claim.claimToken;
      assert RowOk(t.rows[id]);
      assert i > 0 && Follows(t.rows[id].events[i - 1], t.rows[id].events[i]);
      assert IsClaim(t, id, i - 1);
    }
  }

  function Tokens(claims: seq<ClaimedDelivery>): set<Id> {
    set i | 0 <= i < |claims| :: claims[i].claimToken
  }

  /** Whatever finalizes with these tokens does so at this instant and with this retry delay. */
  predicate FinalizesAt(steps: seq<Step>, tokens: set<Id>, now: Time, retryDelay: int) {
    forall i :: 0 <= i < |steps| && steps[i].Finalize? && steps[i].token in tokens ==>
      steps[i].now == now && steps[i].retryDelay == retryDelay
  }

  /** If the claim's token finalized its row, the row says that it was then. */
  predicate SpentOnlyAt(t: Table, claim: ClaimedDelivery, now: Time, retryDelay: int) {
    claim.deliveryId in t.rows ==>
      var events := t.rows[claim.deliveryId].events;
      forall i :: 0 <= i < |events| && events[i].Finalized? && events[i].token == claim.claimToken ==>
        events[i].at == now && events[i].retryDelay == retryDelay
  }

  lemma SpentAtStep(t: Table, step: Step, claim: ClaimedDelivery, now: Time, retryDelay: int)
    requires SpentOnlyAt(t, claim, now, retryDelay) && FinalizesAt([step], {claim.claimToken}, now, retryDelay)
    ensures SpentOnlyAt(Next(t, step), claim, now, retryDelay)
  {
    var t' := Next(t, step);
    var id := claim.deliveryId;
    assert [step][0] == step;
    if id in t.rows && id in t'.rows {
      var events, events' := t.rows[id].events, t'.rows[id].events;
      assert |events| <= |events'| && events'[..|events|] == events;
      forall i | 0 <= i < |events| ensures events'[i] == events[i] { assert events'[..|events|][i] == events[i]; }
    }
  }

  lemma {:induction false} SpentAtNow(t: Table, steps: seq<Step>, claim: ClaimedDelivery, now: Time, retryDelay: int)
    requires !Spent(t, claim) && FinalizesAt(steps, {claim.claimToken}, now, retryDelay)
    ensures SpentOnlyAt(Run(t, steps), claim, now, retryDelay)
  {
    if steps != [] {
      var n := |steps| - 1;
      SpentAtNow(t, steps[..n], claim, now, retryDelay);
      assert FinalizesAt([steps[n]], {claim.claimToken}, now, retryDelay);
      SpentAtStep(Run(t, steps[..n]), steps[n], claim, now, retryDelay);
    }
  }

  /** The claim holds its row no longer: it was finalized, or another worker has the row. */
  predicate Released(t: Table, claim: ClaimedDelivery) {
    claim.deliveryId in t.rows ==>
      var d := t.rows[claim.deliveryId].row; d.status != Processing || d.claimToken != Some(claim.claimToken)
  }

  lemma ReleasedStays(t: Table, steps: seq<Step>, claim: ClaimedDelivery)
    requires claim.claimToken in t.issued && Released(t, claim)
    ensures claim.claimToken in Run(t, steps).issued && Released(Run(t, steps), claim)
  {
    IssuedStay(t, steps);
    StaleTokenChangesNothing(t, steps, claim.deliveryId, claim.claimToken, Outcome(SentOk, None, None, None), 0, 0);
  }

  /** The first k claims of a batch hold their rows no longer, and every token of the batch has been issued. */
  predicate ReleasedTo(t: Table, batch: seq<ClaimedDelivery>, k: nat) {
    && (forall i :: 0 <= i < |batch| ==> batch[i].claimToken in t.issued)
    && (forall i :: 0 <= i < k && i < |batch| ==> Released(t, batch[i]))
  }

  lemma ReleasedGoesOn(t: Table, steps: seq<Step>, batch: seq<ClaimedDelivery>, k: nat)
    requires k < |batch| && ReleasedTo(t, batch, k) && Released(Run(t, steps), batch[k])
    ensures ReleasedTo(Run(t, steps), batch, k + 1)
  {
    IssuedStay(t, steps);
    forall i | 0 <= i < k ensures Released(Run(t, steps), batch[i]) { ReleasedStays(t, steps, batch[i]); }
  }

  lemma ClaimsIssued(t: Table, claims: seq<ClaimedDelivery>, claim: Step)
    requires claim.Claim?
    requires var batch := Batch(t.rows, claim.now, claim.limit, claim.channels, claim.locked);
             ClaimsOf(claims, batch, claim.tokens) && FreshTokens(t, batch, claim.tokens)
    ensures ReleasedTo(Next(t, claim), claims, 0)
  {
    var batch := Batch(t.rows, claim.now, claim.limit, claim.channels, claim.locked);
    forall i | 0 <= i < |claims| ensures claims[i].claimToken in Next(t, claim).issued {
      assert batch[i] in batch;
    }
  }

  /** Whatever finalizes with the claim's token records what its reply asks for. */
  predicate AnswersAs(t: Table, steps: seq<Step>, claim: ClaimedDelivery, adapters: set<Channel>, reply: Reply) {
    forall i :: 0 <= i < |steps| && steps[i].Finalize? && steps[i].token == claim.claimToken ==>
      && steps[i].id == claim.deliveryId && claim.deliveryId in t.rows
      && Fits(adapters, t.rows[claim.deliveryId].row.channel, reply, steps[i].outcome)
  }

  /** Rows stay, for the channel they are for and with the attempts they may have; attempts are only added. */
  predicate SameRows(t: Table, t': Table) {
    forall id :: id in t.rows ==>
      && id in t'.rows && t'.rows[id].row.channel == t.rows[id].row.channel
      && t'.rows[id].row.maxAttempts == t.rows[id].row.maxAttempts
      && t'.rows[id].row.attemptCount >= t.rows[id].row.attemptCount
  }

  lemma {:induction false} RowsStay(t: Table, steps: seq<Step>)
    ensures SameRows(t, Run(t, steps))
  {
    if steps != [] {
      RowsStay(t, steps[..|steps| - 1]);
      RowsStayStep(Run(t, steps[..|steps| - 1]), steps[|steps| - 1]);
    }
  }

  lemma RowsStayStep(t: Table, step: Step)
    ensures SameRows(t, Next(t, step))
  {
  }

  /**
   * How a finalization ended: delivered exactly if an adapter was installed and accepted the message; for good without
   * an adapter, or if the adapter says so; and after a failure to retry only for want of attempts.
   */
  predicate Ended(d: Delivery, status: Status, adapters: set<Channel>, reply: Reply) {
    && (status == Delivered <==> d.channel in adapters && reply.Returned? && reply.outcome.status == SentOk)
    && (d.channel !in adapters ==> status == FailedTerminal)
    && (d.channel in adapters && reply.Returned? && reply.outcome.status == TerminalFailure ==>
          status == FailedTerminal)
    && (d.channel in adapters && (reply.Raised? || reply.outcome.status == RetryableFailure) ==>
          status == FailedRetryable || (status == FailedTerminal && d.attemptCount >= d.maxAttempts))
  }

  predicate EndedRow(tr: Tracked, token: Id, adapters: set<Channel>, reply: Reply) {
    forall k :: 0 <= k < |tr.events| && tr.events[k].Finalized? && tr.events[k].token == token ==>
      Ended(tr.row, tr.events[k].status, adapters, reply)
  }

  /** Each finalization of the claim's row with its token ended as the reply asks for. */
  predicate EndedAs(t: Table, claim: ClaimedDelivery, adapters: set<Channel>, reply: Reply) {
    claim.deliveryId in t.rows ==> EndedRow(t.rows[claim.deliveryId], claim.claimToken, adapters, reply)
  }

  lemma EndedStays(tr: Tracked, tr': Tracked, token: Id, adapters: set<Channel>, reply: Reply)
    requires EndedRow(tr, token, adapters, reply)
    requires tr'.row.channel == tr.row.channel && tr'.row.maxAttempts == tr.row.maxAttempts
    requires tr'.row.attemptCount >= tr.row.attemptCount
    requires |tr.events| <= |tr'.events| <= |tr.events| + 1 && tr'.events[..|tr.events|] == tr.events
    requires |tr.events| < |tr'.events| ==> var e := tr'.events[|tr.events|];
             e.Finalized? && e.token == token ==> Ended(tr'.row, e.status, adapters, reply)
    ensures EndedRow(tr', token, adapters, reply)
  {
    forall k | 0 <= k < |tr.events|
      ensures tr'.events[k] == tr.events[k] { assert tr'.events[..|tr.events|][k] == tr.events[k]; }
  }

  /** A step adds at most one event to a row. */
  lemma EventsGrow(t: Table, step: Step, id: Id)
    requires id in t.rows
    ensures id in Next(t, step).rows
    ensures var events, events' := t.rows[id].events, Next(t, step).rows[id].events;
            && |events| <= |events'| <= |events| + 1 && events'[..|events|] == events
            && (|events| < |events'| && events'[|events|].Finalized? ==>
                  step.Finalize? && step.id == id && step.token == events'[|events|].token && Holds(t, id, step.token))
  {
  }

  lemma FinalizeEnds(t: Table, step: Step, claim: ClaimedDelivery, adapters: set<Channel>, reply: Reply)
    requires step.Finalize? && step.id == claim.deliveryId && step.token == claim.claimToken
    requires Holds(t, step.id, step.token) && AnswersAs(Next(t, step), [step], claim, adapters, reply)
    ensures var tr' := Next(t, step).rows[step.id];
            Ended(tr'.row, tr'.events[|t.rows[step.id].events|].status, adapters, reply)
  {
    assert [step][0] == step;
    FinalizeMeans(t, step.id, step.token, step.outcome, step.now, step.retryDelay);
  }

  lemma EndedStep(t: Table, step: Step, claim: ClaimedDelivery, adapters: set<Channel>, reply: Reply)
    requires EndedAs(t, claim, adapters, reply) && claim.deliveryId in t.rows
    requires AnswersAs(Next(t, step), [step], claim, adapters, reply)
    ensures EndedAs(Next(t, step), claim, adapters, reply)
  {
    var id := claim.deliveryId;
    RowsStayStep(t, step);
    EventsGrow(t, step, id);
    if step.Finalize? && step.id == id && step.token == claim.claimToken && Holds(t, id, step.token) {
      FinalizeEnds(t, step, claim, adapters, reply);
    }
    EndedStays(t.rows[id], Next(t, step).rows[id], claim.claimToken, adapters, reply);
  }

  lemma {:induction false} EndedRun(t: Table, steps: seq<Step>, claim: ClaimedDelivery, adapters: set<Channel>,
          reply: Reply)
    requires EndedAs(t, claim, adapters, reply) && claim.deliveryId in t.rows
    requires AnswersAs(Run(t, steps), steps, claim, adapters, reply)
    ensures EndedAs(Run(t, steps), claim, adapters, reply)
  {
    if steps != [] {
      var before, step := steps[..|steps| - 1], steps[|steps| - 1];
      RowsStay(t, before);
      RowsStayStep(Run(t, before), step);
      EndedRun(t, before, claim, adapters, reply);
      EndedStep(Run(t, before), step, claim, adapters, reply);
    }
  }

  lemma ChannelStays(t: Table, steps: seq<Step>, last: Step, id: Id)
    requires id in t.rows
    ensures var t' := Next(Run(t, steps), last); id in t'.rows && t'.rows[id].row.channel == t.rows[id].row.channel
  {
    RowsStay(t, steps);
    RowsStayStep(Run(t, steps), last);
  }

  /** One finalization after steps that finalize nothing with the worker's tokens. */
  lemma OneAnswer(t: Table, steps: seq<Step>, last: Step, claim: ClaimedDelivery, adapters: set<Channel>, reply: Reply,
          mine: set<Id>)
    requires NoneFinalizes(steps, mine) && claim.claimToken in mine && claim.deliveryId in t.rows
    requires last.Finalize? && last.id == claim.deliveryId && last.token == claim.claimToken
    requires Fits(adapters, t.rows[claim.deliveryId].row.channel, reply, last.outcome)
    ensures AnswersAs(t, steps + [last], claim, adapters, reply)
    ensures NoneFinalizes(steps + [last], mine - {claim.claimToken})
    ensures FinalizesAt(steps + [last], mine, last.now, last.retryDelay)
  {
  }

  /** Steps that finalize nothing with the token change nothing about how its finalizations answer. */
  lemma AnswersStay(t: Table, steps: seq<Step>, more: seq<Step>, claim: ClaimedDelivery, adapters: set<Channel>,
          reply: Reply)
    requires AnswersAs(t, steps, claim, adapters, reply) && NoneFinalizes(more, {claim.claimToken})
    ensures AnswersAs(Run(t, more), steps + more, claim, adapters, reply)
  {
    RowsStay(t, more);
  }

  lemma RunTwice(t: Table, a: seq<Step>, b: seq<Step>, tokens: set<Id>)
    requires NoneFinalizes(a, tokens) && NoneFinalizes(b, tokens)
    ensures Run(t, a + b) == Run(Run(t, a), b) && NoneFinalizes(a + b, tokens)
  {
    RunConcat(t, a, b);
  }

  class DeliveryWorker {
    const adapters: set<Channel>
    const channels: Option<set<Channel>>
    const workerId: string
    const leaseDuration: int
    const retryDelay: int

    constructor (adapters: set<Channel>, channels: Option<set<Channel>>, workerId: string, leaseDuration: int,
            retryDelay: int)
      ensures this.adapters == adapters && this.channels == channels && this.workerId == workerId
              && this.leaseDuration == leaseDuration && this.retryDelay == retryDelay
    {
      this.adapters, this.channels, this.workerId := adapters, channels, workerId;
      this.leaseDuration, this.retryDelay := leaseDuration, retryDelay;
    }

    /** Whoever still holds the token finalizes; for anyone else the table stays exactly as it is. */
    method FinalizeClaimedDelivery(store: DeliveryStore, claim: ClaimedDelivery, outcome: Outcome, now: Time)
      returns (done: bool)
      modifies store
      ensures done <==> Holds(old(store.View()), claim.deliveryId, claim.claimToken)
      ensures Released(store.View(), claim)
      ensures store.View()
              == Next(old(store.View()), Finalize(claim.deliveryId, claim.claimToken, outcome, now, retryDelay))
    {
      var row := store.GetClaimedDelivery(claim);
      if row == null {
        return false;
      }
      var id := claim.deliveryId;
      var attempt := row.RecordOutcome(outcome, now, retryDelay);
      store.rows := store.rows[id := Tracked(row.View(), store.rows[id].attempts + [attempt],
                               store.rows[id].events + [Finalized(claim.claimToken, now, row.status, retryDelay)])];
      return true;
    }

    /** Load, send and finalize one claim; other processes commit before and between. */
    method ProcessClaim(store: DeliveryStore, claim: ClaimedDelivery, now: Time, reply: Reply, ghost mine: set<Id>)
      returns (done: bool, ghost steps: seq<Step>)
      requires claim.claimToken in mine && !Spent(store.View(), claim)
      modifies store
      ensures store.View() == Run(old(store.View()), steps)
      ensures done <==> Spent(store.View(), claim)
      ensures Released(store.View(), claim)
      ensures NoneFinalizes(steps, mine - {claim.claimToken}) && FinalizesAt(steps, mine, now, retryDelay)
      ensures AnswersAs(store.View(), steps, claim, adapters, reply)
      ensures done ==> steps != [] && claim.deliveryId in store.rows && var last := steps[|steps| - 1];
                       last.Finalize? && last.id == claim.deliveryId && last.token == claim.claimToken
                       && last.now == now && last.retryDelay == retryDelay
                       && Fits(adapters, store.rows[claim.deliveryId].row.channel, reply, last.outcome)
    {
      ghost var t := store.View();
      steps := store.Others(mine);
      SpentFrames(t, steps, claim);
      var row := store.GetClaimedDelivery(claim);
      if row == null {
        return false, steps;
      }
      var outcome := Deliver(adapters, row.source.channel, reply);
      DeliverFits(adapters, row.source.channel, reply);
      ghost var t1 := store.View();
      ghost var meanwhile := store.Others(mine);
      SpentFrames(t1, meanwhile, claim);
      RunTwice(t, steps, meanwhile, mine);
      steps := steps + meanwhile;
      ghost var t2 := store.View();
      done := FinalizeClaimedDelivery(store, claim, outcome, now);
      FinalizeSpends(t2, claim, outcome, now, retryDelay);
      ghost var finalize := Finalize(claim.deliveryId, claim.claimToken, outcome, now, retryDelay);
      RunSnoc(t, steps, finalize);
      ChannelStays(t1, meanwhile, finalize, claim.deliveryId);
      OneAnswer(store.View(), steps, finalize, claim, adapters, reply, mine);
      steps := steps + [finalize];
    }

    method ProcessNext(store: DeliveryStore, batch: seq<ClaimedDelivery>, k: nat, now: Time, replies: nat -> Reply,
            ghost steps: seq<Step>)
      returns (done: bool, ghost more: seq<Step>)
      requires k < |batch| && !Spent(store.View(), batch[k])
      requires forall i, j :: 0 <= i < j < |batch| ==> batch[i].claimToken != batch[j].claimToken
      requires ReleasedTo(store.View(), batch, k)
      requires AnsweredTo(store.View(), steps, batch, k, adapters, replies)
      modifies store
      ensures store.View() == Run(old(store.View()), more)
      ensures done <==> Spent(store.View(), batch[k])
      ensures NoneFinalizes(more, Tokens(batch) - {batch[k].claimToken})
      ensures FinalizesAt(more, Tokens(batch), now, retryDelay)
      ensures ReleasedTo(store.View(), batch, k + 1)
      ensures AnsweredTo(store.View(), steps + more, batch, k + 1, adapters, replies)
    {
      ghost var before := store.View();
      done, more := ProcessClaim(store, batch[k], now, replies(k), Tokens(batch));
      ReleasedGoesOn(before, more, batch, k);
      AnswersGoOn(before, steps, more, batch, k, adapters, replies);
    }

    method ProcessBatch(store: DeliveryStore, batch: seq<ClaimedDelivery>, now: Time, replies: nat -> Reply)
      returns (processed: nat, ghost steps: seq<Step>)
      requires forall i :: 0 <= i < |batch| ==> !Spent(store.View(), batch[i])
      requires ReleasedTo(store.View(), batch, 0)
      requires forall i, j :: 0 <= i < j < |batch| ==> batch[i].claimToken != batch[j].claimToken
      modifies store
      ensures store.View() == Run(old(store.View()), steps)
      ensures processed == |SpentAmong(store.View(), batch)| && ReleasedTo(store.View(), batch, |batch|)
      ensures FinalizesAt(steps, Tokens(batch), now, retryDelay)
      ensures forall i :: 0 <= i < |batch| ==> AnswersAs(store.View(), steps, batch[i], adapters, replies(i))
    {
      ghost var start := store.View();
      ghost var mine := Tokens(batch);
      ghost var finished: set<nat> := {};
      processed, steps := 0, [];
      for k := 0 to |batch|
        invariant store.View() == Run(start, steps) && FinalizesAt(steps, mine, now, retryDelay)
        invariant ReleasedTo(store.View(), batch, k)
        invariant AnsweredTo(store.View(), steps, batch, k, adapters, replies)
        invariant processed == |finished| && forall i :: i in finished ==> i < k
        invariant forall i :: 0 <= i < |batch| ==> (i in finished <==> Spent(store.View(), batch[i]))
      {
        ghost var before := store.View();
        ghost var more;
        var done;
        done, more := ProcessNext(store, batch, k, now, replies, steps);
        OthersKeep(before, more, batch, k);
        RunConcat(start, steps, more);
        steps := steps + more;
        if done {
          processed := processed + 1;
          finished := finished + {k};
        }
      }
      assert finished == SpentAmong(store.View(), batch);
    }

    /**
     * One poll. The table ends where some run takes it that begins with this claim, and processed_count is the
     * number of batch claims whose token finalized its row, every time at the batch's own `now`; a claim that another
     * worker took over counts nowhere. How each of these ended is what the adapters replied: `EndedAs`.
     */
    method ProcessDueDeliveries(store: DeliveryStore, limit: int, now: Time, locked: set<Id>, replies: nat -> Reply)
      returns (result: WorkerResult, ghost claims: seq<ClaimedDelivery>, ghost claim: Step, ghost steps: seq<Step>)
      requires Inv(store.View())
      modifies store
      ensures claim.Claim? && claim.now == now && claim.limit == limit && claim.worker == workerId
              && claim.lease == leaseDuration && claim.channels == channels && claim.locked == locked
      ensures ClaimsOf(claims, Batch(old(store.rows), now, limit, channels, locked), claim.tokens)
      ensures store.View() == Run(Next(old(store.View()), claim), steps)
      ensures result.claimedCount == |claims|
      ensures result.processedCount == |SpentAmong(store.View(), claims)|
      ensures forall i :: 0 <= i < |claims| ==> SpentOnlyAt(store.View(), claims[i], now, retryDelay)
      ensures forall i :: 0 <= i < |claims| ==> EndedAs(store.View(), claims[i], adapters, replies(i))
      ensures forall i :: 0 <= i < |claims| ==> Released(store.View(), claims[i])
    {
      ghost var start := store.View();
      var leaseExpiresAt := now + leaseDuration;
      ghost var tokens;
      var batch;
      batch, tokens := store.ClaimDueDeliveries(now, limit, workerId, leaseExpiresAt, channels, locked);
      claims := batch;
      claim := Claim(now, limit, workerId, leaseExpiresAt - now, channels, locked, tokens);
      BatchUnspent(start, claims, claim);
      ClaimsIssued(start, claims, claim);
      var processed;
      ghost var claimed := store.View();
      processed, steps := ProcessBatch(store, batch, now, replies);
      forall i | 0 <= i < |claims| ensures SpentOnlyAt(store.View(), claims[i], now, retryDelay) {
        SpentAtNow(claimed, steps, claims[i], now, retryDelay);
      }
      forall i | 0 <= i < |claims| ensures EndedAs(store.View(), claims[i], adapters, replies(i)) {
        EndedRun(claimed, steps, claims[i], adapters, replies(i));
      }
      result := WorkerResult(|batch|, processed);
    }
  }

  /** The first k claims were answered by their replies, and nothing has been finalized for the others. */
  ghost predicate AnsweredTo(t: Table, steps: seq<Step>, batch: seq<ClaimedDelivery>, k: nat, adapters: set<Channel>,
          replies: nat -> Reply) {
    && (forall i :: 0 <= i < k && i < |batch| ==> AnswersAs(t, steps, batch[i], adapters, replies(i)))
    && (forall i :: k <= i < |batch| ==> NoneFinalizes(steps, {batch[i].claimToken}))
  }

  /** One more claim processed: the answers so far stand, and the claims to come are still open. */
  lemma AnswersGoOn(t: Table, steps: seq<Step>, more: seq<Step>, batch: seq<ClaimedDelivery>, k: nat,
          adapters: set<Channel>, replies: nat -> Reply)
    requires k < |batch| && (forall i, j :: 0 <= i < j < |batch| ==> batch[i].claimToken != batch[j].claimToken)
    requires AnsweredTo(t, steps, batch, k, adapters, replies)
    requires NoneFinalizes(more, Tokens(batch) - {batch[k].claimToken})
    requires AnswersAs(Run(t, more), more, batch[k], adapters, replies(k))
    ensures AnsweredTo(Run(t, more), steps + more, batch, k + 1, adapters, replies)
  {
    forall i | 0 <= i < |batch| && i != k ensures NoneFinalizes(more, {batch[i].claimToken}) {
      assert batch[i].claimToken in Tokens(batch) - {batch[k].claimToken};
    }
    forall i | 0 <= i < k ensures AnswersAs(Run(t, more), steps + more, batch[i], adapters, replies(i)) {
      AnswersStay(t, steps, more, batch[i], adapters, replies(i));
    }
  }

  /** The claims whose token finalized its row. */
  ghost function SpentAmong(t: Table, claims: seq<ClaimedDelivery>): set<nat> {
    set i: nat | 0 <= i < |claims| && Spent(t, claims[i])
  }

  /** The tokens of one batch are new, so none of them is spent yet, and no two claims share one. */
  lemma BatchUnspent(start: Table, claims: seq<ClaimedDelivery>, claim: Step)
    requires Inv(start) && claim.Claim?
    requires var batch := Batch(start.rows, claim.now, claim.limit, claim.channels, claim.locked);
             ClaimsOf(claims, batch, claim.tokens) && FreshTokens(start, batch, claim.tokens)
    ensures forall i :: 0 <= i < |claims| ==> !Spent(Next(start, claim), claims[i])
    ensures forall i :: 0 <= i < |claims| ==> claims[i].deliveryId in Next(start, claim).rows
    ensures forall i, j :: 0 <= i < j < |claims| ==> claims[i].claimToken != claims[j].claimToken
  {
    forall i | 0 <= i < |claims| ensures !Spent(Next(start, claim), claims[i]) {
      NewTokenUnspent(start, claims[i]);
      SpentFrame(start, claim, claims[i]);
    }
  }

  /** Processing claim k leaves the other claims of the batch as spent, or as open, as they were. */
  lemma OthersKeep(t: Table, steps: seq<Step>, claims: seq<ClaimedDelivery>, k: nat)
    requires k < |claims|
             && NoneFinalizes(steps, Tokens(claims) - {claims[k].claimToken})
    requires forall i, j :: 0 <= i < j < |claims| ==> claims[i].claimToken != claims[j].claimToken
    ensures forall i :: 0 <= i < |claims| && i != k ==> (Spent(Run(t, steps), claims[i]) <==> Spent(t, claims[i]))
  {
    forall i | 0 <= i < |claims| && i != k ensures Spent(Run(t, steps), claims[i]) <==> Spent(t, claims[i]) {
      SpentFrames(t, steps, claims[i]);
    }
  }
}
