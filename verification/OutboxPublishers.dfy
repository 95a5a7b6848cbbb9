/** The outbox publisher: claim a batch, then send and finalize each event in turn. */
module OutboxPublishers {
  import opened Common
  import opened Ordering
  import opened Envelopes
  import opened Outbox

  datatype Claimed = Claimed(eventId: Id, claimToken: Id)

  datatype PublisherResult = PublisherResult(claimedCount: nat, publishedCount: nat, failedRetryableCount: nat,
          failedTerminalCount: nat)

  predicate ClaimsOf(claims: seq<Claimed>, batch: seq<Id>, tokens: map<Id, Id>) {
    && |claims| == |batch|
    && forall i :: 0 <= i < |batch| ==> batch[i] in tokens && claims[i] == Claimed(batch[i], tokens[batch[i]])
  }

  lemma ClaimsOfSnoc(claims: seq<Claimed>, batch: seq<Id>, i: nat, tokens: map<Id, Id>, token: Id)
    requires i < |batch| && ClaimsOf(claims, batch[..i], tokens) && batch[i] !in batch[..i]
    ensures ClaimsOf(claims + [Claimed(batch[i], token)], batch[..i + 1], tokens[batch[i] := token])
  {
    assert batch[..i + 1] == batch[..i] + [batch[i]];
    forall k | 0 <= k < i ensures batch[k] != batch[i] { assert batch[..i][k] == batch[k]; }
  }

  /** An outbox row loaded into a session. */
  class OutboxRow {
    const event: Event
    var status: Status
    var attempts: nat
    var nextAttemptAt: Time
    var leaseExpiresAt: Option<Time>
    var claimedBy: Option<string>
    var claimToken: Option<Id>
    var publishedAt: Option<Time>
    var lastError: Option<string>
    var updatedAt: Time

    function View(): Row
      reads this
    {
      Row(event, status, attempts, nextAttemptAt, leaseExpiresAt, claimedBy, claimToken, publishedAt, lastError,
          updatedAt)
    }

    constructor (r: Row)
      ensures View() == r
    {
      event, status, attempts, nextAttemptAt := r.event, r.status, r.attempts, r.nextAttemptAt;
      leaseExpiresAt, claimedBy, claimToken := r.leaseExpiresAt, r.claimedBy, r.claimToken;
      publishedAt, lastError, updatedAt := r.publishedAt, r.lastError, r.updatedAt;
    }

    method MarkPublishing(now: Time, leaseExpires: Time, workerId: string, token: Id)
      modifies this
      ensures View() == ClaimRow(old(View()), now, leaseExpires, workerId, token)
      ensures status == Publishing && claimedBy == Some(workerId) && claimToken == Some(token)
      ensures leaseExpiresAt == Some(leaseExpires) && updatedAt == now
    {
      status := Publishing;
      claimedBy := Some(workerId);
      claimToken := Some(token);
      leaseExpiresAt := Some(leaseExpires);
      updatedAt := now;
    }

    method MarkAsPublished(at: Time)
      modifies this
      ensures View() == MarkPublished(old(View()), at)
      ensures status == Published && publishedAt == Some(at) && nextAttemptAt == at && updatedAt == at
      ensures attempts == old(attempts) && lastError == None
      ensures leaseExpiresAt == None && claimedBy == None && claimToken == None
    {
      status := Published;
      publishedAt := Some(at);
      nextAttemptAt := at;
      claimedBy := None;
      claimToken := None;
      leaseExpiresAt := None;
      lastError := None;
      updatedAt := at;
    }

    method MarkAsFailed(failedAt: Time, retryAt: Time, error: string, maxAttempts: int) returns (result: Status)
      modifies this
      ensures View() == MarkPublishFailed(old(View()), failedAt, retryAt, error, maxAttempts) && result == status
      ensures result == if old(attempts) + 1 < maxAttempts then FailedRetryable else FailedTerminal
      ensures attempts == old(attempts) + 1 && lastError == Some(error) && updatedAt == failedAt
      ensures nextAttemptAt == if old(attempts) + 1 < maxAttempts then retryAt else failedAt
      ensures publishedAt == old(publishedAt) && leaseExpiresAt == None && claimedBy == None && claimToken == None
    {
      attempts := attempts + 1;
      lastError := Some(error);
      claimedBy := None;
      claimToken := None;
      leaseExpiresAt := None;
      updatedAt := failedAt;
      if attempts >= maxAttempts {
        status := FailedTerminal;
        nextAttemptAt := failedAt;
        return FailedTerminal;
      }
      status := FailedRetryable;
      nextAttemptAt := retryAt;
      return FailedRetryable;
    }
  }

  /** No other publisher knows these tokens. */
  predicate NoneUses(steps: seq<Step>, mine: set<Id>) {
    forall i :: 0 <= i < |steps| ==>
      && (steps[i].Send? ==> steps[i].token !in mine)
      && (steps[i].Finish? ==> steps[i].token !in mine)
  }

  /** The table outbox_events, the topic, and what publishers remember. */
  class OutboxStore {
    var rows: map<Id, Row>
    var log: seq<Entry>
    var claims: map<Id, ClaimedEvent>
    var sends: map<Id, bool>
    var finals: seq<Final>

    function View(): State
      reads this
    {
      State(rows, log, claims, sends, finals)
    }

    constructor (s: State)
      ensures View() == s
    {
      rows, log, claims, sends, finals := s.rows, s.log, s.claims, s.sends, s.finals;
    }

    /** Whatever other processes do meanwhile. Callers know only the contract. */
    method Others(ghost mine: set<Id>) returns (ghost steps: seq<Step>)
      modifies this
      ensures View() == Run(old(View()), steps) && NoneUses(steps, mine)
    {
      steps := [];
    }

    method SelectDue(now: Time, limit: int, locked: set<Id>) returns (batch: seq<Id>)
      ensures batch == Batch(rows, now, limit, locked)
    {
      var keys := DueKeys(rows, now, locked);
      SortIs(keys, Enumerate(keys));
      batch := Ids(Limit(Enumerate(keys), limit));
    }

    method ClaimOne(id: Id, now: Time, leaseExpiresAt: Time, workerId: string) returns (token: Id)
      requires id in rows
      modifies this
      ensures token !in old(claims)
      ensures View()
              == old(View()).(rows := old(rows)[id := ClaimRow(old(rows)[id], now, leaseExpiresAt, workerId, token)],
                                     claims := old(claims)[token := ClaimedEvent(id, old(rows)[id].event)])
    {
      FreshId(claims.Keys);
      token :| token !in claims;
      var row := new OutboxRow(rows[id]);
      row.MarkPublishing(now, leaseExpiresAt, workerId, token);
      claims := claims[token := ClaimedEvent(id, rows[id].event)];
      rows := rows[id := row.View()];
    }

    method ClaimBatch(batch: seq<Id>, now: Time, leaseExpiresAt: Time, workerId: string)
      returns (claimed: seq<Claimed>, ghost tokens: map<Id, Id>)
      requires forall id :: id in batch ==> id in rows
      requires forall a, b :: 0 <= a < b < |batch| ==> batch[a] != batch[b]
      modifies this
      ensures ClaimsOf(claimed, batch, tokens) && FreshTokens(old(View()), batch, tokens)
      ensures View() == ClaimAll(old(View()), batch, now, leaseExpiresAt, workerId, tokens)
    {
      claimed, tokens := [], map[];
      ghost var s := View();
      ClaimNone(s, now, leaseExpiresAt, workerId);
      for i := 0 to |batch|
        invariant ClaimsOf(claimed, batch[..i], tokens)
        invariant FreshTokens(s, batch[..i], tokens)
        invariant View() == ClaimAll(s, batch[..i], now, leaseExpiresAt, workerId, tokens)
      {
        var id := batch[i];
        var token := ClaimOne(id, now, leaseExpiresAt, workerId);
        ClaimOneMore(s, batch, i, now, leaseExpiresAt, workerId, tokens, token);
        FreshOneMore(s, batch, i, tokens, token);
        ClaimsOfSnoc(claimed, batch, i, tokens, token);
        claimed, tokens := claimed + [Claimed(id, token)], tokens[id := token];
      }
      assert batch[..|batch|] == batch;
    }

    method ClaimDueEvents(now: Time, limit: int, workerId: string, leaseExpiresAt: Time, locked: set<Id>)
      returns (claimed: seq<Claimed>, ghost tokens: map<Id, Id>)
      modifies this
      ensures var batch := Batch(old(rows), now, limit, locked);
              ClaimsOf(claimed, batch, tokens) && FreshTokens(old(View()), batch, tokens)
      ensures View() == Next(old(View()), Claim(now, limit, workerId, leaseExpiresAt, locked, tokens))
    {
      var batch := SelectDue(now, limit, locked);
      claimed, tokens := ClaimBatch(batch, now, leaseExpiresAt, workerId);
    }

    method GetClaimedEvent(claim: Claimed) returns (row: OutboxRow?)
      ensures row != null <==>
              && claim.eventId in rows && rows[claim.eventId].status == Publishing
              && rows[claim.eventId].claimToken == Some(claim.claimToken)
      ensures row != null ==> fresh(row) && row.View() == rows[claim.eventId]
    {
      row := null;
      if claim.eventId in rows && rows[claim.eventId].status == Publishing
          && rows[claim.eventId].claimToken == Some(claim.claimToken) {
        row := new OutboxRow(rows[claim.eventId]);
      }
    }

    /** The broker: what the call does to the topic, and whether it raises. */
    method SendAndWait(token: Id, answer: Answer) returns (acknowledged: bool)
      requires token in claims && token !in sends
      modifies this`log, this`sends
      ensures View() == SendClaimed(old(View()), token, answer) && acknowledged == answer.Acknowledged?
    {
      if !answer.Lost? {
        log := log + [Sent(claims[token].eventId, claims[token].event)];
      }
      acknowledged := answer.Acknowledged?;
      sends := sends[token := acknowledged];
    }
  }

  lemma ClaimNone(s: State, now: Time, leaseExpiresAt: Time, worker: string)
    ensures ClaimAll(s, [], now, leaseExpiresAt, worker, map[]) == s
  {
    assert ClaimAll(s, [], now, leaseExpiresAt, worker, map[]).claims == s.claims;
  }

  lemma MergeUpdate<K, V>(a: map<K, V>, b: map<K, V>, k: K, v: V)
    ensures a + b[k := v] == (a + b)[k := v]
  {
  }

  lemma FreshOneMore(s: State, batch: seq<Id>, i: nat, tokens: map<Id, Id>, token: Id)
    requires i < |batch| && (forall a, b :: 0 <= a < b < |batch| ==> batch[a] != batch[b])
    requires (forall id :: id in batch ==> id in s.rows) && FreshTokens(s, batch[..i], tokens)
    requires token !in s.claims + NewClaims(s.rows, batch[..i], tokens)
    ensures batch[..i + 1] == batch[..i] + [batch[i]] && batch[i] !in batch[..i]
    ensures forall x :: x in batch[..i] ==> tokens[x] != token
    ensures FreshTokens(s, batch[..i + 1], tokens[batch[i] := token])
  {
    assert batch[..i + 1] == batch[..i] + [batch[i]];
    NewClaimsMean(s.rows, batch[..i], tokens);
    FreshSnoc(s, batch[..i], batch[i], tokens, token);
  }

  lemma FreshSnoc(s: State, batch: seq<Id>, id: Id, tokens: map<Id, Id>, token: Id)
    requires FreshTokens(s, batch, tokens) && id !in batch && token !in s.claims && forall x :: x in batch ==>
               tokens[x] != token
    ensures FreshTokens(s, batch + [id], tokens[id := token])
  {
    assert forall x :: x in batch + [id] <==> x in batch || x == id;
  }

  lemma ClaimOneMore(s: State, batch: seq<Id>, i: nat, now: Time, leaseExpiresAt: Time, worker: string,
          tokens: map<Id, Id>, token: Id)
    requires i < |batch| && (forall a, b :: 0 <= a < b < |batch| ==> batch[a] != batch[b])
    requires (forall id :: id in batch ==> id in s.rows) && FreshTokens(s, batch[..i], tokens)
    requires token !in ClaimAll(s, batch[..i], now, leaseExpiresAt, worker, tokens).claims
    ensures var id := batch[i];
            var before := ClaimAll(s, batch[..i], now, leaseExpiresAt, worker, tokens);
            && FreshTokens(s, batch[..i + 1], tokens[id := token])
            && ClaimAll(s, batch[..i + 1], now, leaseExpiresAt, worker, tokens[id := token])
               == before.(rows := before.rows[id := ClaimRow(before.rows[id], now, leaseExpiresAt, worker, token)],
                          claims := before.claims[token := ClaimedEvent(id, before.rows[id].event)])
  {
    var id := batch[i];
    FreshOneMore(s, batch, i, tokens, token);
    ClaimsGrow(s.rows, batch[..i], tokens, id, token);
    RowsGrow(s.rows, batch[..i], now, leaseExpiresAt, worker, tokens, id, token);
    MergeUpdate(s.claims, NewClaims(s.rows, batch[..i], tokens), token, ClaimedEvent(id, s.rows[id].event));
  }

  lemma RowsGrow(rows: map<Id, Row>, batch: seq<Id>, now: Time, leaseExpiresAt: Time, worker: string,
          tokens: map<Id, Id>, id: Id, token: Id)
    requires id in rows && id !in batch && forall x :: x in batch ==> x in tokens
    ensures forall x :: x in batch + [id] ==> x in tokens[id := token]
    ensures ClaimedRows(rows, batch, now, leaseExpiresAt, worker, tokens)[id] == rows[id]
    ensures ClaimedRows(rows, batch + [id], now, leaseExpiresAt, worker, tokens[id := token])
            == ClaimedRows(rows, batch, now, leaseExpiresAt, worker,
                           tokens)[id := ClaimRow(rows[id], now, leaseExpiresAt, worker, token)]
  {
  }

  lemma ClaimsGrow(rows: map<Id, Row>, batch: seq<Id>, tokens: map<Id, Id>, id: Id, token: Id)
    requires id in rows && id !in batch && forall x :: x in batch ==> x in rows && x in tokens
    ensures forall x :: x in batch + [id] ==> x in rows && x in tokens[id := token]
    ensures NewClaims(rows, batch + [id], tokens[id := token])
            == NewClaims(rows, batch, tokens)[token := ClaimedEvent(id, rows[id].event)]
  {
    assert forall x :: x in batch + [id] <==> x in batch || x == id;
    assert (batch + [id])[..|batch|] == batch;
    OtherTokens(rows, batch, tokens, id, token);
  }

  lemma {:induction false} OtherTokens(rows: map<Id, Row>, batch: seq<Id>, tokens: map<Id, Id>, id: Id, token: Id)
    requires id !in batch && forall x :: x in batch ==> x in rows && x in tokens
    ensures NewClaims(rows, batch, tokens[id := token]) == NewClaims(rows, batch, tokens)
  {
    if batch != [] { OtherTokens(rows, batch[..|batch| - 1], tokens, id, token); }
  }

  // ----- the publisher ---------------------------------------------------------------------------

  /** The token's finalization ended the row's turn with this status. */
  ghost predicate Ended(s: State, token: Id, status: Status) {
    exists i :: 0 <= i < |s.finals| && s.finals[i].token == token && s.finals[i].status == status
  }

  /** What a publisher reports for a claim is how its token ended, and None if the row was taken over. */
  ghost predicate ResultOk(s: State, token: Id, result: Option<Status>) {
    match result
    case Some(status) => Ended(s, token, status) && status in {Published, FailedRetryable, FailedTerminal}
    case None => forall status :: !Ended(s, token, status)
  }

  /** Unless the claim was lost, it ended published exactly if the broker acknowledged the send. */
  predicate AnsweredAs(result: Option<Status>, answer: Answer) {
    result.Some? ==> (result.value == Published <==> answer.Acknowledged?)
  }

  /** The token has been claimed and its event not been sent yet. */
  predicate Unsent(s: State, claim: Claimed) {
    claim.claimToken in s.claims && s.claims[claim.claimToken].eventId == claim.eventId && claim.claimToken !in s.sends
    && claim.eventId in s.rows
  }

  /** The claim's event has been sent with this answer, and is in the log unless the broker never got it. */
  predicate SentAs(s: State, claim: Claimed, answer: Answer) {
    && claim.claimToken in s.claims && s.claims[claim.claimToken].eventId == claim.eventId
    && claim.claimToken in s.sends && s.sends[claim.claimToken] == (answer == Acknowledged)
    && (answer != Lost ==> Sent(claim.eventId, s.claims[claim.claimToken].event) in s.log)
    && claim.eventId in s.rows
  }

  /** The claim holds its row no longer: it was finalized, or another publisher has the row. */
  predicate Released(s: State, claim: Claimed) {
    claim.eventId in s.rows
    && (s.rows[claim.eventId].status != Publishing || s.rows[claim.eventId].claimToken != Some(claim.claimToken))
  }

  predicate SeenThrough(s: State, claim: Claimed, answer: Answer) {
    SentAs(s, claim, answer) && Released(s, claim)
  }

  /** A failure is recorded with the first 1000 characters of what the call raised. */
  predicate ReportsAs(steps: seq<Step>, claim: Claimed, answer: Answer, exception: string) {
    forall k :: 0 <= k < |steps| && steps[k].Finish? && steps[k].token == claim.claimToken && answer != Acknowledged ==>
      steps[k].error == if |exception| <= 1000 then exception else exception[..1000]
  }

  lemma ReportsNow(steps: seq<Step>, meanwhile: seq<Step>, finish: Step, claim: Claimed, answer: Answer,
          exception: string, mine: set<Id>)
    requires claim.claimToken in mine && FinishesNone(steps, mine) && NoneUses(meanwhile, mine) && finish.Finish?
    requires answer != Acknowledged ==>
               finish.error == if |exception| <= 1000 then exception else exception[..1000]
    ensures ReportsAs(steps + meanwhile + [finish], claim, answer, exception)
  {
  }

  lemma SentStep(s: State, step: Step, claim: Claimed, answer: Answer)
    requires SentAs(s, claim, answer)
    ensures SentAs(Next(s, step), claim, answer)
  {
    OldClaimsStay(s, step);
    StepExtends(s, step);
    ClaimStaysStep(s, step, claim.claimToken);
    assert s.log <= Next(s, step).log;
  }

  lemma {:induction false} SentStays(s: State, steps: seq<Step>, claim: Claimed, answer: Answer)
    requires SentAs(s, claim, answer)
    ensures SentAs(Run(s, steps), claim, answer)
  {
    if steps != [] {
      SentStays(s, steps[..|steps| - 1], claim, answer);
      SentStep(Run(s, steps[..|steps| - 1]), steps[|steps| - 1], claim, answer);
    }
  }

  lemma ReleasedStep(s: State, step: Step, claim: Claimed)
    requires claim.claimToken in s.claims && Released(s, claim)
    ensures Released(Next(s, step), claim)
  {
  }

  lemma {:induction false} SeenThroughStays(s: State, steps: seq<Step>, claim: Claimed, answer: Answer)
    requires SeenThrough(s, claim, answer)
    ensures SeenThrough(Run(s, steps), claim, answer)
  {
    if steps != [] {
      SeenThroughStays(s, steps[..|steps| - 1], claim, answer);
      SentStep(Run(s, steps[..|steps| - 1]), steps[|steps| - 1], claim, answer);
      ReleasedStep(Run(s, steps[..|steps| - 1]), steps[|steps| - 1], claim);
    }
  }

  predicate Uses(step: Step, token: Id) {
    (step.Send? && step.token == token) || (step.Finish? && step.token == token)
  }

  /** The tokens of these claims. */
  function Tokens(claims: seq<Claimed>): set<Id> {
    set i | 0 <= i < |claims| :: claims[i].claimToken
  }

  /** Whatever is finalized with these tokens is so at this instant, with this delay and this maximum. */
  predicate FinishesAt(steps: seq<Step>, tokens: set<Id>, now: Time, retryDelay: int, maxAttempts: int) {
    forall i :: 0 <= i < |steps| && steps[i].Finish? && steps[i].token in tokens ==>
      steps[i].now == now && steps[i].retryDelay == retryDelay && steps[i].maxAttempts == maxAttempts
  }

  predicate FinishesNone(steps: seq<Step>, tokens: set<Id>) {
    forall i :: 0 <= i < |steps| && steps[i].Finish? ==> steps[i].token !in tokens
  }

  /** No step changes what a token was issued for. */
  lemma OldClaimsStay(s: State, step: Step)
    ensures forall token ::
              token in s.claims ==> token in Next(s, step).claims && Next(s, step).claims[token] == s.claims[token]
  {
    match step
    case Claim(now, limit, worker, leaseExpiresAt, locked, tokens) =>
      var batch := Batch(s.rows, now, limit, locked);
      if FreshTokens(s, batch, tokens) { ClaimIssues(s, batch, now, leaseExpiresAt, worker, tokens); }
    case _ =>
  }

  lemma OtherStep(s: State, step: Step, claim: Claimed)
    requires !Uses(step, claim.claimToken)
    ensures forall status :: Ended(Next(s, step), claim.claimToken, status) <==> Ended(s, claim.claimToken, status)
    ensures Unsent(s, claim) ==> Unsent(Next(s, step), claim)
  {
    var s' := Next(s, step);
    OldClaimsStay(s, step);
    assert s'.finals == s.finals || exists f: Final :: s'.finals == s.finals + [f] && f.token != claim.claimToken;
    forall status | Ended(s, claim.claimToken, status) ensures Ended(s', claim.claimToken, status) {
      var i :| 0 <= i < |s.finals| && s.finals[i].token == claim.claimToken && s.finals[i].status == status;
      assert s'.finals[i] == s.finals[i];
    }
  }

  lemma SentNow(s: State, claim: Claimed, answer: Answer)
    requires Unsent(s, claim) && ResultOk(s, claim.claimToken, None)
    ensures var s' := SendClaimed(s, claim.claimToken, answer);
            ResultOk(s', claim.claimToken, None) && SentAs(s', claim, answer)
  {
    if answer != Lost { assert SendClaimed(s, claim.claimToken, answer).log[|s.log|].Sent?; }
    SameFinals(s, SendClaimed(s, claim.claimToken, answer), claim.claimToken);
  }

  lemma SameFinals(s: State, s': State, token: Id)
    requires s.finals == s'.finals
    ensures forall status :: Ended(s, token, status) <==> Ended(s', token, status)
  {
  }

  lemma {:induction false} OtherSteps(s: State, steps: seq<Step>, claim: Claimed)
    requires NoneUses(steps, {claim.claimToken})
    ensures forall status :: Ended(Run(s, steps), claim.claimToken, status) <==> Ended(s, claim.claimToken, status)
    ensures Unsent(s, claim) ==> Unsent(Run(s, steps), claim)
  {
    if steps != [] {
      OtherSteps(s, steps[..|steps| - 1], claim);
      OtherStep(Run(s, steps[..|steps| - 1]), steps[|steps| - 1], claim);
    }
  }

  lemma {:induction false} RunConcat(s: State, a: seq<Step>, b: seq<Step>)
    ensures Run(s, a + b) == Run(Run(s, a), b)
  {
    if b == [] {
      assert a + b == a;
    } else {
      RunConcat(s, a, b[..|b| - 1]);
      assert (a + b)[..|a + b| - 1] == a + b[..|b| - 1];
    }
  }

  /** `str(exc)[:1_000]` */
  function Truncate(error: string): string {
    if |error| <= 1000 then error else error[..1000]
  }

  function Tally(results: seq<Option<Status>>, result: Option<Status>): nat {
    if results == [] then 0
    else Tally(results[..|results| - 1], result) + if results[|results| - 1] == result then 1 else 0
  }

  /** The claims with this result, by position. */
  function EndedWith(results: seq<Option<Status>>, result: Option<Status>): set<nat> {
    set i: nat | i < |results| && results[i] == result
  }

  lemma {:induction false} TallyCounts(results: seq<Option<Status>>, result: Option<Status>)
    ensures Tally(results, result) == |EndedWith(results, result)|
  {
    if results != [] {
      var n := |results| - 1;
      TallyCounts(results[..n], result);
      assert EndedWith(results, result) == EndedWith(results[..n], result) + if results[n] == result then {n} else {};
    }
  }

  /** Every claim ends in exactly one way: claimed = published + retryable + terminal + lost to a newer token. */
  lemma {:induction false} TallyAll(results: seq<Option<Status>>)
    requires forall i ::
               0 <= i < |results| && results[i].Some? ==>
                   results[i].value in {Published, FailedRetryable, FailedTerminal}
    ensures |results| == Tally(results, Some(Published)) + Tally(results, Some(FailedRetryable))
                         + Tally(results, Some(FailedTerminal)) + Tally(results, None)
  {
    if results != [] { TallyAll(results[..|results| - 1]); }
  }

  class OutboxPublisher {
    const workerId: string
    const leaseDuration: int
    const retryDelay: int
    const maxAttempts: int

    constructor (workerId: string, leaseDuration: int, retryDelay: int, maxAttempts: int)
      ensures this.workerId == workerId && this.leaseDuration == leaseDuration
              && this.retryDelay == retryDelay && this.maxAttempts == maxAttempts
    {
      this.workerId, this.leaseDuration, this.retryDelay, this.maxAttempts :=
          workerId, leaseDuration, retryDelay, maxAttempts;
    }

    method FinalizeEvent(store: OutboxStore, claim: Claimed, now: Time, error: Option<string>)
      returns (result: Option<Status>)
      requires claim.claimToken in store.claims && store.claims[claim.claimToken].eventId == claim.eventId
      requires claim.claimToken in store.sends && store.sends[claim.claimToken] == error.None?
      modifies store
      ensures store.View() == FinishClaimed(old(store.View()), claim.claimToken, now, retryDelay,
                                            if error.Some? then error.value else "", maxAttempts)
      ensures result.Some? <==> Holds(old(store.View()), claim.claimToken)
      ensures claim.eventId in old(store.rows) ==> Released(store.View(), claim)
      ensures result.Some? ==>
                store.finals == old(store.finals) + [Final(claim.eventId, claim.claimToken, result.value)]
                               && result.value in {Published, FailedRetryable, FailedTerminal}
                               && (result.value == Published <==> error.None?)
    {
      var row := store.GetClaimedEvent(claim);
      if row == null {
        return None;
      }
      var status;
      if error.None? {
        row.MarkAsPublished(now);
        status := Published;
      } else {
        status := row.MarkAsFailed(now, now + retryDelay, error.value, maxAttempts);
      }
      store.rows := store.rows[claim.eventId := row.View()];
      store.finals := store.finals + [Final(claim.eventId, claim.claimToken, status)];
      return Some(status);
    }

    /** The publish call, after whatever other processes did since the claim. */
    method SendEvent(store: OutboxStore, claim: Claimed, answer: Answer, ghost mine: set<Id>)
      returns (acknowledged: bool, ghost steps: seq<Step>)
      requires claim.claimToken in mine && Unsent(store.View(), claim) && ResultOk(store.View(), claim.claimToken, None)
      modifies store
      ensures store.View() == Run(old(store.View()), steps) && NoneUses(steps, mine - {claim.claimToken})
      ensures FinishesNone(steps, mine) && acknowledged == answer.Acknowledged?
      ensures ResultOk(store.View(), claim.claimToken, None) && SentAs(store.View(), claim, answer)
    {
      ghost var s := store.View();
      steps := store.Others(mine);
      OtherSteps(s, steps, claim);
      ghost var s0 := store.View();
      acknowledged := store.SendAndWait(claim.claimToken, answer);
      SentNow(s0, claim, answer);
      OutboxRunSnoc(s, steps, Send(claim.claimToken, answer));
      steps := steps + [Send(claim.claimToken, answer)];
    }

    /** Whatever other processes do between the send and the finalize. */
    method Meanwhile(store: OutboxStore, claim: Claimed, answer: Answer, ghost mine: set<Id>)
      returns (ghost steps: seq<Step>)
      requires claim.claimToken in mine && ResultOk(store.View(), claim.claimToken, None)
               && SentAs(store.View(), claim, answer)
      modifies store
      ensures store.View() == Run(old(store.View()), steps) && NoneUses(steps, mine)
      ensures ResultOk(store.View(), claim.claimToken, None) && SentAs(store.View(), claim, answer)
    {
      ghost var s := store.View();
      steps := store.Others(mine);
      OtherSteps(s, steps, claim);
      SentStays(s, steps, claim, answer);
    }

    /** The finalize after a send: success is recorded as such, a failure with what the call raised. */
    method Conclude(store: OutboxStore, claim: Claimed, now: Time, answer: Answer, exception: string)
      returns (result: Option<Status>, ghost finish: Step)
      requires ResultOk(store.View(), claim.claimToken, None) && SentAs(store.View(), claim, answer)
      modifies store
      ensures finish.Finish? && finish.token == claim.claimToken && finish.now == now
              && finish.retryDelay == retryDelay && finish.maxAttempts == maxAttempts
      ensures answer != Acknowledged ==>
                finish.error == if |exception| <= 1000 then exception else exception[..1000]
      ensures store.View() == Next(old(store.View()), finish)
      ensures ResultOk(store.View(), claim.claimToken, result) && AnsweredAs(result, answer)
      ensures SeenThrough(store.View(), claim, answer)
    {
      var error := if answer == Acknowledged then None else Some(Truncate(exception));
      ghost var sent := store.View();
      finish := Finish(claim.claimToken, now, retryDelay, if error.Some? then error.value else "", maxAttempts);
      SentStep(sent, finish, claim, answer);
      result := FinalizeEvent(store, claim, now, error);
      FinishEnds(sent, claim, result, store.View());
    }

    /** Send the envelope, then finalize whichever way the send went. */
    method PublishEvent(store: OutboxStore, claim: Claimed, now: Time, answer: Answer, exception: string,
            ghost mine: set<Id>)
      returns (result: Option<Status>, ghost steps: seq<Step>)
      requires claim.claimToken in mine && Unsent(store.View(), claim) && ResultOk(store.View(), claim.claimToken, None)
      modifies store
      ensures store.View() == Run(old(store.View()), steps) && NoneUses(steps, mine - {claim.claimToken})
      ensures ResultOk(store.View(), claim.claimToken, result) && AnsweredAs(result, answer)
      ensures SeenThrough(store.View(), claim, answer) && ReportsAs(steps, claim, answer, exception)
      ensures FinishesAt(steps, mine, now, retryDelay, maxAttempts)
    {
      ghost var s := store.View();
      var acknowledged;
      acknowledged, steps := SendEvent(store, claim, answer, mine);
      ghost var sending := steps;
      ghost var meanwhile := Meanwhile(store, claim, answer, mine);
      RunConcat(s, steps, meanwhile);
      steps := steps + meanwhile;
      ghost var finish;
      result, finish := Conclude(store, claim, now, answer, exception);
      OutboxRunSnoc(s, steps, finish);
      ReportsNow(sending, meanwhile, finish, claim, answer, exception, mine);
      steps := steps + [finish];
    }

    method PublishNext(store: OutboxStore, batch: seq<Claimed>, now: Time, answers: nat -> (Answer, string), k: nat,
            ghost start: State, ghost results: seq<Option<Status>>, ghost steps: seq<Step>)
      returns (result: Option<Status>, ghost steps': seq<Step>)
      requires k == |results| < |batch| && WorkedTo(store.View(), steps, batch, answers, results)
      requires forall i, j :: 0 <= i < j < |batch| ==> batch[i].claimToken != batch[j].claimToken
      requires store.View() == Run(start, steps) && FinishesAt(steps, Tokens(batch), now, retryDelay, maxAttempts)
      modifies store
      ensures store.View() == Run(start, steps')
      ensures FinishesAt(steps', Tokens(batch), now, retryDelay, maxAttempts)
      ensures WorkedTo(store.View(), steps', batch, answers, results + [result])
    {
      ghost var before := store.View();
      ghost var more;
      assert Waiting(before, steps, batch[k]);
      result, more := PublishEvent(store, batch[k], now, answers(k).0, answers(k).1, Tokens(batch));
      WorkGoesOn(before, steps, more, batch, answers, results, result);
      RunConcat(start, steps, more);
      steps' := steps + more;
    }

    method PublishBatch(store: OutboxStore, batch: seq<Claimed>, now: Time, answers: nat -> (Answer, string))
      returns (counts: PublisherResult, ghost results: seq<Option<Status>>, ghost steps: seq<Step>)
      requires forall i ::
                 0 <= i < |batch| ==>
                     Unsent(store.View(), batch[i]) && ResultOk(store.View(), batch[i].claimToken, None)
      requires forall i, j :: 0 <= i < j < |batch| ==> batch[i].claimToken != batch[j].claimToken
      modifies store
      ensures store.View() == Run(old(store.View()), steps)
      ensures |results| == |batch| && WorkedTo(store.View(), steps, batch, answers, results)
      ensures counts == Counted(results) && FinishesAt(steps, Tokens(batch), now, retryDelay, maxAttempts)
    {
      ghost var s := store.View();
      ghost var mine := Tokens(batch);
      var published, retryable, terminal := 0, 0, 0;
      results, steps := [], [];
      for k := 0 to |batch|
        invariant store.View() == Run(s, steps) && |results| == k
        invariant FinishesAt(steps, mine, now, retryDelay, maxAttempts)
        invariant Counted(results) == PublisherResult(k, published, retryable, terminal)
        invariant WorkedTo(store.View(), steps, batch, answers, results)
      {
        var result;
        result, steps := PublishNext(store, batch, now, answers, k, s, results, steps);
        CountedSnoc(results, result);
        results := results + [result];
        if result == Some(Published) {
          published := published + 1;
        } else if result == Some(FailedRetryable) {
          retryable := retryable + 1;
        } else if result == Some(FailedTerminal) {
          terminal := terminal + 1;
        }
      }
      counts := PublisherResult(|batch|, published, retryable, terminal);
    }

    /**
     * One poll: a claim, then each event sent and finalized. `results` says how each claim's token ended the row's
     * turn, None where a newer token had taken the row; the counters are its tallies, so nothing claimed goes missing.
     */
    method PublishDueEvents(store: OutboxStore, limit: int, now: Time, locked: set<Id>,
            answers: nat -> (Answer, string))
      returns (counts: PublisherResult, ghost claims: seq<Claimed>, ghost claim: Step, ghost steps: seq<Step>,
               ghost results: seq<Option<Status>>)
      requires Inv(store.View())
      modifies store
      ensures claim.Claim? && claim.now == now && claim.limit == limit && claim.worker == workerId
              && claim.leaseExpiresAt == now + leaseDuration && claim.locked == locked
      ensures ClaimsOf(claims, Batch(old(store.rows), now, limit, locked), claim.tokens)
      ensures store.View() == Run(Next(old(store.View()), claim), steps)
      ensures |results| == |claims|
      ensures forall i :: 0 <= i < |claims| ==>
                && ResultOk(store.View(), claims[i].claimToken, results[i]) && AnsweredAs(results[i], answers(i).0)
                && SeenThrough(store.View(), claims[i], answers(i).0)
                && ReportsAs(steps, claims[i], answers(i).0, answers(i).1)
      ensures FinishesAt(steps, Tokens(claims), now, retryDelay, maxAttempts)
      ensures counts == PublisherResult(|claims|, |EndedWith(results, Some(Published))|,
                                        |EndedWith(results, Some(FailedRetryable))|,
                                        |EndedWith(results, Some(FailedTerminal))|)
      ensures counts.claimedCount
              == counts.publishedCount + counts.failedRetryableCount + counts.failedTerminalCount
                 + |EndedWith(results, None)|
    {
      ghost var start := store.View();
      var leaseExpiresAt := now + leaseDuration;
      ghost var tokens;
      var batch;
      batch, tokens := store.ClaimDueEvents(now, limit, workerId, leaseExpiresAt, locked);
      claims := batch;
      claim := Claim(now, limit, workerId, leaseExpiresAt, locked, tokens);
      BatchUnsent(start, claims, claim);
      counts, results, steps := PublishBatch(store, batch, now, answers);
      forall i | 0 <= i < |claims| ensures Worked(store.View(), steps, claims[i], answers(i), results[i]) {}
      ResultsNamed(store.View(), claims, results);
      TallyAll(results);
      TallyCounts(results, Some(Published));
      TallyCounts(results, Some(FailedRetryable));
      TallyCounts(results, Some(FailedTerminal));
      TallyCounts(results, None);
    }
  }

  function Counted(results: seq<Option<Status>>): PublisherResult {
    PublisherResult(|results|, Tally(results, Some(Published)), Tally(results, Some(FailedRetryable)),
                    Tally(results, Some(FailedTerminal)))
  }

  lemma CountedSnoc(results: seq<Option<Status>>, result: Option<Status>)
    ensures var a, b := Counted(results), Counted(results + [result]);
            b == PublisherResult(a.claimedCount + 1,
                                 a.publishedCount + (if result == Some(Published) then 1 else 0),
                                 a.failedRetryableCount + (if result == Some(FailedRetryable) then 1 else 0),
                                 a.failedTerminalCount + (if result == Some(FailedTerminal) then 1 else 0))
  {
  }

  lemma ResultsNamed(s: State, claims: seq<Claimed>, results: seq<Option<Status>>)
    requires |results| == |claims| && forall i :: 0 <= i < |claims| ==> ResultOk(s, claims[i].claimToken, results[i])
    ensures forall i ::
              0 <= i < |results| && results[i].Some? ==>
                  results[i].value in {Published, FailedRetryable, FailedTerminal}
  {
  }

  /** A claim was worked off: sent, answered, finalized or lost, and reported as it ended. */
  ghost predicate Worked(s: State, steps: seq<Step>, claim: Claimed, answer: (Answer, string), result: Option<Status>) {
    && ResultOk(s, claim.claimToken, result) && AnsweredAs(result, answer.0)
    && SeenThrough(s, claim, answer.0) && ReportsAs(steps, claim, answer.0, answer.1)
  }

  /** A claim was not begun. */
  ghost predicate Waiting(s: State, steps: seq<Step>, claim: Claimed) {
    Unsent(s, claim) && ResultOk(s, claim.claimToken, None) && NoneUses(steps, {claim.claimToken})
  }

  /** The claims with a result were worked off and the others not begun. */
  ghost predicate WorkedTo(s: State, steps: seq<Step>, batch: seq<Claimed>, answers: nat -> (Answer, string),
          results: seq<Option<Status>>) {
    && |results| <= |batch|
    && (forall i :: 0 <= i < |results| ==> Worked(s, steps, batch[i], answers(i), results[i]))
    && (forall i :: |results| <= i < |batch| ==> Waiting(s, steps, batch[i]))
  }

  lemma WorkedStays(s: State, steps: seq<Step>, more: seq<Step>, claim: Claimed, answer: (Answer, string),
          result: Option<Status>)
    requires Worked(s, steps, claim, answer, result) && NoneUses(more, {claim.claimToken})
    ensures Worked(Run(s, more), steps + more, claim, answer, result)
  {
    OtherSteps(s, more, claim);
    SeenThroughStays(s, more, claim, answer.0);
  }

  lemma WaitingStays(s: State, steps: seq<Step>, more: seq<Step>, claim: Claimed)
    requires Waiting(s, steps, claim) && NoneUses(more, {claim.claimToken})
    ensures Waiting(Run(s, more), steps + more, claim)
  {
    OtherSteps(s, more, claim);
  }

  lemma WorkGoesOn(s: State, steps: seq<Step>, more: seq<Step>, batch: seq<Claimed>, answers: nat -> (Answer, string),
          results: seq<Option<Status>>, result: Option<Status>)
    requires |results| < |batch| && WorkedTo(s, steps, batch, answers, results)
    requires forall i, j :: 0 <= i < j < |batch| ==> batch[i].claimToken != batch[j].claimToken
    requires NoneUses(more, Tokens(batch) - {batch[|results|].claimToken})
    requires Worked(Run(s, more), more, batch[|results|], answers(|results|), result)
    ensures WorkedTo(Run(s, more), steps + more, batch, answers, results + [result])
  {
    var k := |results|;
    assert NoneUses(steps, {batch[k].claimToken}) by { assert Waiting(s, steps, batch[k]); }
    forall i | 0 <= i < |batch| && i != k
      ensures i < k ==> Worked(Run(s, more), steps + more, batch[i], answers(i), results[i])
      ensures i > k ==> Waiting(Run(s, more), steps + more, batch[i])
    {
      assert batch[i].claimToken in Tokens(batch) - {batch[k].claimToken};
      if i < k {
        WorkedStays(s, steps, more, batch[i], answers(i), results[i]);
      } else {
        WaitingStays(s, steps, more, batch[i]);
      }
    }
  }

  /** The tokens of one batch are new: nothing was sent or finalized under them, and no two claims share one. */
  lemma BatchUnsent(start: State, claims: seq<Claimed>, claim: Step)
    requires Inv(start) && claim.Claim?
    requires var batch := Batch(start.rows, claim.now, claim.limit, claim.locked);
             ClaimsOf(claims, batch, claim.tokens) && FreshTokens(start, batch, claim.tokens)
    ensures forall i ::
              0 <= i < |claims| ==>
                  Unsent(Next(start, claim), claims[i]) && ResultOk(Next(start, claim), claims[i].claimToken, None)
    ensures forall i, j :: 0 <= i < j < |claims| ==> claims[i].claimToken != claims[j].claimToken
  {
    var batch := Batch(start.rows, claim.now, claim.limit, claim.locked);
    ClaimIssues(start, batch, claim.now, claim.leaseExpiresAt, claim.worker, claim.tokens);
    forall i | 0 <= i < |claims|
      ensures Unsent(Next(start, claim), claims[i]) && ResultOk(Next(start, claim), claims[i].claimToken, None)
    {
      assert batch[i] in batch;
      assert claims[i].claimToken !in start.claims;
    }
  }

  lemma OutboxRunSnoc(s: State, steps: seq<Step>, step: Step)
    ensures Run(s, steps + [step]) == Next(Run(s, steps), step)
  {
  }

  /** Neither a claim's copy nor its send is ever changed by other processes. */
  lemma {:induction false} ClaimStays(s: State, steps: seq<Step>, token: Id)
    requires token in s.claims && token in s.sends && NoneUses(steps, {token})
    ensures var e := Run(s, steps);
            token in e.claims && e.claims[token] == s.claims[token] && token in e.sends
                && e.sends[token] == s.sends[token]
  {
    if steps != [] {
      ClaimStays(s, steps[..|steps| - 1], token);
      ClaimStaysStep(Run(s, steps[..|steps| - 1]), steps[|steps| - 1], token);
    }
  }

  lemma ClaimStaysStep(s: State, step: Step, token: Id)
    requires token in s.claims && token in s.sends
    ensures var e := Next(s, step);
            token in e.claims && e.claims[token] == s.claims[token] && token in e.sends
                && e.sends[token] == s.sends[token]
  {
    OldClaimsStay(s, step);
  }

  lemma FinishEnds(s: State, claim: Claimed, result: Option<Status>, after: State)
    requires ResultOk(s, claim.claimToken, None)
    requires result.None? ==> after == s
    requires result.Some? ==> after.finals == s.finals + [Final(claim.eventId, claim.claimToken, result.value)]
                              && result.value in {Published, FailedRetryable, FailedTerminal}
    ensures ResultOk(after, claim.claimToken, result)
  {
    if result.Some? { assert after.finals[|s.finals|].token == claim.claimToken; }
  }
}
