/**
 * The transactional outbox and the log it feeds. A publisher claims due rows, sends each envelope outside
 * any transaction, and finalizes the row if its token still holds. A send may append to the log and still
 * report failure; a publisher may die anywhere.
 */
module Outbox {
  import opened Common
  import opened Ordering
  import opened Envelopes

  datatype Status = Pending | Publishing | Published | FailedRetryable | FailedTerminal

  datatype Row = Row(
    event: Event,
    status: Status,
    attempts: nat,
    nextAttemptAt: Time,
    leaseExpiresAt: Option<Time>,
    claimedBy: Option<string>,
    claimToken: Option<Id>,
    publishedAt: Option<Time>,
    lastError: Option<string>,
    updatedAt: Time)

  /** The copy of a row a publisher works from once its claim has committed. */
  datatype ClaimedEvent = ClaimedEvent(eventId: Id, event: Event)

  /** What one log entry is: an envelope some publisher sent, or bytes another producer wrote. */
  datatype Entry = Sent(eventId: Id, event: Event) | Foreign(raw: Raw)

  /** The bytes in the topic. */
  function Wire(e: Entry): Raw {
    match e
    case Sent(eventId, event) => Encode(eventId, event)
    case Foreign(raw) => raw
  }

  /** How a finalize ended: the run's own record, no column holds it. */
  datatype Final = Final(eventId: Id, token: Id, status: Status)

  /**
   * rows and log are durable. `claims` and `sends` are what publishers remember: every token issued with the
   * copy it was issued for, and for each send made whether the broker acknowledged it.
   */
  datatype State = State(
    rows: map<Id, Row>,
    log: seq<Entry>,
    claims: map<Id, ClaimedEvent>,
    sends: map<Id, bool>,
    finals: seq<Final>)

  const EMPTY := State(map[], [], map[], map[], [])

  function NewRow(event: Event): Row {
    Row(event, Pending, 0, Instant(event.createdAt), None, None, None, None, None, Instant(event.createdAt))
  }

  predicate Publishable(r: Row, now: Time) {
    || (r.status in {Pending, FailedRetryable} && r.nextAttemptAt <= now)
    || (r.status == Publishing && r.leaseExpiresAt.Some? && r.leaseExpiresAt.value < now)
  }

  /** `next_attempt_at, created_at, id`. */
  function DueKey(id: Id, r: Row): Key {
    Key(r.nextAttemptAt, Instant(r.event.createdAt), id)
  }

  function DueKeys(rows: map<Id, Row>, now: Time, locked: set<Id>): set<Key> {
    set id | id in rows && id !in locked && Publishable(rows[id], now) :: DueKey(id, rows[id])
  }

  lemma BatchKeys(rows: map<Id, Row>, now: Time, locked: set<Id>)
    ensures var q := Sort(DueKeys(rows, now, locked));
            && (forall i :: 0 <= i < |q| ==> q[i].id in rows && q[i].id !in locked && Publishable(rows[q[i].id], now))
            && (forall i, j :: 0 <= i < j < |q| ==> q[i].id != q[j].id)
  {
    var q := Sort(DueKeys(rows, now, locked));
    forall i | 0 <= i < |q| ensures q[i].id in rows && q[i].id !in locked && Publishable(rows[q[i].id], now)
      ensures q[i] == DueKey(q[i].id, rows[q[i].id])
    {
      assert q[i] in DueKeys(rows, now, locked);
    }
    forall i, j | 0 <= i < j < |q| ensures q[i].id != q[j].id {
      assert Before(q[i], q[j]);
    }
  }

  ghost function Batch(rows: map<Id, Row>, now: Time, limit: int, locked: set<Id>): (r: seq<Id>)
    ensures forall id :: id in r ==> id in rows && id !in locked && Publishable(rows[id], now)
    ensures forall i, j :: 0 <= i < j < |r| ==> r[i] != r[j]
    ensures |r| <= if limit <= 0 then 0 else limit
  {
    BatchKeys(rows, now, locked);
    Ids(Limit(Sort(DueKeys(rows, now, locked)), limit))
  }

  /** `ORDER BY next_attempt_at, created_at, id`, on the columns. */
  predicate Earlier(rows: map<Id, Row>, a: Id, b: Id) {
    && a in rows && b in rows
    && var x, y := rows[a], rows[b];
       || x.nextAttemptAt < y.nextAttemptAt
       || (x.nextAttemptAt == y.nextAttemptAt
           && (Instant(x.event.createdAt) < Instant(y.event.createdAt)
               || (Instant(x.event.createdAt) == Instant(y.event.createdAt) && a < b)))
  }

  lemma KeysEarlier(rows: map<Id, Row>, a: Id, b: Id)
    requires a in rows && b in rows
    ensures Before(DueKey(a, rows[a]), DueKey(b, rows[b])) <==> Earlier(rows, a, b)
  {
  }

  /** A claim query takes only rows nobody holds that wait and whose time has come, or whose lease has run out. */
  lemma BatchIsDue(rows: map<Id, Row>, now: Time, limit: int, locked: set<Id>, id: Id)
    requires id in Batch(rows, now, limit, locked)
    ensures id in rows && id !in locked
    ensures var r := rows[id];
            || ((r.status == Pending || r.status == FailedRetryable) && r.nextAttemptAt <= now)
            || (r.status == Publishing && r.leaseExpiresAt.Some? && r.leaseExpiresAt.value < now)
  {
  }

  /** The batch is the front of the publishable rows in order of next_attempt_at, created_at and id. */
  lemma BatchIsFront(rows: map<Id, Row>, now: Time, limit: int, locked: set<Id>, id: Id)
    requires limit >= 1 && id in rows && id !in locked
    requires var r := rows[id];
             || ((r.status == Pending || r.status == FailedRetryable) && r.nextAttemptAt <= now)
             || (r.status == Publishing && r.leaseExpiresAt.Some? && r.leaseExpiresAt.value < now)
    ensures var batch := Batch(rows, now, limit, locked);
            && (forall i, j :: 0 <= i < j < |batch| ==> Earlier(rows, batch[i], batch[j]))
            && (id in batch || (|batch| == limit && forall i :: 0 <= i < |batch| ==> Earlier(rows, batch[i], id)))
  {
    var keys := DueKeys(rows, now, locked);
    var taken := Limit(Sort(keys), limit);
    var batch := Batch(rows, now, limit, locked);
    var key := DueKey(id, rows[id]);
    LimitIsFront(keys, limit, key);
    forall i | 0 <= i < |batch| ensures taken[i] == DueKey(batch[i], rows[batch[i]]) {
      assert taken[i] in keys;
    }
    forall i, j | 0 <= i < j < |batch| ensures Earlier(rows, batch[i], batch[j]) {
      assert Before(taken[i], taken[j]);
      KeysEarlier(rows, batch[i], batch[j]);
    }
    if key in taken {
      var i :| 0 <= i < |taken| && taken[i] == key;
      assert batch[i] == id;
    } else {
      forall i | 0 <= i < |batch| ensures Earlier(rows, batch[i], id) {
        assert Before(taken[i], key);
        KeysEarlier(rows, batch[i], id);
      }
    }
  }

  function ClaimRow(r: Row, now: Time, leaseExpiresAt: Time, worker: string, token: Id): Row {
    r.(status := Publishing, claimedBy := Some(worker), claimToken := Some(token),
       leaseExpiresAt := Some(leaseExpiresAt), updatedAt := now)
  }

  predicate Owned(r: Row, token: Id) { r.status == Publishing && r.claimToken == Some(token) }

  function MarkPublished(r: Row, publishedAt: Time): Row {
    r.(status := Published, publishedAt := Some(publishedAt), nextAttemptAt := publishedAt, claimedBy := None,
       claimToken := None, leaseExpiresAt := None, lastError := None, updatedAt := publishedAt)
  }

  function MarkPublishFailed(r: Row, failedAt: Time, retryAt: Time, error: string, maxAttempts: int): Row {
    var n := r.attempts + 1;
    r.(attempts := n,
       lastError := Some(error),
       claimedBy := None,
       claimToken := None,
       leaseExpiresAt := None,
       updatedAt := failedAt,
       status := if n >= maxAttempts then FailedTerminal else FailedRetryable,
       nextAttemptAt := if n >= maxAttempts then failedAt else retryAt)
  }

  // ----- steps and runs --------------------------------------------------------------------------

  /** A broker answer: the message may be in the log whether or not the publisher hears so; an ack means it is. */
  datatype Answer = Acknowledged | LostButAppended | Lost

  datatype Step =
    | Add(id: Id, event: Event)
    | Claim(now: Time, limit: int, worker: string, leaseExpiresAt: Time, locked: set<Id>, tokens: map<Id, Id>)
    | Send(token: Id, answer: Answer)
    | Finish(token: Id, now: Time, retryDelay: int, error: string, maxAttempts: int)
    | Poison(raw: Raw)

  predicate FreshTokens(s: State, batch: seq<Id>, tokens: map<Id, Id>) {
    && (forall id :: id in batch ==> id in tokens && tokens[id] !in s.claims)
    && (forall a, b :: a in batch && b in batch && a != b ==> tokens[a] != tokens[b])
  }

  function ClaimedRows(rows: map<Id, Row>, batch: seq<Id>, now: Time, leaseExpiresAt: Time, worker: string,
          tokens: map<Id, Id>): map<Id, Row>
    requires forall id :: id in batch ==> id in tokens
  {
    map id | id in rows :: if id in batch then ClaimRow(rows[id], now, leaseExpiresAt, worker, tokens[id]) else rows[id]
  }

  function NewClaims(rows: map<Id, Row>, batch: seq<Id>, tokens: map<Id, Id>): map<Id, ClaimedEvent>
    requires forall id :: id in batch ==> id in rows && id in tokens
  {
    if batch == [] then map[]
    else
      var id := batch[|batch| - 1];
      NewClaims(rows, batch[..|batch| - 1], tokens)[tokens[id] := ClaimedEvent(id, rows[id].event)]
  }

  function ClaimAll(s: State, batch: seq<Id>, now: Time, leaseExpiresAt: Time, worker: string,
          tokens: map<Id, Id>): State
    requires FreshTokens(s, batch, tokens) && forall id :: id in batch ==> id in s.rows
  {
    s.(rows := ClaimedRows(s.rows, batch, now, leaseExpiresAt, worker, tokens),
       claims := s.claims + NewClaims(s.rows, batch, tokens))
  }

  ghost function ClaimDue(s: State, now: Time, limit: int, worker: string, leaseExpiresAt: Time, locked: set<Id>,
          tokens: map<Id, Id>): State {
    var batch := Batch(s.rows, now, limit, locked);
    if FreshTokens(s, batch, tokens) then ClaimAll(s, batch, now, leaseExpiresAt, worker, tokens) else s
  }

  /** One publish call for a claim: a publisher makes it once. */
  function SendClaimed(s: State, token: Id, answer: Answer): State {
    if token !in s.claims || token in s.sends then s
    else
      s.(log := if answer.Lost? then s.log else s.log + [Sent(s.claims[token].eventId, s.claims[token].event)],
         sends := s.sends[token := answer.Acknowledged?])
  }

  predicate Holds(s: State, token: Id) {
    token in s.claims && s.claims[token].eventId in s.rows && Owned(s.rows[s.claims[token].eventId], token)
  }

  /** The finalize after a send: published if it was acknowledged, failed if it raised. */
  function FinishClaimed(s: State, token: Id, now: Time, retryDelay: int, error: string, maxAttempts: int): State {
    if token !in s.sends || !Holds(s, token) then s
    else
      var id := s.claims[token].eventId;
      var row := if s.sends[token] then MarkPublished(s.rows[id], now)
                 else MarkPublishFailed(s.rows[id], now, now + retryDelay, error, maxAttempts);
      s.(rows := s.rows[id := row], finals := s.finals + [Final(id, token, row.status)])
  }

  /** `Poison` is a message some other producer writes to the topic; it does not forge an envelope. */
  ghost function Next(s: State, step: Step): State {
    match step
    case Add(id, event) => if id in s.rows then s else s.(rows := s.rows[id := NewRow(event)])
    case Claim(now, limit, worker, leaseExpiresAt, locked, tokens) =>
      ClaimDue(s, now, limit, worker, leaseExpiresAt, locked, tokens)
    case Send(token, answer) => SendClaimed(s, token, answer)
    case Finish(token, now, retryDelay, error, maxAttempts) =>
      FinishClaimed(s, token, now, retryDelay, error, maxAttempts)
    case Poison(raw) => if Decode(raw).Err? then s.(log := s.log + [Foreign(raw)]) else s
  }

  ghost function Run(s: State, steps: seq<Step>): State {
    if steps == [] then s else Next(Run(s, steps[..|steps| - 1]), steps[|steps| - 1])
  }

  // ----- invariant -------------------------------------------------------------------------------

  predicate LeaseOk(r: Row) {
    && (r.status == Publishing <==> r.claimToken.Some?)
    && (r.status == Publishing <==> r.leaseExpiresAt.Some?)
    && (r.status == Publishing <==> r.claimedBy.Some?)
    && (r.status == Published <==> r.publishedAt.Some?)
  }

  predicate InLog(s: State, id: Id) {
    id in s.rows && Sent(id, s.rows[id].event) in s.log
  }

  predicate IsFailure(f: Final) { f.status == FailedRetryable || f.status == FailedTerminal }

  function Failures(finals: seq<Final>, id: Id): nat {
    if finals == [] then 0
    else
      var last := finals[|finals| - 1];
      Failures(finals[..|finals| - 1], id) + if last.eventId == id && IsFailure(last) then 1 else 0
  }

  lemma FailuresSnoc(finals: seq<Final>, f: Final, id: Id)
    ensures Failures(finals + [f], id) == Failures(finals, id) + if f.eventId == id && IsFailure(f) then 1 else 0
  {
    assert (finals + [f])[..|finals|] == finals;
  }

  predicate RowOk(s: State, id: Id)
    requires id in s.rows
  {
    var r := s.rows[id];
    && LeaseOk(r)
    && (r.claimToken.Some? ==> r.claimToken.value in s.claims && s.claims[r.claimToken.value].eventId == id)
    && (r.status == Published ==> InLog(s, id))
    && r.attempts == Failures(s.finals, id)
  }

  predicate ClaimsOk(s: State) {
    && (forall token :: token in s.claims ==> s.claims[token].eventId in s.rows
                                              && s.claims[token].event == s.rows[s.claims[token].eventId].event)
    && (forall token :: token in s.sends ==> token in s.claims)
    && (forall token :: token in s.sends && s.sends[token] ==> InLog(s, s.claims[token].eventId))
  }

  /** Every finalization spent the token of a claim of its own row, after a send, and no token is spent twice. */
  predicate FinalsOk(s: State) {
    && (forall i :: 0 <= i < |s.finals| ==>
          var f := s.finals[i];
          && f.eventId in s.rows && f.token in s.sends && f.token in s.claims && s.claims[f.token].eventId == f.eventId
          && (f.status == Published <==> s.sends[f.token])
          && (f.status == Published || IsFailure(f))
          && !Holds(s, f.token))
    && (forall i, j :: 0 <= i < j < |s.finals| ==> s.finals[i].token != s.finals[j].token)
  }

  /** Every envelope in the log carries the id and the event of an outbox row; anything else does not decode. */
  predicate LogOk(s: State) {
    forall k :: 0 <= k < |s.log| ==>
      match s.log[k]
      case Sent(id, event) => id in s.rows && s.rows[id].event == event
      case Foreign(raw) => Decode(raw).Err?
  }

  predicate RowsOk(s: State) {
    forall id :: id in s.rows ==> RowOk(s, id)
  }

  predicate Inv(s: State) {
    RowsOk(s) && ClaimsOk(s) && FinalsOk(s) && LogOk(s)
  }

  // ----- preservation ----------------------------------------------------------------------------

  /** Rows keep their event columns, and neither rows nor log entries ever disappear. */
  predicate Extends(s: State, s': State) {
    && s.rows.Keys <= s'.rows.Keys
    && (forall id :: id in s.rows ==> s'.rows[id].event == s.rows[id].event)
    && |s.log| <= |s'.log| && s'.log[..|s.log|] == s.log
  }

  lemma StepExtends(s: State, step: Step)
    ensures Extends(s, Next(s, step))
  {
  }

  lemma InLogStays(s: State, s': State, id: Id)
    requires Extends(s, s') && InLog(s, id)
    ensures InLog(s', id)
  {
  }

  lemma {:induction false} NoFinals(finals: seq<Final>, id: Id)
    requires forall i :: 0 <= i < |finals| ==> finals[i].eventId != id
    ensures Failures(finals, id) == 0
  {
    if finals != [] { NoFinals(finals[..|finals| - 1], id); }
  }

  lemma AddKeepsRows(s: State, id: Id, event: Event)
    requires RowsOk(s) && FinalsOk(s)
    ensures RowsOk(Next(s, Add(id, event)))
  {
    if id !in s.rows {
      NoFinals(s.finals, id);
      var s' := Next(s, Add(id, event));
      forall x | x in s'.rows ensures RowOk(s', x) {
        if x != id { assert RowOk(s, x); }
      }
    }
  }

  lemma AddKeeps(s: State, id: Id, event: Event)
    requires Inv(s)
    ensures Inv(Next(s, Add(id, event)))
  {
    AddKeepsRows(s, id, event);
  }

  /** Each row of the batch is remembered under its own token, and nothing else is. */
  lemma {:induction false} NewClaimsMean(rows: map<Id, Row>, batch: seq<Id>, tokens: map<Id, Id>)
    requires forall id :: id in batch ==> id in rows && id in tokens
    requires forall a, b :: a in batch && b in batch && a != b ==> tokens[a] != tokens[b]
    ensures var claims := NewClaims(rows, batch, tokens);
            && (forall id ::
                  id in batch ==> tokens[id] in claims && claims[tokens[id]] == ClaimedEvent(id, rows[id].event))
            && (forall token ::
                  token in claims ==> claims[token].eventId in batch && tokens[claims[token].eventId] == token
                                                    && claims[token].event == rows[claims[token].eventId].event)
  {
    if batch != [] {
      var n := |batch| - 1;
      assert batch == batch[..n] + [batch[n]];
      NewClaimsMean(rows, batch[..n], tokens);
    }
  }

  lemma ClaimIssues(s: State, batch: seq<Id>, now: Time, leaseExpiresAt: Time, worker: string, tokens: map<Id, Id>)
    requires FreshTokens(s, batch, tokens) && forall id :: id in batch ==> id in s.rows
    ensures var s' := ClaimAll(s, batch, now, leaseExpiresAt, worker, tokens);
            && (forall token :: token in s.claims ==> token in s'.claims && s'.claims[token] == s.claims[token])
            && (forall id ::
                  id in batch ==>
                      tokens[id] in s'.claims && s'.claims[tokens[id]] == ClaimedEvent(id, s.rows[id].event))
            && (forall token :: token in s'.claims && token !in s.claims ==>
                  s'.claims[token].eventId in batch && s'.claims[token].event == s.rows[s'.claims[token].eventId].event)
  {
    NewClaimsMean(s.rows, batch, tokens);
  }

  lemma ClaimKeepsRow(s: State, batch: seq<Id>, now: Time, leaseExpiresAt: Time, worker: string, tokens: map<Id, Id>,
          id: Id)
    requires FreshTokens(s, batch, tokens) && forall x :: x in batch ==> x in s.rows && Publishable(s.rows[x], now)
    requires id in s.rows && RowOk(s, id)
    ensures RowOk(ClaimAll(s, batch, now, leaseExpiresAt, worker, tokens), id)
  {
    ClaimIssues(s, batch, now, leaseExpiresAt, worker, tokens);
  }

  lemma ClaimKeepsClaims(s: State, batch: seq<Id>, now: Time, leaseExpiresAt: Time, worker: string, tokens: map<Id, Id>)
    requires ClaimsOk(s) && FreshTokens(s, batch, tokens) && forall x :: x in batch ==> x in s.rows
    ensures ClaimsOk(ClaimAll(s, batch, now, leaseExpiresAt, worker, tokens))
  {
    ClaimIssues(s, batch, now, leaseExpiresAt, worker, tokens);
  }

  lemma ClaimKeepsFinals(s: State, batch: seq<Id>, now: Time, leaseExpiresAt: Time, worker: string, tokens: map<Id, Id>)
    requires FinalsOk(s) && FreshTokens(s, batch, tokens) && forall x :: x in batch ==> x in s.rows
    ensures FinalsOk(ClaimAll(s, batch, now, leaseExpiresAt, worker, tokens))
  {
    ClaimIssues(s, batch, now, leaseExpiresAt, worker, tokens);
  }

  lemma ClaimKeeps(s: State, batch: seq<Id>, now: Time, leaseExpiresAt: Time, worker: string, tokens: map<Id, Id>)
    requires Inv(s) && FreshTokens(s, batch, tokens) && forall id :: id in batch ==>
               id in s.rows && Publishable(s.rows[id], now)
    ensures Inv(ClaimAll(s, batch, now, leaseExpiresAt, worker, tokens))
  {
    forall id | id in s.rows ensures RowOk(ClaimAll(s, batch, now, leaseExpiresAt, worker, tokens), id) {
      ClaimKeepsRow(s, batch, now, leaseExpiresAt, worker, tokens, id);
    }
    ClaimKeepsClaims(s, batch, now, leaseExpiresAt, worker, tokens);
    ClaimKeepsFinals(s, batch, now, leaseExpiresAt, worker, tokens);
  }

  lemma SendInLog(s: State, token: Id, answer: Answer, id: Id)
    requires InLog(s, id)
    ensures InLog(SendClaimed(s, token, answer), id)
  {
    InLogStays(s, SendClaimed(s, token, answer), id);
  }

  lemma SendKeepsClaims(s: State, token: Id, answer: Answer)
    requires ClaimsOk(s)
    ensures ClaimsOk(SendClaimed(s, token, answer))
  {
    var s' := SendClaimed(s, token, answer);
    forall id | InLog(s, id) ensures InLog(s', id) { SendInLog(s, token, answer, id); }
    if token in s.claims && token !in s.sends && !answer.Lost? {
      assert s'.log[|s.log|] == Sent(s.claims[token].eventId, s.claims[token].event);
    }
  }

  lemma SendKeepsRow(s: State, token: Id, answer: Answer, id: Id)
    requires id in s.rows && RowOk(s, id)
    ensures RowOk(SendClaimed(s, token, answer), id)
  {
  }

  lemma SendKeepsFinals(s: State, token: Id, answer: Answer)
    requires FinalsOk(s)
    ensures FinalsOk(SendClaimed(s, token, answer))
  {
  }

  lemma SendKeeps(s: State, token: Id, answer: Answer)
    requires Inv(s)
    ensures Inv(SendClaimed(s, token, answer))
  {
    var s' := SendClaimed(s, token, answer);
    SendKeepsClaims(s, token, answer);
    SendKeepsFinals(s, token, answer);
    forall id | id in s.rows ensures RowOk(s', id) {
      SendKeepsRow(s, token, answer, id);
    }
  }

  lemma FinishKeepsRow(s: State, token: Id, now: Time, retryDelay: int, error: string, maxAttempts: int, id: Id)
    requires ClaimsOk(s) && id in s.rows && RowOk(s, id)
    ensures RowOk(FinishClaimed(s, token, now, retryDelay, error, maxAttempts), id)
  {
    if token in s.sends && Holds(s, token) {
      var s' := FinishClaimed(s, token, now, retryDelay, error, maxAttempts);
      var f := s'.finals[|s.finals|];
      assert s'.finals == s.finals + [f];
      FailuresSnoc(s.finals, f, id);
    }
  }

  lemma FinishKeepsFinals(s: State, token: Id, now: Time, retryDelay: int, error: string, maxAttempts: int)
    requires FinalsOk(s) && ClaimsOk(s)
    ensures FinalsOk(FinishClaimed(s, token, now, retryDelay, error, maxAttempts))
  {
    var s' := FinishClaimed(s, token, now, retryDelay, error, maxAttempts);
    if token in s.sends && Holds(s, token) {
      forall i | 0 <= i < |s.finals| ensures s.finals[i].token != token && !Holds(s', s.finals[i].token) {
        assert !Holds(s, s.finals[i].token);
      }
    }
  }

  lemma FinishKeeps(s: State, token: Id, now: Time, retryDelay: int, error: string, maxAttempts: int)
    requires Inv(s)
    ensures Inv(FinishClaimed(s, token, now, retryDelay, error, maxAttempts))
  {
    FinishKeepsRows(s, token, now, retryDelay, error, maxAttempts);
    FinishKeepsClaims(s, token, now, retryDelay, error, maxAttempts);
    FinishKeepsFinals(s, token, now, retryDelay, error, maxAttempts);
  }

  lemma FinishKeepsRows(s: State, token: Id, now: Time, retryDelay: int, error: string, maxAttempts: int)
    requires RowsOk(s) && ClaimsOk(s)
    ensures RowsOk(FinishClaimed(s, token, now, retryDelay, error, maxAttempts))
  {
    var s' := FinishClaimed(s, token, now, retryDelay, error, maxAttempts);
    forall id | id in s'.rows ensures RowOk(s', id) {
      FinishKeepsRow(s, token, now, retryDelay, error, maxAttempts, id);
    }
  }

  lemma FinishKeepsClaims(s: State, token: Id, now: Time, retryDelay: int, error: string, maxAttempts: int)
    requires ClaimsOk(s)
    ensures ClaimsOk(FinishClaimed(s, token, now, retryDelay, error, maxAttempts))
  {
  }

  lemma PoisonKeeps(s: State, raw: Raw)
    requires Inv(s)
    ensures Inv(Next(s, Poison(raw)))
  {
    var s' := Next(s, Poison(raw));
    StepExtends(s, Poison(raw));
    forall id | InLog(s, id) ensures InLog(s', id) { InLogStays(s, s', id); }
  }

  lemma StepKeepsInv(s: State, step: Step)
    requires Inv(s)
    ensures Inv(Next(s, step))
  {
    match step
    case Add(id, event) => AddKeeps(s, id, event);
    case Claim(now, limit, worker, leaseExpiresAt, locked, tokens) =>
      var batch := Batch(s.rows, now, limit, locked);
      if FreshTokens(s, batch, tokens) { ClaimKeeps(s, batch, now, leaseExpiresAt, worker, tokens); }
    case Send(token, answer) => SendKeeps(s, token, answer);
    case Finish(token, now, retryDelay, error, maxAttempts) =>
      FinishKeeps(s, token, now, retryDelay, error, maxAttempts);
    case Poison(raw) => PoisonKeeps(s, raw);
  }

  lemma {:induction false} RunKeepsInv(s: State, steps: seq<Step>)
    requires Inv(s)
    ensures Inv(Run(s, steps))
  {
    if steps != [] {
      RunKeepsInv(s, steps[..|steps| - 1]);
      StepKeepsInv(Run(s, steps[..|steps| - 1]), steps[|steps| - 1]);
    }
  }

  // ----- what each transaction does, column by column ----------------------------------------------

  /** A new row waits, due at once, with no attempt counted and no lease. */
  lemma AddMeans(s: State, id: Id, event: Event)
    ensures var s' := Next(s, Add(id, event));
            if id in s.rows then s' == s
            else
              && s' == s.(rows := s'.rows) && id in s'.rows && s'.rows == s.rows[id := s'.rows[id]]
              && var r, at := s'.rows[id], Instant(event.createdAt);
                 r == Row(event, Pending, 0, at, None, None, None, None, None, at)
  {
  }

  /** A claim leases the rows of its batch to one publisher, each under its own token, and touches no other row. */
  lemma ClaimMeans(s: State, now: Time, limit: int, worker: string, leaseExpiresAt: Time, locked: set<Id>,
          tokens: map<Id, Id>, id: Id)
    requires FreshTokens(s, Batch(s.rows, now, limit, locked), tokens)
    requires id in s.rows
    ensures var batch, s' := Batch(s.rows, now, limit, locked),
                             Next(s, Claim(now, limit, worker, leaseExpiresAt, locked, tokens));
            && s' == s.(rows := s'.rows, claims := s'.claims) && s'.rows.Keys == s.rows.Keys
            && (id !in batch ==> s'.rows[id] == s.rows[id])
            && (id in batch ==>
                  s'.rows[id] == s.rows[id].(status := Publishing, claimedBy := Some(worker),
                                             claimToken := Some(tokens[id]),
                                             leaseExpiresAt := Some(leaseExpiresAt), updatedAt := now))
  {
  }

  /** The tokens of a batch are new, one for each of its rows, and remember what they were issued for. */
  lemma ClaimIssuesTokens(s: State, now: Time, limit: int, worker: string, leaseExpiresAt: Time, locked: set<Id>,
          tokens: map<Id, Id>, token: Id)
    requires var batch := Batch(s.rows, now, limit, locked);
             && (forall x :: x in batch ==> x in tokens && tokens[x] !in s.claims)
             && (forall x, y :: x in batch && y in batch && x != y ==> tokens[x] != tokens[y])
    ensures var batch, s' := Batch(s.rows, now, limit, locked),
                             Next(s, Claim(now, limit, worker, leaseExpiresAt, locked, tokens));
            && (token in s'.claims <==> token in s.claims || exists x :: x in batch && tokens[x] == token)
            && (token in s.claims ==> s'.claims[token] == s.claims[token])
            && (forall x :: x in batch ==>
                  tokens[x] in s'.claims && s'.claims[tokens[x]] == ClaimedEvent(x, s.rows[x].event))
  {
    var batch := Batch(s.rows, now, limit, locked);
    NewClaimsMean(s.rows, batch, tokens);
  }

  /** The first send of a claim puts its own event behind the log, unless the broker never got it. */
  lemma SendMeans(s: State, token: Id, answer: Answer)
    ensures var s' := Next(s, Send(token, answer));
            if token in s.claims && token !in s.sends then
              && s' == s.(log := s'.log, sends := s'.sends)
              && s'.sends == s.sends[token := answer == Acknowledged]
              && s'.log == s.log + if answer == Lost then [] else [Sent(s.claims[token].eventId, s.claims[token].event)]
            else s' == s
  {
  }

  /**
   * The holder's finalization after its send: published if the broker acknowledged it, and otherwise one more
   * attempt, retried after the delay while attempts are left and failed for good when they are used up.
   */
  lemma FinishMeans(s: State, token: Id, now: Time, retryDelay: int, error: string, maxAttempts: int)
    requires token in s.sends && token in s.claims && s.claims[token].eventId in s.rows
    requires var r := s.rows[s.claims[token].eventId]; r.status == Publishing && r.claimToken == Some(token)
    ensures var id, s' := s.claims[token].eventId, Next(s, Finish(token, now, retryDelay, error, maxAttempts));
            && id in s'.rows && s'.rows == s.rows[id := s'.rows[id]]
            && s' == s.(rows := s'.rows, finals := s.finals + [Final(id, token, s'.rows[id].status)])
            && var r, r' := s.rows[id], s'.rows[id];
               && (r'.status == Published <==> s.sends[token])
               && (r'.status == FailedRetryable <==> !s.sends[token] && r.attempts + 1 < maxAttempts)
               && (r'.status == FailedTerminal <==> !s.sends[token] && r.attempts + 1 >= maxAttempts)
               && r' == r.(status := r'.status,
                           attempts := if s.sends[token] then r.attempts else r.attempts + 1,
                           lastError := if s.sends[token] then None else Some(error),
                           publishedAt := if s.sends[token] then Some(now) else r.publishedAt,
                           nextAttemptAt := if r'.status == FailedRetryable then now + retryDelay else now,
                           leaseExpiresAt := None, claimedBy := None, claimToken := None, updatedAt := now)
  {
  }

  /** A finalization changes nothing before its send, or once another publisher or none holds the row. */
  lemma FinishByOthers(s: State, token: Id, now: Time, retryDelay: int, error: string, maxAttempts: int)
    requires token in s.sends && token in s.claims && s.claims[token].eventId in s.rows ==>
               var r := s.rows[s.claims[token].eventId]; r.status != Publishing || r.claimToken != Some(token)
    ensures Next(s, Finish(token, now, retryDelay, error, maxAttempts)) == s
  {
  }

  // ----- theorems over every run from an empty outbox ---------------------------------------------

  lemma Reachable(steps: seq<Step>)
    ensures Inv(Run(EMPTY, steps))
  {
    RunKeepsInv(EMPTY, steps);
  }

  /** A published row's envelope is in the log, with the id, type and data of that very row. */
  lemma PublishedIsInLog(steps: seq<Step>, id: Id)
    requires id in Run(EMPTY, steps).rows && Run(EMPTY, steps).rows[id].status == Published
    ensures InLog(Run(EMPTY, steps), id)
  {
    Reachable(steps);
  }

  /** What the consumer can decode from the log is the id, type, key, data and instant of an existing outbox row. */
  lemma LogCarriesRows(steps: seq<Step>, k: nat)
    requires k < |Run(EMPTY, steps).log| && Decode(Wire(Run(EMPTY, steps).log[k])).Ok?
    ensures var s := Run(EMPTY, steps);
            var m := Decode(Wire(s.log[k])).value;
            && m.eventId in s.rows
            && var e := s.rows[m.eventId].event;
               m.eventType == e.eventType && m.key == e.key && m.payload == e.payload
                   && Instant(m.occurredAt) == Instant(e.createdAt)
  {
    Reachable(steps);
    var s := Run(EMPTY, steps);
    assert s.log[k].Sent?;
    DecodeEncode(s.log[k].eventId, s.log[k].event);
  }

  /** attempts counts the failed finalizations, and no claim token ever finalizes twice. */
  lemma AttemptsCountFailures(steps: seq<Step>, id: Id)
    requires id in Run(EMPTY, steps).rows
    ensures Run(EMPTY, steps).rows[id].attempts == Failures(Run(EMPTY, steps).finals, id)
    ensures var f := Run(EMPTY, steps).finals;
            forall i, j :: 0 <= i < j < |f| ==> f[i].token != f[j].token
  {
    Reachable(steps);
  }

  /** `published` and `failed_terminal` are absorbing. */
  lemma {:induction false} SettledForever(s: State, steps: seq<Step>, id: Id)
    requires id in s.rows && s.rows[id].status in {Published, FailedTerminal}
    ensures id in Run(s, steps).rows && Run(s, steps).rows[id] == s.rows[id]
  {
    if steps != [] {
      SettledForever(s, steps[..|steps| - 1], id);
      SettledStep(Run(s, steps[..|steps| - 1]), steps[|steps| - 1], id);
    }
  }

  lemma SettledStep(s: State, step: Step, id: Id)
    requires id in s.rows && s.rows[id].status in {Published, FailedTerminal}
    ensures id in Next(s, step).rows && Next(s, step).rows[id] == s.rows[id]
  {
    match step
    case Claim(now, limit, worker, leaseExpiresAt, locked, tokens) =>
      SettledNotClaimed(s, now, limit, worker, leaseExpiresAt, locked, tokens, id);
    case _ =>
  }

  lemma SettledNotClaimed(s: State, now: Time, limit: int, worker: string, leaseExpiresAt: Time, locked: set<Id>,
          tokens: map<Id, Id>, id: Id)
    requires id in s.rows && s.rows[id].status in {Published, FailedTerminal}
    ensures var rows := ClaimDue(s, now, limit, worker, leaseExpiresAt, locked, tokens).rows;
            id in rows && rows[id] == s.rows[id]
  {
  }

  predicate SharedMax(step: Step, max: int) {
    step.Finish? ==> step.maxAttempts == max
  }

  predicate AttemptsBelowAt(r: Row, max: int) {
    r.attempts <= max && (r.attempts == max <==> r.status == FailedTerminal)
  }

  predicate AttemptsBelow(s: State, max: int) {
    forall id :: id in s.rows ==> AttemptsBelowAt(s.rows[id], max)
  }

  /** With one max_attempts for all publishers, attempts stays below it until the row fails for good, exactly at it. */
  lemma {:induction false} AttemptsBounded(steps: seq<Step>, max: int)
    requires max > 0 && forall i :: 0 <= i < |steps| ==> SharedMax(steps[i], max)
    ensures AttemptsBelow(Run(EMPTY, steps), max)
  {
    if steps != [] {
      AttemptsBounded(steps[..|steps| - 1], max);
      BoundStep(Run(EMPTY, steps[..|steps| - 1]), steps[|steps| - 1], max);
    }
  }

  lemma BoundStep(s: State, step: Step, max: int)
    requires AttemptsBelow(s, max) && SharedMax(step, max) && max > 0
    ensures AttemptsBelow(Next(s, step), max)
  {
    forall id | id in Next(s, step).rows ensures AttemptsBelowAt(Next(s, step).rows[id], max) {
      BoundRow(s, step, max, id);
    }
  }

  lemma BoundRow(s: State, step: Step, max: int, id: Id)
    requires AttemptsBelow(s, max) && SharedMax(step, max) && max > 0 && id in Next(s, step).rows
    ensures AttemptsBelowAt(Next(s, step).rows[id], max)
  {
  }

  lemma {:induction false} RunExtends(s: State, steps: seq<Step>)
    ensures Extends(s, Run(s, steps))
  {
    if steps != [] {
      RunExtends(s, steps[..|steps| - 1]);
      var m := Run(s, steps[..|steps| - 1]);
      StepExtends(m, steps[|steps| - 1]);
      var e := Run(s, steps);
      assert e.log[..|s.log|] == e.log[..|m.log|][..|s.log|];
    }
  }

  lemma RunSnoc(s: State, steps: seq<Step>, step: Step)
    ensures Run(s, steps + [step]) == Next(Run(s, steps), step)
  {
  }

  /** This step is the first send for a claim of row id, and the broker keeps the message, whatever it answers. */
  predicate Reaches(s: State, step: Step, id: Id) {
    && step.Send? && !step.answer.Lost?
    && step.token in s.claims && step.token !in s.sends && s.claims[step.token].eventId == id
  }

  ghost predicate ReachesAt(steps: seq<Step>, i: nat, id: Id) {
    i < |steps| && Reaches(Run(EMPTY, steps[..i]), steps[i], id)
  }

  ghost predicate SomeSendReached(steps: seq<Step>, id: Id) {
    exists i: nat :: ReachesAt(steps, i, id)
  }

  lemma ReachedBefore(steps: seq<Step>, i: nat, id: Id)
    requires i + 1 < |steps|
    ensures ReachesAt(steps, i, id) <==> ReachesAt(steps[..|steps| - 1], i, id)
  {
    assert steps[..|steps| - 1][..i] == steps[..i];
  }

  lemma SomeSendSnoc(steps: seq<Step>, id: Id)
    requires steps != []
    ensures var n := |steps| - 1;
            SomeSendReached(steps, id) <==> SomeSendReached(steps[..n], id) || ReachesAt(steps, n, id)
  {
    var n := |steps| - 1;
    if SomeSendReached(steps[..n], id) {
      var i: nat :| ReachesAt(steps[..n], i, id);
      ReachedBefore(steps, i, id);
    }
    if SomeSendReached(steps, id) {
      var i: nat :| ReachesAt(steps, i, id);
      if i < n { ReachedBefore(steps, i, id); }
    }
  }

  lemma InLogStep(s: State, step: Step, id: Id)
    requires Inv(s)
    ensures InLog(Next(s, step), id) <==> InLog(s, id) || Reaches(s, step, id)
  {
    var s' := Next(s, step);
    StepExtends(s, step);
    if InLog(s, id) { InLogStays(s, s', id); }
    if Reaches(s, step, id) { assert s'.log[|s.log|] == Sent(id, s.rows[id].event); }
    if InLog(s', id) {
      var k :| 0 <= k < |s'.log| && s'.log[k] == Sent(id, s'.rows[id].event);
      if k < |s.log| { OldEntry(s, s', k, id); } else { NewEntry(s, step, k, id); }
    }
  }

  lemma OldEntry(s: State, s': State, k: nat, id: Id)
    requires Extends(s, s') && LogOk(s) && k < |s.log| && id in s'.rows && s'.log[k] == Sent(id, s'.rows[id].event)
    ensures InLog(s, id)
  {
    assert s.log[k] == s'.log[..|s.log|][k];
  }

  lemma NewEntry(s: State, step: Step, k: nat, id: Id)
    requires |s.log| <= k < |Next(s, step).log| && Next(s, step).log[k].Sent? && Next(s, step).log[k].eventId == id
    ensures Reaches(s, step, id)
  {
  }

  /** Over every run: a row is in the log exactly if some send for it reached the broker, whatever became of the row. */
  lemma {:induction false} InLogIff(steps: seq<Step>, id: Id)
    ensures InLog(Run(EMPTY, steps), id) <==> SomeSendReached(steps, id)
  {
    if steps != [] {
      var n := |steps| - 1;
      Reachable(steps[..n]);
      InLogIff(steps[..n], id);
      SomeSendSnoc(steps, id);
      InLogStep(Run(EMPTY, steps[..n]), steps[n], id);
    }
  }

  /** So for a row that failed for good, too, and then no finalization of it was a success. */
  lemma TerminalInLogIff(steps: seq<Step>, id: Id)
    requires id in Run(EMPTY, steps).rows && Run(EMPTY, steps).rows[id].status == FailedTerminal
    ensures InLog(Run(EMPTY, steps), id) <==> SomeSendReached(steps, id)
    ensures AllFailed(Run(EMPTY, steps), id)
  {
    InLogIff(steps, id);
    OnlyFailures(steps, id);
  }

  predicate AllFailed(s: State, id: Id) {
    forall i :: 0 <= i < |s.finals| && s.finals[i].eventId == id ==> IsFailure(s.finals[i])
  }

  /** A row that is not published has no finalization that succeeded. */
  lemma {:induction false} OnlyFailures(steps: seq<Step>, id: Id)
    requires id in Run(EMPTY, steps).rows && Run(EMPTY, steps).rows[id].status != Published
    ensures AllFailed(Run(EMPTY, steps), id)
  {
    if steps != [] {
      var before, step := steps[..|steps| - 1], steps[|steps| - 1];
      Reachable(before);
      if id in Run(EMPTY, before).rows && Run(EMPTY, before).rows[id].status != Published { OnlyFailures(before, id); }
      OnlyFailuresStep(Run(EMPTY, before), step, id);
    }
  }

  lemma OnlyFailuresStep(s: State, step: Step, id: Id)
    requires FinalsOk(s) && (id in s.rows && s.rows[id].status != Published ==> AllFailed(s, id))
    requires id in Next(s, step).rows && Next(s, step).rows[id].status != Published
    ensures AllFailed(Next(s, step), id)
  {
    if id in s.rows && s.rows[id].status == Published { SettledStep(s, step, id); }
    FinalsGrow(s, step);
  }

  lemma FinalsGrow(s: State, step: Step)
    ensures var f, f' := s.finals, Next(s, step).finals;
            f' == f || (f' == f + [f'[|f|]] && f'[|f|].eventId in s.rows
                        && Next(s, step).rows[f'[|f|].eventId].status == f'[|f|].status)
  {
  }

  /** A row that ended failed_terminal may still have been sent: the send that reported failure had reached the log. */
  lemma TerminalMayBeInLog(event: Event) returns (steps: seq<Step>)
    ensures var s := Run(EMPTY, steps); 0 in s.rows && s.rows[0].status == FailedTerminal && InLog(s, 0)
  {
    var now := Instant(event.createdAt);
    RunSnoc(EMPTY, [], Add(0, event));
    steps := [] + [Add(0, event)];
    ClaimOnly(Run(EMPTY, steps), 0, 1, now, {});
    RunSnoc(EMPTY, steps, Claim(now, 1, "", now, {}, map[0 := 1]));
    steps := steps + [Claim(now, 1, "", now, {}, map[0 := 1])];
    var s := Run(EMPTY, steps);
    RunSnoc(EMPTY, steps, Send(1, LostButAppended));
    steps := steps + [Send(1, LostButAppended)];
    RunSnoc(EMPTY, steps, Finish(1, now, 0, "", 1));
    steps := steps + [Finish(1, now, 0, "", 1)];
    SendThenFail(s, 0, 1, now);
  }

  lemma SendThenFail(s: State, id: Id, token: Id, now: Time)
    requires token in s.claims && token !in s.sends && Holds(s, token) && s.claims[token].eventId == id
    requires s.claims[token].event == s.rows[id].event
    ensures var s' := Next(Next(s, Send(token, LostButAppended)), Finish(token, now, 0, "", 1));
            id in s'.rows && s'.rows[id].status == FailedTerminal && InLog(s', id)
  {
    var s' := Next(s, Send(token, LostButAppended));
    assert s'.log[|s.log|] == Sent(id, s.rows[id].event);
  }

  /** Every other row is locked by somebody else. */
  predicate AloneUnlocked(rows: map<Id, Row>, id: Id, locked: set<Id>) {
    id in rows && id !in locked && forall x :: x in rows && x != id ==> x in locked
  }

  lemma ClaimOnly(s: State, id: Id, token: Id, now: Time, locked: set<Id>)
    requires AloneUnlocked(s.rows, id, locked) && Publishable(s.rows[id], now) && token !in s.claims
    ensures var s' := Next(s, Claim(now, 1, "", now, locked, map[id := token]));
            && s'.rows == s.rows[id := ClaimRow(s.rows[id], now, now, "", token)]
            && s'.claims == s.claims[token := ClaimedEvent(id, s.rows[id].event)]
            && s'.log == s.log && s'.sends == s.sends
  {
    BatchOnly(s.rows, id, now, locked);
    ClaimOf(s, id, token, now);
  }

  lemma BatchOnly(rows: map<Id, Row>, id: Id, now: Time, locked: set<Id>)
    requires AloneUnlocked(rows, id, locked) && Publishable(rows[id], now)
    ensures Batch(rows, now, 1, locked) == [id]
  {
    var key := DueKey(id, rows[id]);
    assert DueKeys(rows, now, locked) == {key};
    SortIs({key}, [key]);
  }

  lemma ClaimOf(s: State, id: Id, token: Id, now: Time)
    requires id in s.rows && token !in s.claims
    ensures FreshTokens(s, [id], map[id := token])
    ensures ClaimAll(s, [id], now, now, "", map[id := token]) ==
            s.(rows := s.rows[id := ClaimRow(s.rows[id], now, now, "", token)],
               claims := s.claims[token := ClaimedEvent(id, s.rows[id].event)])
  {
    var tokens := map[id := token];
    assert [id][0] == id;
    assert forall x :: x in [id] <==> x == id;
    assert NewClaims(s.rows, [id], tokens) == map[token := ClaimedEvent(id, s.rows[id].event)];
  }

  // ----- no row is stuck ---------------------------------------------------------------------------

  function DueAt(r: Row): Time {
    if r.status == Publishing && r.leaseExpiresAt.Some? then r.leaseExpiresAt.value + 1 else r.nextAttemptAt
  }

  lemma DueAtIsDue(r: Row)
    requires LeaseOk(r) && r.status !in {Published, FailedTerminal}
    ensures Publishable(r, DueAt(r))
  {
  }

  /** Somebody claimed row id under this token and has not sent it yet, whether or not the claim still holds. */
  predicate ToBeSent(s: State, token: Id, id: Id) {
    token in s.claims && token !in s.sends && s.claims[token].eventId == id
  }

  ghost predicate Publishes(s: State, id: Id, claim: Step, send: Step, finish: Step) {
    var s' := Next(Next(Next(s, claim), send), finish);
    && claim.Claim? && send.Send? && finish.Finish?
    && id in s'.rows && s'.rows[id].status == Published
  }

  /** From every reachable state, a row that is neither published nor failed for good can still be published. */
  lemma NeverStuck(s: State, id: Id) returns (claim: Step, send: Step, finish: Step)
    requires Inv(s) && id in s.rows && s.rows[id].status !in {Published, FailedTerminal}
    ensures Publishes(s, id, claim, send, finish) && ToBeSent(Next(s, claim), send.token, id)
  {
    FreshId(s.claims.Keys);
    var token: Id :| token !in s.claims.Keys;
    var now, locked := DueAt(s.rows[id]), s.rows.Keys - {id};
    assert LeaseOk(s.rows[id]) by { assert RowOk(s, id); }
    DueAtIsDue(s.rows[id]);
    claim, send, finish :=
        Claim(now, 1, "", now, locked, map[id := token]), Send(token, Acknowledged), Finish(token, now, 0, "", 1);
    ClaimOnly(s, id, token, now, locked);
    assert token !in s.sends by { assert ClaimsOk(s); }
    SendThenPublish(Next(s, claim), id, token, now);
  }

  lemma SendThenPublish(s: State, id: Id, token: Id, now: Time)
    requires token in s.claims && token !in s.sends && Holds(s, token) && s.claims[token].eventId == id
    ensures var s' := Next(Next(s, Send(token, Acknowledged)), Finish(token, now, 0, "", 1));
            id in s'.rows && s'.rows[id].status == Published
  {
  }

  /** Or it can be given up: its message never reaches the broker, and the one attempt allowed has failed. */
  lemma CanGiveUp(s: State, id: Id) returns (claim: Step, send: Step, finish: Step)
    requires Inv(s) && id in s.rows && s.rows[id].status !in {Published, FailedTerminal}
    ensures claim.Claim? && send.Send? && finish.Finish?
    ensures var s' := Next(Next(Next(s, claim), send), finish);
            s'.log == s.log && id in s'.rows && s'.rows[id].status == FailedTerminal
  {
    FreshId(s.claims.Keys);
    var token: Id :| token !in s.claims.Keys;
    var now, locked := DueAt(s.rows[id]), s.rows.Keys - {id};
    assert LeaseOk(s.rows[id]) by { assert RowOk(s, id); }
    DueAtIsDue(s.rows[id]);
    claim, send, finish :=
        Claim(now, 1, "", now, locked, map[id := token]), Send(token, Lost), Finish(token, now, 0, "", 1);
    ClaimOnly(s, id, token, now, locked);
    assert token !in s.sends by { assert ClaimsOk(s); }
    SendThenGiveUp(Next(s, claim), id, token, now);
  }

  lemma SendThenGiveUp(s: State, id: Id, token: Id, now: Time)
    requires token in s.claims && token !in s.sends && Holds(s, token) && s.claims[token].eventId == id
    ensures var s' := Next(Next(s, Send(token, Lost)), Finish(token, now, 0, "", 1));
            s'.log == s.log && id in s'.rows && s'.rows[id].status == FailedTerminal
  {
  }

  // ----- what can still be sent --------------------------------------------------------------------

  /** The row may still be claimed, or was claimed by somebody who may still send it. */
  predicate MayStillSend(s: State, id: Id) {
    id in s.rows
        && (s.rows[id].status !in {Published, FailedTerminal} || exists token ::
              token in s.claims && ToBeSent(s, token, id))
  }

  lemma NoNewClaims(s: State, now: Time, limit: int, worker: string, leaseExpiresAt: Time, locked: set<Id>,
          tokens: map<Id, Id>, id: Id)
    requires id in s.rows && s.rows[id].status in {Published, FailedTerminal}
    ensures var s' := ClaimDue(s, now, limit, worker, leaseExpiresAt, locked, tokens);
            forall token :: token in s'.claims && s'.claims[token].eventId == id ==>
              token in s.claims && s.claims[token].eventId == id
  {
    var batch := Batch(s.rows, now, limit, locked);
    assert id !in batch;
    if FreshTokens(s, batch, tokens) { OnlyTheBatch(s, batch, now, leaseExpiresAt, worker, tokens, id); }
  }

  lemma OnlyTheBatch(s: State, batch: seq<Id>, now: Time, leaseExpiresAt: Time, worker: string, tokens: map<Id, Id>,
          id: Id)
    requires FreshTokens(s, batch, tokens) && (forall x :: x in batch ==> x in s.rows) && id !in batch
    ensures var s' := ClaimAll(s, batch, now, leaseExpiresAt, worker, tokens);
            forall token :: token in s'.claims && s'.claims[token].eventId == id ==>
              token in s.claims && s.claims[token].eventId == id
  {
    ClaimIssues(s, batch, now, leaseExpiresAt, worker, tokens);
  }

  /** Once a row is settled and nobody still has to send it, its envelope never enters the log again. */
  lemma SentForGood(s: State, step: Step, id: Id)
    requires id in s.rows && !MayStillSend(s, id)
    ensures !MayStillSend(Next(s, step), id)
    ensures forall k: nat :: |s.log| <= k < |Next(s, step).log| && Next(s, step).log[k].Sent? ==>
              Next(s, step).log[k].eventId != id
  {
    SettledStep(s, step, id);
    match step
    case Claim(now, limit, worker, leaseExpiresAt, locked, tokens) =>
      NoNewClaims(s, now, limit, worker, leaseExpiresAt, locked, tokens, id);
    case _ =>
  }
}
