/** Draining the outbox: repeated claims at one instant, with nothing new arriving. */
module OutboxBacklog {
  import opened Common
  import opened Ordering
  import opened Outbox
  import Backlog

  /** The publishable rows in claim order. */
  ghost function Queue(s: State, now: Time): seq<Key> {
    Sort(DueKeys(s.rows, now, {}))
  }

  /** A claim of one size, at one instant, with nothing locked and a lease that does not end before it starts. */
  predicate DrainClaim(step: Step, now: Time, limit: int) {
    step.Claim? && step.now == now && step.limit == limit && step.locked == {} && step.leaseExpiresAt >= now
  }

  /** Only such claims, each with tokens uuid4 had never given before. */
  ghost predicate IsDrain(s: State, steps: seq<Step>, now: Time, limit: int) {
    steps == []
    || var before, last := steps[..|steps| - 1], steps[|steps| - 1];
       && IsDrain(s, before, now, limit)
       && DrainClaim(last, now, limit)
       && FreshTokens(Run(s, before), Batch(Run(s, before).rows, now, limit, {}), last.tokens)
  }

  /** The rows the claims of a run handed out, batch after batch. */
  ghost function HandedOut(s: State, steps: seq<Step>): seq<Id> {
    if steps == [] then []
    else
      var before, last := steps[..|steps| - 1], steps[|steps| - 1];
      HandedOut(s, before) + if last.Claim? then Batch(Run(s, before).rows, last.now, last.limit, last.locked) else []
  }

  lemma BatchIsPrefix(s: State, now: Time, limit: int)
    requires limit >= 1
    ensures Batch(s.rows, now, limit, {}) == Ids(Queue(s, now)[..Min(limit, |Queue(s, now)|)])
  {
  }

  lemma InBatch(s: State, now: Time, n: nat, id: Id)
    requires id in s.rows && n <= |Queue(s, now)|
    ensures id in Ids(Queue(s, now)[..n]) <==>
            Publishable(s.rows[id], now) && DueKey(id, s.rows[id]) in Elems(Queue(s, now)[..n])
  {
    var q := Queue(s, now);
    var key := DueKey(id, s.rows[id]);
    if id in Ids(q[..n]) {
      var i :| 0 <= i < n && Ids(q[..n])[i] == id;
      assert q[i] in DueKeys(s.rows, now, {});
      assert q[..n][i] == key;
    }
    if key in Elems(q[..n]) {
      var i :| 0 <= i < n && q[..n][i] == key;
      assert Ids(q[..n])[i] == id;
    }
  }

  lemma ClaimedAreOut(rows: map<Id, Row>, batch: seq<Id>, claim: Step, now: Time, limit: int)
    requires DrainClaim(claim, now, limit) && forall id :: id in batch ==> id in claim.tokens
    ensures var rows' := ClaimedRows(rows, batch, now, claim.leaseExpiresAt, claim.worker, claim.tokens);
            DueKeys(rows', now, {}) == set id | id in rows && id !in batch
                && Publishable(rows[id], now) :: DueKey(id, rows[id])
  {
    var rows' := ClaimedRows(rows, batch, now, claim.leaseExpiresAt, claim.worker, claim.tokens);
    assert rows'.Keys == rows.Keys;
  }

  /** One claim removes exactly its batch from the queue and leaves the order of the rest alone. */
  lemma ClaimDropsBatch(s: State, claim: Step, now: Time, limit: int)
    requires limit >= 1 && DrainClaim(claim, now, limit)
    requires FreshTokens(s, Batch(s.rows, now, limit, {}), claim.tokens)
    ensures Queue(Next(s, claim), now) == Queue(s, now)[Min(limit, |Queue(s, now)|)..]
  {
    var q, n := Queue(s, now), Min(limit, |Queue(s, now)|);
    BatchIsPrefix(s, now, limit);
    var batch := Batch(s.rows, now, limit, {});
    forall id | id in s.rows
      ensures id in batch <==> Publishable(s.rows[id], now) && DueKey(id, s.rows[id]) in Elems(q[..n])
    {
      InBatch(s, now, n, id);
    }
    ClaimedAreOut(s.rows, batch, claim, now, limit);
    assert DueKeys(Next(s, claim).rows, now, {}) == DueKeys(s.rows, now, {}) - Elems(q[..n]);
    SortDrop(DueKeys(s.rows, now, {}), n);
  }

  /** The k claims take the first k * limit rows off the queue. */
  lemma {:induction false} DrainTakes(s: State, steps: seq<Step>, now: Time, limit: int)
    requires limit >= 1 && IsDrain(s, steps, now, limit)
    ensures var q := Queue(s, now);
            var n := Backlog.Taken(|steps|, limit, |q|);
            && HandedOut(s, steps) == Ids(q[..n])
            && Queue(Run(s, steps), now) == q[n..]
  {
    if steps != [] {
      var k := |steps| - 1;
      var t := Run(s, steps[..k]);
      DrainTakes(s, steps[..k], now, limit);
      ClaimDropsBatch(t, steps[k], now, limit);
      BatchIsPrefix(t, now, limit);
      Backlog.TakenSplit(Queue(s, now), k, limit);
    }
  }

  /** The row waits and its time has come, or its lease has run out. */
  predicate Waits(s: State, id: Id, now: Time) {
    && id in s.rows
    && var r := s.rows[id];
       || ((r.status == Pending || r.status == FailedRetryable) && r.nextAttemptAt <= now)
       || (r.status == Publishing && r.leaseExpiresAt.Some? && r.leaseExpiresAt.value < now)
  }

  /** The queue is the waiting rows, each once, by next_attempt_at, created_at and id. */
  lemma QueueMeans(s: State, now: Time)
    ensures var ids := Ids(Queue(s, now));
            && (forall id :: id in ids <==> Waits(s, id, now))
            && (forall i, j :: 0 <= i < j < |ids| ==> Earlier(s.rows, ids[i], ids[j]))
  {
    var q, keys := Queue(s, now), DueKeys(s.rows, now, {});
    forall i | 0 <= i < |q| ensures Waits(s, Ids(q)[i], now) && q[i] == DueKey(Ids(q)[i], s.rows[Ids(q)[i]]) {
      assert q[i] in keys;
    }
    forall id | Waits(s, id, now) ensures id in Ids(q) {
      assert DueKey(id, s.rows[id]) in keys;
      var i :| 0 <= i < |q| && q[i] == DueKey(id, s.rows[id]);
      assert Ids(q)[i] == id;
    }
    forall i, j | 0 <= i < j < |q| ensures Earlier(s.rows, Ids(q)[i], Ids(q)[j]) {
      assert Before(q[i], q[j]);
      KeysEarlier(s.rows, Ids(q)[i], Ids(q)[j]);
    }
  }

  /** `handed` and `left` together list the waiting rows, each once, in that order. */
  ghost predicate InTurn(s: State, handed: seq<Id>, left: seq<Id>, now: Time) {
    && (forall id :: id in handed || id in left <==> Waits(s, id, now))
    && (forall i, j :: 0 <= i < j < |handed| ==> Earlier(s.rows, handed[i], handed[j]))
    && (forall i, j :: 0 <= i < j < |left| ==> Earlier(s.rows, left[i], left[j]))
    && (forall a, b :: a in handed && b in left ==> Earlier(s.rows, a, b))
  }

  lemma SplitInTurn(s: State, n: nat, now: Time)
    requires n <= |Queue(s, now)|
    ensures InTurn(s, Ids(Queue(s, now)[..n]), Ids(Queue(s, now)[n..]), now)
  {
    QueueMeans(s, now);
    var q := Queue(s, now);
    var ids, handed, left := Ids(q), Ids(q[..n]), Ids(q[n..]);
    assert ids == handed + left;
    forall a, b | a in handed && b in left ensures Earlier(s.rows, a, b) {
      var i :| 0 <= i < |handed| && handed[i] == a;
      var j :| 0 <= j < |left| && left[j] == b;
      assert ids[i] == a && ids[n + j] == b;
    }
  }

  /**
   * After k claims the first k * limit waiting rows have been handed out, by next_attempt_at, created_at and then id,
   * each exactly once, and exactly the others still wait, in the same order.
   */
  lemma Drain(s: State, steps: seq<Step>, now: Time, limit: int)
    requires limit >= 1 && IsDrain(s, steps, now, limit)
    ensures var handed, left := HandedOut(s, steps), Ids(Queue(Run(s, steps), now));
            && InTurn(s, handed, left, now)
            && |handed| == Min(|steps| * limit, |handed| + |left|)
            && forall id :: id in left <==> Waits(Run(s, steps), id, now)
  {
    DrainTakes(s, steps, now, limit);
    var n := |Queue(s, now)|;
    Backlog.TakenIs(|steps|, limit, n);
    SplitInTurn(s, Backlog.Taken(|steps|, limit, n), now);
    QueueMeans(Run(s, steps), now);
  }

  /** The outbox is drained after ceil(n / limit) rounds and no earlier, with every publishable row handed out once. */
  lemma DrainsExactly(s: State, steps: seq<Step>, now: Time, limit: int)
    requires limit >= 1 && IsDrain(s, steps, now, limit)
    ensures var q, left := Queue(s, now), Queue(Run(s, steps), now);
            && (left == [] <==> |steps| >= Backlog.CeilDiv(|q|, limit))
            && (left == [] ==> HandedOut(s, steps) == Ids(q))
  {
    DrainTakes(s, steps, now, limit);
    Backlog.AllTaken(Queue(s, now), HandedOut(s, steps), Queue(Run(s, steps), now), |steps|, limit);
  }
}
