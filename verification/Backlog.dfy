/** Draining a backlog: repeated claims at one instant, with nothing new arriving. */
module Backlog {
  import opened Common
  import opened Ordering
  import opened Deliveries
  import Windows

  /** The due rows in claim order. */
  ghost function Queue(t: Table, now: Time, channels: Option<set<Channel>>): seq<Key> {
    Sort(DueKeys(t.rows, now, channels, {}))
  }

  /** A claim of one size, at one instant, with nothing locked and a lease that does not end before it starts. */
  predicate DrainClaim(step: Step, now: Time, limit: int, channels: Option<set<Channel>>) {
    step.Claim? && step.now == now && step.limit == limit && step.channels == channels && step.locked == {}
        && step.lease >= 0
  }

  /** Only such claims, each with tokens uuid4 had never given before. */
  ghost predicate IsDrain(t: Table, steps: seq<Step>, now: Time, limit: int, channels: Option<set<Channel>>) {
    steps == []
    || var before := steps[..|steps| - 1];
       var last := steps[|steps| - 1];
       var s := Run(t, before);
       && IsDrain(t, before, now, limit, channels)
       && DrainClaim(last, now, limit, channels)
       && FreshTokens(s, Batch(s.rows, now, limit, channels, {}), last.tokens)
  }

  /** The rows the claims of a run handed out, batch after batch. */
  ghost function HandedOut(t: Table, steps: seq<Step>): seq<Id> {
    if steps == [] then []
    else
      var before := steps[..|steps| - 1];
      var last := steps[|steps| - 1];
      HandedOut(t, before)
      + if last.Claim? then Batch(Run(t, before).rows, last.now, last.limit, last.channels, last.locked) else []
  }

  lemma BatchIsPrefix(t: Table, now: Time, limit: int, channels: Option<set<Channel>>)
    requires limit >= 1
    ensures var q := Queue(t, now, channels);
            Batch(t.rows, now, limit, channels, {}) == Ids(q[..Min(limit, |q|)])
  {
  }

  /** One claim removes exactly its batch from the queue and leaves the order of the rest alone. */
  lemma ClaimDropsBatch(t: Table, claim: Step, now: Time, limit: int, channels: Option<set<Channel>>)
    requires limit >= 1 && DrainClaim(claim, now, limit, channels)
    requires FreshTokens(t, Batch(t.rows, now, limit, channels, {}), claim.tokens)
    ensures var q := Queue(t, now, channels);
            Queue(Next(t, claim), now, channels) == q[Min(limit, |q|)..]
  {
    var q := Queue(t, now, channels);
    var n := Min(limit, |q|);
    BatchIsPrefix(t, now, limit, channels);
    var batch := Ids(q[..n]);
    var t' := Next(t, claim);
    forall id | id in t.rows
      ensures id in batch <==> Due(t.rows[id].row, now, channels) && DueKey(id, t.rows[id].row) in Elems(q[..n])
    {
      InBatch(t, now, channels, n, id);
    }
    assert DueKeys(t'.rows, now, channels, {}) == DueKeys(t.rows, now, channels, {}) - Elems(q[..n]);
    SortDrop(DueKeys(t.rows, now, channels, {}), n);
  }

  lemma InBatch(t: Table, now: Time, channels: Option<set<Channel>>, n: nat, id: Id)
    requires id in t.rows && n <= |Queue(t, now, channels)|
    ensures id in Ids(Queue(t, now, channels)[..n]) <==>
            Due(t.rows[id].row, now, channels) && DueKey(id, t.rows[id].row) in Elems(Queue(t, now, channels)[..n])
  {
    var q := Queue(t, now, channels);
    var key := DueKey(id, t.rows[id].row);
    if id in Ids(q[..n]) {
      var i :| 0 <= i < n && Ids(q[..n])[i] == id;
      assert q[i] in DueKeys(t.rows, now, channels, {});
      assert q[..n][i] == key;
    }
    if key in Elems(q[..n]) {
      var i :| 0 <= i < n && q[..n][i] == key;
      assert Ids(q[..n])[i] == id;
    }
  }

  function CeilDiv(n: nat, limit: int): nat
    requires limit >= 1
  {
    (n + limit - 1) / limit
  }

  lemma Quotient(x: nat, limit: int)
    requires limit >= 1
    ensures x / limit * limit <= x < (x / limit + 1) * limit
  {
  }

  lemma Rounds(k: nat, n: nat, limit: int)
    requires limit >= 1
    ensures k * limit >= n <==> k >= CeilDiv(n, limit)
  {
    var c := CeilDiv(n, limit);
    Quotient(n + limit - 1, limit);
    assert (c + 1) * limit == c * limit + limit;
    if k >= c {
      Windows.Multiples(c, k, limit);
    } else {
      Windows.Multiples(k + 1, c, limit);
      assert (k + 1) * limit == k * limit + limit;
    }
  }

  /** How many of n waiting rows k claims of one size hand out. */
  function Taken(k: nat, limit: int, n: nat): (r: nat)
    requires limit >= 1
    ensures r <= n
  {
    if k == 0 then 0 else Taken(k - 1, limit, n) + Min(limit, n - Taken(k - 1, limit, n))
  }

  lemma {:induction false} TakenIs(k: nat, limit: int, n: nat)
    requires limit >= 1
    ensures Taken(k, limit, n) == Min(k * limit, n)
  {
    if k > 0 {
      TakenIs(k - 1, limit, n);
      assert k * limit == (k - 1) * limit + limit;
    }
  }

  /** One more claim moves `limit` rows from the front of what is left to the end of what was handed out. */
  lemma TakenSplit(q: seq<Key>, k: nat, limit: int)
    requires limit >= 1
    ensures var m, n := Taken(k, limit, |q|), Taken(k + 1, limit, |q|);
            var left := q[m..];
            && Ids(q[..m]) + Ids(left[..Min(limit, |left|)]) == Ids(q[..n])
            && left[Min(limit, |left|)..] == q[n..]
  {
  }

  lemma AllTaken(q: seq<Key>, handed: seq<Id>, left: seq<Key>, k: nat, limit: int)
    requires limit >= 1
    requires handed == Ids(q[..Taken(k, limit, |q|)]) && left == q[Taken(k, limit, |q|)..]
    ensures left == [] <==> k >= CeilDiv(|q|, limit)
    ensures left == [] ==> handed == Ids(q)
  {
    TakenIs(k, limit, |q|);
    Rounds(k, |q|, limit);
    assert |left| == |q| - Taken(k, limit, |q|);
    if left == [] { assert q[..Taken(k, limit, |q|)] == q; }
  }

  /** The k claims take the first k * limit rows off the queue. */
  lemma {:induction false} DrainTakes(t: Table, steps: seq<Step>, now: Time, limit: int, channels: Option<set<Channel>>)
    requires limit >= 1 && IsDrain(t, steps, now, limit, channels)
    ensures var q := Queue(t, now, channels);
            var n := Taken(|steps|, limit, |q|);
            && HandedOut(t, steps) == Ids(q[..n])
            && Queue(Run(t, steps), now, channels) == q[n..]
  {
    var q := Queue(t, now, channels);
    if steps == [] {
    } else {
      var k := |steps| - 1;
      DrainTakes(t, steps[..k], now, limit, channels);
      var s := Run(t, steps[..k]);
      ClaimDropsBatch(s, steps[k], now, limit, channels);
      BatchIsPrefix(s, now, limit, channels);
      TakenSplit(q, k, limit);
    }
  }

  /** The row waits and its time has come, or its lease has run out, and it is for one of these channels. */
  predicate Waits(t: Table, id: Id, now: Time, channels: Option<set<Channel>>) {
    && id in t.rows && (channels.Some? ==> t.rows[id].row.channel in channels.value)
    && var d := t.rows[id].row;
       || ((d.status == Pending || d.status == ReplayRequested || d.status == FailedRetryable)
           && d.nextAttemptAt <= now)
       || (d.status == Processing && d.leaseExpiresAt.Some? && d.leaseExpiresAt.value < now)
  }

  /** The queue is the waiting rows, each once, by next_attempt_at and id. */
  lemma QueueMeans(t: Table, now: Time, channels: Option<set<Channel>>)
    ensures var ids := Ids(Queue(t, now, channels));
            && (forall id :: id in ids <==> Waits(t, id, now, channels))
            && (forall i, j :: 0 <= i < j < |ids| ==> Earlier(t.rows, ids[i], ids[j]))
  {
    var q := Queue(t, now, channels);
    var keys := DueKeys(t.rows, now, channels, {});
    forall i | 0 <= i < |q| ensures Ids(q)[i] in t.rows && q[i] == DueKey(Ids(q)[i], t.rows[Ids(q)[i]].row)
      ensures Waits(t, Ids(q)[i], now, channels)
    {
      assert q[i] in keys;
    }
    forall id | Waits(t, id, now, channels) ensures id in Ids(q) {
      assert DueKey(id, t.rows[id].row) in keys;
      var i :| 0 <= i < |q| && q[i] == DueKey(id, t.rows[id].row);
      assert Ids(q)[i] == id;
    }
    forall i, j | 0 <= i < j < |q| ensures Earlier(t.rows, Ids(q)[i], Ids(q)[j]) {
      assert Before(q[i], q[j]);
      KeysEarlier(t.rows, Ids(q)[i], Ids(q)[j]);
    }
  }

  /** `handed` and `left` together list the waiting rows, each once, by next_attempt_at and id. */
  ghost predicate InTurn(t: Table, handed: seq<Id>, left: seq<Id>, now: Time, channels: Option<set<Channel>>) {
    && (forall id :: id in handed || id in left <==> Waits(t, id, now, channels))
    && (forall i, j :: 0 <= i < j < |handed| ==> Earlier(t.rows, handed[i], handed[j]))
    && (forall i, j :: 0 <= i < j < |left| ==> Earlier(t.rows, left[i], left[j]))
    && (forall a, b :: a in handed && b in left ==> Earlier(t.rows, a, b))
  }

  lemma OrderSplits(t: Table, handed: seq<Id>, left: seq<Id>)
    requires forall i, j :: 0 <= i < j < |handed + left| ==> Earlier(t.rows, (handed + left)[i], (handed + left)[j])
    ensures forall i, j :: 0 <= i < j < |handed| ==> Earlier(t.rows, handed[i], handed[j])
    ensures forall i, j :: 0 <= i < j < |left| ==> Earlier(t.rows, left[i], left[j])
    ensures forall a, b :: a in handed && b in left ==> Earlier(t.rows, a, b)
  {
    var ids, n := handed + left, |handed|;
    forall i, j | 0 <= i < j < |handed| ensures Earlier(t.rows, handed[i], handed[j]) {
      assert Earlier(t.rows, ids[i], ids[j]);
    }
    forall i, j | 0 <= i < j < |left| ensures Earlier(t.rows, left[i], left[j]) {
      assert Earlier(t.rows, ids[n + i], ids[n + j]);
    }
    forall a, b | a in handed && b in left ensures Earlier(t.rows, a, b) {
      var i :| 0 <= i < |handed| && handed[i] == a;
      var j :| 0 <= j < |left| && left[j] == b;
      assert Earlier(t.rows, ids[i], ids[n + j]);
    }
  }

  lemma SplitInTurn(t: Table, n: nat, now: Time, channels: Option<set<Channel>>)
    requires n <= |Queue(t, now, channels)|
    ensures var q := Queue(t, now, channels); InTurn(t, Ids(q[..n]), Ids(q[n..]), now, channels)
  {
    QueueMeans(t, now, channels);
    var q := Queue(t, now, channels);
    var handed, left := Ids(q[..n]), Ids(q[n..]);
    assert Ids(q) == handed + left;
    OrderSplits(t, handed, left);
  }

  /**
   * After k claims the first k * limit waiting rows have been handed out, by next_attempt_at and then id, each exactly
   * once, and exactly the others still wait, in the same order.
   */
  lemma Drain(t: Table, steps: seq<Step>, now: Time, limit: int, channels: Option<set<Channel>>)
    requires limit >= 1 && IsDrain(t, steps, now, limit, channels)
    ensures var handed, left := HandedOut(t, steps), Ids(Queue(Run(t, steps), now, channels));
            && InTurn(t, handed, left, now, channels)
            && |handed| == Min(|steps| * limit, |handed| + |left|)
            && forall id :: id in left <==> Waits(Run(t, steps), id, now, channels)
  {
    DrainTakes(t, steps, now, limit, channels);
    var n := |Queue(t, now, channels)|;
    TakenIs(|steps|, limit, n);
    SplitInTurn(t, Taken(|steps|, limit, n), now, channels);
    QueueMeans(Run(t, steps), now, channels);
  }

  /** The backlog is empty after ceil(n / limit) rounds and no earlier, with every due row handed out once. */
  lemma DrainsExactly(t: Table, steps: seq<Step>, now: Time, limit: int, channels: Option<set<Channel>>)
    requires limit >= 1 && IsDrain(t, steps, now, limit, channels)
    ensures var n := |Queue(t, now, channels)|;
            var left := Queue(Run(t, steps), now, channels);
            && (left == [] <==> |steps| >= CeilDiv(n, limit))
            && (left == [] ==> HandedOut(t, steps) == Ids(Queue(t, now, channels)))
  {
    DrainTakes(t, steps, now, limit, channels);
    AllTaken(Queue(t, now, channels), HandedOut(t, steps), Queue(Run(t, steps), now, channels), |steps|, limit);
  }

}
