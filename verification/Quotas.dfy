/** Producer quotas: a counter per source and fixed window, incremented by one atomic upsert per request. */
module Quotas {
  import opened Common
  import opened Windows

  datatype Slot = Slot(source: string, windowStart: Time)

  datatype Rejected = Rejected(retryAfterSeconds: int)

  /** A request as it reaches the counter: calls commit in some order, each with the clock its process read. */
  datatype Call = Call(source: string, now: Time)

  function SlotOf(c: Call, window: Time): Slot
    requires ValidWindow(window)
  {
    Slot(c.source, WindowStart(c.now, window))
  }

  /** How many of the calls counted in a slot. */
  function CallsIn(calls: seq<Call>, slot: Slot, window: Time): nat
    requires ValidWindow(window)
  {
    if calls == [] then 0
    else CallsIn(calls[..|calls| - 1], slot, window) + if SlotOf(calls[|calls| - 1], window) == slot then 1 else 0
  }

  /** The i-th call succeeds if, counting itself, its slot holds no more than the limit. */
  predicate Admitted(calls: seq<Call>, i: nat, limit: int, window: Time)
    requires ValidWindow(window) && i < |calls|
  {
    CallsIn(calls[..i + 1], SlotOf(calls[i], window), window) <= limit
  }

  function AdmittedIn(calls: seq<Call>, slot: Slot, limit: int, window: Time): nat
    requires ValidWindow(window)
  {
    if calls == [] then 0
    else AdmittedIn(calls[..|calls| - 1], slot, limit, window)
         + if SlotOf(calls[|calls| - 1], window) == slot && Admitted(calls, |calls| - 1, limit, window) then 1 else 0
  }

  function Ceil(us: int): int { -((-us) / SECOND) }

  function RetryAfter(now: Time, window: Time): int
    requires ValidWindow(window)
  {
    var s := Ceil(WindowStart(now, window) + window - now);
    if s < 1 then 1 else s
  }

  // ----- the repository and the service ----------------------------------------------------------

  class ProducerQuotaRepository {
    var counts: map<Slot, nat>

    constructor ()
      ensures counts == map[]
    {
      counts := map[];
    }

    /** INSERT ... ON CONFLICT DO UPDATE SET request_count = request_count + 1 RETURNING request_count. */
    method Increment(slot: Slot) returns (count: nat)
      modifies this
      ensures count == (if slot in old(counts) then old(counts)[slot] else 0) + 1
      ensures counts == old(counts)[slot := count]
    {
      if slot in counts {
        count := counts[slot] + 1;
      } else {
        count := 1;
      }
      counts := counts[slot := count];
    }

    /** The table counts these calls and nothing else. */
    ghost predicate CountsCalls(calls: seq<Call>, window: Time)
      requires ValidWindow(window)
      reads this
    {
      forall slot :: (if slot in counts then counts[slot] else 0) == CallsIn(calls, slot, window)
    }
  }

  class ProducerQuotaService {
    const limit: int
    const window: Time

    constructor (limit: int, window: Time)
      requires limit > 0 && ValidWindow(window)
      ensures this.limit == limit && this.window == window
    {
      this.limit, this.window := limit, window;
    }

    /** After the calls so far, the next one succeeds or is told when to come back. */
    method Consume(quotas: ProducerQuotaRepository, source: string, now: Time, ghost calls: seq<Call>)
      returns (r: Result<(), Rejected>)
      requires limit > 0 && ValidWindow(window) && quotas.CountsCalls(calls, window)
      modifies quotas
      ensures quotas.CountsCalls(calls + [Call(source, now)], window)
      ensures r.Ok? <==> Succeeds(calls + [Call(source, now)], |calls|, limit, window)
      ensures r.Err? ==> r.error.retryAfterSeconds == RetryAfter(now, window)
      ensures r.Err? ==>
                && var wait, next := r.error.retryAfterSeconds, WindowStart(now, window) + window;
                   1 <= wait && now + wait * SECOND >= next && (wait == 1 || now + (wait - 1) * SECOND < next)
    {
      var windowSeconds := window / SECOND;
      var epochSeconds := EpochSeconds(now);
      var windowStart := (epochSeconds - epochSeconds % windowSeconds) * SECOND;
      ghost var all := calls + [Call(source, now)];
      assert all[..|calls|] == calls && all[..|calls| + 1] == all;
      AdmittedIffSucceeds(all, |calls|, limit, window);
      var count := quotas.Increment(Slot(source, windowStart));
      if count > limit {
        var wait := Ceil(windowStart + window - now);
        return Err(Rejected(if wait < 1 then 1 else wait));
      }
      return Ok(());
    }
  }

  // ----- properties ------------------------------------------------------------------------------

  /** The calls of one source whose clock falls into the window that starts at `start`, by position. */
  function CallsOf(calls: seq<Call>, source: string, start: Time, window: Time): set<nat>
    requires ValidWindow(window)
  {
    set i: nat | i < |calls| && calls[i].source == source && WindowStart(calls[i].now, window) == start
  }

  /** The i-th call found, with itself, at most `limit` calls of its source in its window. */
  predicate Succeeds(calls: seq<Call>, i: nat, limit: int, window: Time)
    requires ValidWindow(window) && i < |calls|
  {
    |CallsOf(calls[..i + 1], calls[i].source, WindowStart(calls[i].now, window), window)| <= limit
  }

  lemma CallsGrow(calls: seq<Call>, source: string, start: Time, window: Time, n: nat)
    requires ValidWindow(window) && |calls| == n + 1
    ensures CallsOf(calls, source, start, window)
            == CallsOf(calls[..n], source, start, window)
               + if n in CallsOf(calls, source, start, window) then {n} else {}
  {
    var all, before := CallsOf(calls, source, start, window), CallsOf(calls[..n], source, start, window);
    forall i: nat | i < n ensures i in before <==> i in all {
      assert calls[..n][i] == calls[i];
    }
    forall i | i in all && i != n ensures i in before {}
  }

  lemma {:induction false} CallsInCounts(calls: seq<Call>, source: string, start: Time, window: Time)
    requires ValidWindow(window)
    ensures CallsIn(calls, Slot(source, start), window) == |CallsOf(calls, source, start, window)|
  {
    if calls != [] {
      var n := |calls| - 1;
      CallsInCounts(calls[..n], source, start, window);
      CallsGrow(calls, source, start, window, n);
      assert n in CallsOf(calls, source, start, window) <==> SlotOf(calls[n], window) == Slot(source, start);
    }
  }

  lemma AdmittedIffSucceeds(calls: seq<Call>, i: nat, limit: int, window: Time)
    requires ValidWindow(window) && i < |calls|
    ensures Admitted(calls, i, limit, window) <==> Succeeds(calls, i, limit, window)
  {
    CallsInCounts(calls[..i + 1], calls[i].source, WindowStart(calls[i].now, window), window);
  }

  lemma SucceedsByPrefix(calls: seq<Call>, n: nat, i: nat, limit: int, window: Time)
    requires ValidWindow(window) && i < n <= |calls|
    ensures Succeeds(calls[..n], i, limit, window) <==> Succeeds(calls, i, limit, window)
  {
    assert calls[..n][..i + 1] == calls[..i + 1];
  }

  /** The calls of a slot that succeed, by position. */
  function SuccessesOf(calls: seq<Call>, source: string, start: Time, limit: int, window: Time): set<nat>
    requires ValidWindow(window)
  {
    set i: nat | i < |calls| && calls[i].source == source && WindowStart(calls[i].now, window) == start
                 && Succeeds(calls, i, limit, window)
  }

  lemma SuccessesGrow(calls: seq<Call>, source: string, start: Time, limit: int, window: Time, n: nat)
    requires ValidWindow(window) && |calls| == n + 1
    ensures SuccessesOf(calls, source, start, limit, window)
            == SuccessesOf(calls[..n], source, start, limit, window)
               + if n in SuccessesOf(calls, source, start, limit, window) then {n} else {}
  {
    var all, before := SuccessesOf(calls, source, start, limit, window),
                       SuccessesOf(calls[..n], source, start, limit, window);
    forall i: nat | i < n ensures i in before <==> i in all {
      SucceedsByPrefix(calls, n, i, limit, window);
    }
    forall i | i in all && i != n ensures i in before {}
  }

  lemma {:induction false} AdmittedInCounts(calls: seq<Call>, source: string, start: Time, limit: int, window: Time)
    requires ValidWindow(window)
    ensures AdmittedIn(calls, Slot(source, start), limit, window)
            == |SuccessesOf(calls, source, start, limit, window)|
  {
    if calls != [] {
      var n := |calls| - 1;
      AdmittedInCounts(calls[..n], source, start, limit, window);
      AdmittedIffSucceeds(calls, n, limit, window);
      SuccessesGrow(calls, source, start, limit, window, n);
    }
  }

  lemma {:induction false} AdmittedIsMin(calls: seq<Call>, slot: Slot, limit: int, window: Time)
    requires ValidWindow(window) && limit >= 0
    ensures var n := CallsIn(calls, slot, window);
            AdmittedIn(calls, slot, limit, window) == if n <= limit then n else limit
  {
    if calls != [] {
      AdmittedIsMin(calls[..|calls| - 1], slot, limit, window);
      assert calls[..|calls| - 1 + 1] == calls;
    }
  }

  /** Of n requests of one source in one window, in any commit order, exactly min(n, limit) succeed. */
  lemma ExactlyMin(calls: seq<Call>, source: string, start: Time, limit: int, window: Time)
    requires ValidWindow(window) && limit >= 0
    ensures var n := |CallsOf(calls, source, start, window)|;
            |SuccessesOf(calls, source, start, limit, window)| == if n <= limit then n else limit
  {
    CallsInCounts(calls, source, start, window);
    AdmittedInCounts(calls, source, start, limit, window);
    AdmittedIsMin(calls, Slot(source, start), limit, window);
  }

  /** Any span of one window's length meets at most two windows: that of its first instant, and the one after. */
  lemma AtMostTwoWindows(from: Time, now: Time, window: Time)
    requires ValidWindow(window) && from <= now < from + window
    ensures var first := WindowStart(from, window);
            WindowStart(now, window) == first || WindowStart(now, window) == first + window
  {
    var first, s := WindowStart(from, window), WindowStart(now, window);
    StartMonotone(from, now, window);
    EpochBounds(from);
    EpochBounds(now);
    StartBounds(from, window);
    StartBounds(now, window);
    if first < s { StartsApart(from, now, window); }
    StartsAreMultiples(first, s, from, now, window);
  }

  lemma StartsAreMultiples(first: Time, s: Time, from: Time, now: Time, window: Time)
    requires ValidWindow(window) && first == WindowStart(from, window) && s == WindowStart(now, window)
    ensures s > first + window ==> s >= first + 2 * window
  {
    var w := window / SECOND;
    var x, y := EpochSeconds(from), EpochSeconds(now);
    var p, q := x / w, y / w;
    assert x - x % w == p * w && y - y % w == q * w;
    MultiplesApart(p, q, w);
  }

  lemma MultiplesApart(p: int, q: int, w: int)
    requires w > 0
    ensures q * w > p * w + w ==> q * w >= p * w + 2 * w
  {
    Multiples(q, p + 1, w);
    Multiples(p + 1, q, w);
    assert (p + 1) * w == p * w + w;
  }

  lemma {:induction false} CountUnion(all: set<nat>, a: set<nat>, b: set<nat>)
    requires all <= a + b
    ensures |all| <= |a| + |b|
  {
    if all != {} {
      var x :| x in all;
      CountUnion(all - {x}, a - {x}, b - {x});
    }
  }

  lemma DuringIsInTwoWindows(calls: seq<Call>, source: string, from: Time, limit: int, window: Time, i: nat)
    requires ValidWindow(window) && i < |calls| && calls[i].source == source
    requires from <= calls[i].now < from + window && Succeeds(calls, i, limit, window)
    ensures var first := WindowStart(from, window);
            || i in SuccessesOf(calls, source, first, limit, window)
            || i in SuccessesOf(calls, source, first + window, limit, window)
  {
    AtMostTwoWindows(from, calls[i].now, window);
  }

  lemma AtMostLimit(calls: seq<Call>, source: string, start: Time, limit: int, window: Time)
    requires ValidWindow(window) && limit >= 0
    ensures |SuccessesOf(calls, source, start, limit, window)| <= limit
  {
    ExactlyMin(calls, source, start, limit, window);
  }

  lemma TwoSets(all: set<nat>, a: set<nat>, b: set<nat>, limit: int)
    requires all <= a + b && |a| <= limit && |b| <= limit
    ensures |all| <= 2 * limit
  {
    CountUnion(all, a, b);
  }

  lemma SpanWithin(calls: seq<Call>, source: string, from: Time, limit: int, window: Time, span: set<nat>)
    requires ValidWindow(window)
    requires forall i :: i in span ==>
               i < |calls| && calls[i].source == source && from <= calls[i].now < from + window
               && Succeeds(calls, i, limit, window)
    ensures var first := WindowStart(from, window);
            span <= SuccessesOf(calls, source, first, limit, window)
                    + SuccessesOf(calls, source, first + window, limit, window)
  {
    forall i | i in span
      ensures i in SuccessesOf(calls, source, WindowStart(from, window), limit, window)
                   + SuccessesOf(calls, source, WindowStart(from, window) + window, limit, window)
    {
      DuringIsInTwoWindows(calls, source, from, limit, window, i);
    }
  }

  lemma BothAtMostLimit(calls: seq<Call>, source: string, first: Time, limit: int, window: Time)
    requires ValidWindow(window) && limit >= 0
    ensures |SuccessesOf(calls, source, first, limit, window)| <= limit
    ensures |SuccessesOf(calls, source, first + window, limit, window)| <= limit
  {
    AtMostLimit(calls, source, first, limit, window);
    AtMostLimit(calls, source, first + window, limit, window);
  }

  /** No span of one window's length, wherever it starts, admits more than twice the limit. */
  lemma BurstBound(calls: seq<Call>, source: string, from: Time, limit: int, window: Time, span: set<nat>)
    requires ValidWindow(window) && limit >= 0
    requires forall i :: i in span ==>
               i < |calls| && calls[i].source == source && from <= calls[i].now < from + window
               && Succeeds(calls, i, limit, window)
    ensures |span| <= 2 * limit
  {
    var first := WindowStart(from, window);
    SpanWithin(calls, source, from, limit, window, span);
    BothAtMostLimit(calls, source, first, limit, window);
    TwoSets(span, SuccessesOf(calls, source, first, limit, window),
            SuccessesOf(calls, source, first + window, limit, window), limit);
  }

  /** A caller rejected one microsecond before 1970 is told to wait 61 seconds for a one-minute window. */
  lemma WaitsLongerThanAWindow()
    ensures RetryAfter(-1, 60 * SECOND) == 61
  {
    LastMicrosecondBefore1970();
    assert 60_000_001 == 60 * SECOND + 1;
  }

  /**
   * A rejected caller is told to wait at least a second and long enough to reach the next window, and no second
   * longer. It is never told to wait more than a window unless the clock, before 1970, was rounded into the
   * window it was counted in.
   */
  lemma RetryReachesNextWindow(now: Time, window: Time)
    requires ValidWindow(window)
    ensures var r, next := RetryAfter(now, window), WindowStart(now, window) + window;
            && 1 <= r && now + r * SECOND >= next && (r == 1 || now + (r - 1) * SECOND < next)
            && (r <= window / SECOND <==> !RoundsIntoNextWindow(now, window))
  {
  }
}
