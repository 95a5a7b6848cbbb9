/** Fixed windows: the bucket of time a deduplication hash or a quota counter belongs to. */
module Windows {
  import opened Common

  const SECOND := 1_000_000

  /** `int(now.timestamp())` truncates toward zero. */
  function EpochSeconds(now: Time): int {
    if now >= 0 then now / SECOND else -((-now) / SECOND)
  }

  /** A window is a positive whole number of seconds. */
  predicate ValidWindow(window: Time) {
    window > 0 && window % SECOND == 0
  }

  /** Python's % takes the sign of the divisor, as Dafny's does for a positive one. */
  function WindowStart(now: Time, window: Time): Time
    requires ValidWindow(window)
  {
    var seconds := window / SECOND;
    (EpochSeconds(now) - EpochSeconds(now) % seconds) * SECOND
  }

  /** Before 1970 a fraction of a second is rounded up, and at a window's last fraction that is into the next window. */
  predicate RoundsIntoNextWindow(now: Time, window: Time)
    requires ValidWindow(window)
  {
    now < 0 && now % SECOND != 0 && EpochSeconds(now) % (window / SECOND) == 0
  }

  lemma EpochBounds(now: Time)
    ensures now >= 0 ==> EpochSeconds(now) * SECOND <= now < EpochSeconds(now) * SECOND + SECOND
    ensures now < 0 ==> EpochSeconds(now) * SECOND - SECOND < now <= EpochSeconds(now) * SECOND
    ensures now < 0 ==> (now % SECOND == 0 <==> now == EpochSeconds(now) * SECOND)
  {
  }

  /**
   * The start of the bucket is a multiple of the window, in whole seconds, at most one window before the second in
   * hand.
   */
  lemma StartBounds(now: Time, window: Time)
    requires ValidWindow(window)
    ensures WindowStart(now, window) <= EpochSeconds(now) * SECOND <= WindowStart(now, window) + window - SECOND
    ensures WindowStart(now, window) == EpochSeconds(now) * SECOND <==> EpochSeconds(now) % (window / SECOND) == 0
  {
  }

  /** An instant lies in its own window exactly unless the truncation before 1970 pushed it into the next. */
  lemma WindowContains(now: Time, window: Time)
    requires ValidWindow(window)
    ensures WindowStart(now, window) <= now < WindowStart(now, window) + window <==> !RoundsIntoNextWindow(now, window)
    ensures RoundsIntoNextWindow(now, window) ==> now < WindowStart(now, window) < now + SECOND
  {
  }

  /** One microsecond before 1970 counts in the minute that starts at 1970. */
  lemma LastMicrosecondBefore1970()
    ensures WindowStart(-1, 60 * SECOND) == 0 && RoundsIntoNextWindow(-1, 60 * SECOND)
  {
    assert EpochSeconds(-1) == 0;
  }

  /** Later instants never fall into earlier windows. */
  lemma StartMonotone(a: Time, b: Time, window: Time)
    requires ValidWindow(window) && a <= b
    ensures WindowStart(a, window) <= WindowStart(b, window)
  {
    EpochMonotone(a, b);
    FloorMonotone(EpochSeconds(a), EpochSeconds(b), window / SECOND);
  }

  lemma EpochMonotone(a: Time, b: Time)
    requires a <= b
    ensures EpochSeconds(a) <= EpochSeconds(b)
  {
  }

  lemma Multiples(i: int, j: int, w: int)
    requires w > 0
    ensures i <= j ==> i * w <= j * w
    ensures i < j ==> i * w + w <= j * w
  {
    assert (j - i) * w == j * w - i * w;
    assert (j - i - 1) * w == j * w - i * w - w;
  }

  lemma FloorMonotone(x: int, y: int, w: int)
    requires w > 0 && x <= y
    ensures x - x % w <= y - y % w
  {
    var p, q := x / w, y / w;
    assert x == p * w + x % w && y == q * w + y % w;
    Multiples(p, q, w);
    Multiples(q, p, w);
  }

  lemma FloorsApart(x: int, y: int, w: int)
    requires w > 0 && x - x % w < y - y % w
    ensures x - x % w + w <= y - y % w
  {
    var p, q := x / w, y / w;
    assert x == p * w + x % w && y == q * w + y % w;
    Multiples(p, q, w);
    Multiples(q, p, w);
  }

  /** Distinct window starts are at least a whole window apart. */
  lemma StartsApart(a: Time, b: Time, window: Time)
    requires ValidWindow(window) && WindowStart(a, window) < WindowStart(b, window)
    ensures WindowStart(a, window) + window <= WindowStart(b, window)
  {
    FloorsApart(EpochSeconds(a), EpochSeconds(b), window / SECOND);
  }
}
