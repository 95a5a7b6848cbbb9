/**
 * What a walk over the unread notifications misses. A row leaves the list when it is read, so one that was listed at
 * the first request may be gone when its page comes; this is exactly when it is missed.
 */
module UnreadWalks {
  import opened Common
  import opened Ordering
  import opened Deliveries
  import opened DeliveryRuns
  import opened Paging

  /** The pages asked for so far have not passed k. */
  predicate ToCome(w: Walk, k: Key) {
    !w.ended && (w.cursor.Some? ==> Before(k, w.cursor.value))
  }

  /** The j-th page is the one k would be on: it is still to come before that page and not after. */
  ghost predicate Turn(t: Table, userId: Id, visits: seq<Visit>, j: nat, k: Key) {
    && j < |visits|
    && ToCome(Follow(t, userId, OnlyUnread, visits[..j]), k)
    && !ToCome(Follow(t, userId, OnlyUnread, visits[..j + 1]), k)
  }

  /** The rows as the j-th request sees them. */
  ghost function SeenAt(t: Table, userId: Id, visits: seq<Visit>, j: nat): map<Id, Tracked>
    requires j < |visits|
  {
    Follow(t, userId, OnlyUnread, visits[..j + 1]).table.rows
  }

  lemma UnreadIsListed(rows: map<Id, Tracked>, userId: Id, k: Key)
    requires k in Listed(rows, userId, All)
    ensures k in Listed(rows, userId, OnlyUnread) <==> !WasRead(rows, k.id)
  {
    var id :| id in rows && Shows(rows, id, userId, All) && RowKey(rows, id) == k;
    if !WasRead(rows, id) { assert Shows(rows, id, userId, OnlyUnread); }
  }

  lemma LastIsOldest(q: seq<Key>, k: Key)
    requires Descending(q) && k in q
    ensures !Before(k, q[|q| - 1])
  {
  }

  lemma ToComeIsNotYet(w: Walk, userId: Id, k: Key)
    requires WalkOk(w, userId) && ToCome(w, k)
    ensures k !in w.items
  {
    if k in w.items && w.cursor.Some? { LastIsOldest(w.items, k); }
  }

  /** A page that follows the cursor holds nothing that was passed before, and ends before it. */
  lemma PageIsPast(rows: map<Id, Tracked>, userId: Id, limit: nat, cursor: Key, k: Key)
    requires limit >= 1 && !Before(k, cursor)
    ensures var p := GetPage(rows, userId, OnlyUnread, limit, Some(cursor));
            k !in p.items && (p.next.Some? ==> !Before(k, p.next.value))
  {
    PageMeans(rows, userId, OnlyUnread, limit, Some(cursor));
    var s := Older(Listed(rows, userId, OnlyUnread), Some(cursor));
    var p := GetPage(rows, userId, OnlyUnread, limit, Some(cursor));
    forall x | x in p.items ensures Before(x, cursor) { assert x in Newest(s); }
    if p.next.Some? {
      assert p.items[|p.items| - 1] in p.items;
      assert Before(p.next.value, cursor);
    }
  }

  lemma PagePasses(w: Walk, v: Visit, userId: Id, k: Key)
    requires WalkOk(w, userId) && v.limit >= 1 && !ToCome(w, k)
    ensures var w' := Visited(w, v, userId, OnlyUnread); !ToCome(w', k) && (k in w'.items <==> k in w.items)
  {
    if !w.ended { PageIsPast(Visited(w, v, userId, OnlyUnread).table.rows, userId, v.limit, w.cursor.value, k); }
  }

  /** The page whose turn it is has k exactly if it is still unread. */
  lemma PageHolds(w: Walk, v: Visit, userId: Id, k: Key)
    requires WalkOk(w, userId) && v.limit >= 1 && ToCome(w, k)
    requires var w' := Visited(w, v, userId, OnlyUnread); k in Listed(w'.table.rows, userId, All) && !ToCome(w', k)
    ensures var w' := Visited(w, v, userId, OnlyUnread); k in w'.items <==> !WasRead(w'.table.rows, k.id)
  {
    var rows := Visited(w, v, userId, OnlyUnread).table.rows;
    UnreadIsListed(rows, userId, k);
    PageMeans(rows, userId, OnlyUnread, v.limit, w.cursor);
    ToComeIsNotYet(w, userId, k);
    var s := Older(Listed(rows, userId, OnlyUnread), w.cursor);
    assert k in GetPage(rows, userId, OnlyUnread, v.limit, w.cursor).items ==> k in Newest(s);
  }

  ghost predicate OnlyTurn(t: Table, userId: Id, visits: seq<Visit>, j: nat, k: Key) {
    Turn(t, userId, visits, j, k) && forall i :: Turn(t, userId, visits, i, k) ==> i == j
  }

  /** Up to any point of the walk k is still to come, or had its turn and was returned exactly if it was unread then. */
  ghost predicate Decided(t: Table, userId: Id, visits: seq<Visit>, j: nat, k: Key) {
    && !ToCome(Follow(t, userId, OnlyUnread, visits), k)
    && OnlyTurn(t, userId, visits, j, k)
    && (k in Follow(t, userId, OnlyUnread, visits).items <==> !WasRead(SeenAt(t, userId, visits, j), k.id))
  }

  lemma TurnsBefore(t: Table, userId: Id, visits: seq<Visit>, k: Key, i: nat)
    requires i + 1 < |visits|
    ensures Turn(t, userId, visits, i, k) <==> Turn(t, userId, visits[..|visits| - 1], i, k)
    ensures SeenAt(t, userId, visits, i) == SeenAt(t, userId, visits[..|visits| - 1], i)
  {
    var before := visits[..|visits| - 1];
    assert before[..i] == visits[..i] && before[..i + 1] == visits[..i + 1];
  }

  lemma TurnLast(t: Table, userId: Id, visits: seq<Visit>, k: Key)
    requires visits != []
    ensures var before := visits[..|visits| - 1];
            Turn(t, userId, visits, |visits| - 1, k)
            <==> ToCome(Follow(t, userId, OnlyUnread, before), k) && !ToCome(Follow(t, userId, OnlyUnread, visits), k)
    ensures SeenAt(t, userId, visits, |visits| - 1) == Follow(t, userId, OnlyUnread, visits).table.rows
  {
    assert visits[..|visits|] == visits;
  }

  /** No turn so far. */
  ghost predicate Undecided(t: Table, userId: Id, visits: seq<Visit>, k: Key) {
    ToCome(Follow(t, userId, OnlyUnread, visits), k) && forall i :: !Turn(t, userId, visits, i, k)
  }

  lemma AllTurnsBefore(t: Table, userId: Id, visits: seq<Visit>, k: Key)
    requires visits != []
    ensures forall i: nat :: i + 1 < |visits| ==>
              (Turn(t, userId, visits, i, k) <==> Turn(t, userId, visits[..|visits| - 1], i, k))
  {
    forall i: nat | i + 1 < |visits|
      ensures Turn(t, userId, visits, i, k) <==> Turn(t, userId, visits[..|visits| - 1], i, k)
    {
      TurnsBefore(t, userId, visits, k, i);
    }
  }

  lemma NoOtherTurn(t: Table, userId: Id, before: seq<Visit>, visits: seq<Visit>, k: Key, j: nat, i: nat)
    requires before != visits && OnlyTurn(t, userId, before, j, k)
    requires Turn(t, userId, visits, i, k) ==> Turn(t, userId, before, i, k)
    ensures Turn(t, userId, visits, i, k) ==> i == j
  {
  }

  lemma TurnStays(t: Table, userId: Id, visits: seq<Visit>, k: Key, j: nat)
    requires visits != [] && OnlyTurn(t, userId, visits[..|visits| - 1], j, k)
    requires !ToCome(Follow(t, userId, OnlyUnread, visits[..|visits| - 1]), k)
    ensures OnlyTurn(t, userId, visits, j, k)
  {
    TurnsBefore(t, userId, visits, k, j);
    forall i: nat ensures Turn(t, userId, visits, i, k) ==> i == j {
      if i + 1 < |visits| {
        TurnsBefore(t, userId, visits, k, i);
        NoOtherTurn(t, userId, visits[..|visits| - 1], visits, k, j, i);
      } else {
        TurnLast(t, userId, visits, k);
      }
    }
  }

  lemma StaysDecided(t: Table, userId: Id, visits: seq<Visit>, k: Key, j: nat)
    requires visits != [] && LimitsOk(visits) && Decided(t, userId, visits[..|visits| - 1], j, k)
    ensures Decided(t, userId, visits, j, k)
  {
    var before := visits[..|visits| - 1];
    FollowOk(t, userId, OnlyUnread, before);
    PagePasses(Follow(t, userId, OnlyUnread, before), visits[|visits| - 1], userId, k);
    TurnStays(t, userId, visits, k, j);
    TurnsBefore(t, userId, visits, k, j);
  }

  lemma ComesNow(t: Table, userId: Id, visits: seq<Visit>, k: Key)
    requires visits != [] && LimitsOk(visits) && Undecided(t, userId, visits[..|visits| - 1], k)
    requires k in Listed(Follow(t, userId, OnlyUnread, visits).table.rows, userId, All)
    requires !ToCome(Follow(t, userId, OnlyUnread, visits), k)
    ensures Decided(t, userId, visits, |visits| - 1, k)
  {
    var before := visits[..|visits| - 1];
    FollowOk(t, userId, OnlyUnread, before);
    PageHolds(Follow(t, userId, OnlyUnread, before), visits[|visits| - 1], userId, k);
    AllTurnsBefore(t, userId, visits, k);
    TurnLast(t, userId, visits, k);
  }

  lemma StaysUndecided(t: Table, userId: Id, visits: seq<Visit>, k: Key)
    requires visits != [] && Undecided(t, userId, visits[..|visits| - 1], k)
    requires ToCome(Follow(t, userId, OnlyUnread, visits), k)
    ensures Undecided(t, userId, visits, k)
  {
    AllTurnsBefore(t, userId, visits, k);
    TurnLast(t, userId, visits, k);
  }

  lemma {:induction false} WalkDecides(t: Table, userId: Id, visits: seq<Visit>, k: Key) returns (j: nat)
    requires LimitsOk(visits) && visits != [] && k in Listed(Run(t, visits[0].steps).rows, userId, All)
    ensures k in Listed(Follow(t, userId, OnlyUnread, visits).table.rows, userId, All)
    ensures Undecided(t, userId, visits, k) || Decided(t, userId, visits, j, k)
  {
    var before, v := visits[..|visits| - 1], visits[|visits| - 1];
    j := 0;
    if before == [] {
      assert visits == [visits[0]];
    } else {
      j := WalkDecides(t, userId, before, k);
      StaysListed(Follow(t, userId, OnlyUnread, before).table, v.steps, userId, All, k);
    }
    if !Undecided(t, userId, before, k) {
      StaysDecided(t, userId, visits, k, j);
    } else if ToCome(Follow(t, userId, OnlyUnread, visits), k) {
      StaysUndecided(t, userId, visits, k);
    } else {
      ComesNow(t, userId, visits, k);
      j := |visits| - 1;
    }
  }

  /**
   * Exactly what an unread walk misses: a row listed at the first request is on exactly one turn, and is missing in
   * the end if and only if it had been read when that page was asked for.
   */
  lemma MissedIffRead(t: Table, userId: Id, visits: seq<Visit>, k: Key) returns (j: nat)
    requires LimitsOk(visits) && visits != [] && Follow(t, userId, OnlyUnread, visits).ended
    requires k in Listed(Run(t, visits[0].steps).rows, userId, OnlyUnread)
    ensures OnlyTurn(t, userId, visits, j, k)
    ensures k !in Follow(t, userId, OnlyUnread, visits).items <==> WasRead(SeenAt(t, userId, visits, j), k.id)
  {
    ListedInAll(Run(t, visits[0].steps).rows, userId, OnlyUnread, k);
    j := WalkDecides(t, userId, visits, k);
  }

  // ----- a walk that misses a row --------------------------------------------------------------------

  const NEW := Delivery(0, 0, 0, Web, Deliveries.Pending, 0, 3, 0, None, None, None, None, None, None, None, None, None,
          None, 0)

  const SENT := Outcome(SentOk, None, None, None)

  /** Row id is a web notification of user 0, delivered at instant 0. */
  predicate DeliveredAtZero(rows: map<Id, Tracked>, id: Id) {
    id in rows && Visible(rows[id].row, 0) && rows[id].row.deliveredAt == Some(0)
  }

  lemma DeliverOne(t: Table, id: Id, other: Id)
    requires t.rows.Keys == {id, other} && id != other && t.rows[id] == Tracked(NEW, [], []) && id !in t.issued
    ensures var t' := Next(Next(t, Claim(0, 1, "", 0, None, {other}, map[id := id])), Finalize(id, id, SENT, 0, 0));
            && t'.rows == t.rows[id := t'.rows[id]] && t'.issued == t.issued + {id}
            && DeliveredAtZero(t'.rows, id) && t'.rows[id].row.readAt.None?
  {
    ClaimOne(t, id, id, 0, 0, {other});
  }

  /** Two unread notifications, delivered at the same instant. */
  predicate TwoUnread(t: Table) {
    && t.rows.Keys == {1, 2} && DeliveredAtZero(t.rows, 1) && DeliveredAtZero(t.rows, 2)
    && t.rows[1].row.readAt.None? && t.rows[2].row.readAt.None?
  }

  lemma TwoDelivered() returns (steps: seq<Step>)
    ensures TwoUnread(Run(EMPTY, steps))
  {
    var rows := map[1 := NEW, 2 := NEW];
    var first := [Insert(rows), Claim(0, 1, "", 0, None, {2}, map[1 := 1]), Finalize(1, 1, SENT, 0, 0)];
    var second := [Claim(0, 1, "", 0, None, {1}, map[2 := 2]), Finalize(2, 2, SENT, 0, 0)];
    steps := first + second;
    var t := Next(EMPTY, Insert(rows));
    DeliverOne(t, 1, 2);
    var u := Next(Next(t, first[1]), first[2]);
    DeliverOne(u, 2, 1);
    RunThree(EMPTY, first);
    RunTwo(u, second);
    RunConcat(EMPTY, first, second);
  }

  lemma RunTwo(t: Table, steps: seq<Step>)
    requires |steps| == 2
    ensures Run(t, steps) == Next(Next(t, steps[0]), steps[1])
  {
    assert steps[..1] == [steps[0]];
    assert Run(t, steps[..1]) == Next(t, steps[0]);
  }

  lemma RunThree(t: Table, steps: seq<Step>)
    requires |steps| == 3
    ensures Run(t, steps) == Next(Next(Next(t, steps[0]), steps[1]), steps[2])
  {
    RunTwo(t, steps[..2]);
  }

  lemma BothListed(t: Table)
    requires TwoUnread(t)
    ensures Listed(t.rows, 0, OnlyUnread) == {Key(0, 0, 1), Key(0, 0, 2)}
  {
    assert Shows(t.rows, 1, 0, OnlyUnread) && RowKey(t.rows, 1) == Key(0, 0, 1);
    assert Shows(t.rows, 2, 0, OnlyUnread) && RowKey(t.rows, 2) == Key(0, 0, 2);
  }

  lemma FirstPage(t: Table)
    requires TwoUnread(t)
    ensures GetPage(t.rows, 0, OnlyUnread, 1, None) == Page([Key(0, 0, 2)], Some(Key(0, 0, 2)))
  {
    BothListed(t);
    OlderNone(Listed(t.rows, 0, OnlyUnread));
    NewestIs(Listed(t.rows, 0, OnlyUnread), [Key(0, 0, 2), Key(0, 0, 1)]);
  }

  lemma OneListed(t: Table)
    requires TwoUnread(t)
    ensures Listed(MarkRead(t, 1, 0, 1).rows, 0, OnlyUnread) == {Key(0, 0, 2)}
  {
    var rows := MarkRead(t, 1, 0, 1).rows;
    assert Shows(rows, 2, 0, OnlyUnread) && RowKey(rows, 2) == Key(0, 0, 2);
  }

  lemma SecondPage(t: Table)
    requires TwoUnread(t)
    ensures GetPage(MarkRead(t, 1, 0, 1).rows, 0, OnlyUnread, 1, Some(Key(0, 0, 2))) == Page([], None)
  {
    OneListed(t);
    var s := Older(Listed(MarkRead(t, 1, 0, 1).rows, 0, OnlyUnread), Some(Key(0, 0, 2)));
    assert s == {};
    NewestIs(s, []);
  }

  /**
   * The smallest such walk: two unread rows, pages of one. The row of the second page is read after the first page was
   * fetched, and the walk ends without it.
   */
  lemma ReadBetweenIsMissed() returns (steps: seq<Step>, visits: seq<Visit>, k: Key)
    ensures var t := Run(EMPTY, steps);
            && LimitsOk(visits) && |visits| == 2 && k in Listed(Run(t, visits[0].steps).rows, 0, OnlyUnread)
            && var w := Follow(t, 0, OnlyUnread, visits);
               w.ended && k !in w.items && k in Listed(w.table.rows, 0, All)
  {
    steps := TwoDelivered();
    var t := Run(EMPTY, steps);
    var a, b := Visit([], 1), Visit([Read(1, 0, 1)], 1);
    visits, k := [a, b], Key(0, 0, 1);
    BothListed(t);
    FirstPage(t);
    SecondPage(t);
    ListedInAll(t.rows, 0, OnlyUnread, k);
    StaysListed(t, [Read(1, 0, 1)], 0, All, k);
    assert Run(t, [Read(1, 0, 1)]) == MarkRead(t, 1, 0, 1);
    assert visits[..1] == [a];
    assert Follow(t, 0, OnlyUnread, [a]) == Walk(t, [Key(0, 0, 2)], Some(Key(0, 0, 2)), false);
  }
}
