/**
 * Keyset pagination over a user's web notifications: each request asks for one row more than the page, and the
 * cursor is the last row of the page. Between two requests other transactions deliver rows and mark rows read.
 */
module Paging {
  import opened Common
  import opened Ordering
  import opened Deliveries
  import opened DeliveryRuns

  datatype ListStatus = All | OnlyUnread | OnlyRead

  predicate Matches(d: Delivery, status: ListStatus) {
    match status
    case All => true
    case OnlyUnread => d.readAt.None?
    case OnlyRead => d.readAt.Some?
  }

  predicate Shows(rows: map<Id, Tracked>, id: Id, userId: Id, status: ListStatus) {
    id in rows && Visible(rows[id].row, userId) && Matches(rows[id].row, status)
  }

  /** `delivered_at, id`: the columns the list is sorted by. */
  function RowKey(rows: map<Id, Tracked>, id: Id): Key
    requires id in rows && rows[id].row.deliveredAt.Some?
  {
    Key(rows[id].row.deliveredAt.value, 0, id)
  }

  /** The rows the statement selects before the cursor is applied. */
  function Listed(rows: map<Id, Tracked>, userId: Id, status: ListStatus): set<Key> {
    set id | id in rows && Shows(rows, id, userId, status) :: RowKey(rows, id)
  }

  /** `delivered_at < c OR (delivered_at = c AND id < c_id)`; without a cursor everything. */
  function Older(keys: set<Key>, after: Option<Key>): set<Key> {
    set k | k in keys && (after.Some? ==> Before(k, after.value))
  }

  // ----- descending order ------------------------------------------------------------------------

  ghost predicate Descending(q: seq<Key>) {
    forall i, j :: 0 <= i < j < |q| ==> Before(q[j], q[i])
  }

  function Reverse(q: seq<Key>): (r: seq<Key>)
    ensures |r| == |q| && forall i :: 0 <= i < |q| ==> r[i] == q[|q| - 1 - i]
  {
    seq(|q|, i requires 0 <= i < |q| => q[|q| - 1 - i])
  }

  /** `ORDER BY delivered_at DESC, id DESC` */
  ghost function Newest(s: set<Key>): (q: seq<Key>)
    ensures Descending(q) && |q| == |s| && forall k :: k in q <==> k in s
  {
    var q := Sort(s);
    assert forall k :: k in Reverse(q) <==> k in q by { ReverseSame(q); }
    Reverse(q)
  }

  lemma ReverseSame(q: seq<Key>)
    ensures forall k :: k in Reverse(q) <==> k in q
  {
    forall k ensures k in Reverse(q) <==> k in q {
      if k in q {
        var i :| 0 <= i < |q| && q[i] == k;
        assert Reverse(q)[|q| - 1 - i] == k;
      }
    }
  }

  lemma NewestIs(s: set<Key>, q: seq<Key>)
    requires Descending(q) && forall k :: k in q <==> k in s
    ensures Newest(s) == q
  {
    ReverseSame(q);
    SortIs(s, Reverse(q));
    assert Reverse(Reverse(q)) == q;
  }

  lemma ElementsOlder(q: seq<Key>, m: nat, k: Key)
    requires Descending(q) && 0 < m <= |q|
    ensures k in q[m..] <==> k in q && Before(k, q[m - 1])
  {
    if k in q[m..] {
      var i :| 0 <= i < |q[m..]| && q[m..][i] == k;
      assert k == q[m + i];
    }
    if k in q && Before(k, q[m - 1]) {
      var i :| 0 <= i < |q| && q[i] == k;
      assert i >= m;
      assert q[m..][i - m] == k;
    }
  }

  /** What is older than the m-th row is the list from there on. */
  lemma OlderIsRest(s: set<Key>, m: nat)
    requires 0 < m <= |s|
    ensures Newest(Older(s, Some(Newest(s)[m - 1]))) == Newest(s)[m..]
  {
    var q := Newest(s);
    forall k ensures k in q[m..] <==> k in Older(s, Some(q[m - 1])) { ElementsOlder(q, m, k); }
    NewestIs(Older(s, Some(q[m - 1])), q[m..]);
  }

  // ----- one request -----------------------------------------------------------------------------

  datatype Page = Page(items: seq<Key>, next: Option<Key>)

  ghost function ListFor(rows: map<Id, Tracked>, userId: Id, status: ListStatus, limit: int,
          after: Option<Key>): seq<Key> {
    Limit(Newest(Older(Listed(rows, userId, status), after)), limit)
  }

  /** list_notifications: fetch one row too many, keep `limit`, and point at the last one kept if there was more. */
  ghost function GetPage(rows: map<Id, Tracked>, userId: Id, status: ListStatus, limit: nat, after: Option<Key>): Page {
    var fetched := ListFor(rows, userId, status, limit + 1, after);
    var items := fetched[..Min(limit, |fetched|)];
    Page(items, if |fetched| <= limit || items == [] then None else Some(items[|items| - 1]))
  }

  /** A page is the newest rows after the cursor; there is a next page exactly if rows are left, all older than it. */
  lemma PageMeans(rows: map<Id, Tracked>, userId: Id, status: ListStatus, limit: nat, after: Option<Key>)
    requires limit >= 1
    ensures var s := Older(Listed(rows, userId, status), after);
            var p := GetPage(rows, userId, status, limit, after);
            && p.items == Newest(s)[..Min(limit, |s|)]
            && (p.next.Some? <==> |s| > limit)
            && (p.next.Some? ==> p.items != [] && p.next.value == p.items[|p.items| - 1])
            && (forall k :: k in s ==> k in p.items || (p.next.Some? && Before(k, p.next.value)))
  {
    var s := Older(Listed(rows, userId, status), after);
    var q := Newest(s);
    var p := GetPage(rows, userId, status, limit, after);
    forall k | k in s ensures k in p.items || (p.next.Some? && Before(k, p.next.value)) {
      var i :| 0 <= i < |q| && q[i] == k;
      if i < |p.items| { assert p.items[i] == k; }
    }
  }

  // ----- the same on the columns -------------------------------------------------------------------

  /** A delivered web row of this user, with a read mark or without one as the filter asks. */
  predicate OnList(rows: map<Id, Tracked>, id: Id, userId: Id, status: ListStatus) {
    && id in rows
    && var d := rows[id].row;
       && d.userId == userId && d.channel == Web && d.status == Delivered && d.deliveredAt.Some?
       && (status == OnlyUnread ==> d.readAt.None?)
       && (status == OnlyRead ==> d.readAt.Some?)
  }

  /** Row a was delivered after row b, or at the same time and has the greater id. */
  predicate Newer(rows: map<Id, Tracked>, a: Id, b: Id) {
    && a in rows && b in rows && rows[a].row.deliveredAt.Some? && rows[b].row.deliveredAt.Some?
    && var x, y := rows[a].row.deliveredAt.value, rows[b].row.deliveredAt.value;
       x > y || (x == y && a > b)
  }

  /** Delivered before the cursor's row, or at the same time and with a smaller id; anything if there is no cursor. */
  predicate PastCursor(rows: map<Id, Tracked>, id: Id, after: Option<Key>) {
    after.Some? ==>
      && id in rows && rows[id].row.deliveredAt.Some?
      && var x := rows[id].row.deliveredAt.value;
         x < after.value.major || (x == after.value.major && id < after.value.id)
  }

  /** The listed keys are the rows on the list, by when they were delivered. */
  lemma ListedMeans(rows: map<Id, Tracked>, userId: Id, status: ListStatus, k: Key)
    ensures k in Listed(rows, userId, status) <==>
            OnList(rows, k.id, userId, status) && k == Key(rows[k.id].row.deliveredAt.value, 0, k.id)
  {
    if OnList(rows, k.id, userId, status) { assert Shows(rows, k.id, userId, status); }
  }

  lemma ListedBefore(rows: map<Id, Tracked>, userId: Id, status: ListStatus, a: Key, b: Key)
    requires a in Listed(rows, userId, status) && b in Listed(rows, userId, status)
    ensures Before(b, a) <==> Newer(rows, a.id, b.id)
  {
    ListedMeans(rows, userId, status, a);
    ListedMeans(rows, userId, status, b);
  }

  lemma OlderMeans(rows: map<Id, Tracked>, userId: Id, status: ListStatus, after: Option<Key>, k: Key)
    requires after.Some? ==> after.value.minor == 0
    ensures k in Older(Listed(rows, userId, status), after) <==>
            k in Listed(rows, userId, status) && PastCursor(rows, k.id, after)
  {
    ListedMeans(rows, userId, status, k);
  }

  lemma PageFrom(rows: map<Id, Tracked>, userId: Id, status: ListStatus, limit: nat, after: Option<Key>, k: Key)
    requires limit >= 1 && k in GetPage(rows, userId, status, limit, after).items
    ensures k in Older(Listed(rows, userId, status), after)
  {
    PageMeans(rows, userId, status, limit, after);
    assert k in Newest(Older(Listed(rows, userId, status), after));
  }

  predicate OnPage(p: Page, id: Id) {
    exists i :: 0 <= i < |p.items| && p.items[i].id == id
  }

  /** One request, row by row: at most `limit` rows of the list behind the cursor, newest first. */
  lemma PageRows(rows: map<Id, Tracked>, userId: Id, status: ListStatus, limit: nat, after: Option<Key>)
    requires limit >= 1 && (after.Some? ==> after.value.minor == 0)
    ensures var p := GetPage(rows, userId, status, limit, after);
            && |p.items| <= limit
            && (forall i :: 0 <= i < |p.items| ==>
                  OnList(rows, p.items[i].id, userId, status) && PastCursor(rows, p.items[i].id, after))
            && (forall i, j :: 0 <= i < j < |p.items| ==> Newer(rows, p.items[i].id, p.items[j].id))
  {
    var p := GetPage(rows, userId, status, limit, after);
    PageMeans(rows, userId, status, limit, after);
    forall i | 0 <= i < |p.items|
      ensures p.items[i] in Listed(rows, userId, status)
      ensures OnList(rows, p.items[i].id, userId, status) && PastCursor(rows, p.items[i].id, after)
    {
      PageFrom(rows, userId, status, limit, after, p.items[i]);
      OlderMeans(rows, userId, status, after, p.items[i]);
      ListedMeans(rows, userId, status, p.items[i]);
    }
    forall i, j | 0 <= i < j < |p.items| ensures Newer(rows, p.items[i].id, p.items[j].id) {
      ListedBefore(rows, userId, status, p.items[i], p.items[j]);
    }
  }

  /**
   * A row of the list behind the cursor that the page leaves out is older than all of it; the page is full then, and
   * the next cursor is its last row.
   */
  lemma LeftForLater(rows: map<Id, Tracked>, userId: Id, status: ListStatus, limit: nat, after: Option<Key>, id: Id)
    requires limit >= 1 && (after.Some? ==> after.value.minor == 0)
    requires OnList(rows, id, userId, status) && PastCursor(rows, id, after)
    ensures var p := GetPage(rows, userId, status, limit, after);
            || OnPage(p, id)
            || (p.next.Some? && |p.items| == limit && p.next.value == p.items[limit - 1]
                && Newer(rows, p.items[limit - 1].id, id))
  {
    var p := GetPage(rows, userId, status, limit, after);
    PageMeans(rows, userId, status, limit, after);
    var k := Key(rows[id].row.deliveredAt.value, 0, id);
    ListedMeans(rows, userId, status, k);
    OlderMeans(rows, userId, status, after, k);
    if k !in p.items {
      PageFrom(rows, userId, status, limit, after, p.next.value);
      ListedBefore(rows, userId, status, p.next.value, k);
    }
  }

  /** There is a next page exactly if a row of the list behind the cursor is not on this one. */
  lemma NextIffLeft(rows: map<Id, Tracked>, userId: Id, status: ListStatus, limit: nat, after: Option<Key>)
    requires limit >= 1 && (after.Some? ==> after.value.minor == 0)
    ensures var p := GetPage(rows, userId, status, limit, after);
            p.next.Some? <==>
            exists id :: OnList(rows, id, userId, status) && PastCursor(rows, id, after) && !OnPage(p, id)
  {
    var p := GetPage(rows, userId, status, limit, after);
    var s := Older(Listed(rows, userId, status), after);
    PageMeans(rows, userId, status, limit, after);
    if p.next.Some? {
      var k := Newest(s)[limit];
      assert k in Newest(s);
      OlderMeans(rows, userId, status, after, k);
      ListedMeans(rows, userId, status, k);
      forall i | 0 <= i < |p.items| ensures p.items[i].id != k.id {
        PageFrom(rows, userId, status, limit, after, p.items[i]);
        ListedMeans(rows, userId, status, p.items[i]);
        assert Before(k, p.items[i]);
      }
      assert !OnPage(p, k.id);
    }
    forall id: Id | OnList(rows, id, userId, status) && PastCursor(rows, id, after) && !OnPage(p, id)
      ensures p.next.Some?
    {
      LeftForLater(rows, userId, status, limit, after, id);
    }
  }

  // ----- following next_cursor -------------------------------------------------------------------

  /** What other transactions do before a request, and the limit it asks for. */
  datatype Visit = Visit(steps: seq<Step>, limit: nat)

  datatype Walk = Walk(table: Table, items: seq<Key>, cursor: Option<Key>, ended: bool)

  predicate LimitsOk(visits: seq<Visit>) {
    forall i :: 0 <= i < |visits| ==> visits[i].limit >= 1
  }

  ghost function Visited(w: Walk, v: Visit, userId: Id, status: ListStatus): Walk {
    var t := Run(w.table, v.steps);
    if w.ended then w.(table := t)
    else
      var p := GetPage(t.rows, userId, status, v.limit, w.cursor);
      Walk(t, w.items + p.items, p.next, p.next.None?)
  }

  ghost function Follow(t: Table, userId: Id, status: ListStatus, visits: seq<Visit>): Walk {
    if visits == [] then Walk(t, [], None, false)
    else Visited(Follow(t, userId, status, visits[..|visits| - 1]), visits[|visits| - 1], userId, status)
  }

  // ----- while rows are being delivered and read --------------------------------------------------

  /** A row once listed stays where it is in the order; it can only leave the unread list, by being read. */
  lemma StaysListed(t: Table, steps: seq<Step>, userId: Id, status: ListStatus, k: Key)
    requires k in Listed(t.rows, userId, status)
    ensures var rows := Run(t, steps).rows;
            k in Listed(rows, userId, status) || (status.OnlyUnread? && WasRead(rows, k.id))
  {
    var id :| id in t.rows && Shows(t.rows, id, userId, status) && RowKey(t.rows, id) == k;
    TerminalForever(t, steps, id);
    var rows := Run(t, steps).rows;
    assert Unread(rows[id]).row.deliveredAt == Unread(t.rows[id]).row.deliveredAt;
    assert Visible(rows[id].row, userId) by { SameButRead(t.rows[id], rows[id], userId); }
    assert RowKey(rows, id) == k;
  }

  predicate WasRead(rows: map<Id, Tracked>, id: Id) {
    id in rows && rows[id].row.readAt.Some?
  }

  lemma SameButRead(a: Tracked, b: Tracked, userId: Id)
    requires Unread(a) == Unread(b)
    ensures Visible(a.row, userId) == Visible(b.row, userId) && a.row.deliveredAt == b.row.deliveredAt
  {
    assert Unread(a).row.status == Unread(b).row.status && Unread(a).row.userId == Unread(b).row.userId;
    assert Unread(a).row.channel == Unread(b).row.channel && Unread(a).row.deliveredAt == Unread(b).row.deliveredAt;
  }

  lemma StaysRead(t: Table, steps: seq<Step>, userId: Id, status: ListStatus, k: Key)
    requires k in Listed(t.rows, userId, status) || k in Listed(t.rows, userId, All)
    requires WasRead(t.rows, k.id)
    ensures WasRead(Run(t, steps).rows, k.id)
  {
    TerminalForever(t, steps, k.id);
  }

  /** Where a walk stands: newest first without repetition, every row a real one, the cursor the last row so far. */
  ghost predicate WalkOk(w: Walk, userId: Id) {
    && Descending(w.items)
    && (forall k :: k in w.items ==> k in Listed(w.table.rows, userId, All))
    && (w.cursor.Some? ==> w.items != [] && w.cursor.value == w.items[|w.items| - 1])
    && (w.ended ==> w.cursor.None?)
    && (w.cursor.None? && !w.ended ==> w.items == [])
  }

  /** k was returned, or is still to come, or has left the unread list meanwhile. */
  ghost predicate Accounted(w: Walk, status: ListStatus, userId: Id, k: Key) {
    || k in w.items
    || (!w.ended && k in Listed(w.table.rows, userId, status) && (w.cursor.Some? ==> Before(k, w.cursor.value)))
    || (status.OnlyUnread? && k in Listed(w.table.rows, userId, All) && WasRead(w.table.rows, k.id))
  }

  lemma ListedInAll(rows: map<Id, Tracked>, userId: Id, status: ListStatus, k: Key)
    requires k in Listed(rows, userId, status)
    ensures k in Listed(rows, userId, All)
  {
    var id :| id in rows && Shows(rows, id, userId, status) && RowKey(rows, id) == k;
    assert Shows(rows, id, userId, All);
  }

  lemma ItemsStay(w: Walk, steps: seq<Step>, userId: Id)
    requires WalkOk(w, userId)
    ensures forall k :: k in w.items ==> k in Listed(Run(w.table, steps).rows, userId, All)
  {
    forall k | k in w.items ensures k in Listed(Run(w.table, steps).rows, userId, All) {
      StaysListed(w.table, steps, userId, All, k);
    }
  }

  lemma PageJoins(items: seq<Key>, cursor: Option<Key>, rows: map<Id, Tracked>, userId: Id, status: ListStatus,
          limit: nat)
    requires limit >= 1 && Descending(items)
    requires cursor.Some? ==> items != [] && cursor.value == items[|items| - 1]
    requires cursor.None? ==> items == []
    ensures var p := GetPage(rows, userId, status, limit, cursor);
            && Descending(items + p.items)
            && (forall k :: k in p.items ==> k in Listed(rows, userId, All))
            && (p.next.Some? ==> p.items != [] && p.next.value == p.items[|p.items| - 1])
  {
    PageMeans(rows, userId, status, limit, cursor);
    var p := GetPage(rows, userId, status, limit, cursor);
    forall k | k in p.items ensures k in Listed(rows, userId, All) && (cursor.Some? ==> Before(k, cursor.value)) {
      PageFrom(rows, userId, status, limit, cursor, k);
      ListedInAll(rows, userId, status, k);
    }
    Joined(items, p.items, cursor);
  }

  lemma VisitKeepsOk(w: Walk, v: Visit, userId: Id, status: ListStatus)
    requires WalkOk(w, userId) && v.limit >= 1
    ensures WalkOk(Visited(w, v, userId, status), userId)
  {
    ItemsStay(w, v.steps, userId);
    if !w.ended { PageJoins(w.items, w.cursor, Run(w.table, v.steps).rows, userId, status, v.limit); }
  }

  lemma Joined(a: seq<Key>, b: seq<Key>, cursor: Option<Key>)
    requires Descending(a) && Descending(b)
    requires cursor.None? ==> a == []
    requires cursor.Some? ==> a != [] && a[|a| - 1] == cursor.value && forall k :: k in b ==> Before(k, cursor.value)
    ensures Descending(a + b)
  {
    var q := a + b;
    forall i, j | 0 <= i < j < |q| ensures Before(q[j], q[i]) {
      if i < |a| <= j { assert q[j] in b; }
    }
  }

  lemma VisitAccounts(w: Walk, v: Visit, userId: Id, status: ListStatus, k: Key)
    requires WalkOk(w, userId) && v.limit >= 1 && Accounted(w, status, userId, k)
    ensures Accounted(Visited(w, v, userId, status), status, userId, k)
  {
    var w' := Visited(w, v, userId, status);
    if k in w.items {
      assert k in w'.items;
    } else if k in Listed(w.table.rows, userId, All) && WasRead(w.table.rows, k.id) && status.OnlyUnread? {
      StaysListed(w.table, v.steps, userId, All, k);
      StaysRead(w.table, v.steps, userId, status, k);
    } else {
      ListedInAll(w.table.rows, userId, status, k);
      StaysListed(w.table, v.steps, userId, All, k);
      StaysListed(w.table, v.steps, userId, status, k);
      PageMeans(w'.table.rows, userId, status, v.limit, w.cursor);
    }
  }

  lemma {:induction false} FollowOk(t: Table, userId: Id, status: ListStatus, visits: seq<Visit>)
    requires LimitsOk(visits)
    ensures WalkOk(Follow(t, userId, status, visits), userId)
  {
    if visits != [] {
      FollowOk(t, userId, status, visits[..|visits| - 1]);
      VisitKeepsOk(Follow(t, userId, status, visits[..|visits| - 1]), visits[|visits| - 1], userId, status);
    }
  }

  lemma {:induction false} FollowAccounts(t: Table, userId: Id, status: ListStatus, visits: seq<Visit>, k: Key)
    requires LimitsOk(visits) && visits != [] && k in Listed(Run(t, visits[0].steps).rows, userId, status)
    ensures Accounted(Follow(t, userId, status, visits), status, userId, k)
  {
    var before := visits[..|visits| - 1];
    FollowOk(t, userId, status, before);
    if before == [] {
      PageMeans(Run(t, visits[0].steps).rows, userId, status, visits[0].limit, None);
    } else {
      FollowAccounts(t, userId, status, before, k);
      VisitAccounts(Follow(t, userId, status, before), visits[|visits| - 1], userId, status, k);
    }
  }

  lemma KeysMissNothing(t: Table, userId: Id, status: ListStatus, visits: seq<Visit>)
    requires LimitsOk(visits) && visits != []
    ensures var w := Follow(t, userId, status, visits);
            && Descending(w.items)
            && (forall k :: k in w.items ==> k in Listed(w.table.rows, userId, All))
            && (w.ended ==> forall k :: k in Listed(Run(t, visits[0].steps).rows, userId, status) ==>
                  k in w.items || (status.OnlyUnread? && WasRead(w.table.rows, k.id)))
  {
    var w := Follow(t, userId, status, visits);
    FollowOk(t, userId, status, visits);
    if w.ended {
      forall k | k in Listed(Run(t, visits[0].steps).rows, userId, status)
        ensures k in w.items || (status.OnlyUnread? && WasRead(w.table.rows, k.id))
      {
        FollowAccounts(t, userId, status, visits, k);
      }
    }
  }

  /** Row `id` was returned by the walk. */
  predicate Returned(w: Walk, id: Id) {
    exists i :: 0 <= i < |w.items| && w.items[i].id == id
  }

  /**
   * Following next_cursor to the end, with any limits, while other transactions do anything to the table: the rows
   * come strictly newest first, so none twice; each is a delivered web row of this user; and every row that was on
   * the list at the first request is among them, except that a walk over the unread ones may miss what was read since.
   */
  lemma PagesMissNothing(t: Table, userId: Id, status: ListStatus, visits: seq<Visit>)
    requires LimitsOk(visits) && visits != []
    ensures var w := Follow(t, userId, status, visits);
            && (forall i, j :: 0 <= i < j < |w.items| ==> Newer(w.table.rows, w.items[i].id, w.items[j].id))
            && (forall i :: 0 <= i < |w.items| ==> OnList(w.table.rows, w.items[i].id, userId, All))
            && (w.ended ==> forall id :: OnList(Run(t, visits[0].steps).rows, id, userId, status) ==>
                  Returned(w, id) || (status == OnlyUnread && OnList(w.table.rows, id, userId, OnlyRead)))
  {
    var w := Follow(t, userId, status, visits);
    KeysMissNothing(t, userId, status, visits);
    forall i | 0 <= i < |w.items| ensures OnList(w.table.rows, w.items[i].id, userId, All) {
      ListedMeans(w.table.rows, userId, All, w.items[i]);
    }
    forall i, j | 0 <= i < j < |w.items| ensures Newer(w.table.rows, w.items[i].id, w.items[j].id) {
      ListedBefore(w.table.rows, userId, All, w.items[i], w.items[j]);
    }
    if w.ended {
      forall id | OnList(Run(t, visits[0].steps).rows, id, userId, status)
        ensures Returned(w, id) || (status == OnlyUnread && OnList(w.table.rows, id, userId, OnlyRead))
      {
        RowReturned(t, userId, status, visits, id);
      }
    }
  }

  lemma RowReturned(t: Table, userId: Id, status: ListStatus, visits: seq<Visit>, id: Id)
    requires LimitsOk(visits) && visits != [] && OnList(Run(t, visits[0].steps).rows, id, userId, status)
    requires Follow(t, userId, status, visits).ended
    ensures var w := Follow(t, userId, status, visits);
            Returned(w, id) || (status == OnlyUnread && OnList(w.table.rows, id, userId, OnlyRead))
  {
    var first := Run(t, visits[0].steps).rows;
    var w := Follow(t, userId, status, visits);
    var k := Key(first[id].row.deliveredAt.value, 0, id);
    ListedMeans(first, userId, status, k);
    FollowAccounts(t, userId, status, visits, k);
    if k in w.items {
      var i :| 0 <= i < |w.items| && w.items[i] == k;
      assert w.items[i].id == id;
    } else {
      ListedMeans(w.table.rows, userId, All, k);
    }
  }

  // ----- on a snapshot ---------------------------------------------------------------------------

  function TotalLimit(visits: seq<Visit>): nat {
    if visits == [] then 0 else TotalLimit(visits[..|visits| - 1]) + visits[|visits| - 1].limit
  }

  predicate NothingHappens(visits: seq<Visit>) {
    forall i :: 0 <= i < |visits| ==> visits[i].steps == []
  }

  lemma OlderNone(s: set<Key>)
    ensures Older(s, None) == s
  {
  }

  /** The page a list would be cut into. */
  function Cut(q: seq<Key>, limit: nat): Page
    requires limit >= 1
  {
    Page(q[..Min(limit, |q|)], if |q| > limit then Some(q[limit - 1]) else None)
  }

  lemma PageIsCut(rows: map<Id, Tracked>, userId: Id, status: ListStatus, limit: nat, after: Option<Key>)
    requires limit >= 1
    ensures GetPage(rows, userId, status, limit, after)
            == Cut(Newest(Older(Listed(rows, userId, status), after)), limit)
  {
    PageMeans(rows, userId, status, limit, after);
  }

  /** Where a walk over the list q stands after asking for `total` rows. */
  predicate Stands(items: seq<Key>, cursor: Option<Key>, ended: bool, q: seq<Key>, total: nat) {
    && items == q[..Min(total, |q|)]
    && ended == (total >= |q| && total > 0)
    && cursor == if 0 < total < |q| then Some(q[total - 1]) else None
  }

  lemma CutRest(items: seq<Key>, cursor: Option<Key>, q: seq<Key>, total: nat, limit: nat)
    requires Stands(items, cursor, false, q, total) && limit >= 1 && total <= |q|
    ensures var p := Cut(q[total..], limit);
            Stands(items + p.items, p.next, p.next.None?, q, total + limit)
  {
    var n := Min(limit, |q| - total);
    var rest := q[total..];
    assert q[..total] + rest[..n] == q[..total + n];
    assert limit < |rest| ==> rest[limit - 1] == q[total + limit - 1];
  }

  lemma RestAfter(rows: map<Id, Tracked>, userId: Id, status: ListStatus, cursor: Option<Key>, total: nat)
    requires var q := Newest(Listed(rows, userId, status));
             (total == 0 && cursor == None) || (0 < total < |q| && cursor == Some(q[total - 1]))
    ensures Newest(Older(Listed(rows, userId, status), cursor)) == Newest(Listed(rows, userId, status))[total..]
  {
    var s := Listed(rows, userId, status);
    if total == 0 { OlderNone(s); } else { OlderIsRest(s, total); }
  }

  lemma VisitCuts(w: Walk, v: Visit, userId: Id, status: ListStatus, q: seq<Key>, total: nat)
    requires !w.ended && v.limit >= 1 && v.steps == [] && q == Newest(Listed(w.table.rows, userId, status))
    requires (total == 0 && w.cursor == None) || (0 < total < |q| && w.cursor == Some(q[total - 1]))
    ensures total <= |q|
    ensures Visited(w, v, userId, status) ==
            Walk(w.table, w.items + Cut(q[total..], v.limit).items, Cut(q[total..], v.limit).next,
                 Cut(q[total..], v.limit).next.None?)
  {
    PageIsCut(w.table.rows, userId, status, v.limit, w.cursor);
    RestAfter(w.table.rows, userId, status, w.cursor, total);
  }

  lemma Ahead(items: seq<Key>, cursor: Option<Key>, q: seq<Key>, total: nat)
    requires Stands(items, cursor, false, q, total)
    ensures (total == 0 && cursor == None) || (0 < total < |q| && cursor == Some(q[total - 1]))
  {
  }

  lemma Behind(items: seq<Key>, cursor: Option<Key>, q: seq<Key>, total: nat, limit: nat)
    requires Stands(items, cursor, true, q, total)
    ensures Stands(items, cursor, true, q, total + limit)
  {
  }

  lemma VisitAfterEnd(w: Walk, v: Visit, userId: Id, status: ListStatus)
    requires w.ended && v.steps == []
    ensures Visited(w, v, userId, status) == w
  {
  }

  lemma SnapshotVisit(w: Walk, v: Visit, userId: Id, status: ListStatus, q: seq<Key>, total: nat)
    requires q == Newest(Listed(w.table.rows, userId, status)) && v.limit >= 1 && v.steps == []
    requires Stands(w.items, w.cursor, w.ended, q, total)
    ensures var w' := Visited(w, v, userId, status);
            w'.table == w.table && Stands(w'.items, w'.cursor, w'.ended, q, total + v.limit)
  {
    if w.ended {
      VisitAfterEnd(w, v, userId, status);
      Behind(w.items, w.cursor, q, total, v.limit);
    } else {
      Ahead(w.items, w.cursor, q, total);
      VisitCuts(w, v, userId, status, q, total);
      CutRest(w.items, w.cursor, q, total, v.limit);
    }
  }

  ghost predicate SnapshotAt(w: Walk, t: Table, q: seq<Key>, total: nat) {
    w.table == t && Stands(w.items, w.cursor, w.ended, q, total)
  }

  lemma SnapshotNext(w: Walk, v: Visit, t: Table, userId: Id, status: ListStatus, q: seq<Key>, total: nat)
    requires q == Newest(Listed(t.rows, userId, status)) && v.limit >= 1 && v.steps == []
    requires SnapshotAt(w, t, q, total)
    ensures SnapshotAt(Visited(w, v, userId, status), t, q, total + v.limit)
  {
    SnapshotVisit(w, v, userId, status, q, total);
  }

  lemma PrefixQuiet(visits: seq<Visit>, n: nat)
    requires LimitsOk(visits) && NothingHappens(visits) && |visits| == n + 1
    ensures LimitsOk(visits[..n]) && NothingHappens(visits[..n]) && visits[n].limit >= 1 && visits[n].steps == []
  {
  }

  /** Whatever a walk has of the list q, one more request gives it the next rows of q. */
  ghost predicate CarriesOn(t: Table, userId: Id, status: ListStatus, q: seq<Key>) {
    forall w, v: Visit, total: nat :: SnapshotAt(w, t, q, total) && v.limit >= 1 && v.steps == [] ==>
      SnapshotAt(Visited(w, v, userId, status), t, q, total + v.limit)
  }

  lemma {:induction false} SnapshotRun(t: Table, userId: Id, status: ListStatus, visits: seq<Visit>, q: seq<Key>)
    requires LimitsOk(visits) && NothingHappens(visits) && CarriesOn(t, userId, status, q)
    ensures SnapshotAt(Follow(t, userId, status, visits), t, q, TotalLimit(visits))
  {
    if visits != [] {
      var n := |visits| - 1;
      PrefixQuiet(visits, n);
      SnapshotRun(t, userId, status, visits[..n], q);
      FollowSnoc(t, userId, status, visits);
    }
  }

  /**
   * With nothing else happening, for any status filter: after requests for `total` rows in all, the pages
   * concatenate to the first `total` rows of the whole list, and the walk has ended exactly when that is all of it.
   */
  lemma SnapshotPages(t: Table, userId: Id, status: ListStatus, visits: seq<Visit>)
    requires LimitsOk(visits) && NothingHappens(visits)
    ensures var w := Follow(t, userId, status, visits);
            w.table == t
                && Stands(w.items, w.cursor, w.ended, Newest(Listed(t.rows, userId, status)), TotalLimit(visits))
  {
    var q := Newest(Listed(t.rows, userId, status));
    forall w, v: Visit, total: nat | SnapshotAt(w, t, q, total) && v.limit >= 1 && v.steps == []
      ensures SnapshotAt(Visited(w, v, userId, status), t, q, total + v.limit)
    {
      SnapshotNext(w, v, t, userId, status, q, total);
    }
    SnapshotRun(t, userId, status, visits, q);
  }

  lemma FollowSnoc(t: Table, userId: Id, status: ListStatus, visits: seq<Visit>)
    requires visits != []
    ensures var before, v := visits[..|visits| - 1], visits[|visits| - 1];
            && Follow(t, userId, status, visits) == Visited(Follow(t, userId, status, before), v, userId, status)
            && TotalLimit(visits) == TotalLimit(before) + v.limit
  {
  }

  lemma {:induction false} TotalAtLeast(visits: seq<Visit>)
    requires LimitsOk(visits)
    ensures TotalLimit(visits) >= |visits|
  {
    if visits != [] { TotalAtLeast(visits[..|visits| - 1]); }
  }

  /** Such a walk terminates: at the latest after as many requests as there are rows, and one if there are none. */
  lemma SnapshotEnds(t: Table, userId: Id, status: ListStatus, visits: seq<Visit>)
    requires LimitsOk(visits) && NothingHappens(visits) && visits != []
    requires |visits| >= |Listed(t.rows, userId, status)|
    ensures var w := Follow(t, userId, status, visits);
            w.ended && w.items == Newest(Listed(t.rows, userId, status))
  {
    SnapshotPages(t, userId, status, visits);
    TotalAtLeast(visits);
  }
}
