/**
 * Audience fanout: one recipient row per selected user, one delivery row per recipient and channel, inserted
 * ignoring what is there already, so that the same request may be fanned out any number of times.
 */
module Fanout {
  import opened Common
  import opened Deliveries
  import opened Audience

  type Pair = (Id, Channel)

  /** The columns of notification_requests that fanout reads and writes. */
  datatype Notification = Notification(audience: Stored, channels: seq<Channel>, recipientCount: nat,
          deliveryCount: nat)

  /** `recipients` is notification_recipients by its unique key (notification, user). */
  datatype State = State(notifications: map<Id, Notification>, recipients: map<(Id, Id), Id>, table: Table)

  const INITIAL := State(map[], map[], EMPTY)

  const MAX_ATTEMPTS := 3

  /** One fanout: the directory it sees, the order `labels.items()` gives, and the ids `uuid4` hands out. */
  datatype Job = Job(
    notificationId: Id,
    directory: Directory,
    items: seq<Label>,
    now: Time,
    maxRecipients: int,
    maxDeliveries: int,
    recipientIds: map<Id, Id>,
    deliveryIds: map<Id, Pair>)

  datatype Step =
    | Create(id: Id, audience: Stored, channels: seq<Channel>)
    | Fan(job: Job)
    | Work(step: Deliveries.Step)

  // ----- sets of rows ----------------------------------------------------------------------------

  /** The users that are recipients of n. */
  function Users(recipients: map<(Id, Id), Id>, n: Id): set<Id> {
    set k | k in recipients && k.0 == n :: k.1
  }

  /** list_delivery_pairs */
  function Pairs(rows: map<Id, Tracked>, n: Id): set<Pair> {
    set id | id in rows && rows[id].row.notificationId == n :: (rows[id].row.userId, rows[id].row.channel)
  }

  function Product(users: set<Id>, channels: seq<Channel>): set<Pair> {
    set u, c | u in users && c in channels :: (u, c)
  }

  predicate Distinct<T(==)>(q: seq<T>) {
    forall i, j :: 0 <= i < j < |q| ==> q[i] != q[j]
  }

  // ----- the transaction -------------------------------------------------------------------------

  function NewDelivery(recipientId: Id, n: Id, userId: Id, channel: Channel, now: Time): (d: Delivery)
    ensures IsNew(d)
  {
    Delivery(recipientId, n, userId, channel, Pending, 0, MAX_ATTEMPTS, now, None, None, None, None, None, None, None,
             None, None, None, now)
  }

  function Selected(s: State, a: Job): seq<Id>
    requires a.notificationId in s.notifications
  {
    ResolveStored(a.directory, s.notifications[a.notificationId].audience, a.items)
  }

  function SelectedSet(s: State, a: Job): set<Id>
    requires a.notificationId in s.notifications
  {
    set u | u in Selected(s, a)
  }

  predicate WithinLimits(s: State, a: Job)
    requires a.notificationId in s.notifications
  {
    var users := Selected(s, a);
    |users| <= a.maxRecipients && |users| * |s.notifications[a.notificationId].channels| <= a.maxDeliveries
  }

  /** Recipient rows for the selected users that have none. */
  predicate FreshRecipients(s: State, n: Id, users: set<Id>, ids: map<Id, Id>) {
    && ids.Keys == users - Users(s.recipients, n)
    && (forall u :: u in ids ==> ids[u] !in s.recipients.Values)
    && (forall u, v :: u in ids && v in ids && u != v ==> ids[u] != ids[v])
  }

  /** Delivery rows for the pairs of a selected user and a channel that have none. */
  predicate FreshDeliveries(s: State, n: Id, users: set<Id>, channels: seq<Channel>, ids: map<Id, Pair>) {
    && ids.Values == Product(users, channels) - Pairs(s.table.rows, n)
    && (forall x :: x in ids ==> x !in s.table.rows)
    && (forall x, y :: x in ids && y in ids && x != y ==> ids[x] != ids[y])
  }

  predicate FreshIds(s: State, n: Id, users: set<Id>, recipientIds: map<Id, Id>, deliveryIds: map<Id, Pair>)
    requires n in s.notifications
  {
    FreshRecipients(s, n, users, recipientIds) && FreshDeliveries(s, n, users, s.notifications[n].channels, deliveryIds)
  }

  /** The recipient rows of n for these users. */
  function RecipientKeys(n: Id, users: set<Id>): set<(Id, Id)> {
    set u | u in users :: (n, u)
  }

  function AddRecipients(recipients: map<(Id, Id), Id>, n: Id, ids: map<Id, Id>): map<(Id, Id), Id> {
    map k | k in recipients.Keys + RecipientKeys(n, ids.Keys) :: if k.0 == n && k.1 in ids then ids[k.1]
      else recipients[k]
  }

  function NewRows(recipients: map<(Id, Id), Id>, n: Id, now: Time, ids: map<Id, Pair>): map<Id, Delivery> {
    map x | x in ids && (n, ids[x].0) in recipients ::
        NewDelivery(recipients[(n, ids[x].0)], n, ids[x].0, ids[x].1, now)
  }

  function SetCounts(s: State, n: Id): State
    requires n in s.notifications
  {
    s.(notifications := s.notifications[n := s.notifications[n].(
      recipientCount := |Users(s.recipients, n)|, deliveryCount := |Pairs(s.table.rows, n)|)])
  }

  function FanOut(s: State, n: Id, now: Time, recipientIds: map<Id, Id>, deliveryIds: map<Id, Pair>): State
    requires n in s.notifications
  {
    var recipients := AddRecipients(s.recipients, n, recipientIds);
    SetCounts(State(s.notifications, recipients, InsertRows(s.table, NewRows(recipients, n, now, deliveryIds))), n)
  }

  /** `items` are the labels of the stored object, in whatever order it gives them back. */
  predicate ItemsMatch(audience: Stored, items: seq<Label>) {
    audience.StoredLabels? ==> ItemsOf(items, audience.labels)
  }

  predicate CanFan(s: State, a: Job) {
    && a.notificationId in s.notifications
    && ItemsMatch(s.notifications[a.notificationId].audience, a.items)
    && WithinLimits(s, a)
    && FreshIds(s, a.notificationId, SelectedSet(s, a), a.recipientIds, a.deliveryIds)
  }

  /** Work done on delivery rows is anything but an insert: only fanout inserts them. */
  ghost function Next(s: State, step: Step): State {
    match step
    case Create(id, audience, channels) =>
      if id in s.notifications then s
        else s.(notifications := s.notifications[id := Notification(audience, channels, 0, 0)])
    case Fan(a) => if CanFan(s, a) then FanOut(s, a.notificationId, a.now, a.recipientIds, a.deliveryIds) else s
    case Work(d) => if d.Insert? then s else s.(table := Deliveries.Next(s.table, d))
  }

  ghost function Run(s: State, steps: seq<Step>): State {
    if steps == [] then s else Next(Run(s, steps[..|steps| - 1]), steps[|steps| - 1])
  }

  // ----- invariant -------------------------------------------------------------------------------

  predicate RecipientsOk(s: State) {
    && (forall k :: k in s.recipients ==> k.0 in s.notifications)
    && (forall j, k :: j in s.recipients && k in s.recipients && j != k ==> s.recipients[j] != s.recipients[k])
  }

  predicate RowsOk(s: State) {
    forall id :: id in s.table.rows ==>
      var d := s.table.rows[id].row;
      (d.notificationId, d.userId) in s.recipients && s.recipients[(d.notificationId, d.userId)] == d.recipientId
  }

  predicate SameCell(a: Delivery, b: Delivery) {
    a.recipientId == b.recipientId && a.channel == b.channel
  }

  /** The unique constraint on (notification_recipient_id, channel). */
  predicate UniqueOk(rows: map<Id, Tracked>) {
    forall x, y :: x in rows && y in rows && SameCell(rows[x].row, rows[y].row) ==> x == y
  }

  /** Deliveries are exactly recipients times channels, and the counts say how many there are of each. */
  predicate IsProduct(users: set<Id>, pairs: set<Pair>, n: Notification) {
    pairs == Product(users, n.channels) && n.recipientCount == |users| && n.deliveryCount == |pairs|
  }

  predicate ProductOk(s: State, n: Id)
    requires n in s.notifications
  {
    IsProduct(Users(s.recipients, n), Pairs(s.table.rows, n), s.notifications[n])
  }

  predicate Inv(s: State) {
    && RecipientsOk(s) && RowsOk(s) && UniqueOk(s.table.rows)
    && forall n :: n in s.notifications ==> ProductOk(s, n)
  }

  // ----- preservation ----------------------------------------------------------------------------

  /** No step but an insert adds a row or changes whom a row is for. */
  predicate SameShape(rows: map<Id, Tracked>, rows': map<Id, Tracked>) {
    && rows.Keys == rows'.Keys
    && forall id :: id in rows ==>
         var d, d' := rows[id].row, rows'[id].row;
         d.recipientId == d'.recipientId && d.notificationId == d'.notificationId && d.userId == d'.userId
             && d.channel == d'.channel
  }

  lemma WorkKeepsShape(t: Table, d: Deliveries.Step)
    requires !d.Insert?
    ensures SameShape(t.rows, Deliveries.Next(t, d).rows)
  {
  }

  lemma ShapeKeepsInv(s: State, t: Table)
    requires Inv(s) && SameShape(s.table.rows, t.rows)
    ensures Inv(s.(table := t))
  {
    forall n ensures Pairs(t.rows, n) == Pairs(s.table.rows, n) { SamePairs(s.table.rows, t.rows, n); }
    forall n | n in s.notifications ensures ProductOk(s.(table := t), n) { assert ProductOk(s, n); }
  }

  lemma SamePairs(rows: map<Id, Tracked>, rows': map<Id, Tracked>, n: Id)
    requires SameShape(rows, rows')
    ensures Pairs(rows', n) == Pairs(rows, n)
  {
  }

  lemma UsersGrow(s: State, n: Id, users: set<Id>, ids: map<Id, Id>, m: Id)
    requires FreshRecipients(s, n, users, ids)
    ensures Users(AddRecipients(s.recipients, n, ids), m) == Users(s.recipients, m) + if m == n then users else {}
  {
    var r := AddRecipients(s.recipients, n, ids);
    forall u | u in Users(r, m) ensures u in Users(s.recipients, m) + if m == n then users else {} {
      assert (m, u) in r;
    }
    forall u | u in Users(s.recipients, m) + if m == n then users else {} ensures u in Users(r, m) {
      if u in Users(s.recipients, m) {
        assert (m, u) in s.recipients;
      } else {
        assert u in ids;
      }
      assert (m, u) in r;
    }
  }

  lemma RecipientsStay(s: State, n: Id, users: set<Id>, ids: map<Id, Id>)
    requires FreshRecipients(s, n, users, ids)
    ensures var r := AddRecipients(s.recipients, n, ids);
            && (forall k :: k in s.recipients ==> k in r && r[k] == s.recipients[k])
            && (forall u :: u in users ==> (n, u) in r)
            && (forall k :: k in r && k !in s.recipients ==> k.0 == n && k.1 in ids && r[k] == ids[k.1])
  {
  }

  lemma AddKeepsRecipients(s: State, n: Id, users: set<Id>, ids: map<Id, Id>)
    requires RecipientsOk(s) && n in s.notifications && FreshRecipients(s, n, users, ids)
    ensures RecipientsOk(s.(recipients := AddRecipients(s.recipients, n, ids)))
  {
  }

  predicate IsFresh(tr: Tracked, recipientId: Id, n: Id, p: Pair, now: Time) {
    tr == Tracked(NewDelivery(recipientId, n, p.0, p.1, now), [], [])
  }

  /** The rows after the insert: the old ones untouched, and one pending row for every id handed out. */
  lemma Inserted(s: State, n: Id, now: Time, users: set<Id>, channels: seq<Channel>, r: map<(Id, Id), Id>,
          ids: map<Id, Pair>)
    requires FreshDeliveries(s, n, users, channels, ids) && forall u :: u in users ==> (n, u) in r
    ensures var t := InsertRows(s.table, NewRows(r, n, now, ids));
            && t.issued == s.table.issued
            && t.rows.Keys == s.table.rows.Keys + ids.Keys
            && (forall x :: x in s.table.rows ==> t.rows[x] == s.table.rows[x])
            && (forall x :: x in ids ==> (n, ids[x].0) in r && IsFresh(t.rows[x], r[(n, ids[x].0)], n, ids[x], now))
  {
    forall x | x in ids ensures (n, ids[x].0) in r {
      assert ids[x] in ids.Values;
    }
    var added := NewRows(r, n, now, ids);
    assert added.Keys == ids.Keys;
    assert CanInsert(s.table, added);
  }

  lemma PairsGrow(s: State, n: Id, now: Time, users: set<Id>, channels: seq<Channel>, r: map<(Id, Id), Id>,
          ids: map<Id, Pair>, m: Id)
    requires FreshDeliveries(s, n, users, channels, ids) && forall u :: u in users ==> (n, u) in r
    ensures Pairs(InsertRows(s.table, NewRows(r, n, now, ids)).rows, m)
            == Pairs(s.table.rows, m) + if m == n then Product(users, channels) else {}
  {
    Inserted(s, n, now, users, channels, r, ids);
    var rows := InsertRows(s.table, NewRows(r, n, now, ids)).rows;
    forall p | p in Pairs(rows, m)
      ensures p in Pairs(s.table.rows, m) + if m == n then Product(users, channels) else {} {
      var x :| x in rows && rows[x].row.notificationId == m && (rows[x].row.userId, rows[x].row.channel) == p;
      if x in ids { assert ids[x] in ids.Values; }
    }
    forall p | p in Pairs(s.table.rows, m) ensures p in Pairs(rows, m) {
      var x :| x in s.table.rows && s.table.rows[x].row.notificationId == m
          && (s.table.rows[x].row.userId, s.table.rows[x].row.channel) == p;
      assert rows[x] == s.table.rows[x];
    }
    forall p | m == n && p in Product(users, channels) && p !in Pairs(s.table.rows, m) ensures p in Pairs(rows, m) {
      assert p in ids.Values;
      var x :| x in ids && ids[x] == p;
      assert rows[x].row.notificationId == n;
    }
  }

  /** A new row never clashes with an old one: its pair was not there, and a recipient stands for one user. */
  lemma InsertKeepsUnique(s: State, n: Id, now: Time, users: set<Id>, channels: seq<Channel>, r: map<(Id, Id), Id>,
          ids: map<Id, Pair>)
    requires FreshDeliveries(s, n, users, channels, ids) && forall u :: u in users ==> (n, u) in r
    requires RecipientsOk(s.(recipients := r)) && RowsOk(s.(recipients := r)) && UniqueOk(s.table.rows)
    ensures UniqueOk(InsertRows(s.table, NewRows(r, n, now, ids)).rows)
    ensures RowsOk(State(s.notifications, r, InsertRows(s.table, NewRows(r, n, now, ids))))
  {
    Inserted(s, n, now, users, channels, r, ids);
    var rows := InsertRows(s.table, NewRows(r, n, now, ids)).rows;
    forall x, y | x in rows && y in rows && SameCell(rows[x].row, rows[y].row)
      ensures x == y
    {
      if x in ids && y in ids {
        assert ids[x] == ids[y];
      } else if x in ids {
        NewPairIsNew(s, n, users, channels, r, ids, x, y);
      } else if y in ids {
        NewPairIsNew(s, n, users, channels, r, ids, y, x);
      }
    }
  }

  lemma NewPairIsNew(s: State, n: Id, users: set<Id>, channels: seq<Channel>, r: map<(Id, Id), Id>, ids: map<Id, Pair>,
          x: Id, y: Id)
    requires FreshDeliveries(s, n, users, channels, ids) && x in ids && y in s.table.rows && (n, ids[x].0) in r
    requires RecipientsOk(s.(recipients := r)) && RowsOk(s.(recipients := r))
    ensures !(s.table.rows[y].row.recipientId == r[(n, ids[x].0)] && s.table.rows[y].row.channel == ids[x].1)
  {
    var d := s.table.rows[y].row;
    assert ids[x] in ids.Values;
    assert d.notificationId == n ==> (d.userId, d.channel) in Pairs(s.table.rows, n);
  }

  lemma GrowsProduct(us: set<Id>, ps: set<Pair>, n: Notification, users: set<Id>, grows: bool,
                     us': set<Id>, ps': set<Pair>, n': Notification)
    requires IsProduct(us, ps, n)
    requires us' == us + (if grows then users else {}) && ps' == ps + (if grows then Product(users, n.channels) else {})
    requires n' == if grows then n.(recipientCount := |us'|, deliveryCount := |ps'|) else n
    ensures IsProduct(us', ps', n')
  {
    ProductOfUnion(us, if grows then users else {}, n.channels);
  }

  lemma ProductOfUnion(a: set<Id>, b: set<Id>, channels: seq<Channel>)
    ensures Product(a + b, channels) == Product(a, channels) + Product(b, channels)
    ensures Product({}, channels) == {}
  {
  }

  /** What one fanout does to the recipients and deliveries of any notification. */
  lemma FanSets(s: State, n: Id, now: Time, users: set<Id>, recipientIds: map<Id, Id>, deliveryIds: map<Id, Pair>,
          m: Id)
    requires n in s.notifications && FreshIds(s, n, users, recipientIds, deliveryIds)
    ensures var s' := FanOut(s, n, now, recipientIds, deliveryIds);
            && Users(s'.recipients, m) == Users(s.recipients, m) + (if m == n then users else {})
            && Pairs(s'.table.rows, m)
                == Pairs(s.table.rows, m) + (if m == n then Product(users, s.notifications[n].channels) else {})
  {
    var r := AddRecipients(s.recipients, n, recipientIds);
    RecipientsStay(s, n, users, recipientIds);
    UsersGrow(s, n, users, recipientIds, m);
    PairsGrow(s, n, now, users, s.notifications[n].channels, r, deliveryIds, m);
  }

  lemma FanCounts(s: State, n: Id, now: Time, recipientIds: map<Id, Id>, deliveryIds: map<Id, Pair>, m: Id)
    requires n in s.notifications && m in s.notifications
    ensures var s' := FanOut(s, n, now, recipientIds, deliveryIds);
            m in s'.notifications && s'.notifications[m] ==
              if m == n then s.notifications[m].(recipientCount := |Users(s'.recipients, m)|,
                                                 deliveryCount := |Pairs(s'.table.rows, m)|)
              else s.notifications[m]
  {
  }

  lemma FanKeepsProduct(s: State, n: Id, now: Time, users: set<Id>, recipientIds: map<Id, Id>,
          deliveryIds: map<Id, Pair>, m: Id)
    requires n in s.notifications && m in s.notifications && ProductOk(s, m)
    requires FreshIds(s, n, users, recipientIds, deliveryIds)
    ensures m in FanOut(s, n, now, recipientIds, deliveryIds).notifications
    ensures ProductOk(FanOut(s, n, now, recipientIds, deliveryIds), m)
  {
    FanSets(s, n, now, users, recipientIds, deliveryIds, m);
    FanCounts(s, n, now, recipientIds, deliveryIds, m);
    var s' := FanOut(s, n, now, recipientIds, deliveryIds);
    GrowsProduct(Users(s.recipients, m), Pairs(s.table.rows, m), s.notifications[m], users, m == n,
                 Users(s'.recipients, m), Pairs(s'.table.rows, m), s'.notifications[m]);
  }

  lemma FanKeepsRows(s: State, n: Id, now: Time, users: set<Id>, recipientIds: map<Id, Id>, deliveryIds: map<Id, Pair>)
    requires RecipientsOk(s) && RowsOk(s) && UniqueOk(s.table.rows)
    requires n in s.notifications && FreshIds(s, n, users, recipientIds, deliveryIds)
    ensures var s' := FanOut(s, n, now, recipientIds, deliveryIds);
            RecipientsOk(s') && RowsOk(s') && UniqueOk(s'.table.rows)
  {
    var r := AddRecipients(s.recipients, n, recipientIds);
    RecipientsStay(s, n, users, recipientIds);
    AddKeepsRecipients(s, n, users, recipientIds);
    assert RowsOk(s.(recipients := r));
    InsertKeepsUnique(s, n, now, users, s.notifications[n].channels, r, deliveryIds);
  }

  lemma FanKeepsProducts(s: State, n: Id, now: Time, users: set<Id>, recipientIds: map<Id, Id>,
          deliveryIds: map<Id, Pair>)
    requires n in s.notifications && FreshIds(s, n, users, recipientIds, deliveryIds)
    requires forall m :: m in s.notifications ==> ProductOk(s, m)
    ensures var s' := FanOut(s, n, now, recipientIds, deliveryIds);
            forall m :: m in s'.notifications ==> ProductOk(s', m)
  {
    forall m | m in s.notifications ensures ProductOk(FanOut(s, n, now, recipientIds, deliveryIds), m) {
      FanKeepsProduct(s, n, now, users, recipientIds, deliveryIds, m);
    }
  }

  lemma FanKeepsInv(s: State, n: Id, now: Time, users: set<Id>, recipientIds: map<Id, Id>, deliveryIds: map<Id, Pair>)
    requires Inv(s) && n in s.notifications && FreshIds(s, n, users, recipientIds, deliveryIds)
    ensures Inv(FanOut(s, n, now, recipientIds, deliveryIds))
  {
    FanKeepsRows(s, n, now, users, recipientIds, deliveryIds);
    FanKeepsProducts(s, n, now, users, recipientIds, deliveryIds);
  }

  lemma CreateKeepsInv(s: State, id: Id, audience: Stored, channels: seq<Channel>)
    requires Inv(s)
    ensures Inv(Next(s, Create(id, audience, channels)))
  {
    var s' := Next(s, Create(id, audience, channels));
    forall n | n in s'.notifications ensures ProductOk(s', n) {
      if n in s.notifications {
        assert ProductOk(s, n);
      } else {
        assert Users(s.recipients, n) == {};
        assert Pairs(s.table.rows, n) == {};
      }
    }
  }

  lemma StepKeepsInv(s: State, step: Step)
    requires Inv(s)
    ensures Inv(Next(s, step))
  {
    match step
    case Create(id, audience, channels) => CreateKeepsInv(s, id, audience, channels);
    case Fan(a) =>
      if CanFan(s, a) {
        FanKeepsInv(s, a.notificationId, a.now, SelectedSet(s, a), a.recipientIds, a.deliveryIds);
      }
    case Work(d) =>
      if !d.Insert? {
        WorkKeepsShape(s.table, d);
        ShapeKeepsInv(s, Deliveries.Next(s.table, d));
      }
  }

  lemma {:induction false} RunKeepsInv(s: State, steps: seq<Step>)
    requires Inv(s)
    ensures Inv(Run(s, steps))
  {
    if steps != [] {
      RunKeepsInv(s, steps[..|steps| - 1]);
      StepKeepsInv(Run(s, steps[..|steps| - 1]), steps[|steps| - 1]);
    }
  }

  // ----- theorems --------------------------------------------------------------------------------

  lemma {:induction false} ProductSize(users: set<Id>, channels: seq<Channel>)
    requires Distinct(channels)
    ensures |Product(users, channels)| == |users| * |channels|
  {
    if users != {} {
      var u :| u in users;
      var rest := users - {u};
      ProductSize(rest, channels);
      var row := Product({u}, channels);
      RowSize(u, channels);
      assert Product(users, channels) == Product(rest, channels) + row;
      assert Product(rest, channels) !! row;
      assert |users| == |rest| + 1;
      Times(|rest|, |channels|);
    } else {
      assert Product(users, channels) == {};
    }
  }

  lemma Times(a: nat, b: nat)
    ensures (a + 1) * b == a * b + b
  {
  }

  lemma {:induction false} RowSize(u: Id, channels: seq<Channel>)
    requires Distinct(channels)
    ensures |Product({u}, channels)| == |channels|
  {
    if channels == [] {
      assert Product({u}, channels) == {};
    } else {
      var n := |channels| - 1;
      RowSize(u, channels[..n]);
      assert channels == channels[..n] + [channels[n]];
      assert (u, channels[n]) !in Product({u}, channels[..n]);
      assert Product({u}, channels) == Product({u}, channels[..n]) + {(u, channels[n])};
    }
  }

  /**
   * In every reachable state, with fanouts, claims, sends, replays and reads interleaved in any way: deliveries are
   * recipients times channels, one row each, and the two counts are the sizes of those sets.
   */
  lemma ExactlyTheProduct(steps: seq<Step>, n: Id)
    requires n in Run(INITIAL, steps).notifications
    ensures var s := Run(INITIAL, steps);
            && Pairs(s.table.rows, n) == Product(Users(s.recipients, n), s.notifications[n].channels)
            && s.notifications[n].recipientCount == |Users(s.recipients, n)|
            && s.notifications[n].deliveryCount == |Pairs(s.table.rows, n)|
            && ((forall i, j :: 0 <= i < j < |s.notifications[n].channels| ==>
                   s.notifications[n].channels[i] != s.notifications[n].channels[j]) ==>
                  s.notifications[n].deliveryCount == s.notifications[n].recipientCount * |s.notifications[n].channels|)
            && UniqueOk(s.table.rows)
  {
    RunKeepsInv(INITIAL, steps);
    var s := Run(INITIAL, steps);
    assert ProductOk(s, n);
    if Distinct(s.notifications[n].channels) { ProductSize(Users(s.recipients, n), s.notifications[n].channels); }
  }

  lemma WithoutKey<A, B>(f: map<A, B>, x: A)
    requires x in f && forall y, z :: y in f && z in f && f[y] == f[z] ==> y == z
    ensures var rest := f - {x};
            f.Keys == rest.Keys + {x} && f.Values == rest.Values + {f[x]} && x !in rest.Keys && f[x] !in rest.Values
  {
    var rest := f - {x};
    forall v | v in f.Values ensures v in rest.Values + {f[x]} {
      var y :| y in f && f[y] == v;
      if y != x { assert y in rest && rest[y] == v; }
    }
  }

  lemma {:induction false} ValuesSize<A, B>(f: map<A, B>)
    requires forall x, y :: x in f && y in f && f[x] == f[y] ==> x == y
    ensures |f.Values| == |f.Keys|
  {
    if f != map[] {
      var x :| x in f;
      WithoutKey(f, x);
      ValuesSize(f - {x});
    }
  }

  lemma UsersAreRows(recipients: map<(Id, Id), Id>, n: Id)
    ensures |Users(recipients, n)| == |set k | k in recipients && k.0 == n|
  {
    var f := map k | k in recipients && k.0 == n :: k.1;
    assert f.Keys == set k | k in recipients && k.0 == n;
    assert f.Values == Users(recipients, n) by {
      forall u | u in Users(recipients, n) ensures u in f.Values {
        UserIsRecipient(recipients, n, u);
        assert (n, u) in f && f[(n, u)] == u;
      }
    }
    ValuesSize(f);
  }

  lemma OneRowAPair(s: State, x: Id, y: Id)
    requires RowsOk(s) && UniqueOk(s.table.rows) && x in s.table.rows && y in s.table.rows
    requires var d, e := s.table.rows[x].row, s.table.rows[y].row;
             d.notificationId == e.notificationId && d.userId == e.userId && d.channel == e.channel
    ensures x == y
  {
    assert SameCell(s.table.rows[x].row, s.table.rows[y].row);
  }

  lemma PairsAreRows(s: State, n: Id)
    requires RowsOk(s) && UniqueOk(s.table.rows)
    ensures |Pairs(s.table.rows, n)| == |set id | id in s.table.rows && s.table.rows[id].row.notificationId == n|
  {
    var rows := s.table.rows;
    var f := map id | id in rows && rows[id].row.notificationId == n :: (rows[id].row.userId, rows[id].row.channel);
    assert f.Keys == set id | id in rows && rows[id].row.notificationId == n;
    PairsAreValues(rows, n, f);
    forall x, y | x in f && y in f && f[x] == f[y] ensures x == y { OneRowAPair(s, x, y); }
    ValuesSize(f);
  }

  lemma PairsAreValues(rows: map<Id, Tracked>, n: Id, f: map<Id, Pair>)
    requires f == map id | id in rows && rows[id].row.notificationId == n :: (rows[id].row.userId, rows[id].row.channel)
    ensures f.Values == Pairs(rows, n)
  {
    forall p | p in Pairs(rows, n) ensures p in f.Values {
      var id :| id in rows && rows[id].row.notificationId == n && (rows[id].row.userId, rows[id].row.channel) == p;
      assert id in f && f[id] == p;
    }
  }

  /**
   * The same row by row: a user has a delivery on a channel exactly if they are a recipient and the channel was asked
   * for, and then just one; the two counts are the numbers of recipient rows and of delivery rows.
   */
  lemma CountsAreRows(steps: seq<Step>, n: Id, u: Id, c: Channel)
    requires n in Run(INITIAL, steps).notifications
    ensures var s := Run(INITIAL, steps);
            var rows, notification := s.table.rows, s.notifications[n];
            && ((n, u) in s.recipients && c in notification.channels <==>
                exists id :: id in rows && rows[id].row.notificationId == n && rows[id].row.userId == u
                             && rows[id].row.channel == c)
            && (forall x, y ::
                  x in rows && y in rows && rows[x].row.notificationId == rows[y].row.notificationId
                      && rows[x].row.userId == rows[y].row.userId && rows[x].row.channel == rows[y].row.channel ==>
                      x == y)
            && notification.recipientCount == |set k | k in s.recipients && k.0 == n|
            && notification.deliveryCount == |set id | id in rows && rows[id].row.notificationId == n|
  {
    RunKeepsInv(INITIAL, steps);
    var s := Run(INITIAL, steps);
    var rows := s.table.rows;
    assert ProductOk(s, n);
    UsersAreRows(s.recipients, n);
    PairsAreRows(s, n);
    forall x, y | x in rows && y in rows && rows[x].row.notificationId == rows[y].row.notificationId
                  && rows[x].row.userId == rows[y].row.userId && rows[x].row.channel == rows[y].row.channel
      ensures x == y
    {
      OneRowAPair(s, x, y);
    }
    UserIsRecipient(s.recipients, n, u);
    PairIsRow(rows, n, u, c);
    PairInProduct(Users(s.recipients, n), s.notifications[n].channels, u, c);
  }

  lemma PairIsRow(rows: map<Id, Tracked>, n: Id, u: Id, c: Channel)
    ensures (u, c) in Pairs(rows, n) <==>
            exists id :: id in rows && rows[id].row.notificationId == n && rows[id].row.userId == u
                         && rows[id].row.channel == c
  {
  }

  lemma PairInProduct(users: set<Id>, channels: seq<Channel>, u: Id, c: Channel)
    ensures (u, c) in Product(users, channels) <==> u in users && c in channels
  {
    assert (u, c).0 == u && (u, c).1 == c;
  }

  /** No fanout touches a delivery that was there already. */
  lemma FanTouchesNothing(s: State, n: Id, now: Time, users: set<Id>, recipientIds: map<Id, Id>,
          deliveryIds: map<Id, Pair>)
    requires n in s.notifications && FreshIds(s, n, users, recipientIds, deliveryIds)
    ensures var rows := FanOut(s, n, now, recipientIds, deliveryIds).table.rows;
            forall id :: id in s.table.rows ==> id in rows && rows[id] == s.table.rows[id]
  {
    RecipientsStay(s, n, users, recipientIds);
    Inserted(s, n, now, users, s.notifications[n].channels, AddRecipients(s.recipients, n, recipientIds), deliveryIds);
  }

  lemma FanIs(s: State, a: Job)
    requires CanFan(s, a)
    ensures Next(s, Fan(a)) == FanOut(s, a.notificationId, a.now, a.recipientIds, a.deliveryIds)
    ensures FreshIds(s, a.notificationId, SelectedSet(s, a), a.recipientIds, a.deliveryIds)
  {
  }

  /** Exactly the selected users become recipients, of this notification and no other. */
  lemma FanMeans(s: State, a: Job, m: Id)
    requires CanFan(s, a)
    ensures Users(Next(s, Fan(a)).recipients, m) ==
            Users(s.recipients, m) + if m == a.notificationId then SelectedSet(s, a) else {}
  {
    FanIs(s, a);
    FanSets(s, a.notificationId, a.now, SelectedSet(s, a), a.recipientIds, a.deliveryIds, m);
  }

  /** Whom the stored audience is for becomes a recipient of this notification, and nobody else does. */
  lemma FanReaches(s: State, a: Job, m: Id, u: Id)
    requires CanFan(s, a)
    requires s.notifications[a.notificationId].audience.StoredLabels? ==> LabelsUnique(a.directory)
    ensures (m, u) in Next(s, Fan(a)).recipients <==>
            (m, u) in s.recipients
            || (m == a.notificationId && StoredWanted(a.directory, s.notifications[m].audience, u))
  {
    FanMeans(s, a, m);
    UserIsRecipient(s.recipients, m, u);
    UserIsRecipient(Next(s, Fan(a)).recipients, m, u);
    ResolveStoredMeans(a.directory, s.notifications[a.notificationId].audience, a.items, u);
  }

  lemma UserIsRecipient(recipients: map<(Id, Id), Id>, n: Id, u: Id)
    ensures u in Users(recipients, n) <==> (n, u) in recipients
  {
    if (n, u) in recipients { assert (n, u).0 == n && (n, u).1 == u; }
  }

  lemma InsertedRow(s: State, n: Id, now: Time, users: set<Id>, recipientIds: map<Id, Id>, deliveryIds: map<Id, Pair>,
          id: Id)
    requires n in s.notifications && FreshIds(s, n, users, recipientIds, deliveryIds)
    requires id in FanOut(s, n, now, recipientIds, deliveryIds).table.rows && id !in s.table.rows
    ensures id in deliveryIds
    ensures var s' := FanOut(s, n, now, recipientIds, deliveryIds);
            && (n, deliveryIds[id].0) in s'.recipients
            && IsFresh(s'.table.rows[id], s'.recipients[(n, deliveryIds[id].0)], n, deliveryIds[id], now)
    ensures deliveryIds[id] in Product(users, s.notifications[n].channels) - Pairs(s.table.rows, n)
  {
    RecipientsStay(s, n, users, recipientIds);
    Inserted(s, n, now, users, s.notifications[n].channels, AddRecipients(s.recipients, n, recipientIds), deliveryIds);
    assert id in deliveryIds ==> deliveryIds[id] in deliveryIds.Values;
  }

  /**
   * A delivery row that a fanout inserts is for a recipient the audience is for and a channel that was asked for, on
   * which that user had none; it waits, due at once, with all its attempts before it and every other column empty.
   */
  lemma FanInserts(s: State, a: Job, id: Id)
    requires Inv(s) && CanFan(s, a)
    requires id in Next(s, Fan(a)).table.rows && id !in s.table.rows
    ensures var n, s' := a.notificationId, Next(s, Fan(a));
            var tr := s'.table.rows[id];
            var d := tr.row;
            && d.notificationId == n && d.channel in s.notifications[n].channels
            && (n, d.userId) in s'.recipients && s'.recipients[(n, d.userId)] == d.recipientId
            && (s.notifications[n].audience.StoredLabels? ==> LabelsUnique(a.directory) ==>
                  StoredWanted(a.directory, s.notifications[n].audience, d.userId))
            && (forall x ::
                  x in s.table.rows && s.table.rows[x].row.notificationId == n && s.table.rows[x].row.userId == d.userId
                  ==> s.table.rows[x].row.channel != d.channel)
            && tr.attempts == [] && tr.events == []
            && d == Delivery(d.recipientId, n, d.userId, d.channel, Pending, 0, 3, a.now, None, None, None, None, None,
                             None, None, None, None, None, a.now)
  {
    var n := a.notificationId;
    FanIs(s, a);
    InsertedRow(s, n, a.now, SelectedSet(s, a), a.recipientIds, a.deliveryIds, id);
    var d := Next(s, Fan(a)).table.rows[id].row;
    PairInProduct(SelectedSet(s, a), s.notifications[n].channels, d.userId, d.channel);
    PairIsRow(s.table.rows, n, d.userId, d.channel);
    if s.notifications[n].audience.StoredLabels? ==> LabelsUnique(a.directory) {
      ResolveStoredMeans(a.directory, s.notifications[n].audience, a.items, d.userId);
    }
  }

  lemma NoNewIds(s: State, n: Id, users: set<Id>, recipientIds: map<Id, Id>, deliveryIds: map<Id, Pair>)
    requires n in s.notifications && ProductOk(s, n) && users <= Users(s.recipients, n)
    requires FreshIds(s, n, users, recipientIds, deliveryIds)
    ensures recipientIds == map[] && deliveryIds == map[]
  {
  }

  lemma NoRecipientsAdded(recipients: map<(Id, Id), Id>, n: Id)
    ensures AddRecipients(recipients, n, map[]) == recipients
  {
  }

  lemma NoRowsAdded(recipients: map<(Id, Id), Id>, t: Table, n: Id, now: Time)
    ensures InsertRows(t, NewRows(recipients, n, now, map[])) == t
  {
    assert InsertRows(t, NewRows(recipients, n, now, map[])).rows == t.rows;
  }

  lemma NothingToFan(s: State, n: Id, now: Time)
    requires n in s.notifications && ProductOk(s, n)
    ensures FanOut(s, n, now, map[], map[]) == s
  {
    NoRecipientsAdded(s.recipients, n);
    NoRowsAdded(s.recipients, s.table, n, now);
    CountsAreSet(s, n);
  }

  lemma CountsAreSet(s: State, n: Id)
    requires n in s.notifications && ProductOk(s, n)
    ensures SetCounts(s, n) == s
  {
    assert s.notifications[n := s.notifications[n]] == s.notifications;
  }

  /** Fanning out again for users that are all recipients already changes nothing at all. */
  lemma RerunChangesNothing(s: State, a: Job)
    requires Inv(s) && a.notificationId in s.notifications
    requires SelectedSet(s, a) <= Users(s.recipients, a.notificationId)
    ensures Next(s, Fan(a)) == s
  {
    assert ProductOk(s, a.notificationId);
    if CanFan(s, a) {
      FanIs(s, a);
      NoNewIds(s, a.notificationId, SelectedSet(s, a), a.recipientIds, a.deliveryIds);
      NothingToFan(s, a.notificationId, a.now);
    }
  }

  /** A request keeps its audience and channels, and its recipients stay. */
  predicate Keeps(s: State, e: State, n: Id)
    requires n in s.notifications
  {
    && n in e.notifications
    && e.notifications[n].channels == s.notifications[n].channels
    && e.notifications[n].audience == s.notifications[n].audience
    && Users(s.recipients, n) <= Users(e.recipients, n)
  }

  lemma {:induction false} RecipientsForever(s: State, steps: seq<Step>, n: Id)
    requires n in s.notifications
    ensures Keeps(s, Run(s, steps), n)
  {
    if steps != [] {
      RecipientsForever(s, steps[..|steps| - 1], n);
      RecipientsStep(Run(s, steps[..|steps| - 1]), steps[|steps| - 1], n);
    }
  }

  lemma RecipientsStep(s: State, step: Step, n: Id)
    requires n in s.notifications
    ensures Keeps(s, Next(s, step), n)
  {
    match step
    case Create(_, _, _) =>
    case Fan(a) =>
      if CanFan(s, a) {
        FanMeans(s, a, n);
        FanIs(s, a);
        FanCounts(s, a.notificationId, a.now, a.recipientIds, a.deliveryIds, n);
      }
    case Work(_) =>
  }

  /**
   * Once fanned out, a rerun with the same directory changes nothing, however long after and whatever happened since.
   */
  lemma RerunWithSameDirectory(s: State, a: Job, steps: seq<Step>, again: Job)
    requires Inv(s) && CanFan(s, a)
    requires again.notificationId == a.notificationId && again.directory == a.directory && again.items == a.items
    ensures var e := Run(Next(s, Fan(a)), steps); Next(e, Fan(again)) == e
  {
    var t := Next(s, Fan(a));
    StepKeepsInv(s, Fan(a));
    RecipientsStep(s, Fan(a), a.notificationId);
    FanMeans(s, a, a.notificationId);
    RunKeepsInv(t, steps);
    RecipientsForever(t, steps, a.notificationId);
    RerunChangesNothing(Run(t, steps), again);
  }
}
