/** NotificationFanoutService and the insert-ignore helpers of the notification repository. */
module FanoutServices {
  import opened Common
  import opened Deliveries
  import opened Audience
  import opened Fanout

  datatype FanoutResult = FanoutResult(notificationId: Id, recipientCount: nat, deliveryCount: nat, nextAttemptAt: Time)

  datatype FanoutError = NotificationMissing | LimitExceeded(recipients: int, deliveries: int)

  /** One dictionary of delivery_values. */
  datatype Value = Value(id: Id, row: Delivery)

  function PairOf(v: Value): Pair { (v.row.userId, v.row.channel) }

  function PairsOf(values: seq<Value>): set<Pair> {
    set k | 0 <= k < |values| :: PairOf(values[k])
  }

  function ToSet<T(==)>(q: seq<T>): set<T> { set x | x in q }

  /** Values as fanout builds them: new pending rows of n for known recipients, under ids never used before. */
  predicate ValuesOk(values: seq<Value>, recipients: map<(Id, Id), Id>, rows: map<Id, Tracked>, n: Id, now: Time) {
    && (forall k :: 0 <= k < |values| ==>
          var p := PairOf(values[k]);
          (n, p.0) in recipients && values[k].row == NewDelivery(recipients[(n, p.0)], n, p.0, p.1, now)
              && values[k].id !in rows)
    && (forall j, k :: 0 <= j < k < |values| ==> values[j].id != values[k].id)
  }

  lemma ValuesSnoc(values: seq<Value>, v: Value)
    ensures PairsOf(values + [v]) == PairsOf(values) + {PairOf(v)}
  {
    var q := values + [v];
    assert q[|values|] == v;
    forall p | p in PairsOf(values) ensures p in PairsOf(q) {
      var k :| 0 <= k < |values| && PairOf(values[k]) == p;
      assert q[k] == values[k];
    }
  }

  lemma ValuesOkSnoc(values: seq<Value>, v: Value, recipients: map<(Id, Id), Id>, rows: map<Id, Tracked>, n: Id,
          now: Time)
    requires ValuesOk(values, recipients, rows, n, now) && v.id !in rows
    requires forall k :: 0 <= k < |values| ==> values[k].id != v.id
    requires var p := PairOf(v);
             (n, p.0) in recipients && v.row == NewDelivery(recipients[(n, p.0)], n, p.0, p.1, now)
    ensures ValuesOk(values + [v], recipients, rows, n, now)
  {
  }

  lemma PairsOfSnoc(values: seq<Value>, k: nat)
    requires k < |values|
    ensures PairsOf(values[..k + 1]) == PairsOf(values[..k]) + {PairOf(values[k])}
  {
  }

  // ----- one row at a time -----------------------------------------------------------------------

  lemma AddedRecipient(r: map<(Id, Id), Id>, n: Id, ids: map<Id, Id>, k: (Id, Id))
    ensures k in AddRecipients(r, n, ids) <==> k in r || (k.0 == n && k.1 in ids)
    ensures k in AddRecipients(r, n, ids) ==>
              AddRecipients(r, n, ids)[k] == if k.0 == n && k.1 in ids then ids[k.1] else r[k]
  {
  }

  lemma RecipientOne(r: map<(Id, Id), Id>, n: Id, ids: map<Id, Id>, u: Id, id: Id)
    requires u !in ids
    ensures AddRecipients(r, n, ids[u := id]) == AddRecipients(r, n, ids)[(n, u) := id]
  {
    var a, b := AddRecipients(r, n, ids[u := id]), AddRecipients(r, n, ids)[(n, u) := id];
    forall k ensures k in a <==> k in b
      ensures k in a ==> a[k] == b[k]
    {
      AddedRecipient(r, n, ids[u := id], k);
      AddedRecipient(r, n, ids, k);
    }
  }

  predicate NewIds(users: set<Id>, before: set<Id>, now: set<Id>, done: set<Id>, ids: map<Id, Id>) {
    && ids.Keys == done - users
    && (forall u :: u in ids ==> ids[u] !in before && ids[u] in now)
    && (forall u, v :: u in ids && v in ids && u != v ==> ids[u] != ids[v])
  }

  lemma NewIdsOne(users: set<Id>, before: set<Id>, now: set<Id>, done: set<Id>, ids: map<Id, Id>, u: Id, id: Id)
    requires NewIds(users, before, now, done, ids) && u !in users && u !in ids && id !in now && id !in before
    ensures NewIds(users, before, now + {id}, done + {u}, ids[u := id])
  {
  }

  /** Where add_recipients_ignore_conflicts stands: `ids` are the rows inserted for those of `done` that had none. */
  ghost predicate AddingRecipients(r: map<(Id, Id), Id>, n: Id, done: set<Id>, ids: map<Id, Id>,
          recipients: map<(Id, Id), Id>) {
    recipients == AddRecipients(r, n, ids) && NewIds(Users(r, n), r.Values, recipients.Values, done, ids)
  }

  lemma IsUser(r: map<(Id, Id), Id>, n: Id, u: Id)
    ensures u in Users(r, n) <==> (n, u) in r
  {
  }

  lemma ValueStays(r: map<(Id, Id), Id>, k: (Id, Id), id: Id)
    requires k !in r
    ensures r[k := id].Values == r.Values + {id}
  {
    var next := r[k := id];
    assert next[k] == id;
    forall v | v in r.Values ensures v in next.Values {
      var j :| j in r && r[j] == v;
      assert next[j] == v;
    }
  }

  lemma OldValueStays(r: map<(Id, Id), Id>, n: Id, ids: map<Id, Id>, v: Id)
    requires ids.Keys !! Users(r, n)
    ensures v in r.Values ==> v in AddRecipients(r, n, ids).Values
  {
    if v in r.Values {
      var k :| k in r && r[k] == v;
      IsUser(r, n, k.1);
      assert AddRecipients(r, n, ids)[k] == v;
    }
  }

  lemma NewRecipient(r: map<(Id, Id), Id>, n: Id, done: set<Id>, ids: map<Id, Id>, recipients: map<(Id, Id), Id>, u: Id,
          id: Id)
    requires AddingRecipients(r, n, done, ids, recipients) && (n, u) !in recipients && id !in recipients.Values
    ensures AddingRecipients(r, n, done + {u}, ids[u := id], recipients[(n, u) := id])
  {
    AddedRecipient(r, n, ids, (n, u));
    IsUser(r, n, u);
    RecipientOne(r, n, ids, u, id);
    ValueStays(recipients, (n, u), id);
    OldValueStays(r, n, ids, id);
    NewIdsOne(Users(r, n), r.Values, recipients.Values, done, ids, u, id);
  }

  lemma KnownRecipient(r: map<(Id, Id), Id>, n: Id, done: set<Id>, ids: map<Id, Id>, recipients: map<(Id, Id), Id>,
          u: Id)
    requires AddingRecipients(r, n, done, ids, recipients) && (n, u) in recipients
    ensures AddingRecipients(r, n, done + {u}, ids, recipients)
  {
  }

  /** The rows once the values behind `ids` are in. */
  function Grown(t: Table, r: map<(Id, Id), Id>, n: Id, now: Time, ids: map<Id, Pair>): map<Id, Tracked> {
    InsertRows(t, NewRows(r, n, now, ids)).rows
  }

  predicate AllKnown(t: Table, r: map<(Id, Id), Id>, n: Id, ids: map<Id, Pair>) {
    forall x :: x in ids ==> x !in t.rows && (n, ids[x].0) in r
  }

  /** The same, row by row. */
  predicate GrownTo(t: Table, r: map<(Id, Id), Id>, n: Id, now: Time, ids: map<Id, Pair>, rows: map<Id, Tracked>)
    requires AllKnown(t, r, n, ids)
  {
    && rows.Keys == t.rows.Keys + ids.Keys
    && (forall x :: x in t.rows ==> rows[x] == t.rows[x])
    && (forall x :: x in ids ==> IsFresh(rows[x], r[(n, ids[x].0)], n, ids[x], now))
  }

  lemma GrownToOne(t: Table, r: map<(Id, Id), Id>, n: Id, now: Time, ids: map<Id, Pair>, rows: map<Id, Tracked>, x: Id,
          p: Pair, tr: Tracked)
    requires AllKnown(t, r, n, ids) && GrownTo(t, r, n, now, ids, rows)
    requires x !in t.rows && x !in ids && (n, p.0) in r && IsFresh(tr, r[(n, p.0)], n, p, now)
    ensures AllKnown(t, r, n, ids[x := p]) && GrownTo(t, r, n, now, ids[x := p], rows[x := tr])
  {
  }

  lemma GrownToIsGrown(t: Table, r: map<(Id, Id), Id>, n: Id, now: Time, ids: map<Id, Pair>, rows: map<Id, Tracked>)
    requires AllKnown(t, r, n, ids) && GrownTo(t, r, n, now, ids, rows)
    ensures rows == Grown(t, r, n, now, ids)
  {
    var added := NewRows(r, n, now, ids);
    assert CanInsert(t, added);
    assert added.Keys == ids.Keys;
    forall x | x in rows ensures x in Grown(t, r, n, now, ids) && rows[x] == Grown(t, r, n, now, ids)[x] {
      assert x in t.rows || x in ids;
    }
  }

  predicate NewPairs(before: set<Pair>, now: set<Pair>, done: set<Pair>, ids: map<Id, Pair>) {
    && ids.Values == done - before
    && now == before + ids.Values
    && (forall x, y :: x in ids && y in ids && x != y ==> ids[x] != ids[y])
  }

  lemma NewPairsOne(before: set<Pair>, now: set<Pair>, done: set<Pair>, ids: map<Id, Pair>, x: Id, p: Pair)
    requires NewPairs(before, now, done, ids) && x !in ids && p !in now
    ensures NewPairs(before, now + {p}, done + {p}, ids[x := p])
  {
    ValueOne(ids, x, p);
    ValuesHave(ids, p);
  }

  /** Where add_deliveries_ignore_conflicts stands: `ids` are the rows inserted for those of `done` that had none. */
  ghost predicate AddingDeliveries(t: Table, r: map<(Id, Id), Id>, n: Id, now: Time, done: set<Pair>,
          ids: map<Id, Pair>, rows: map<Id, Tracked>) {
    && AllKnown(t, r, n, ids)
    && GrownTo(t, r, n, now, ids, rows)
    && NewPairs(Pairs(t.rows, n), Pairs(rows, n), done, ids)
  }

  lemma NewValuePairs(t: Table, r: map<(Id, Id), Id>, n: Id, now: Time, done: set<Pair>, ids: map<Id, Pair>,
          rows: map<Id, Tracked>, v: Value)
    requires AddingDeliveries(t, r, n, now, done, ids, rows) && PairOf(v) !in Pairs(rows, n)
    requires v.id !in ids && v.id !in t.rows && v.row.notificationId == n
    ensures NewPairs(Pairs(t.rows, n), Pairs(rows[v.id := Tracked(v.row, [], [])], n), done + {PairOf(v)},
                     ids[v.id := PairOf(v)])
  {
    PairOne(rows, v.id, Tracked(v.row, [], []), n);
    NewPairsOne(Pairs(t.rows, n), Pairs(rows, n), done, ids, v.id, PairOf(v));
  }

  lemma NewValue(t: Table, r: map<(Id, Id), Id>, n: Id, now: Time, done: set<Pair>, ids: map<Id, Pair>,
          rows: map<Id, Tracked>, v: Value)
    requires AddingDeliveries(t, r, n, now, done, ids, rows) && PairOf(v) !in Pairs(rows, n)
    requires v.id !in ids && v.id !in t.rows && v.row.notificationId == n
    requires (n, v.row.userId) in r && IsFresh(Tracked(v.row, [], []), r[(n, v.row.userId)], n, PairOf(v), now)
    ensures AddingDeliveries(t, r, n, now, done + {PairOf(v)}, ids[v.id := PairOf(v)],
                             rows[v.id := Tracked(v.row, [], [])])
  {
    GrownToOne(t, r, n, now, ids, rows, v.id, PairOf(v), Tracked(v.row, [], []));
    NewValuePairs(t, r, n, now, done, ids, rows, v);
  }

  lemma ValuesHave(ids: map<Id, Pair>, p: Pair)
    ensures p !in ids.Values ==> forall x :: x in ids ==> ids[x] != p
  {
  }

  lemma KnownValue(t: Table, r: map<(Id, Id), Id>, n: Id, now: Time, done: set<Pair>, ids: map<Id, Pair>,
          rows: map<Id, Tracked>, p: Pair)
    requires AddingDeliveries(t, r, n, now, done, ids, rows) && p in Pairs(rows, n)
    ensures AddingDeliveries(t, r, n, now, done + {p}, ids, rows)
  {
  }

  lemma PairOne(rows: map<Id, Tracked>, x: Id, tr: Tracked, n: Id)
    requires x !in rows && tr.row.notificationId == n
    ensures Pairs(rows[x := tr], n) == Pairs(rows, n) + {(tr.row.userId, tr.row.channel)}
  {
    var rows' := rows[x := tr];
    forall p | p in Pairs(rows, n) ensures p in Pairs(rows', n) {
      var y :| y in rows && rows[y].row.notificationId == n && (rows[y].row.userId, rows[y].row.channel) == p;
      assert rows'[y] == rows[y];
    }
    assert rows'[x] == tr;
  }

  /** The unique index on (recipient, channel) refuses a value exactly if its (user, channel) is there already. */
  lemma ConflictMeans(s: State, n: Id, v: Value)
    requires RecipientsOk(s) && RowsOk(s)
    requires v.row.notificationId == n && (n, v.row.userId) in s.recipients
             && v.row.recipientId == s.recipients[(n, v.row.userId)]
    ensures (exists id :: id in s.table.rows && SameCell(s.table.rows[id].row, v.row)) <==>
              PairOf(v) in Pairs(s.table.rows, n)
  {
  }

  lemma RowsOkOne(s: State, x: Id, v: Value)
    requires RowsOk(s) && x !in s.table.rows
    requires (v.row.notificationId, v.row.userId) in s.recipients
             && v.row.recipientId == s.recipients[(v.row.notificationId, v.row.userId)]
    ensures RowsOk(s.(table := s.table.(rows := s.table.rows[x := Tracked(v.row, [], [])])))
  {
  }

  class NotificationFanoutService {
    var notifications: map<Id, Notification>
    var recipients: map<(Id, Id), Id>
    var rows: map<Id, Tracked>
    var issued: set<Id>
    const maxRecipients: int
    const maxDeliveries: int

    function View(): State
      reads this
    {
      State(notifications, recipients, Table(rows, issued))
    }

    constructor (s: State, maxRecipients: int, maxDeliveries: int)
      ensures View() == s && this.maxRecipients == maxRecipients && this.maxDeliveries == maxDeliveries
    {
      notifications, recipients, rows, issued := s.notifications, s.recipients, s.table.rows, s.table.issued;
      this.maxRecipients, this.maxDeliveries := maxRecipients, maxDeliveries;
    }

    /** add_recipients_ignore_conflicts */
    method AddRecipientsIgnoreConflicts(n: Id, userIds: seq<Id>) returns (ghost ids: map<Id, Id>)
      modifies this`recipients
      ensures FreshRecipients(old(View()), n, ToSet(userIds), ids)
      ensures recipients == AddRecipients(old(recipients), n, ids)
    {
      ids := map[];
      ghost var r := recipients;
      assert AddRecipients(r, n, map[]) == r;
      for i := 0 to |userIds|
        invariant AddingRecipients(r, n, ToSet(userIds[..i]), ids, recipients)
      {
        var u := userIds[i];
        ToSetSnoc(userIds, i);
        if (n, u) !in recipients {
          FreshId(recipients.Values);
          var id: Id :| id !in recipients.Values;
          NewRecipient(r, n, ToSet(userIds[..i]), ids, recipients, u, id);
          recipients := recipients[(n, u) := id];
          ids := ids[u := id];
        } else {
          KnownRecipient(r, n, ToSet(userIds[..i]), ids, recipients, u);
        }
      }
      assert userIds[..|userIds|] == userIds;
    }

    /** One more value, under an id `uuid4` never handed out before. */
    method AddValue(values: seq<Value>, row: Delivery) returns (more: seq<Value>)
      ensures |more| == |values| + 1 && more == values + [more[|values|]] && more[|values|].row == row
      ensures more[|values|].id !in rows && forall k :: 0 <= k < |values| ==> values[k].id != more[|values|].id
      ensures PairsOf(more) == PairsOf(values) + {(row.userId, row.channel)}
    {
      var taken := rows.Keys + set k | 0 <= k < |values| :: values[k].id;
      FreshId(taken);
      var id: Id :| id !in taken;
      ValuesSnoc(values, Value(id, row));
      more := values + [Value(id, row)];
    }

    /** The inner loop: one value for every channel on which this user has no delivery yet. */
    method AddValuesFor(n: Id, userId: Id, channels: seq<Channel>, pairs: set<Pair>, now: Time, before: seq<Value>)
      returns (values: seq<Value>)
      requires (n, userId) in recipients && ValuesOk(before, recipients, rows, n, now)
      ensures ValuesOk(values, recipients, rows, n, now)
      ensures PairsOf(values) == PairsOf(before) + (Product({userId}, channels) - pairs)
    {
      values := before;
      var recipientId := recipients[(n, userId)];
      assert Product({userId}, channels[..0]) == {};
      for j := 0 to |channels|
        invariant ValuesOk(values, recipients, rows, n, now)
        invariant PairsOf(values) == PairsOf(before) + (Product({userId}, channels[..j]) - pairs)
      {
        var channel := channels[j];
        ProductStep(userId, channels, j);
        if (userId, channel) !in pairs {
          var more := AddValue(values, NewDelivery(recipientId, n, userId, channel, now));
          ValuesOkSnoc(values, more[|values|], recipients, rows, n, now);
          values := more;
        }
      }
      assert channels[..|channels|] == channels;
    }

    /** The nested loops: a value for every pair of a selected user and a channel that has no delivery yet. */
    method BuildValues(n: Id, userIds: seq<Id>, channels: seq<Channel>, pairs: set<Pair>, now: Time)
      returns (values: seq<Value>)
      requires forall u :: u in userIds ==> (n, u) in recipients
      ensures ValuesOk(values, recipients, rows, n, now)
      ensures PairsOf(values) == Product(ToSet(userIds), channels) - pairs
    {
      values := [];
      for i := 0 to |userIds|
        invariant ValuesOk(values, recipients, rows, n, now)
        invariant PairsOf(values) == Product(ToSet(userIds[..i]), channels) - pairs
      {
        var u := userIds[i];
        ToSetSnoc(userIds, i);
        values := AddValuesFor(n, u, channels, pairs, now, values);
      }
      assert userIds[..|userIds|] == userIds;
    }

    /** INSERT ... ON CONFLICT DO NOTHING for one row: refused exactly if the user has a delivery on that channel. */
    method InsertIgnore(n: Id, v: Value) returns (inserted: bool)
      requires RecipientsOk(View()) && RowsOk(View()) && v.id !in rows
      requires v.row.notificationId == n && (n, v.row.userId) in recipients
               && v.row.recipientId == recipients[(n, v.row.userId)]
      modifies this`rows
      ensures inserted <==> PairOf(v) !in Pairs(old(rows), n)
      ensures rows == if inserted then old(rows)[v.id := Tracked(v.row, [], [])] else old(rows)
      ensures RowsOk(View())
    {
      ConflictMeans(View(), n, v);
      inserted := !(exists id :: id in rows && SameCell(rows[id].row, v.row));
      if inserted {
        RowsOkOne(View(), v.id, v);
        rows := rows[v.id := Tracked(v.row, [], [])];
      }
    }

    /** add_deliveries_ignore_conflicts */
    method AddDeliveriesIgnoreConflicts(n: Id, now: Time, values: seq<Value>) returns (ghost ids: map<Id, Pair>)
      requires RecipientsOk(View()) && RowsOk(View()) && ValuesOk(values, recipients, rows, n, now)
      modifies this`rows
      ensures rows == Grown(old(View()).table, recipients, n, now, ids)
      ensures ids.Values == PairsOf(values) - Pairs(old(rows), n)
      ensures forall x :: x in ids ==> x !in old(rows)
      ensures forall x, y :: x in ids && y in ids && x != y ==> ids[x] != ids[y]
    {
      ids := map[];
      ghost var t := Table(rows, issued);
      for k := 0 to |values|
        invariant AddingDeliveries(t, recipients, n, now, PairsOf(values[..k]), ids, rows)
        invariant RowsOk(View())
        invariant forall j :: k <= j < |values| ==> values[j].id !in ids && values[j].id !in rows
      {
        var v := values[k];
        PairsOfSnoc(values, k);
        ghost var before := rows;
        var inserted := InsertIgnore(n, v);
        if inserted {
          NewValue(t, recipients, n, now, PairsOf(values[..k]), ids, before, v);
          ids := ids[v.id := PairOf(v)];
        } else {
          KnownValue(t, recipients, n, now, PairsOf(values[..k]), ids, rows, PairOf(v));
        }
      }
      assert values[..|values|] == values;
      GrownToIsGrown(t, recipients, n, now, ids, rows);
    }

    /**
     * fanout_notification. It fails, and changes nothing, exactly if the notification is unknown or a limit is
     * exceeded; otherwise it is one fanout step, and reports the recipients and deliveries there are after it.
     */
    method FanoutNotification(n: Id, directory: Directory, items: seq<Label>, now: Time)
      returns (res: Result<FanoutResult, FanoutError>, ghost job: Job)
      requires Inv(View()) && (n in notifications ==> ItemsMatch(notifications[n].audience, items))
      modifies this
      ensures job == Job(n, directory, items, now, maxRecipients, maxDeliveries, job.recipientIds, job.deliveryIds)
      ensures Answers(old(View()), job, res, View())
      ensures n !in old(notifications) <==> res == Err(NotificationMissing)
      ensures n in old(notifications) && (old(notifications)[n].audience.StoredLabels? ==> LabelsUnique(directory)) ==>
                Reached(old(View()), n, directory, maxRecipients, maxDeliveries, res, View())
    {
      job := Job(n, directory, items, now, maxRecipients, maxDeliveries, map[], map[]);
      if n !in notifications {
        return Err(NotificationMissing), job;
      }
      var userIds := ResolveStored(directory, notifications[n].audience, items);
      var channels := notifications[n].channels;
      var requested := |userIds| * |channels|;
      if |userIds| > maxRecipients || requested > maxDeliveries {
        if notifications[n].audience.StoredLabels? ==> LabelsUnique(directory) { CountsWanted(View(), job); }
        return Err(LimitExceeded(|userIds|, requested)), job;
      }
      ghost var s := View();
      ghost var recipientIds, deliveryIds := Insert(n, userIds, channels, now);
      job := job.(recipientIds := recipientIds, deliveryIds := deliveryIds);
      Fans(s, job, View());
      res := Ok(FanoutResult(n, notifications[n].recipientCount, notifications[n].deliveryCount, now));
      if s.notifications[n].audience.StoredLabels? ==> LabelsUnique(directory) { Reaches(s, job); }
    }

    /** The writes of fanout_notification. */
    method Insert(n: Id, userIds: seq<Id>, channels: seq<Channel>, now: Time)
      returns (ghost recipientIds: map<Id, Id>, ghost deliveryIds: map<Id, Pair>)
      requires Inv(View()) && n in notifications && channels == notifications[n].channels
      modifies this
      ensures FreshIds(old(View()), n, ToSet(userIds), recipientIds, deliveryIds)
      ensures View() == FanOut(old(View()), n, now, recipientIds, deliveryIds) && Inv(View())
    {
      ghost var s := View();
      recipientIds := InsertRecipients(n, userIds);
      ghost var t := Table(rows, issued);
      deliveryIds := InsertDeliveries(n, userIds, channels, now);
      assert t == s.table && rows == Grown(t, recipients, n, now, deliveryIds);
      notifications := notifications[n := notifications[n].(
        recipientCount := |Users(recipients, n)|, deliveryCount := |Pairs(rows, n)|)];
      Assembled(s, n, now, ToSet(userIds), recipientIds, deliveryIds, View());
    }

    method InsertRecipients(n: Id, userIds: seq<Id>) returns (ghost ids: map<Id, Id>)
      requires RecipientsOk(View()) && n in notifications
      modifies this`recipients
      ensures FreshRecipients(old(View()), n, ToSet(userIds), ids)
              && recipients == AddRecipients(old(recipients), n, ids)
      ensures RecipientsOk(View()) && forall u :: u in userIds ==> (n, u) in recipients
      ensures forall k :: k in old(recipients) ==> k in recipients && recipients[k] == old(recipients)[k]
    {
      ghost var s := View();
      var missing := Missing(n, userIds);
      ids := AddRecipientsIgnoreConflicts(n, missing);
      MissingSuffices(s, n, ToSet(userIds), ToSet(missing), ids);
      RecipientsStay(s, n, ToSet(userIds), ids);
      AddKeepsRecipients(s, n, ToSet(userIds), ids);
    }

    method InsertDeliveries(n: Id, userIds: seq<Id>, channels: seq<Channel>, now: Time)
      returns (ghost ids: map<Id, Pair>)
      requires RecipientsOk(View()) && RowsOk(View()) && forall u :: u in userIds ==> (n, u) in recipients
      modifies this`rows
      ensures FreshDeliveries(old(View()), n, ToSet(userIds), channels, ids)
      ensures rows == Grown(Table(old(rows), issued), recipients, n, now, ids)
    {
      var pairs := Pairs(rows, n);
      var values := BuildValues(n, userIds, channels, pairs, now);
      ids := AddDeliveriesIgnoreConflicts(n, now, values);
    }

    /** The selected users that have no recipient row, in order. */
    method Missing(n: Id, userIds: seq<Id>) returns (missing: seq<Id>)
      ensures ToSet(missing) == ToSet(userIds) - Users(recipients, n)
    {
      missing := [];
      var known := Users(recipients, n);
      for i := 0 to |userIds|
        invariant ToSet(missing) == ToSet(userIds[..i]) - known
      {
        ToSetSnoc(userIds, i);
        assert ToSet(missing + [userIds[i]]) == ToSet(missing) + {userIds[i]};
        if userIds[i] !in known { missing := missing + [userIds[i]]; }
      }
      assert userIds[..|userIds|] == userIds;
    }
  }

  lemma ToSetSnoc(q: seq<Id>, i: nat)
    requires i < |q|
    ensures ToSet(q[..i + 1]) == ToSet(q[..i]) + {q[i]}
  {
  }

  /** What the caller of fanout_notification is told, and what has changed. */
  ghost predicate Answers(s: State, job: Job, res: Result<FanoutResult, FanoutError>, e: State) {
    match res
    case Err(NotificationMissing) => job.notificationId !in s.notifications && e == s
    case Err(LimitExceeded(recipients, deliveries)) =>
      && job.notificationId in s.notifications && !WithinLimits(s, job) && e == s
      && recipients == |Selected(s, job)| && deliveries == recipients * |s.notifications[job.notificationId].channels|
    case Ok(r) =>
      && CanFan(s, job) && e == Fanout.Next(s, Fan(job)) && Inv(e)
      && r == FanoutResult(job.notificationId, |Users(e.recipients, job.notificationId)|,
                           |Pairs(e.table.rows, job.notificationId)|, job.now)
  }

  /** Whom the stored audience is for in this directory. */
  ghost function WantedUsers(d: Directory, audience: Stored): set<Id> {
    set u | u in d.active && StoredWanted(d, audience, u)
  }

  /**
   * The fanout fails exactly if more users are wanted, or more deliveries for them, than the limits allow. Otherwise
   * those users become recipients of this notification, and nobody else becomes anybody's.
   */
  ghost predicate Reached(s: State, n: Id, d: Directory, maxRecipients: int, maxDeliveries: int,
          res: Result<FanoutResult, FanoutError>, e: State)
    requires n in s.notifications
  {
    var users, channels := WantedUsers(d, s.notifications[n].audience), s.notifications[n].channels;
    if |users| > maxRecipients || |users| * |channels| > maxDeliveries then
      res == Err(LimitExceeded(|users|, |users| * |channels|)) && e == s
    else
      res.Ok? && forall m: Id, u: Id :: (m, u) in e.recipients <==> (m, u) in s.recipients || (m == n && u in users)
  }

  lemma CountsWanted(s: State, job: Job)
    requires job.notificationId in s.notifications
    requires ItemsMatch(s.notifications[job.notificationId].audience, job.items)
    requires s.notifications[job.notificationId].audience.StoredLabels? ==> LabelsUnique(job.directory)
    ensures |Selected(s, job)| == |WantedUsers(job.directory, s.notifications[job.notificationId].audience)|
    ensures SelectedSet(s, job) == WantedUsers(job.directory, s.notifications[job.notificationId].audience)
  {
    var audience := s.notifications[job.notificationId].audience;
    var q, users := Selected(s, job), WantedUsers(job.directory, audience);
    forall u: Id ensures u in q <==> u in users { ResolveStoredMeans(job.directory, audience, job.items, u); }
    ResolveStoredMeans(job.directory, audience, job.items, 0);
    assert ToSet(q) == users;
    DistinctSize(q);
  }

  lemma {:induction false} DistinctSize(q: seq<Id>)
    requires forall i, j :: 0 <= i < j < |q| ==> q[i] < q[j]
    ensures |ToSet(q)| == |q|
  {
    if q != [] {
      var n := |q| - 1;
      DistinctSize(q[..n]);
      ToSetSnoc(q, n);
      assert q[..n + 1] == q && q[n] !in q[..n];
      assert q[n] !in ToSet(q[..n]);
    } else {
      assert ToSet(q) == {};
    }
  }

  lemma Reaches(s: State, job: Job)
    requires CanFan(s, job)
    requires s.notifications[job.notificationId].audience.StoredLabels? ==> LabelsUnique(job.directory)
    ensures var users := WantedUsers(job.directory, s.notifications[job.notificationId].audience);
            && |Selected(s, job)| == |users|
            && forall m: Id, u: Id :: (m, u) in Fanout.Next(s, Fan(job)).recipients <==>
                 (m, u) in s.recipients || (m == job.notificationId && u in users)
  {
    CountsWanted(s, job);
    forall m: Id, u: Id ensures (m, u) in Fanout.Next(s, Fan(job)).recipients <==>
      (m, u) in s.recipients || (m == job.notificationId
                                 && u in WantedUsers(job.directory, s.notifications[job.notificationId].audience))
    {
      FanReaches(s, job, m, u);
    }
  }

  lemma Fans(s: State, job: Job, e: State)
    requires job.notificationId in s.notifications && WithinLimits(s, job)
    requires ItemsMatch(s.notifications[job.notificationId].audience, job.items)
    requires FreshIds(s, job.notificationId, SelectedSet(s, job), job.recipientIds, job.deliveryIds)
    requires e == FanOut(s, job.notificationId, job.now, job.recipientIds, job.deliveryIds)
    ensures CanFan(s, job) && e == Fanout.Next(s, Fan(job))
  {
  }

  lemma ProductStep(u: Id, channels: seq<Channel>, j: nat)
    requires j < |channels|
    ensures Product({u}, channels[..j + 1]) == Product({u}, channels[..j]) + {(u, channels[j])}
  {
  }

  lemma ValueOne(ids: map<Id, Pair>, x: Id, p: Pair)
    requires x !in ids
    ensures ids[x := p].Values == ids.Values + {p}
  {
    var next := ids[x := p];
    assert next[x] == p;
    forall q | q in ids.Values ensures q in next.Values {
      var k :| k in ids && ids[k] == q;
      assert next[k] == q;
    }
  }

  lemma MissingSuffices(s: State, n: Id, users: set<Id>, missing: set<Id>, ids: map<Id, Id>)
    requires missing == users - Users(s.recipients, n) && FreshRecipients(s, n, missing, ids)
    ensures FreshRecipients(s, n, users, ids)
  {
  }

  lemma Assembled(s: State, n: Id, now: Time, users: set<Id>, recipientIds: map<Id, Id>, deliveryIds: map<Id, Pair>,
          e: State)
    requires Inv(s) && n in s.notifications && FreshIds(s, n, users, recipientIds, deliveryIds)
    requires e.recipients == AddRecipients(s.recipients, n, recipientIds)
    requires e.table == Table(Grown(s.table, e.recipients, n, now, deliveryIds), s.table.issued)
    requires e.notifications == s.notifications[n := s.notifications[n].(
               recipientCount := |Users(e.recipients, n)|, deliveryCount := |Pairs(e.table.rows, n)|)]
    ensures e == FanOut(s, n, now, recipientIds, deliveryIds) && Inv(e)
  {
    IsFanOut(s, n, now, recipientIds, deliveryIds, e);
    FanKeepsInv(s, n, now, users, recipientIds, deliveryIds);
  }

  lemma IsFanOut(s: State, n: Id, now: Time, recipientIds: map<Id, Id>, deliveryIds: map<Id, Pair>, e: State)
    requires n in s.notifications
    requires e.recipients == AddRecipients(s.recipients, n, recipientIds)
    requires e.table == Table(Grown(s.table, e.recipients, n, now, deliveryIds), s.table.issued)
    requires e.notifications == s.notifications[n := s.notifications[n].(
               recipientCount := |Users(e.recipients, n)|, deliveryCount := |Pairs(e.table.rows, n)|)]
    ensures e == FanOut(s, n, now, recipientIds, deliveryIds)
  {
    assert InsertRows(s.table, NewRows(e.recipients, n, now, deliveryIds)).issued == s.table.issued;
  }
}
