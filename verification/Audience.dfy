/** Audiences: validation, the stored form, and resolution against the user directory. */
module Audience {
  import opened Common
  import opened Ordering

  type Label = (string, string)

  datatype AudienceType = AllType | GroupType | LabelsType

  datatype Selection = Selection(kind: AudienceType, group: Option<string>, labels: Option<seq<Label>>)

  // ----- validation ------------------------------------------------------------------------------

  /** The characters str.strip removes. */
  predicate IsSpace(c: char) {
    var n := c as int;
    9 <= n <= 13 || 28 <= n <= 32 || n == 133 || n == 160 || n == 5760 || 8192 <= n <= 8202
    || n == 8232 || n == 8233 || n == 8239 || n == 8287 || n == 12288
  }

  /** One by one: the ASCII controls and separators, NEL, and the spaces and line separators of Unicode. */
  lemma SpacesAre(c: char)
    ensures IsSpace(c) <==> c in {
      '\U{0009}', '\U{000A}', '\U{000B}', '\U{000C}', '\U{000D}', '\U{001C}', '\U{001D}', '\U{001E}',
      '\U{001F}', '\U{0020}', '\U{0085}', '\U{00A0}', '\U{1680}', '\U{2000}', '\U{2001}', '\U{2002}',
      '\U{2003}', '\U{2004}', '\U{2005}', '\U{2006}', '\U{2007}', '\U{2008}', '\U{2009}', '\U{200A}',
      '\U{2028}', '\U{2029}', '\U{202F}', '\U{205F}', '\U{3000}'}
  {
  }

  /** Non-empty, and unchanged by strip. */
  predicate Exact(s: string) {
    s != "" && !IsSpace(s[0]) && !IsSpace(s[|s| - 1])
  }

  /** str.strip */
  function Trim(s: string): string {
    if s == "" then s
    else if IsSpace(s[0]) then Trim(s[1..])
    else if IsSpace(s[|s| - 1]) then Trim(s[..|s| - 1])
    else s
  }

  lemma {:induction false} TrimShortens(s: string)
    ensures |Trim(s)| <= |s|
  {
    if s != "" {
      TrimShortens(s[1..]);
      TrimShortens(s[..|s| - 1]);
    }
  }

  lemma ExactIffTrimmed(s: string)
    ensures Exact(s) <==> s != "" && Trim(s) == s
  {
    if s != "" {
      TrimShortens(s[1..]);
      TrimShortens(s[..|s| - 1]);
    }
  }

  predicate DistinctKeys(labels: seq<Label>) {
    forall i, j :: 0 <= i < j < |labels| ==> labels[i].0 != labels[j].0
  }

  predicate ValidLabels(labels: seq<Label>) {
    labels != [] && DistinctKeys(labels) && forall i :: 0 <= i < |labels| ==> Exact(labels[i].0) && Exact(labels[i].1)
  }

  predicate Valid(a: Selection) {
    match a.kind
    case AllType => a.group.None? && a.labels.None?
    case GroupType => a.group.Some? && a.labels.None? && Exact(a.group.value)
    case LabelsType => a.group.None? && a.labels.Some? && ValidLabels(a.labels.value)
  }

  /** Which selections there are: everybody, one named group, or labels, and nothing besides. */
  lemma ValidIff(a: Selection)
    ensures Valid(a) <==>
            || a == Selection(AllType, None, None)
            || (a.kind == GroupType && a.labels == None && a.group.Some? && a.group.value != ""
                && Trim(a.group.value) == a.group.value)
            || (a.kind == LabelsType && a.group == None && a.labels.Some? && |a.labels.value| > 0
                && (forall i :: 0 <= i < |a.labels.value| ==>
                      && a.labels.value[i].0 != "" && Trim(a.labels.value[i].0) == a.labels.value[i].0
                      && a.labels.value[i].1 != "" && Trim(a.labels.value[i].1) == a.labels.value[i].1)
                && (forall i, j ::
                      0 <= i < |a.labels.value| && 0 <= j < |a.labels.value| && i != j ==>
                      a.labels.value[i].0 != a.labels.value[j].0))
  {
    if a.group.Some? { ExactIffTrimmed(a.group.value); }
    if a.labels.Some? {
      forall i | 0 <= i < |a.labels.value|
        ensures Exact(a.labels.value[i].0) <==>
                  a.labels.value[i].0 != "" && Trim(a.labels.value[i].0) == a.labels.value[i].0
        ensures Exact(a.labels.value[i].1) <==>
                  a.labels.value[i].1 != "" && Trim(a.labels.value[i].1) == a.labels.value[i].1
      {
        ExactIffTrimmed(a.labels.value[i].0);
        ExactIffTrimmed(a.labels.value[i].1);
      }
    }
  }

  datatype LabelError = NoLabels | InexactKey | InexactValue | DuplicateKey

  /** _validate_labels: what is wrong with the first label that is wrong, if any is. */
  method ValidateLabels(labels: seq<Label>) returns (r: Result<(), LabelError>, bad: nat)
    ensures r.Ok? <==> ValidLabels(labels)
    ensures r.Err? && r.error != NoLabels ==> bad < |labels| && (bad > 0 ==> ValidLabels(labels[..bad]))
    ensures r == Err(NoLabels) <==> labels == []
    ensures r == Err(InexactKey) ==> !Exact(labels[bad].0)
    ensures r == Err(InexactValue) ==> Exact(labels[bad].0) && !Exact(labels[bad].1)
    ensures r == Err(DuplicateKey) ==> exists i :: 0 <= i < bad && labels[i].0 == labels[bad].0
  {
    bad := 0;
    if labels == [] {
      return Err(NoLabels), 0;
    }
    var seen: set<string> := {};
    for i := 0 to |labels|
      invariant seen == set j | 0 <= j < i :: labels[j].0
      invariant i > 0 ==> ValidLabels(labels[..i])
    {
      var (key, value) := labels[i];
      if !Exact(key) { return Err(InexactKey), i; }
      if !Exact(value) { return Err(InexactValue), i; }
      if key in seen { return Err(DuplicateKey), i; }
      seen := seen + {key};
    }
    assert labels[..|labels|] == labels;
    return Ok(()), 0;
  }

  // ----- the stored form -------------------------------------------------------------------------

  /** `dict(labels)`: a later pair replaces an earlier one with its key. */
  function Dict(labels: seq<Label>): map<string, string> {
    if labels == [] then map[]
    else Dict(labels[..|labels| - 1])[labels[|labels| - 1].0 := labels[|labels| - 1].1]
  }

  function Keys(labels: seq<Label>): set<string> { set i | 0 <= i < |labels| :: labels[i].0 }

  lemma KeysSnoc(labels: seq<Label>)
    requires labels != []
    ensures var n := |labels| - 1;
            && Keys(labels) == Keys(labels[..n]) + {labels[n].0}
            && (DistinctKeys(labels) <==> DistinctKeys(labels[..n]) && labels[n].0 !in Keys(labels[..n]))
  {
  }

  lemma {:induction false} DictKeys(labels: seq<Label>)
    ensures Dict(labels).Keys == Keys(labels)
  {
    if labels != [] {
      DictKeys(labels[..|labels| - 1]);
      KeysSnoc(labels);
    }
  }

  lemma {:induction false} DictHas(labels: seq<Label>)
    requires DistinctKeys(labels)
    ensures forall k, v :: k in Dict(labels) && Dict(labels)[k] == v <==> (k, v) in labels
    ensures |Dict(labels)| == |labels|
  {
    if labels != [] {
      var n := |labels| - 1;
      DictHas(labels[..n]);
      assert labels == labels[..n] + [labels[n]];
      DictKeys(labels[..n]);
      KeysSnoc(labels);
      assert labels[n].0 !in Dict(labels[..n]);
    }
  }

  /** canonical_audience, as the notification row stores it: labels have become a JSON object. */
  datatype Stored = StoredAll | StoredGroup(group: string) | StoredLabels(labels: map<string, string>)

  function Store(a: Selection): Stored
    requires Valid(a)
  {
    match a.kind
    case AllType => StoredAll
    case GroupType => StoredGroup(a.group.value)
    case LabelsType => StoredLabels(Dict(a.labels.value))
  }

  /** The pairs of an object in some order: what `.items()` gives after the database had it. */
  predicate ItemsOf(items: seq<Label>, labels: map<string, string>) {
    DistinctKeys(items) && Dict(items) == labels
  }

  // ----- the directory ---------------------------------------------------------------------------

  /** users, user_groups joined with groups, and user_labels. */
  datatype Directory = Directory(active: set<Id>, members: set<(Id, string)>, labels: set<(Id, string, string)>)

  /** The unique constraint on (user_id, key). */
  predicate LabelsUnique(d: Directory) {
    forall a, b :: a in d.labels && b in d.labels && a.0 == b.0 && a.1 == b.1 ==> a == b
  }

  /** `ORDER BY users.id` */
  function InOrder(users: set<Id>): (r: seq<Id>)
    ensures |r| == |users| && (forall u :: u in r <==> u in users)
    ensures forall i, j :: 0 <= i < j < |r| ==> r[i] < r[j]
  {
    var keys := set u | u in users :: Key(0, 0, u);
    SameSize(users, keys);
    var q := Enumerate(keys);
    assert forall i :: 0 <= i < |q| ==> q[i] in keys;
    assert forall i, j :: 0 <= i < j < |q| ==> Before(q[i], q[j]);
    assert forall u :: u in users ==> Key(0, 0, u) in q;
    Ids(q)
  }

  lemma {:induction false} SameSize(users: set<Id>, keys: set<Key>)
    requires keys == set u | u in users :: Key(0, 0, u)
    ensures |keys| == |users|
  {
    if users != {} {
      var u :| u in users;
      var rest := users - {u};
      SameSize(rest, set x | x in rest :: Key(0, 0, x));
      assert keys == (set x | x in rest :: Key(0, 0, x)) + {Key(0, 0, u)};
    } else {
      assert keys == {};
    }
  }

  /** The rows of the join: an active user with one of the requested labels. */
  function MatchedKeys(d: Directory, labels: seq<Label>, u: Id): set<string> {
    set r | r in d.labels && r.0 == u && (r.1, r.2) in labels :: r.1
  }

  /** GROUP BY user HAVING count(DISTINCT key) = number of labels; no labels, no users. */
  function ActiveByLabels(d: Directory, labels: seq<Label>): seq<Id> {
    if labels == [] then []
    else InOrder(set u | u in d.active && MatchedKeys(d, labels, u) != {} && |MatchedKeys(d, labels, u)| == |labels|)
  }

  function ActiveByGroup(d: Directory, group: string): seq<Id> {
    InOrder(set u | u in d.active && (u, group) in d.members)
  }

  function Active(d: Directory): seq<Id> {
    InOrder(d.active)
  }

  predicate HasAll(d: Directory, labels: seq<Label>, u: Id) {
    forall i :: 0 <= i < |labels| ==> (u, labels[i].0, labels[i].1) in d.labels
  }

  lemma {:induction false} KeysSize(labels: seq<Label>)
    ensures |Keys(labels)| <= |labels|
    ensures |Keys(labels)| == |labels| <==> DistinctKeys(labels)
  {
    if labels != [] {
      KeysSize(labels[..|labels| - 1]);
      KeysSnoc(labels);
    }
  }

  lemma SubsetSize<T>(a: set<T>, b: set<T>)
    requires a <= b
    ensures |a| <= |b|
    ensures |a| == |b| ==> a == b
  {
    assert |b| == |a| + |b - a| by { assert b == a + (b - a); }
  }

  /** Only requested keys match. */
  lemma MatchedAreRequested(d: Directory, labels: seq<Label>, u: Id)
    ensures MatchedKeys(d, labels, u) <= Keys(labels)
    ensures |MatchedKeys(d, labels, u)| <= |Keys(labels)|
    ensures |MatchedKeys(d, labels, u)| == |Keys(labels)| ==> MatchedKeys(d, labels, u) == Keys(labels)
  {
    forall k | k in MatchedKeys(d, labels, u) ensures k in Keys(labels) {
      var r :| r in d.labels && r.0 == u && (r.1, r.2) in labels && r.1 == k;
      var i :| 0 <= i < |labels| && labels[i] == (r.1, r.2);
      assert labels[i].0 == k;
    }
    SubsetSize(MatchedKeys(d, labels, u), Keys(labels));
  }

  lemma HoldersMatch(d: Directory, labels: seq<Label>, u: Id)
    requires HasAll(d, labels, u)
    ensures Keys(labels) <= MatchedKeys(d, labels, u)
  {
    forall k | k in Keys(labels) ensures k in MatchedKeys(d, labels, u) {
      var i :| 0 <= i < |labels| && labels[i].0 == k;
      var r := (u, labels[i].0, labels[i].1);
      assert r in d.labels && labels[i] == (r.1, r.2);
    }
  }

  lemma MatchersHold(d: Directory, labels: seq<Label>, u: Id, i: nat)
    requires DistinctKeys(labels) && i < |labels| && labels[i].0 in MatchedKeys(d, labels, u)
    ensures (u, labels[i].0, labels[i].1) in d.labels
  {
    var r :| r in d.labels && r.0 == u && (r.1, r.2) in labels && r.1 == labels[i].0;
    var j :| 0 <= j < |labels| && labels[j] == (r.1, r.2);
    assert i == j;
  }

  /** Counting distinct matched keys comes to the number of labels exactly for the users that hold every one of them. */
  lemma CountMeansAll(d: Directory, labels: seq<Label>, u: Id)
    requires LabelsUnique(d) && DistinctKeys(labels)
    ensures |MatchedKeys(d, labels, u)| == |labels| <==> HasAll(d, labels, u)
  {
    KeysSize(labels);
    MatchedAreRequested(d, labels, u);
    if HasAll(d, labels, u) {
      HoldersMatch(d, labels, u);
      assert MatchedKeys(d, labels, u) == Keys(labels);
    }
    if MatchedKeys(d, labels, u) == Keys(labels) {
      forall i | 0 <= i < |labels| ensures (u, labels[i].0, labels[i].1) in d.labels {
        assert labels[i].0 in Keys(labels);
        MatchersHold(d, labels, u, i);
      }
    }
  }

  /**
   * For request labels with distinct keys the query selects exactly the active users holding every requested
   * key=value, in id order, each once; with no labels at all it selects nobody.
   */
  lemma LabelsMean(d: Directory, labels: seq<Label>, u: Id)
    requires LabelsUnique(d) && DistinctKeys(labels)
    ensures u in ActiveByLabels(d, labels) <==> labels != [] && u in d.active && HasAll(d, labels, u)
  {
    CountMeansAll(d, labels, u);
  }

  /** With a key asked for twice nobody matches, whatever the values: the count never reaches the number of labels. */
  lemma RepeatedKeyMatchesNobody(d: Directory, labels: seq<Label>)
    requires LabelsUnique(d) && !DistinctKeys(labels)
    ensures ActiveByLabels(d, labels) == []
  {
    forall u | u in d.active ensures |MatchedKeys(d, labels, u)| < |labels| {
      KeysSize(labels);
      MatchedAreRequested(d, labels, u);
    }
    assert (set u | u in d.active && MatchedKeys(d, labels, u) != {} && |MatchedKeys(d, labels, u)| == |labels|) == {};
  }

  // ----- resolution ------------------------------------------------------------------------------

  function Resolve(d: Directory, a: Selection): seq<Id>
    requires Valid(a)
  {
    match a.kind
    case AllType => Active(d)
    case GroupType => ActiveByGroup(d, a.group.value)
    case LabelsType => ActiveByLabels(d, a.labels.value)
  }

  /** _audience_selection, then resolve: what fanout does with the stored audience. */
  function ResolveStored(d: Directory, s: Stored, items: seq<Label>): seq<Id> {
    match s
    case StoredAll => Active(d)
    case StoredGroup(group) => ActiveByGroup(d, group)
    case StoredLabels(_) => ActiveByLabels(d, items)
  }

  // ----- what the three kinds of audience mean -----------------------------------------------------

  /** Whom the requester asked for: everyone active, the active members of a group, or those who hold every label. */
  predicate Wanted(d: Directory, a: Selection, u: Id) {
    && u in d.active
    && match a.kind
       case AllType => true
       case GroupType => a.group.Some? && (u, a.group.value) in d.members
       case LabelsType => a.labels.Some? && forall l :: l in a.labels.value ==> (u, l.0, l.1) in d.labels
  }

  /** Whom a stored audience is for. */
  predicate StoredWanted(d: Directory, s: Stored, u: Id) {
    && u in d.active
    && match s
       case StoredAll => true
       case StoredGroup(group) => (u, group) in d.members
       case StoredLabels(labels) => labels != map[] && forall k :: k in labels ==> (u, k, labels[k]) in d.labels
  }

  /** Resolving an audience selects exactly those, each once in ascending id order. */
  lemma ResolveMeans(d: Directory, a: Selection, u: Id)
    requires Valid(a) && (a.kind.LabelsType? ==> LabelsUnique(d))
    ensures u in Resolve(d, a) <==> Wanted(d, a, u)
    ensures forall i, j :: 0 <= i < j < |Resolve(d, a)| ==> Resolve(d, a)[i] < Resolve(d, a)[j]
  {
    if a.kind.LabelsType? {
      var labels := a.labels.value;
      LabelsMean(d, labels, u);
      HoldsEach(d, labels, u);
    }
  }

  lemma HoldsEach(d: Directory, labels: seq<Label>, u: Id)
    ensures HasAll(d, labels, u) <==> forall l :: l in labels ==> (u, l.0, l.1) in d.labels
  {
    if forall l :: l in labels ==> (u, l.0, l.1) in d.labels {
      forall i | 0 <= i < |labels| ensures (u, labels[i].0, labels[i].1) in d.labels { assert labels[i] in labels; }
    }
  }

  /** So does resolving what the row holds, in whatever order its labels come back. */
  lemma ResolveStoredMeans(d: Directory, s: Stored, items: seq<Label>, u: Id)
    requires s.StoredLabels? ==> LabelsUnique(d) && ItemsOf(items, s.labels)
    ensures u in ResolveStored(d, s, items) <==> StoredWanted(d, s, u)
    ensures forall i, j :: 0 <= i < j < |ResolveStored(d, s, items)| ==>
              ResolveStored(d, s, items)[i] < ResolveStored(d, s, items)[j]
  {
    if s.StoredLabels? {
      LabelsMean(d, items, u);
      HoldsEach(d, items, u);
      ItemsHold(d, items, s.labels, u);
    }
  }

  lemma ItemsHold(d: Directory, items: seq<Label>, labels: map<string, string>, u: Id)
    requires ItemsOf(items, labels)
    ensures (forall l :: l in items ==> (u, l.0, l.1) in d.labels) <==>
            (forall k :: k in labels ==> (u, k, labels[k]) in d.labels)
    ensures items == [] <==> labels == map[]
  {
    DictHas(items);
    if forall l :: l in items ==> (u, l.0, l.1) in d.labels {
      forall k | k in labels ensures (u, k, labels[k]) in d.labels { assert (k, labels[k]) in items; }
    }
    if forall k :: k in labels ==> (u, k, labels[k]) in d.labels {
      forall l | l in items ensures (u, l.0, l.1) in d.labels { assert l == (l.0, l.1) && labels[l.0] == l.1; }
    }
  }

  /** Storing an audience keeps whom it is for. */
  lemma StoreKeepsMeaning(d: Directory, a: Selection, u: Id)
    requires Valid(a)
    ensures StoredWanted(d, Store(a), u) <==> Wanted(d, a, u)
  {
    if a.kind.LabelsType? {
      ItemsHold(d, a.labels.value, Dict(a.labels.value), u);
    }
  }

  lemma OrderUnique(a: seq<Id>, b: seq<Id>)
    requires forall u :: u in a <==> u in b
    requires forall i, j :: 0 <= i < j < |a| ==> a[i] < a[j]
    requires forall i, j :: 0 <= i < j < |b| ==> b[i] < b[j]
    ensures a == b
  {
    var ka, kb :=
        seq(|a|, i requires 0 <= i < |a| => Key(0, 0, a[i])), seq(|b|, i requires 0 <= i < |b| => Key(0, 0, b[i]));
    forall k ensures k in ka <==> k in kb {
      if k in ka {
        var i :| 0 <= i < |ka| && ka[i] == k;
        assert a[i] in b;
        var j :| 0 <= j < |b| && b[j] == a[i];
        assert kb[j] == k;
      }
      if k in kb {
        var i :| 0 <= i < |kb| && kb[i] == k;
        assert b[i] in a;
        var j :| 0 <= j < |a| && a[j] == b[i];
        assert ka[j] == k;
      }
    }
    ListingUnique(ka, kb);
    forall i | 0 <= i < |a| ensures a[i] == b[i] { assert ka[i] == kb[i]; }
  }

  lemma LabelsOrderFree(d: Directory, a: seq<Label>, b: seq<Label>)
    requires LabelsUnique(d) && DistinctKeys(a) && DistinctKeys(b) && Dict(a) == Dict(b)
    ensures ActiveByLabels(d, a) == ActiveByLabels(d, b)
  {
    DictHas(a);
    DictHas(b);
    assert forall l: Label :: l in a <==> l in b by {
      forall l: Label ensures l in a <==> l in b {
        assert l == (l.0, l.1);
      }
    }
    forall u ensures u in ActiveByLabels(d, a) <==> u in ActiveByLabels(d, b) {
      LabelsMean(d, a, u);
      LabelsMean(d, b, u);
      assert HasAll(d, a, u) <==> HasAll(d, b, u) by {
        if HasAll(d, a, u) { forall i | 0 <= i < |b| ensures (u, b[i].0, b[i].1) in d.labels { assert b[i] in a; } }
        if HasAll(d, b, u) { forall i | 0 <= i < |a| ensures (u, a[i].0, a[i].1) in d.labels { assert a[i] in b; } }
      }
    }
    OrderUnique(ActiveByLabels(d, a), ActiveByLabels(d, b));
  }

  /**
   * The audience fanout reads back from the row selects the users the requester asked for, in whatever order the
   * object came back.
   */
  lemma StoredMeansRequested(d: Directory, a: Selection, items: seq<Label>)
    requires LabelsUnique(d) && Valid(a)
    requires a.kind.LabelsType? ==> ItemsOf(items, Store(a).labels)
    ensures ResolveStored(d, Store(a), items) == Resolve(d, a)
  {
    if a.kind.LabelsType? { LabelsOrderFree(d, items, a.labels.value); }
  }
}
