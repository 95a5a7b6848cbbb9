/** The meaning of `ORDER BY ... LIMIT n` over a finite set of rows. */
module Ordering {
  import opened Common

  /** The columns a query sorts by, the id last: no two rows share a key. */
  datatype Key = Key(major: Time, minor: Time, id: Id)

  predicate Before(a: Key, b: Key) {
    a.major < b.major || (a.major == b.major && (a.minor < b.minor || (a.minor == b.minor && a.id < b.id)))
  }

  ghost predicate Ascending(q: seq<Key>) {
    forall i, j :: 0 <= i < j < |q| ==> Before(q[i], q[j])
  }

  ghost predicate Lists(q: seq<Key>, s: set<Key>) {
    Ascending(q) && |q| == |s| && forall k :: k in q <==> k in s
  }

  predicate IsLeast(m: Key, s: set<Key>) {
    m in s && forall k :: k in s ==> k == m || Before(m, k)
  }

  lemma {:induction false} LeastExists(s: set<Key>)
    requires s != {}
    ensures exists m :: IsLeast(m, s)
  {
    var x :| x in s;
    if s == {x} {
      assert IsLeast(x, s);
    } else {
      LeastExists(s - {x});
      var m :| IsLeast(m, s - {x});
      assert forall k :: k in s ==> k == x || k in s - {x};
      assert IsLeast(if Before(x, m) then x else m, s);
    }
  }

  /** The listing, computed by taking the least key first. */
  function Enumerate(s: set<Key>): (q: seq<Key>)
    ensures Lists(q, s)
  {
    if s == {} then []
    else
      LeastExists(s);
      var m :| m in s && IsLeast(m, s);
      [m] + Enumerate(s - {m})
  }

  /** The keys of `s`, each once, in ascending order. */
  ghost function Sort(s: set<Key>): (q: seq<Key>)
    ensures Lists(q, s)
  {
    assert Lists(Enumerate(s), s);
    var q :| Lists(q, s);
    q
  }

  lemma HeadIn(q: seq<Key>)
    ensures q != [] ==> q[0] in q
  {
  }

  lemma {:induction false} ListingUnique(a: seq<Key>, b: seq<Key>)
    requires Ascending(a) && Ascending(b) && forall k :: k in a <==> k in b
    ensures a == b
  {
    HeadIn(a);
    HeadIn(b);
    if a != [] {
      assert a[0] == b[0];
      forall k ensures k in a[1..] <==> k in b[1..] {
        if k in a[1..] { assert k in a && k != a[0]; }
        if k in b[1..] { assert k in b && k != b[0]; }
      }
      ListingUnique(a[1..], b[1..]);
      assert a == [a[0]] + a[1..] && b == [b[0]] + b[1..];
    }
  }

  /** Any ascending sequence is the listing of its own elements. */
  lemma SortIs(s: set<Key>, q: seq<Key>)
    requires Ascending(q) && forall k :: k in q <==> k in s
    ensures Sort(s) == q
  {
    ListingUnique(Sort(s), q);
  }

  /** The set of elements of a sequence. */
  function Elems<T(==)>(q: seq<T>): set<T> { set x | x in q }

  /** `LIMIT n`: what is left over is the listing of the keys not taken. */
  lemma SortDrop(s: set<Key>, n: nat)
    requires n <= |s|
    ensures Sort(s - Elems(Sort(s)[..n])) == Sort(s)[n..]
  {
    var q := Sort(s);
    forall k ensures k in q[n..] <==> k in s - Elems(q[..n]) {
      InDrop(q, n, k);
    }
    SortIs(s - Elems(q[..n]), q[n..]);
  }

  lemma InDrop(q: seq<Key>, n: nat, k: Key)
    requires Ascending(q) && n <= |q|
    ensures k in q[n..] <==> k in q && k !in Elems(q[..n])
  {
  }

  function Min(a: int, b: int): int { if a <= b then a else b }

  /** What `LIMIT limit` keeps of a listing; a limit that is not positive selects nothing. */
  function Limit(q: seq<Key>, limit: int): (r: seq<Key>)
    ensures |r| == if limit <= 0 then 0 else Min(limit, |q|)
    ensures forall i :: 0 <= i < |r| ==> r[i] == q[i]
  {
    if limit <= 0 then [] else q[..Min(limit, |q|)]
  }

  /** `ORDER BY ... LIMIT limit`: in order, and nothing left out comes before anything taken. */
  lemma LimitIsFront(s: set<Key>, limit: int, k: Key)
    requires limit >= 1 && k in s
    ensures var r := Limit(Sort(s), limit);
            && Ascending(r)
            && (k in r || (|r| == limit && forall i :: 0 <= i < |r| ==> Before(r[i], k)))
  {
    var q, r := Sort(s), Limit(Sort(s), limit);
    var i :| 0 <= i < |q| && q[i] == k;
    if i < |r| { assert r[i] == k; }
  }

  function Ids(keys: seq<Key>): (r: seq<Id>)
    ensures |r| == |keys| && forall i :: 0 <= i < |r| ==> r[i] == keys[i].id
  {
    seq(|keys|, i requires 0 <= i < |keys| => keys[i].id)
  }
}
