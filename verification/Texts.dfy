/**
 * A text for every JSON value that determines the value. It stands beside the hypotheses that say a hash or a
 * serializer loses nothing: there are functions that meet them.
 */
module Texts {
  import opened Common
  import opened Envelopes

  // ----- self-delimiting texts of the parts --------------------------------------------------------

  function Unary(n: nat): string {
    if n == 0 then "e" else "u" + Unary(n - 1)
  }

  function Num(n: int): string {
    if n < 0 then "-" + Unary(-n) else "+" + Unary(n)
  }

  function Str(s: string): string {
    if s == "" then "e" else "c" + ([s[0]] + Str(s[1..]))
  }

  function ShowText(t: Text): string {
    match t
    case Plain(s) => "p" + Str(s)
    case UuidText(id) => "u" + Unary(id)
    case InstantText(at) =>
      match at.offset
      case None => "z" + Num(at.wall)
      case Some(offset) => "o" + (Num(at.wall) + Num(offset))
  }

  /** The keys of an object, each once, in some order that depends on the object alone. */
  ghost predicate IsListing(keys: seq<string>, fields: map<string, Json>) {
    (forall k :: k in keys <==> k in fields) && forall i, j :: 0 <= i < j < |keys| ==> keys[i] != keys[j]
  }

  lemma {:induction false} ListingExists(fields: map<string, Json>)
    ensures exists keys :: IsListing(keys, fields)
    decreases |fields|
  {
    if fields == map[] {
      assert IsListing([], fields);
    } else {
      var k :| k in fields;
      ListingExists(fields - {k});
      var keys :| IsListing(keys, fields - {k});
      assert IsListing([k] + keys, fields);
    }
  }

  ghost function Listing(fields: map<string, Json>): (keys: seq<string>)
    ensures IsListing(keys, fields)
  {
    ListingExists(fields);
    var keys :| IsListing(keys, fields);
    keys
  }

  ghost function Show(j: Json): string
    decreases j, 1, 0
  {
    match j
    case JNull => "n"
    case JBool(b) => if b then "t" else "f"
    case JInt(n) => "i" + Num(n)
    case JFloat(mantissa, exponent) => "r" + (Num(mantissa) + Num(exponent))
    case JText(text) => "s" + ShowText(text)
    case JArray(items) => "a" + ShowItems(j, 0)
    case JObject(fields) => "o" + ShowFields(j, Listing(fields))
  }

  ghost function ShowItems(j: Json, i: nat): string
    requires j.JArray? && i <= |j.items|
    decreases j, 0, |j.items| - i
  {
    if i == |j.items| then "e" else "c" + (Show(j.items[i]) + ShowItems(j, i + 1))
  }

  ghost function ShowFields(j: Json, keys: seq<string>): string
    requires j.JObject? && forall k :: k in keys ==> k in j.fields
    decreases j, 0, |keys|
  {
    if keys == [] then "e" else "c" + (Str(keys[0]) + (Show(j.fields[keys[0]]) + ShowFields(j, keys[1..])))
  }

  // ----- whatever follows, the value can be told ----------------------------------------------------

  lemma Tail(c: string, a: string, x: string, b: string, y: string)
    requires |c| == 1 && (c + a) + x == (c + b) + y
    ensures a + x == b + y
  {
    assert ((c + a) + x)[1..] == a + x;
    assert ((c + b) + y)[1..] == b + y;
  }

  lemma Regroup(a: string, b: string, x: string, c: string, d: string, y: string)
    requires (a + b) + x == (c + d) + y
    ensures a + (b + x) == c + (d + y)
  {
    assert (a + b) + x == a + (b + x) && (c + d) + y == c + (d + y);
  }

  lemma {:induction false} UnaryTells(m: nat, x: string, n: nat, y: string)
    requires Unary(m) + x == Unary(n) + y
    ensures m == n && x == y
  {
    assert (Unary(m) + x)[0] == Unary(m)[0] && (Unary(n) + y)[0] == Unary(n)[0];
    if m == 0 || n == 0 {
      assert ("e" + x)[1..] == x && ("e" + y)[1..] == y;
    } else {
      Tail("u", Unary(m - 1), x, Unary(n - 1), y);
      UnaryTells(m - 1, x, n - 1, y);
    }
  }

  lemma NumTells(m: int, x: string, n: int, y: string)
    requires Num(m) + x == Num(n) + y
    ensures m == n && x == y
  {
    assert (Num(m) + x)[0] == Num(m)[0] && (Num(n) + y)[0] == Num(n)[0];
    var c, a, b := [Num(m)[0]], if m < 0 then -m else m, if n < 0 then -n else n;
    Tail(c, Unary(a), x, Unary(b), y);
    UnaryTells(a, x, b, y);
  }

  lemma {:induction false} StrTells(s: string, x: string, t: string, y: string)
    requires Str(s) + x == Str(t) + y
    ensures s == t && x == y
  {
    assert (Str(s) + x)[0] == Str(s)[0] && (Str(t) + y)[0] == Str(t)[0];
    if s == "" || t == "" {
      assert ("e" + x)[1..] == x && ("e" + y)[1..] == y;
    } else {
      Tail("c", [s[0]] + Str(s[1..]), x, [t[0]] + Str(t[1..]), y);
      assert (([s[0]] + Str(s[1..])) + x)[0] == s[0] && (([t[0]] + Str(t[1..])) + y)[0] == t[0];
      Tail([s[0]], Str(s[1..]), x, Str(t[1..]), y);
      StrTells(s[1..], x, t[1..], y);
      assert s == [s[0]] + s[1..] && t == [t[0]] + t[1..];
    }
  }

  lemma NumsTell(a: int, b: int, x: string, c: int, d: int, y: string)
    requires (Num(a) + Num(b)) + x == (Num(c) + Num(d)) + y
    ensures a == c && b == d && x == y
  {
    Regroup(Num(a), Num(b), x, Num(c), Num(d), y);
    NumTells(a, Num(b) + x, c, Num(d) + y);
    NumTells(b, x, d, y);
  }

  lemma TextTells(s: Text, x: string, t: Text, y: string)
    requires ShowText(s) + x == ShowText(t) + y
    ensures s == t && x == y
  {
    assert (ShowText(s) + x)[0] == ShowText(s)[0] && (ShowText(t) + y)[0] == ShowText(t)[0];
    match s
    case Plain(p) =>
      Tail("p", Str(p), x, Str(t.s), y);
      StrTells(p, x, t.s, y);
    case UuidText(id) =>
      Tail("u", Unary(id), x, Unary(t.id), y);
      UnaryTells(id, x, t.id, y);
    case InstantText(at) =>
      match at.offset
      case None =>
        Tail("z", Num(at.wall), x, Num(t.at.wall), y);
        NumTells(at.wall, x, t.at.wall, y);
      case Some(offset) =>
        Tail("o", Num(at.wall) + Num(offset), x, Num(t.at.wall) + Num(t.at.offset.value), y);
        NumsTell(at.wall, offset, x, t.at.wall, t.at.offset.value, y);
  }

  lemma {:induction false} ShowTells(a: Json, x: string, b: Json, y: string)
    requires Show(a) + x == Show(b) + y
    ensures a == b && x == y
    decreases a, 1, 0
  {
    assert (Show(a) + x)[0] == Show(a)[0] && (Show(b) + y)[0] == Show(b)[0];
    match a
    case JNull => assert (Show(a) + x)[1..] == x && (Show(b) + y)[1..] == y;
    case JBool(_) => assert (Show(a) + x)[1..] == x && (Show(b) + y)[1..] == y;
    case JInt(n) =>
      Tail("i", Num(n), x, Num(b.n), y);
      NumTells(n, x, b.n, y);
    case JFloat(mantissa, exponent) =>
      Tail("r", Num(mantissa) + Num(exponent), x, Num(b.mantissa) + Num(b.exponent), y);
      NumsTell(mantissa, exponent, x, b.mantissa, b.exponent, y);
    case JText(text) =>
      Tail("s", ShowText(text), x, ShowText(b.text), y);
      TextTells(text, x, b.text, y);
    case JArray(items) =>
      Tail("a", ShowItems(a, 0), x, ShowItems(b, 0), y);
      ItemsTell(a, 0, x, b, 0, y);
      assert items == items[0..] && b.items == b.items[0..];
    case JObject(fields) =>
      var ka, kb := Listing(fields), Listing(b.fields);
      Tail("o", ShowFields(a, ka), x, ShowFields(b, kb), y);
      FieldsTell(a, ka, x, b, kb, y);
      assert fields.Keys == b.fields.Keys;
      assert fields == b.fields;
  }

  lemma {:induction false} ItemsTell(a: Json, i: nat, x: string, b: Json, k: nat, y: string)
    requires a.JArray? && i <= |a.items| && b.JArray? && k <= |b.items|
    requires ShowItems(a, i) + x == ShowItems(b, k) + y
    ensures a.items[i..] == b.items[k..] && x == y
    decreases a, 0, |a.items| - i
  {
    var sa, sb := ShowItems(a, i), ShowItems(b, k);
    assert (sa + x)[0] == sa[0] && (sb + y)[0] == sb[0];
    if i == |a.items| || k == |b.items| {
      assert (sa + x)[1..] == x && (sb + y)[1..] == y;
    } else {
      var ra, rb := ShowItems(a, i + 1), ShowItems(b, k + 1);
      Tail("c", Show(a.items[i]) + ra, x, Show(b.items[k]) + rb, y);
      Regroup(Show(a.items[i]), ra, x, Show(b.items[k]), rb, y);
      ShowTells(a.items[i], ra + x, b.items[k], rb + y);
      ItemsTell(a, i + 1, x, b, k + 1, y);
      assert a.items[i..] == [a.items[i]] + a.items[i + 1..] && b.items[k..] == [b.items[k]] + b.items[k + 1..];
    }
  }

  lemma {:induction false} FieldsTell(a: Json, ka: seq<string>, x: string, b: Json, kb: seq<string>, y: string)
    requires a.JObject? && (forall k :: k in ka ==> k in a.fields) && b.JObject?
             && (forall k :: k in kb ==> k in b.fields)
    requires ShowFields(a, ka) + x == ShowFields(b, kb) + y
    ensures ka == kb && x == y && forall k :: k in ka ==> k in b.fields && a.fields[k] == b.fields[k]
    decreases a, 0, |ka|
  {
    var sa, sb := ShowFields(a, ka), ShowFields(b, kb);
    assert (sa + x)[0] == sa[0] && (sb + y)[0] == sb[0];
    if ka == [] || kb == [] {
      assert (sa + x)[1..] == x && (sb + y)[1..] == y;
    } else {
      var va, vb := Show(a.fields[ka[0]]), Show(b.fields[kb[0]]);
      var ra, rb := ShowFields(a, ka[1..]), ShowFields(b, kb[1..]);
      Tail("c", Str(ka[0]) + (va + ra), x, Str(kb[0]) + (vb + rb), y);
      Regroup(Str(ka[0]), va + ra, x, Str(kb[0]), vb + rb, y);
      StrTells(ka[0], (va + ra) + x, kb[0], (vb + rb) + y);
      Regroup(va, ra, x, vb, rb, y);
      ShowTells(a.fields[ka[0]], ra + x, b.fields[kb[0]], rb + y);
      FieldsTell(a, ka[1..], x, b, kb[1..], y);
      assert ka == [ka[0]] + ka[1..] && kb == [kb[0]] + kb[1..];
    }
  }

  /** The text of a JSON value determines the value. */
  lemma ShowInjective(a: Json, b: Json)
    requires Show(a) == Show(b)
    ensures a == b
  {
    assert Show(a) + "" == Show(b) + "";
    ShowTells(a, "", b, "");
  }
}
