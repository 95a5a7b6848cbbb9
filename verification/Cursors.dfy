/** Page cursors: signed JSON in unpadded base64url (section 5 of RFC 4648). */
module Cursors {
  import opened Common
  import opened Envelopes
  import opened Texts

  type Byte = x: int | 0 <= x < 256

  // ----- base64url -------------------------------------------------------------------------------

  function Symbol(i: int): char
    requires 0 <= i < 64
  {
    if i < 26 then 'A' + i as char
    else if i < 52 then 'a' + (i - 26) as char
    else if i < 62 then '0' + (i - 52) as char
    else if i == 62 then '-' else '_'
  }

  /** The value of a character; urlsafe_b64decode also takes the standard alphabet's last two. */
  function Value(c: char): Option<int> {
    if 'A' <= c <= 'Z' then Some(c as int - 'A' as int)
    else if 'a' <= c <= 'z' then Some(c as int - 'a' as int + 26)
    else if '0' <= c <= '9' then Some(c as int - '0' as int + 52)
    else if c == '-' || c == '+' then Some(62)
    else if c == '_' || c == '/' then Some(63)
    else None
  }

  function Four(a: Byte, b: Byte, c: Byte): string {
    [Symbol(a / 4), Symbol(a % 4 * 16 + b / 16), Symbol(b % 16 * 4 + c / 64), Symbol(c % 64)]
  }

  /** Three bytes become four characters; one or two left over become two or three. */
  function Core(b: seq<Byte>): string {
    if |b| == 0 then []
    else if |b| == 1 then [Symbol(b[0] / 4), Symbol(b[0] % 4 * 16)]
    else if |b| == 2 then [Symbol(b[0] / 4), Symbol(b[0] % 4 * 16 + b[1] / 16), Symbol(b[1] % 16 * 4)]
    else Four(b[0], b[1], b[2]) + Core(b[3..])
  }

  function Equals(n: nat): string { seq(n, i => '=') }

  /** urlsafe_b64encode */
  function Encode64(b: seq<Byte>): string {
    Core(b) + Equals((3 - |b| % 3) % 3)
  }

  /** rstrip("=") */
  function Strip(s: string): string {
    if s != [] && s[|s| - 1] == '=' then Strip(s[..|s| - 1]) else s
  }

  /** `value + "=" * (-len(value) % 4)` */
  function Pad(s: string): string {
    s + Equals(-|s| % 4)
  }

  /** The decoder's registers: output, bits left over, position in the group of four, and padding seen. */
  datatype Reader = Reader(out: seq<Byte>, left: int, pos: int, pads: int)

  predicate ReaderOk(r: Reader) {
    0 <= r.pos < 4 && 0 <= r.left && (r.pos == 1 ==> r.left < 64) && (r.pos == 2 ==> r.left < 16)
        && (r.pos == 3 ==> r.left < 4)
  }

  function Take(r: Reader, v: int): (r': Reader)
    requires ReaderOk(r) && 0 <= v < 64
    ensures ReaderOk(r')
  {
    if r.pos == 0 then Reader(r.out, v, 1, 0)
    else if r.pos == 1 then Reader(r.out + [r.left * 4 + v / 16], v % 16, 2, 0)
    else if r.pos == 2 then Reader(r.out + [r.left * 16 + v / 4], v % 4, 3, 0)
    else Reader(r.out + [r.left * 64 + v], 0, 0, 0)
  }

  /** Padding that completes a group ends the input; other characters outside the alphabet are skipped. */
  function Read(r: Reader, s: string): Option<seq<Byte>>
    requires ReaderOk(r)
    decreases |s|
  {
    if s == [] then if r.pos == 0 then Some(r.out) else None
    else if s[0] == '=' then
      if r.pos >= 2 && r.pos + r.pads + 1 >= 4 then Some(r.out)
      else Read(if r.pos >= 2 then r.(pads := r.pads + 1) else r, s[1..])
    else if Value(s[0]).Some? then Read(Take(r, Value(s[0]).value), s[1..])
    else Read(r, s[1..])
  }

  predicate Ascii(s: string) {
    forall i :: 0 <= i < |s| ==> s[i] as int < 128
  }

  /** urlsafe_b64decode */
  function Decode64(s: string): Option<seq<Byte>> {
    if Ascii(s) then Read(Reader([], 0, 0, 0), s) else None
  }

  lemma SymbolHasValue(i: int)
    requires 0 <= i < 64
    ensures Symbol(i) != '=' && Value(Symbol(i)) == Some(i)
  {
  }

  lemma ReadSymbol(r: Reader, i: int, s: string)
    requires ReaderOk(r) && 0 <= i < 64
    ensures Read(r, [Symbol(i)] + s) == Read(Take(r, i), s)
  {
    SymbolHasValue(i);
    assert ([Symbol(i)] + s)[1..] == s;
  }

  lemma ReadPair(r: Reader, w: int, x: int, s: string)
    requires ReaderOk(r) && 0 <= w < 64 && 0 <= x < 64
    ensures Read(r, [Symbol(w), Symbol(x)] + s) == Read(Take(Take(r, w), x), s)
  {
    assert [Symbol(w), Symbol(x)] + s == [Symbol(w)] + ([Symbol(x)] + s);
    ReadSymbol(r, w, [Symbol(x)] + s);
    ReadSymbol(Take(r, w), x, s);
  }

  lemma ReadFour(r: Reader, w: int, x: int, y: int, z: int, s: string)
    requires ReaderOk(r) && 0 <= w < 64 && 0 <= x < 64 && 0 <= y < 64 && 0 <= z < 64
    ensures Read(r, [Symbol(w), Symbol(x), Symbol(y), Symbol(z)] + s) == Read(Take(Take(Take(Take(r, w), x), y), z), s)
  {
    var rest := [Symbol(y), Symbol(z)] + s;
    assert [Symbol(w), Symbol(x), Symbol(y), Symbol(z)] + s == [Symbol(w), Symbol(x)] + rest;
    ReadPair(r, w, x, rest);
    ReadPair(Take(Take(r, w), x), y, z, s);
  }

  lemma TakeFour(out: seq<Byte>, a: Byte, b: Byte, c: Byte)
    ensures Take(Take(Take(Take(Reader(out, 0, 0, 0), a / 4), a % 4 * 16 + b / 16), b % 16 * 4 + c / 64), c % 64)
            == Reader(out + [a, b, c], 0, 0, 0)
  {
  }

  lemma ReadGroup(out: seq<Byte>, a: Byte, b: Byte, c: Byte, s: string)
    ensures Read(Reader(out, 0, 0, 0), Four(a, b, c) + s) == Read(Reader(out + [a, b, c], 0, 0, 0), s)
  {
    ReadFour(Reader(out, 0, 0, 0), a / 4, a % 4 * 16 + b / 16, b % 16 * 4 + c / 64, c % 64, s);
    TakeFour(out, a, b, c);
  }

  lemma ReadTwo(out: seq<Byte>, a: Byte)
    ensures Read(Reader(out, 0, 0, 0), [Symbol(a / 4), Symbol(a % 4 * 16)] + Equals(2)) == Some(out + [a])
  {
    var w, x := a / 4, a % 4 * 16;
    var r := Reader(out, 0, 0, 0);
    assert [Symbol(w), Symbol(x)] + Equals(2) == [Symbol(w)] + ([Symbol(x)] + Equals(2));
    ReadSymbol(r, w, [Symbol(x)] + Equals(2));
    ReadSymbol(Take(r, w), x, Equals(2));
    assert Equals(2)[1..] == Equals(1);
    assert Take(Take(r, w), x).out == out + [a];
  }

  lemma ReadThree(out: seq<Byte>, a: Byte, b: Byte)
    ensures Read(Reader(out, 0, 0, 0), [Symbol(a / 4), Symbol(a % 4 * 16 + b / 16), Symbol(b % 16 * 4)] + Equals(1))
            == Some(out + [a, b])
  {
    var w, x, y := a / 4, a % 4 * 16 + b / 16, b % 16 * 4;
    var r := Reader(out, 0, 0, 0);
    var s1 := [Symbol(y)] + Equals(1);
    var s2 := [Symbol(x)] + s1;
    assert [Symbol(w), Symbol(x), Symbol(y)] + Equals(1) == [Symbol(w)] + s2;
    ReadSymbol(r, w, s2);
    ReadSymbol(Take(r, w), x, s1);
    ReadSymbol(Take(Take(r, w), x), y, Equals(1));
    TakeThree(out, a, b);
  }

  lemma TakeThree(out: seq<Byte>, a: Byte, b: Byte)
    ensures Take(Take(Take(Reader(out, 0, 0, 0), a / 4), a % 4 * 16 + b / 16), b % 16 * 4)
            == Reader(out + [a, b], 0, 3, 0)
  {
  }

  lemma EncodeRest(b: seq<Byte>)
    requires |b| >= 3
    ensures Encode64(b) == Four(b[0], b[1], b[2]) + Encode64(b[3..])
  {
    var pads := Equals((3 - |b| % 3) % 3);
    assert |b[3..]| % 3 == |b| % 3;
    assert (Four(b[0], b[1], b[2]) + Core(b[3..])) + pads == Four(b[0], b[1], b[2]) + (Core(b[3..]) + pads);
  }

  lemma ReadRest(out: seq<Byte>, b: seq<Byte>)
    requires |b| < 3
    ensures Read(Reader(out, 0, 0, 0), Encode64(b)) == Some(out + b)
  {
    if |b| == 0 {
      assert Encode64(b) == [];
      assert out + b == out;
    } else if |b| == 1 {
      ReadTwo(out, b[0]);
      assert b == [b[0]];
    } else {
      ReadThree(out, b[0], b[1]);
      assert b == [b[0], b[1]];
    }
  }

  lemma {:induction false} ReadEncoded(out: seq<Byte>, b: seq<Byte>)
    ensures Read(Reader(out, 0, 0, 0), Encode64(b)) == Some(out + b)
    decreases |b|
  {
    if |b| < 3 {
      ReadRest(out, b);
    } else {
      EncodeRest(b);
      ReadGroup(out, b[0], b[1], b[2], Encode64(b[3..]));
      ReadEncoded(out + [b[0], b[1], b[2]], b[3..]);
      assert out + [b[0], b[1], b[2]] + b[3..] == out + b;
    }
  }

  lemma {:induction false} CoreLength(b: seq<Byte>)
    ensures |Core(b)| == |b| / 3 * 4 + if |b| % 3 == 0 then 0 else |b| % 3 + 1
  {
    if |b| >= 3 { CoreLength(b[3..]); }
  }

  lemma FourPlain(a: Byte, b: Byte, c: Byte)
    ensures '=' !in Four(a, b, c)
  {
  }

  lemma FourAscii(a: Byte, b: Byte, c: Byte)
    ensures Ascii(Four(a, b, c))
  {
  }

  lemma {:induction false} CoreAscii(b: seq<Byte>)
    ensures Ascii(Core(b))
  {
    if |b| >= 3 {
      CoreAscii(b[3..]);
      FourAscii(b[0], b[1], b[2]);
    }
  }

  lemma {:induction false} CorePlain(b: seq<Byte>)
    ensures '=' !in Core(b)
  {
    if |b| >= 3 {
      CorePlain(b[3..]);
      FourPlain(b[0], b[1], b[2]);
    }
  }

  lemma {:induction false} StripEquals(s: string, n: nat)
    requires s == [] || s[|s| - 1] != '='
    ensures Strip(s + Equals(n)) == s
  {
    if n == 0 {
      assert s + Equals(0) == s;
    } else {
      StripEquals(s, n - 1);
      assert (s + Equals(n))[..|s| + n - 1] == s + Equals(n - 1);
    }
  }

  /** Stripping the padding and adding (-length mod 4) characters back restores the exact encoding. */
  lemma PadRestores(b: seq<Byte>)
    ensures Pad(Strip(Encode64(b))) == Encode64(b)
  {
    CorePlain(b);
    StripEquals(Core(b), (3 - |b| % 3) % 3);
    PadCount(b);
  }

  lemma PadCount(b: seq<Byte>)
    ensures -|Core(b)| % 4 == (3 - |b| % 3) % 3
  {
    CoreLength(b);
    PadArithmetic(|b|, |Core(b)|);
  }

  lemma PadArithmetic(n: int, m: int)
    requires n >= 0 && m == n / 3 * 4 + if n % 3 == 0 then 0 else n % 3 + 1
    ensures -m % 4 == (3 - n % 3) % 3
  {
  }

  /** Unpadded base64url loses nothing. */
  lemma RoundTrip64(b: seq<Byte>)
    ensures Decode64(Pad(Strip(Encode64(b)))) == Some(b)
  {
    PadRestores(b);
    ReadEncoded([], b);
    CoreAscii(b);
    assert [] + b == b;
  }

  // ----- what the decoder makes of any string ------------------------------------------------------

  /** Two characters besides the encoder's own have a value, those of the standard alphabet. */
  lemma ValueMeans(c: char, i: int)
    ensures Value(c) == Some(i) <==> 0 <= i < 64 && (c == Symbol(i) || (c == '+' && i == 62) || (c == '/' && i == 63))
  {
  }

  /** The six-bit values a string holds, everything outside the alphabet skipped. */
  function Values(s: string): (v: seq<int>)
    ensures forall i :: 0 <= i < |v| ==> 0 <= v[i] < 64
  {
    if s == [] then []
    else
      var x := Value(s[|s| - 1]);
      Values(s[..|s| - 1]) + if x.Some? then [x.value] else []
  }

  /** Byte j is bits 8j to 8j + 7 of the values strung together; bits left over are dropped. */
  function Unpack(v: seq<int>): seq<Byte>
    requires forall i :: 0 <= i < |v| ==> 0 <= v[i] < 64
  {
    seq(|v| * 3 / 4, j requires 0 <= j < |v| * 3 / 4 => ByteAt(v, j))
  }

  function ByteAt(v: seq<int>, j: nat): Byte
    requires (forall i :: 0 <= i < |v| ==> 0 <= v[i] < 64) && j < |v| * 3 / 4
  {
    var g := j / 3 * 4;
    if j % 3 == 0 then v[g] * 4 + v[g + 1] / 16
    else if j % 3 == 1 then v[g + 1] % 16 * 16 + v[g + 2] / 4
    else v[g + 2] % 4 * 64 + v[g + 3]
  }

  /** A padding character comes after the last value. */
  predicate Padded(s: string) {
    s != [] && (s[|s| - 1] == '=' || (Value(s[|s| - 1]).None? && Padded(s[..|s| - 1])))
  }

  /** The padding at e completes a group of four: two values and a second padding character, or three values. */
  predicate Completes(s: string, e: nat) {
    e < |s| && s[e] == '='
    && var n := |Values(s[..e])| % 4; n == 3 || (n == 2 && Padded(s[..e]))
  }

  function LeftOver(v: seq<int>): int
    requires forall i :: 0 <= i < |v| ==> 0 <= v[i] < 64
  {
    if |v| % 4 == 0 then 0
    else if |v| % 4 == 1 then v[|v| - 1]
    else if |v| % 4 == 2 then v[|v| - 1] % 16
    else v[|v| - 1] % 4
  }

  /** The decoder's registers after a prefix that completes no group by padding. */
  function After(s: string): (r: Reader)
    ensures ReaderOk(r)
  {
    var v := Values(s);
    Reader(Unpack(v), LeftOver(v), |v| % 4, if |v| % 4 == 2 && Padded(s) then 1 else 0)
  }

  lemma UnpackMore(v: seq<int>, x: int)
    requires (forall i :: 0 <= i < |v| ==> 0 <= v[i] < 64) && 0 <= x < 64
    ensures forall i :: 0 <= i < |v + [x]| ==> 0 <= (v + [x])[i] < 64
    ensures Unpack(v + [x]) == Unpack(v) + if |v| % 4 == 0 then [] else [ByteAt(v + [x], |v| * 3 / 4)]
  {
  }

  /** The byte that the r-th value of a group completes. */
  lemma LastByte(w: seq<int>, k: nat, r: nat)
    requires (forall i :: 0 <= i < |w| ==> 0 <= w[i] < 64) && 2 <= r <= 4 && |w| == 4 * k + r
    ensures (|w| - 1) * 3 / 4 == 3 * k + r - 2 < |w| * 3 / 4
    ensures ByteAt(w, 3 * k + r - 2)
            == if r == 2 then w[4 * k] * 4 + w[4 * k + 1] / 16
               else if r == 3 then w[4 * k + 1] % 16 * 16 + w[4 * k + 2] / 4
               else w[4 * k + 2] % 4 * 64 + w[4 * k + 3]
  {
    var j := 3 * k + r - 2;
    assert j / 3 == k && j % 3 == r - 2;
  }

  lemma LeftOverBy(v: seq<int>, x: int, k: nat, r: nat)
    requires (forall i :: 0 <= i < |v| ==> 0 <= v[i] < 64) && 0 <= x < 64 && r < 4 && |v| == 4 * k + r
    ensures LeftOver(v + [x]) == if r == 0 then x else if r == 1 then x % 16 else if r == 2 then x % 4 else 0
    ensures LeftOver(v) == if r == 0 then 0 else if r == 1 then v[4 * k] else if r == 2 then v[4 * k + 1] % 16
                           else v[4 * k + 2] % 4
  {
  }

  lemma ByteBy(v: seq<int>, x: int, k: nat, r: nat)
    requires (forall i :: 0 <= i < |v| ==> 0 <= v[i] < 64) && 0 <= x < 64 && 0 < r < 4 && |v| == 4 * k + r
    ensures forall i :: 0 <= i < |v + [x]| ==> 0 <= (v + [x])[i] < 64
    ensures |v| * 3 / 4 < |v + [x]| * 3 / 4
    ensures ByteAt(v + [x], |v| * 3 / 4)
            == if r == 1 then LeftOver(v) * 4 + x / 16 else if r == 2 then LeftOver(v) * 16 + x / 4
               else LeftOver(v) * 64 + x
  {
    LeftOverBy(v, x, k, r);
    LastByte(v + [x], k, r + 1);
  }

  lemma TakeOut(out: seq<Byte>, left: int, r: nat, x: int, b: Byte)
    requires r < 4 && 0 <= x < 64 && ReaderOk(Reader(out, left, r, 0))
    requires r > 0 ==> b == if r == 1 then left * 4 + x / 16 else if r == 2 then left * 16 + x / 4 else left * 64 + x
    ensures Take(Reader(out, left, r, 0), x).out == out + if r == 0 then [] else [b]
  {
  }

  lemma UnpackBy(v: seq<int>, x: int, k: nat, r: nat)
    requires (forall i :: 0 <= i < |v| ==> 0 <= v[i] < 64) && 0 <= x < 64 && r < 4 && |v| == 4 * k + r
    ensures forall i :: 0 <= i < |v + [x]| ==> 0 <= (v + [x])[i] < 64
    ensures Unpack(v + [x]) == Take(Reader(Unpack(v), LeftOver(v), r, 0), x).out
  {
    UnpackMore(v, x);
    if r > 0 {
      ByteBy(v, x, k, r);
      TakeOut(Unpack(v), LeftOver(v), r, x, ByteAt(v + [x], |v| * 3 / 4));
    }
  }

  lemma TakeMore(v: seq<int>, x: int, pads: int)
    requires (forall i :: 0 <= i < |v| ==> 0 <= v[i] < 64) && 0 <= x < 64
    ensures forall i :: 0 <= i < |v + [x]| ==> 0 <= (v + [x])[i] < 64
    ensures Reader(Unpack(v + [x]), LeftOver(v + [x]), |v + [x]| % 4, 0)
            == Take(Reader(Unpack(v), LeftOver(v), |v| % 4, pads), x)
  {
    var k, r := |v| / 4, |v| % 4;
    UnpackBy(v, x, k, r);
    LeftOverBy(v, x, k, r);
  }

  lemma AfterValue(s: string, c: char)
    requires Value(c).Some?
    ensures After(s + [c]) == Take(After(s), Value(c).value)
  {
    assert (s + [c])[..|s|] == s;
    assert !Padded(s + [c]) && Values(s + [c]) == Values(s) + [Value(c).value];
    TakeMore(Values(s), Value(c).value, After(s).pads);
  }

  lemma ValuesOther(s: string, c: char)
    requires Value(c).None?
    ensures Values(s + [c]) == Values(s) && (Padded(s + [c]) <==> c == '=' || Padded(s))
  {
    assert (s + [c])[..|s|] == s;
  }

  lemma AfterOther(s: string, c: char)
    requires Value(c).None?
    ensures After(s + [c])
            == if c == '=' && |Values(s)| % 4 == 2 then After(s).(pads := 1) else After(s)
  {
    ValuesOther(s, c);
  }

  /** Where reading on from a prefix ends: at the first padding that completes a group, or at the end. */
  ghost predicate Reads(s: string, from: nat, result: Option<seq<Byte>>) {
    if exists e :: from <= e < |s| && Completes(s, e) then
      exists e :: from <= e < |s| && Completes(s, e) && (forall d :: from <= d < e ==> !Completes(s, d))
                  && result == Some(Unpack(Values(s[..e])))
    else result == if |Values(s)| % 4 == 0 then Some(Unpack(Values(s))) else None
  }

  lemma {:induction false} ReadOn(s: string, from: nat)
    requires from <= |s|
    ensures Reads(s, from, Read(After(s[..from]), s[from..]))
    decreases |s| - from
  {
    var p := s[..from];
    if from == |s| {
      assert p == s;
    } else {
      var c := s[from];
      assert s[from..][1..] == s[from + 1..] && s[..from + 1] == p + [c];
      if Completes(s, from) {
        assert Read(After(p), s[from..]) == Some(After(p).out);
      } else {
        if Value(c).Some? { AfterValue(p, c); } else { AfterOther(p, c); }
        ReadOn(s, from + 1);
        assert Read(After(p), s[from..]) == Read(After(p + [c]), s[from + 1..]);
      }
    }
  }

  /**
   * A string decodes exactly if it is ASCII and its values are cut off by padding that completes a group or come in
   * whole groups of four, and then to the bytes of the values before the cut.
   */
  lemma DecodeMeans(s: string)
    ensures (exists i :: 0 <= i < |s| && s[i] as int >= 128) ==> Decode64(s) == None
    ensures (forall i :: 0 <= i < |s| ==> s[i] as int < 128) ==> Reads(s, 0, Decode64(s))
  {
    ReadOn(s, 0);
    ReadFromStart(s);
  }

  lemma ReadFromStart(s: string)
    ensures Read(After(s[..0]), s[0..]) == Read(Reader([], 0, 0, 0), s)
  {
    assert s[..0] == [] && s[0..] == s;
    assert Unpack(Values([])) == [];
  }

  // ----- cursors ---------------------------------------------------------------------------------

  datatype Cursor = Cursor(deliveredAt: Timestamp, deliveryId: Id)

  /** JSON text with sorted keys, the parser for it, and HMAC-SHA256 in hex under the service's secret. */
  datatype Codec = Codec(dumps: Json -> seq<Byte>, loads: seq<Byte> -> Option<Json>, sign: seq<Byte> -> string)

  ghost predicate Parses(c: Codec) {
    forall j :: c.loads(c.dumps(j)) == Some(j)
  }

  // There are such codecs: a text that determines the value, three bytes a character, and its inverse.

  function CharBytes(c: char): seq<Byte> {
    var n := c as int;
    [n / 65536, n / 256 % 256, n % 256]
  }

  function Bytes(s: string): seq<Byte> {
    if s == "" then [] else CharBytes(s[0]) + Bytes(s[1..])
  }

  lemma Digits(m: nat)
    ensures m == 65536 * (m / 65536) + 256 * (m / 256 % 256) + m % 256
  {
    var q := m / 256;
    assert m == 256 * q + m % 256;
    assert q == 256 * (q / 256) + q % 256;
    assert q / 256 == m / 65536;
  }

  lemma CharTells(a: char, b: char)
    requires CharBytes(a) == CharBytes(b)
    ensures a == b
  {
    var x, y := CharBytes(a), CharBytes(b);
    assert x[0] == y[0] && x[1] == y[1] && x[2] == y[2];
    Digits(a as int);
    Digits(b as int);
  }

  lemma {:induction false} BytesTell(s: string, t: string)
    requires Bytes(s) == Bytes(t)
    ensures s == t
  {
    if s != "" && t != "" {
      var a, b := CharBytes(s[0]) + Bytes(s[1..]), CharBytes(t[0]) + Bytes(t[1..]);
      assert a[..3] == CharBytes(s[0]) && b[..3] == CharBytes(t[0]);
      assert a[3..] == Bytes(s[1..]) && b[3..] == Bytes(t[1..]);
      CharTells(s[0], t[0]);
      BytesTell(s[1..], t[1..]);
      assert s == [s[0]] + s[1..] && t == [t[0]] + t[1..];
    }
  }

  ghost function Load(b: seq<Byte>): Option<Json> {
    if exists j: Json :: Bytes(Show(j)) == b then
      var j: Json :| Bytes(Show(j)) == b;
      Some(j)
    else None
  }

  lemma SomeCodecParses()
    ensures exists c: Codec :: Parses(c)
  {
    var c := Codec(j => Bytes(Show(j)), b => Load(b), _ => "");
    forall j: Json ensures c.loads(c.dumps(j)) == Some(j) {
      var k := Load(Bytes(Show(j))).value;
      BytesTell(Show(j), Show(k));
      ShowInjective(j, k);
    }
    assert Parses(c);
  }

  /** An exception decode turns into a 400, or one it does not catch. */
  datatype CursorError = InvalidCursor | Uncaught

  function Payload(c: Cursor): Json {
    JObject(map["delivered_at" := JText(InstantText(c.deliveredAt)), "delivery_id" := JText(UuidText(c.deliveryId))])
  }

  function EncodeCursor(codec: Codec, c: Cursor): string {
    var envelope :=
        JObject(map["payload" := Payload(c), "signature" := JText(Plain(codec.sign(codec.dumps(Payload(c)))))]);
    Strip(Encode64(codec.dumps(envelope)))
  }

  /** What is left once the text is an object: signature first, then the two fields. */
  function ReadEnvelope(codec: Codec, o: map<string, Json>): Result<Cursor, CursorError> {
    if "payload" !in o || "signature" !in o then Err(InvalidCursor)
    else if o["signature"] != JText(Plain(codec.sign(codec.dumps(o["payload"])))) then Err(InvalidCursor)
    else if !o["payload"].JObject? then Err(InvalidCursor)
    else
      var p := o["payload"].fields;
      if "delivered_at" !in p || !p["delivered_at"].JText? || !p["delivered_at"].text.InstantText?
        then Err(InvalidCursor)
      else if "delivery_id" !in p || p["delivery_id"].JNull? then Err(InvalidCursor)
      else if !p["delivery_id"].JText? then Err(Uncaught)
      else if !p["delivery_id"].text.UuidText? then Err(InvalidCursor)
      else Ok(Cursor(p["delivered_at"].text.at, p["delivery_id"].text.id))
  }

  function DecodeCursor(codec: Codec, s: string): Result<Cursor, CursorError> {
    var bytes := Decode64(Pad(s));
    if bytes.None? then Err(InvalidCursor)
    else
      var j := codec.loads(bytes.value);
      if j.None? || !j.value.JObject? then Err(InvalidCursor) else ReadEnvelope(codec, j.value.fields)
  }

  /** Every cursor the service hands out is read back as the same instant and id. */
  lemma CursorRoundTrip(codec: Codec, c: Cursor)
    requires Parses(codec)
    ensures DecodeCursor(codec, EncodeCursor(codec, c)) == Ok(c)
  {
    var signature := codec.sign(codec.dumps(Payload(c)));
    var o := map["payload" := Payload(c), "signature" := JText(Plain(signature))];
    RoundTrip64(codec.dumps(JObject(o)));
    assert codec.loads(codec.dumps(JObject(o))) == Some(JObject(o));
    assert o["payload"] == Payload(c) && o["signature"] == JText(Plain(signature));
    var p := Payload(c).fields;
    assert p["delivered_at"] == JText(InstantText(c.deliveredAt)) && p["delivery_id"] == JText(UuidText(c.deliveryId));
  }

  /** Two different cursors are two different strings. */
  lemma CursorsDiffer(codec: Codec, c: Cursor, c': Cursor)
    requires Parses(codec) && EncodeCursor(codec, c) == EncodeCursor(codec, c')
    ensures c == c'
  {
    CursorRoundTrip(codec, c);
    CursorRoundTrip(codec, c');
  }

  /** The signed object a string stands for, when there is one. */
  function Opened(codec: Codec, s: string): Option<map<string, Json>> {
    var bytes := Decode64(Pad(s));
    if bytes.None? || codec.loads(bytes.value).None? || !codec.loads(bytes.value).value.JObject? then None
    else Some(codec.loads(bytes.value).value.fields)
  }

  /** The signature is the one this service gives that payload, and the payload is an object. */
  predicate Signed(codec: Codec, o: map<string, Json>) {
    && "payload" in o && o["payload"].JObject?
    && "signature" in o && o["signature"] == JText(Plain(codec.sign(codec.dumps(o["payload"]))))
  }

  /** A string is taken for a cursor exactly if its payload is signed by this service and names the instant and id. */
  lemma AcceptedIffSigned(codec: Codec, s: string, c: Cursor)
    ensures DecodeCursor(codec, s) == Ok(c) <==>
            && Opened(codec, s).Some?
            && var o := Opened(codec, s).value;
               && Signed(codec, o)
               && var p := o["payload"].fields;
                  && "delivered_at" in p && p["delivered_at"] == JText(InstantText(c.deliveredAt))
                  && "delivery_id" in p && p["delivery_id"] == JText(UuidText(c.deliveryId))
  {
  }

  /** The one failure that is not answered as an invalid cursor: a signed payload whose id is neither text nor null. */
  lemma UncaughtIff(codec: Codec, s: string)
    ensures DecodeCursor(codec, s) == Err(Uncaught) <==>
            && Opened(codec, s).Some?
            && var o := Opened(codec, s).value;
               && Signed(codec, o)
               && var p := o["payload"].fields;
                  && "delivered_at" in p && p["delivered_at"].JText? && p["delivered_at"].text.InstantText?
                  && "delivery_id" in p && !p["delivery_id"].JText? && !p["delivery_id"].JNull?
  {
  }

  /** A cursor is safe in a URL: letters, digits, hyphens and underscores, and no padding. */
  lemma CursorIsUrlSafe(codec: Codec, c: Cursor, i: nat)
    requires i < |EncodeCursor(codec, c)|
    ensures var x := EncodeCursor(codec, c)[i];
            'A' <= x <= 'Z' || 'a' <= x <= 'z' || '0' <= x <= '9' || x == '-' || x == '_'
  {
    var envelope :=
        JObject(map["payload" := Payload(c), "signature" := JText(Plain(codec.sign(codec.dumps(Payload(c)))))]);
    StripIsCore(codec.dumps(envelope));
    CoreIsUrlSafe(codec.dumps(envelope), i);
  }

  lemma StripIsCore(b: seq<Byte>)
    ensures Strip(Encode64(b)) == Core(b)
  {
    CorePlain(b);
    StripEquals(Core(b), (3 - |b| % 3) % 3);
  }

  lemma {:induction false} CoreIsUrlSafe(b: seq<Byte>, i: nat)
    requires i < |Core(b)|
    ensures var x := Core(b)[i];
            'A' <= x <= 'Z' || 'a' <= x <= 'z' || '0' <= x <= '9' || x == '-' || x == '_'
  {
    if |b| >= 3 && i >= 4 { CoreIsUrlSafe(b[3..], i - 4); }
  }

  /** Test vectors of section 10 of RFC 4648, and one for the two characters of its URL-safe alphabet. */
  lemma TestVectors()
    ensures Encode64([]) == "" && Encode64([102]) == "Zg==" && Encode64([102, 111]) == "Zm8="
    ensures Encode64([251, 240]) == "-_A="
  {
  }

  lemma LongerTestVector()
    ensures Encode64([102, 111, 111, 98, 97, 114]) == "Zm9vYmFy"
  {
  }
}
