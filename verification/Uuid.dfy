/** UUIDv7 session IDs: the 16 bytes of section 5.7 of RFC 9562 and their canonical text. */
module Uuid {
  import opened Numerals

  type Byte = b: int | 0 <= b < 256

  /** The shift-and-truncate of `byte(ms >> (8 * k))`. */
  function ByteAt(ms: nat, k: nat): Byte {
    (ms / Pow256(k)) % 256
  }

  function Pow256(k: nat): (p: nat)
    ensures p > 0
  {
    if k == 0 then 1 else 256 * Pow256(k - 1)
  }

  /** `b & 0x0F | 0x70`: the low four bits, under version 7. */
  function WithVersion(b: Byte): (r: Byte)
    ensures r / 16 == 7 && r % 16 == b % 16
  {
    b % 16 + 0x70
  }

  /** `b & 0x3F | 0x80`: the low six bits, under variant 10. */
  function WithVariant(b: Byte): (r: Byte)
    ensures r / 64 == 2 && r % 64 == b % 64
  {
    b % 64 + 0x80
  }

  lemma VersionBits(b: bv8)
    ensures (b & 0x0F) | 0x70 == (b % 16) + 0x70
  {
  }

  lemma VariantBits(b: bv8)
    ensures (b & 0x3F) | 0x80 == (b % 64) + 0x80
  {
  }

  predicate IsUuid(bytes: seq<Byte>) {
    |bytes| == 16
  }

  /** The layout: 48 bits of time, then ten random bytes with version and variant stamped over them. */
  function Layout(ms: nat, random: seq<Byte>): (bytes: seq<Byte>)
    requires |random| == 10
    ensures IsUuid(bytes)
  {
    [ByteAt(ms, 5), ByteAt(ms, 4), ByteAt(ms, 3), ByteAt(ms, 2), ByteAt(ms, 1), ByteAt(ms, 0),
     WithVersion(random[0]), random[1], WithVariant(random[2])] + random[3..]
  }

  /** Lower-case hex of bytes, as hex.Encode writes it. */
  function HexOf(bytes: seq<Byte>): (t: string)
    ensures |t| == 2 * |bytes|
  {
    if bytes == [] then "" else HexOf(bytes[..|bytes| - 1]) + Hex(bytes[|bytes| - 1], 2)
  }

  /** The 8-4-4-4-12 form. */
  function Canonical(bytes: seq<Byte>): (t: string)
    requires IsUuid(bytes)
    ensures |t| == 36
  {
    HexOf(bytes[0..4]) + "-" + HexOf(bytes[4..6]) + "-" + HexOf(bytes[6..8]) + "-" + HexOf(bytes[8..10]) + "-"
    + HexOf(bytes[10..16])
  }

  // ---- the program ----

  /** hex.Encode into a window of a buffer. */
  method EncodeHex(out: array<char>, at: nat, b: array<Byte>, from: nat, to: nat)
    requires from <= to <= b.Length && at + 2 * (to - from) <= out.Length
    modifies out
    ensures out[at..at + 2 * (to - from)] == HexOf(b[from..to])
    ensures forall i :: 0 <= i < out.Length && !(at <= i < at + 2 * (to - from)) ==> out[i] == old(out[i])
  {
    for i := from to to
      invariant out[at..at + 2 * (i - from)] == HexOf(b[from..i])
      invariant forall k :: 0 <= k < out.Length && !(at <= k < at + 2 * (i - from)) ==> out[k] == old(out[k])
    {
      var p := at + 2 * (i - from);
      ghost var done := out[at..p];
      out[p], out[p + 1] := Digit(b[i] / 16), Digit(b[i] % 16);
      HexByte(b[i]);
      assert b[from..i + 1][..i - from] == b[from..i];
      assert out[at..p + 2] == done + [Digit(b[i] / 16), Digit(b[i] % 16)];
    }
  }

  lemma HexByte(b: Byte)
    ensures Hex(b, 2) == [Digit(b / 16), Digit(b % 16)]
  {
    assert Hex(b / 16, 1) == Hex(b / 16 / 16, 0) + [Digit(b / 16 % 16)];
    assert b / 16 % 16 == b / 16;
    assert Hex(b, 2) == Hex(b / 16, 1) + [Digit(b % 16)];
  }

  method Format(b: array<Byte>) returns (id: string)
    requires b.Length == 16
    ensures id == Canonical(b[..])
  {
    hide HexOf;
    var out := new char[36];
    EncodeHex(out, 0, b, 0, 4);
    out[8] := '-';
    EncodeHex(out, 9, b, 4, 6);
    out[13] := '-';
    EncodeHex(out, 14, b, 6, 8);
    out[18] := '-';
    EncodeHex(out, 19, b, 8, 10);
    out[23] := '-';
    EncodeHex(out, 24, b, 10, 16);
    id := out[..];
    assert b[..][0..4] == b[0..4] && b[..][4..6] == b[4..6] && b[..][6..8] == b[6..8];
    assert b[..][8..10] == b[8..10] && b[..][10..16] == b[10..16];
    Assembled(id, b[..]);
  }

  /** The five windows and four hyphens make up the canonical text. */
  lemma Assembled(id: string, bytes: seq<Byte>)
    requires |id| == 36 && IsUuid(bytes)
    requires id[0..8] == HexOf(bytes[0..4]) && id[9..13] == HexOf(bytes[4..6]) && id[14..18] == HexOf(bytes[6..8])
    requires id[19..23] == HexOf(bytes[8..10]) && id[24..36] == HexOf(bytes[10..16])
    requires id[8] == '-' && id[13] == '-' && id[18] == '-' && id[23] == '-'
    ensures id == Canonical(bytes)
  {
    hide HexOf;
    var t := Canonical(bytes);
    assert t[0..8] == HexOf(bytes[0..4]) && t[9..13] == HexOf(bytes[4..6]) && t[14..18] == HexOf(bytes[6..8]);
    assert t[19..23] == HexOf(bytes[8..10]) && t[24..36] == HexOf(bytes[10..16]);
    assert t[8] == '-' && t[13] == '-' && t[18] == '-' && t[23] == '-';
    forall i | 0 <= i < 36 ensures id[i] == t[i] {
      if i < 8 { assert id[0..8][i] == t[0..8][i]; }
      else if 9 <= i < 13 { assert id[9..13][i - 9] == t[9..13][i - 9]; }
      else if 14 <= i < 18 { assert id[14..18][i - 14] == t[14..18][i - 14]; }
      else if 19 <= i < 23 { assert id[19..23][i - 19] == t[19..23][i - 19]; }
      else if 24 <= i { assert id[24..36][i - 24] == t[24..36][i - 24]; }
    }
  }

  /** GenerateSessionID with the clock and the random source as inputs. */
  method GenerateSessionID(ms: nat, random: seq<Byte>) returns (id: string)
    requires |random| == 10
    ensures id == Canonical(Layout(ms, random))
    ensures |id| == 36 && Parse(id)[6] / 16 == 7 && Parse(id)[8] / 64 == 2
    ensures Timestamp(id) == ms % 0x1_0000_0000_0000
    ensures Parse(id)[6] % 16 == random[0] % 16 && Parse(id)[7] == random[1] && Parse(id)[8] % 64 == random[2] % 64
    ensures forall i | 3 <= i < 10 :: Parse(id)[6 + i] == random[i]
  {
    hide ByteAt, Canonical, HexOf, WithVersion, WithVariant, Parse, Timestamp;
    var b := new Byte[16](_ => 0);
    b[0], b[1], b[2] := ByteAt(ms, 5), ByteAt(ms, 4), ByteAt(ms, 3);
    b[3], b[4], b[5] := ByteAt(ms, 2), ByteAt(ms, 1), ByteAt(ms, 0);
    ghost var first := b[..6];
    for i := 0 to 10
      invariant b[..6] == first
      invariant forall k :: 0 <= k < i ==> b[6 + k] == random[k]
    {
      b[6 + i] := random[i];
    }
    ghost var filled := b[..];
    b[6] := WithVersion(b[6]);
    b[8] := WithVariant(b[8]);
    Stamped(filled, b[..], ms, random);
    id := Format(b);
    IdKeeps(ms, random);
  }

  lemma Stamped(filled: seq<Byte>, b: seq<Byte>, ms: nat, random: seq<Byte>)
    requires |random| == 10 && IsUuid(filled) && filled[..6] == Layout(ms, random)[..6]
    requires forall k | 0 <= k < 10 :: filled[6 + k] == random[k]
    requires b == filled[6 := WithVersion(filled[6])][8 := WithVariant(filled[8])]
    ensures b == Layout(ms, random)
  {
    hide WithVersion, WithVariant, ByteAt;
    var t := Layout(ms, random);
    forall i | 0 <= i < 16 ensures b[i] == t[i] {
      if i < 6 {
        assert filled[..6][i] == t[..6][i];
      } else {
        assert filled[6 + (i - 6)] == random[i - 6];
      }
    }
  }

  // ---- what the text says ----

  /** The version digit and the variant digit stand where the RFC puts them. */
  lemma VersionAndVariant(ms: nat, random: seq<Byte>)
    requires |random| == 10
    ensures var id := Canonical(Layout(ms, random));
            && id[8] == '-' && id[13] == '-' && id[18] == '-' && id[23] == '-'
            && id[14] == '7' && id[19] in "89ab"
  {
    var b := Layout(ms, random);
    HexByte(b[6]);
    HexByte(b[8]);
    assert b[6..8] == [b[6], b[7]] && b[8..10] == [b[8], b[9]];
    HexOfPair(b[6], b[7]);
    HexOfPair(b[8], b[9]);
    var v := b[8] / 16;
    assert 8 <= v < 12;
    assert Digit(v) in "89ab" by {
      assert "89ab"[v - 8] == Digit(v);
    }
  }

  lemma HexOfPair(x: Byte, y: Byte)
    ensures HexOf([x, y]) == Hex(x, 2) + Hex(y, 2)
  {
    assert [x, y][..1] == [x] && [x][..0] == [];
    assert HexOf([x]) == HexOf([]) + Hex(x, 2);
  }

  function BytesOf(t: string): (bytes: seq<Byte>)
    requires |t| % 2 == 0
    ensures 2 * |bytes| == |t|
  {
    if t == "" then []
    else
      var n := |t| - 2;
      BytesOf(t[..n]) + [16 * DigitValue(t[n]) + DigitValue(t[n + 1])]
  }

  lemma {:induction false} HexReads(bytes: seq<Byte>)
    ensures BytesOf(HexOf(bytes)) == bytes
  {
    if bytes != [] {
      var n := |bytes| - 1;
      HexReads(bytes[..n]);
      HexByte(bytes[n]);
      var t := HexOf(bytes);
      assert t[..|t| - 2] == HexOf(bytes[..n]);
      assert t[|t| - 2] == Digit(bytes[n] / 16) && t[|t| - 1] == Digit(bytes[n] % 16);
      DigitRoundTrip(bytes[n] / 16);
      DigitRoundTrip(bytes[n] % 16);
      assert bytes == bytes[..n] + [bytes[n]];
    }
  }

  /** Reads a canonical text back into its bytes. */
  function Parse(t: string): (bytes: seq<Byte>)
    requires |t| == 36
    ensures IsUuid(bytes)
  {
    BytesOf(t[0..8]) + BytesOf(t[9..13]) + BytesOf(t[14..18]) + BytesOf(t[19..23]) + BytesOf(t[24..36])
  }

  lemma ParseInvertsFormat(bytes: seq<Byte>)
    requires IsUuid(bytes)
    ensures Parse(Canonical(bytes)) == bytes
  {
    var t := Canonical(bytes);
    assert t[0..8] == HexOf(bytes[0..4]);
    assert t[9..13] == HexOf(bytes[4..6]);
    assert t[14..18] == HexOf(bytes[6..8]);
    assert t[19..23] == HexOf(bytes[8..10]);
    assert t[24..36] == HexOf(bytes[10..16]);
    HexReads(bytes[0..4]);
    HexReads(bytes[4..6]);
    HexReads(bytes[6..8]);
    HexReads(bytes[8..10]);
    HexReads(bytes[10..16]);
    assert bytes == bytes[0..4] + bytes[4..6] + bytes[6..8] + bytes[8..10] + bytes[10..16];
  }

  /** Big-endian value of bytes. */
  function Value(bytes: seq<Byte>): nat {
    if bytes == [] then 0 else 256 * Value(bytes[..|bytes| - 1]) + bytes[|bytes| - 1]
  }

  function Timestamp(id: string): nat
    requires |id| == 36
  {
    Value(Parse(id)[..6])
  }

  lemma ByteAtStep(ms: nat, k: nat)
    ensures ByteAt(ms, k + 1) == ByteAt(ms / 256, k)
  {
    var p := Pow256(k);
    assert ms / (256 * p) == (ms / 256) / p by { DivDiv(ms, 256, p); }
  }

  lemma DivDiv(n: nat, a: nat, b: nat)
    requires a > 0 && b > 0
    ensures n / (a * b) == (n / a) / b
  {
    var q := (n / a) / b;
    var r := (n / a) % b;
    var s := n % a;
    var m := n / a;
    assert m == b * q + r;
    Twofold(n, a, m, s, b, q, r);
    Room(a, b, r, s);
    Quotient(n, a * b, q, a * r + s);
  }

  lemma Twofold(n: nat, a: nat, m: nat, s: nat, b: nat, q: nat, r: nat)
    requires n == a * m + s && m == b * q + r
    ensures n == (a * b) * q + (a * r + s)
  {
    Spread(a, b, q, r);
  }

  lemma Spread(a: nat, b: nat, q: nat, r: nat)
    ensures a * (b * q + r) == (a * b) * q + a * r
  {
  }

  lemma Room(a: nat, b: nat, r: nat, s: nat)
    requires r < b && s < a
    ensures a * r + s < a * b
  {
    assert a * r + a <= a * b by { assert a * (r + 1) <= a * b; }
  }

  lemma Quotient(n: nat, d: nat, q: nat, r: nat)
    requires d > 0 && n == d * q + r && r < d
    ensures n / d == q
  {
    var e := n / d - q;
    assert d * (n / d) + n % d == n;
    assert d * e == r - n % d;
    NoMultipleBetween(d, e);
  }

  lemma NoMultipleBetween(d: int, e: int)
    requires d > 0
    ensures -d < d * e < d ==> e == 0
  {
    if e >= 1 {
      assert d * e >= d;
    } else if e <= -1 {
      assert d * e <= -d;
    }
  }

  /** The `k` low bytes of a number, most significant first. */
  function LowBytes(ms: nat, k: nat): (bytes: seq<Byte>)
    ensures |bytes| == k
  {
    if k == 0 then [] else LowBytes(ms / 256, k - 1) + [ms % 256]
  }

  lemma {:induction false} LowBytesValue(ms: nat, k: nat)
    requires ms < Pow256(k)
    ensures Value(LowBytes(ms, k)) == ms
  {
    if k > 0 {
      LowBytesValue(ms / 256, k - 1);
      var b := LowBytes(ms, k);
      assert b[..k - 1] == LowBytes(ms / 256, k - 1);
    }
  }

  lemma {:induction false} LowBytesAt(ms: nat, n: nat, k: nat)
    requires k < n
    ensures LowBytes(ms, n)[n - 1 - k] == ByteAt(ms, k)
  {
    if k == 0 {
      assert Pow256(0) == 1;
    } else {
      LowBytesAt(ms / 256, n - 1, k - 1);
      ByteAtStep(ms, k - 1);
    }
  }

  lemma TimeBytes(ms: nat, random: seq<Byte>)
    requires |random| == 10
    ensures Layout(ms, random)[..6] == LowBytes(ms, 6)
  {
    forall i | 0 <= i < 6 ensures Layout(ms, random)[i] == LowBytes(ms, 6)[i] {
      LowBytesAt(ms, 6, 5 - i);
    }
  }

  /** The six bytes hold the low 48 bits of the time. */
  lemma {:induction false} LowBytesRemainder(ms: nat, k: nat)
    ensures Value(LowBytes(ms, k)) == ms % Pow256(k)
  {
    if k == 0 {
      assert ms == 1 * ms + 0 && Pow256(0) == 1;
    } else {
      LowBytesRemainder(ms / 256, k - 1);
      var b := LowBytes(ms, k);
      assert b[..k - 1] == LowBytes(ms / 256, k - 1);
      RemainderStep(ms, Pow256(k - 1));
    }
  }

  lemma RemainderStep(n: nat, p: nat)
    requires p > 0
    ensures n % (256 * p) == 256 * (n / 256 % p) + n % 256
  {
    var q, r, s := n / 256 / p, n / 256 % p, n % 256;
    DivDiv(n, 256, p);
    assert n / 256 == p * q + r;
    assert n == 256 * (p * q + r) + s;
    Spread(256, p, q, r);
  }

  /** The timestamp below 2^48 can be read off the text. */
  lemma TimestampRecoverable(ms: nat, random: seq<Byte>)
    requires |random| == 10 && ms < 0x1_0000_0000_0000
    ensures Timestamp(Canonical(Layout(ms, random))) == ms
  {
    IdKeeps(ms, random);
  }

  /** An ID keeps the low 48 bits of the time and 74 random bits, each of which can be read off the text. */
  lemma IdKeeps(ms: nat, random: seq<Byte>)
    requires |random| == 10
    ensures var id := Canonical(Layout(ms, random));
            && Parse(id)[6] / 16 == 7 && Parse(id)[8] / 64 == 2
            && Timestamp(id) == ms % 0x1_0000_0000_0000
            && Parse(id)[6] % 16 == random[0] % 16 && Parse(id)[7] == random[1]
            && Parse(id)[8] % 64 == random[2] % 64
            && forall i | 3 <= i < 10 :: Parse(id)[6 + i] == random[i]
  {
    hide Canonical, Parse, WithVersion, WithVariant, ByteAt;
    ParseInvertsFormat(Layout(ms, random));
    TimeBytes(ms, random);
    Pow256At6();
    LowBytesRemainder(ms, 6);
  }

  /** Two IDs are equal iff those bits are: nothing is added, and 74 random bits keep IDs apart. */
  lemma SameIdIff(ms: nat, random: seq<Byte>, ms': nat, random': seq<Byte>)
    requires |random| == 10 && |random'| == 10
    ensures Canonical(Layout(ms, random)) == Canonical(Layout(ms', random')) <==> SameBits(ms, random, ms', random')
  {
    hide Canonical, Parse, WithVersion, WithVariant, ByteAt, Timestamp;
    IdKeeps(ms, random);
    IdKeeps(ms', random');
    var x, y := Layout(ms, random), Layout(ms', random');
    if Canonical(x) == Canonical(y) {
      forall i | 3 <= i < 10 ensures random[i] == random'[i] {
        assert Parse(Canonical(x))[6 + i] == random[i];
      }
    }
    if SameBits(ms, random, ms', random') {
      SameLayout(ms, random, ms', random');
    }
  }

  predicate SameBits(ms: nat, random: seq<Byte>, ms': nat, random': seq<Byte>)
    requires |random| == 10 && |random'| == 10
  {
    && ms % 0x1_0000_0000_0000 == ms' % 0x1_0000_0000_0000
    && random[0] % 16 == random'[0] % 16 && random[1] == random'[1] && random[2] % 64 == random'[2] % 64
    && random[3..] == random'[3..]
  }

  lemma SameLayout(ms: nat, random: seq<Byte>, ms': nat, random': seq<Byte>)
    requires |random| == 10 && |random'| == 10 && SameBits(ms, random, ms', random')
    ensures Layout(ms, random) == Layout(ms', random')
  {
    hide ByteAt;
    var x, y := Layout(ms, random), Layout(ms', random');
    TimeBytes(ms, random);
    TimeBytes(ms', random');
    Pow256At6();
    LowBytesRemainder(ms, 6);
    LowBytesRemainder(ms', 6);
    ValueInjective(x[..6], y[..6]);
    SameDigits(x[6], y[6], 16);
    SameDigits(x[8], y[8], 64);
    forall i | 0 <= i < 6 ensures x[i] == y[i] {
      assert x[..6][i] == y[..6][i];
    }
  }

  lemma SameDigits(x: Byte, y: Byte, d: nat)
    requires d > 0 && x / d == y / d && x % d == y % d
    ensures x == y
  {
    assert x == d * (x / d) + x % d;
    assert y == d * (y / d) + y % d;
  }

  lemma Pow256At6()
    ensures Pow256(6) == 0x1_0000_0000_0000
  {
    assert Pow256(1) == 256 && Pow256(2) == 0x1_0000;
    assert Pow256(3) == 0x100_0000;
    assert Pow256(4) == 0x1_0000_0000;
    assert Pow256(5) == 0x100_0000_0000;
  }

  // ---- order ----

  /** Go's string order. */
  predicate StringLess(a: string, b: string) {
    exists i :: 0 <= i < |a| && i < |b| && a[..i] == b[..i] && a[i] < b[i]
  }

  lemma {:induction false} SmallerValueSmallerByte(x: seq<Byte>, y: seq<Byte>) returns (i: nat)
    requires |x| == |y| && Value(x) < Value(y)
    ensures i < |x| && x[..i] == y[..i] && x[i] < y[i]
  {
    var n := |x| - 1;
    if Value(x[..n]) < Value(y[..n]) {
      i := SmallerValueSmallerByte(x[..n], y[..n]);
      assert x[..i] == x[..n][..i] && y[..i] == y[..n][..i];
    } else {
      i := n;
      ValueInjective(x[..n], y[..n]);
    }
  }

  lemma {:induction false} ValueInjective(x: seq<Byte>, y: seq<Byte>)
    requires |x| == |y| && Value(x) == Value(y)
    ensures x == y
  {
    if x != [] {
      var n := |x| - 1;
      ValueInjective(x[..n], y[..n]);
      assert x == x[..n] + [x[n]] && y == y[..n] + [y[n]];
    }
  }

  /** Position of the high digit of byte i in the canonical text. */
  function DigitPosition(i: nat): nat {
    2 * i + if i < 4 then 0 else if i < 6 then 1 else if i < 8 then 2 else if i < 10 then 3 else 4
  }

  lemma DigitOrder(a: nat, b: nat)
    requires a < b < 16
    ensures Digit(a) < Digit(b)
  {
  }

  lemma {:induction false} HexOfAt(bytes: seq<Byte>, i: nat)
    requires i < |bytes|
    ensures HexOf(bytes)[2 * i] == Digit(bytes[i] / 16) && HexOf(bytes)[2 * i + 1] == Digit(bytes[i] % 16)
  {
    var n := |bytes| - 1;
    if i < n {
      HexOfAt(bytes[..n], i);
    } else {
      HexByte(bytes[n]);
    }
  }

  /** The first twelve digits spell the first six bytes. */
  lemma TimeDigits(bytes: seq<Byte>, i: nat)
    requires IsUuid(bytes) && i < 6
    ensures var t := Canonical(bytes);
            t[DigitPosition(i)] == Digit(bytes[i] / 16) && t[DigitPosition(i) + 1] == Digit(bytes[i] % 16)
  {
    if i < 4 {
      HexOfAt(bytes[0..4], i);
    } else {
      HexOfAt(bytes[4..6], i - 4);
    }
  }

  /** An earlier millisecond always gives a smaller string, whatever the random bytes. */
  lemma EarlierSortsFirst(ms: nat, random: seq<Byte>, ms': nat, random': seq<Byte>)
    requires |random| == 10 && |random'| == 10 && ms < ms' < 0x1_0000_0000_0000
    ensures StringLess(Canonical(Layout(ms, random)), Canonical(Layout(ms', random')))
  {
    hide Canonical, Layout, LowBytes, Value, Digit, Pow256;
    var x, y := Layout(ms, random), Layout(ms', random');
    var s, t := Canonical(x), Canonical(y);
    Pow256At6();
    TimeBytes(ms, random);
    TimeBytes(ms', random');
    LowBytesValue(ms, 6);
    LowBytesValue(ms', 6);
    var i := SmallerValueSmallerByte(x[..6], y[..6]);
    forall k | 0 <= k < i ensures x[k] == y[k] {
      assert x[..6][..i][k] == y[..6][..i][k];
    }
    var p := DigitPosition(i);
    SamePrefix(x, y, i);
    TimeDigits(x, i);
    TimeDigits(y, i);
    if x[i] / 16 < y[i] / 16 {
      DigitOrder(x[i] / 16, y[i] / 16);
      assert s[..p] == t[..p] && s[p] < t[p];
    } else {
      DigitOrder(x[i] % 16, y[i] % 16);
      assert s[..p + 1] == s[..p] + [s[p]] && t[..p + 1] == t[..p] + [t[p]];
      assert s[..p + 1] == t[..p + 1] && s[p + 1] < t[p + 1];
    }
  }

  lemma SamePrefix(x: seq<Byte>, y: seq<Byte>, i: nat)
    requires IsUuid(x) && IsUuid(y) && i < 6 && forall k :: 0 <= k < i ==> x[k] == y[k]
    ensures Canonical(x)[..DigitPosition(i)] == Canonical(y)[..DigitPosition(i)]
  {
    var s, t := Canonical(x), Canonical(y);
    var p := DigitPosition(i);
    forall q | 0 <= q < p ensures s[q] == t[q] {
      if q != 8 {
        var k := (if q < 8 then q else q - 1) / 2;
        TimeDigits(x, k);
        TimeDigits(y, k);
        assert q == DigitPosition(k) || q == DigitPosition(k) + 1;
      }
    }
  }
}
