/** The key order of `sort.Strings`, by code points and by bytes, and the sorted key list the encoder walks. */
module ToonOrder {
  import opened ToonText

  function Weight(x: Sym): nat {
    match x
    case Rune(c) => c as int
    case Bad(b) => 0x11_0000 + b
  }

  lemma WeightInjective(x: Sym, y: Sym)
    requires Weight(x) == Weight(y)
    ensures x == y
  {
  }

  /** Lexicographic order; on valid UTF-8 the byte order Go uses is the code point order. */
  predicate Less(a: Text, b: Text) {
    if b == [] then false
    else if a == [] then true
    else if Weight(a[0]) != Weight(b[0]) then Weight(a[0]) < Weight(b[0])
    else Less(a[1..], b[1..])
  }

  lemma {:induction false} LessTotal(a: Text, b: Text)
    ensures a == b || Less(a, b) || Less(b, a)
    ensures !(Less(a, b) && Less(b, a))
  {
    if a != [] && b != [] && Weight(a[0]) == Weight(b[0]) {
      WeightInjective(a[0], b[0]);
      LessTotal(a[1..], b[1..]);
      assert a == [a[0]] + a[1..] && b == [b[0]] + b[1..];
    }
  }

  lemma {:induction false} LessTransitive(a: Text, b: Text, c: Text)
    requires Less(a, b) && Less(b, c)
    ensures Less(a, c)
  {
    if a != [] && Weight(a[0]) == Weight(b[0]) && Weight(b[0]) == Weight(c[0]) {
      LessTransitive(a[1..], b[1..], c[1..]);
    }
  }

  // ---- what the order is ----

  /** a before b by code points: a is a proper beginning of b, or smaller where they first differ. */
  ghost predicate CodePointBefore(a: Text, b: Text)
    requires Valid(a) && Valid(b)
  {
    || (|a| < |b| && b[..|a|] == a)
    || exists i: nat :: DiffersFirstAt(a, b, i) && CodePoint(a, i) < CodePoint(b, i)
  }

  function CodePoint(t: Text, i: nat): nat
    requires Valid(t) && i < |t|
  {
    assert t[i] in t;
    t[i].r as int
  }

  ghost predicate DiffersFirstAt(a: Text, b: Text, i: nat) {
    i < |a| && i < |b| && a[..i] == b[..i] && a[i] != b[i]
  }

  /** How far two texts agree. */
  lemma {:induction false} Agreement(a: Text, b: Text) returns (i: nat)
    ensures i <= |a| && i <= |b| && a[..i] == b[..i]
    ensures i == |a| || i == |b| || a[i] != b[i]
  {
    if a == [] || b == [] || a[0] != b[0] {
      i := 0;
    } else {
      var k := Agreement(a[1..], b[1..]);
      i := k + 1;
      assert a[..i] == [a[0]] + a[1..][..k] && b[..i] == [b[0]] + b[1..][..k];
    }
  }

  /** What two texts share at the front does not matter. */
  lemma {:induction false} LessBehind(a: Text, b: Text, i: nat)
    requires i <= |a| && i <= |b| && a[..i] == b[..i]
    ensures Less(a, b) == Less(a[i..], b[i..])
  {
    if i == 0 {
      assert a[0..] == a && b[0..] == b;
    } else {
      assert a[0] == a[..i][0] == b[..i][0];
      assert a[1..][..i - 1] == a[..i][1..] && b[1..][..i - 1] == b[..i][1..];
      LessBehind(a[1..], b[1..], i - 1);
      assert a[1..][i - 1..] == a[i..] && b[1..][i - 1..] == b[i..];
    }
  }

  /** On valid texts the order is the order of code points. */
  lemma LessIsCodePointBefore(a: Text, b: Text)
    requires Valid(a) && Valid(b)
    ensures Less(a, b) <==> CodePointBefore(a, b)
  {
    hide Less;
    var i := Agreement(a, b);
    LessBehind(a, b, i);
    if i < |a| && i < |b| {
      assert DiffersFirstAt(a, b, i);
      LessAtHead(a[i..], b[i..]);
      assert a[i] in a && b[i] in b;
      if |a| < |b| {
        assert b[..|a|][i] == b[i];
      }
      forall k: nat | DiffersFirstAt(a, b, k) ensures k == i {
        OneFirstDifference(a, b, i, k);
      }
    } else {
      LessAtEnd(a[i..], b[i..]);
      AgreeBelow(a, b, i);
      assert a[..|a|] == a && b[..|b|] == b;
    }
  }

  lemma LessAtHead(a: Text, b: Text)
    requires a != [] && b != [] && a[0] != b[0] && a[0].Rune? && b[0].Rune?
    ensures Less(a, b) <==> a[0].r as int < b[0].r as int
  {
  }

  lemma LessAtEnd(a: Text, b: Text)
    requires a == [] || b == []
    ensures Less(a, b) <==> b != []
  {
  }

  lemma OneFirstDifference(a: Text, b: Text, i: nat, k: nat)
    requires DiffersFirstAt(a, b, i) && DiffersFirstAt(a, b, k)
    ensures k == i
  {
    AgreeBelow(a, b, i);
    AgreeBelow(a, b, k);
  }

  lemma AgreeBelow<T>(a: seq<T>, b: seq<T>, i: nat)
    requires i <= |a| && i <= |b| && a[..i] == b[..i]
    ensures forall k :: 0 <= k < i ==> a[k] == b[k]
  {
    forall k | 0 <= k < i ensures a[k] == b[k] {
      assert a[k] == a[..i][k] && b[k] == b[..i][k];
    }
  }

  // ---- the bytes sort.Strings compares ----

  /** The UTF-8 bytes of a rune. */
  function Utf8(r: char): (bytes: seq<nat>)
    ensures 1 <= |bytes|
  {
    var c := r as int;
    if c < 0x80 then [c]
    else if c < 0x800 then [0xC0 + c / 0x40, 0x80 + c % 0x40]
    else if c < 0x1_0000 then [0xE0 + c / 0x1000, 0x80 + c / 0x40 % 0x40, 0x80 + c % 0x40]
    else [0xF0 + c / 0x4_0000, 0x80 + c / 0x1000 % 0x40, 0x80 + c / 0x40 % 0x40, 0x80 + c % 0x40]
  }

  function Bytes(t: Text): (bytes: seq<nat>)
    requires Valid(t)
    ensures |bytes| >= |t|
  {
    if t == [] then [] else Utf8(t[0].r) + Bytes(t[1..])
  }

  /** x before y byte by byte. */
  ghost predicate BytesBefore(x: seq<nat>, y: seq<nat>) {
    || (|x| < |y| && y[..|x|] == x)
    || exists i: nat :: SmallerFirstAt(x, y, i)
  }

  ghost predicate SmallerFirstAt(x: seq<nat>, y: seq<nat>, i: nat) {
    i < |x| && i < |y| && x[..i] == y[..i] && x[i] < y[i]
  }

  lemma RuneOrder(r: char, q: char) returns (i: nat)
    requires r < q
    ensures SmallerFirstAt(Utf8(r), Utf8(q), i)
  {
    var x, y := Utf8(r), Utf8(q);
    if x[0] < y[0] {
      return 0;
    }
    SameLead(r, q);
    assert x[..1] == [x[0]] && y[..1] == [y[0]];
    if x[1] < y[1] {
      return 1;
    }
    assert x[..2] == [x[0], x[1]] && y[..2] == [y[0], y[1]];
    if x[2] < y[2] {
      return 2;
    }
    assert x[..3] == [x[0], x[1], x[2]] && y[..3] == [y[0], y[1], y[2]];
    return 3;
  }

  /** Runes with one lead byte have encodings of one length, which compare as numerals do. */
  lemma SameLead(r: char, q: char)
    requires r < q && Utf8(r)[0] >= Utf8(q)[0]
    ensures var x, y := Utf8(r), Utf8(q);
            && x[0] == y[0] && |x| == |y| && 2 <= |x| <= 4
            && (x[1] < y[1] || (x[1] == y[1] && 3 <= |x|
                 && (x[2] < y[2] || (x[2] == y[2] && 4 == |x| && x[3] < y[3]))))
  {
    hide Utf8;
    Lead(r);
    Lead(q);
    Digits(r as int);
    Digits(q as int);
    Spelled(r);
    Spelled(q);
  }

  /** The lead byte tells the length. */
  lemma Lead(r: char)
    ensures var x := Utf8(r);
            && (|x| == 1 <==> x[0] < 0x80) && (|x| == 2 <==> 0xC0 <= x[0] < 0xE0)
            && (|x| == 3 <==> 0xE0 <= x[0] < 0xF0) && (|x| == 4 <==> 0xF0 <= x[0]) && |x| <= 4
  {
  }

  lemma Spelled(r: char)
    ensures var x, c := Utf8(r), r as int;
            && (|x| == 1 ==> c == x[0])
            && (|x| == 2 ==> x[0] == 0xC0 + c / 0x40 && x[1] == 0x80 + c % 0x40)
            && (|x| == 3 ==> x[0] == 0xE0 + c / 0x1000 && x[1] == 0x80 + c / 0x40 % 0x40 && x[2] == 0x80 + c % 0x40)
            && (|x| == 4 ==> x[0] == 0xF0 + c / 0x4_0000 && x[1] == 0x80 + c / 0x1000 % 0x40
                             && x[2] == 0x80 + c / 0x40 % 0x40 && x[3] == 0x80 + c % 0x40)
            && (|x| == 1 <==> c < 0x80) && (|x| == 2 <==> 0x80 <= c < 0x800)
            && (|x| == 3 <==> 0x800 <= c < 0x1_0000) && (|x| == 4 <==> 0x1_0000 <= c)
  {
  }

  /** A number in base 64. */
  lemma Digits(c: nat)
    ensures c == 0x40 * (c / 0x40) + c % 0x40
    ensures c / 0x40 == 0x40 * (c / 0x1000) + c / 0x40 % 0x40
    ensures c / 0x1000 == 0x40 * (c / 0x4_0000) + c / 0x1000 % 0x40
  {
    assert c / 0x40 / 0x40 == c / 0x1000;
    assert c / 0x1000 / 0x40 == c / 0x4_0000;
  }

  lemma {:induction false} BytesConcat(s: Text, t: Text)
    requires Valid(s) && Valid(t)
    ensures Valid(s + t) && Bytes(s + t) == Bytes(s) + Bytes(t)
  {
    if s == [] {
      assert s + t == t;
    } else {
      assert (s + t)[1..] == s[1..] + t;
      BytesConcat(s[1..], t);
    }
  }

  lemma BytesHead(u: Text)
    requires Valid(u) && u != []
    ensures u[0] in u && Bytes(u) == Utf8(u[0].r) + Bytes(u[1..])
  {
  }

  lemma BytesAt(t: Text, i: nat)
    requires Valid(t) && i < |t|
    ensures t[i].Rune? && Valid(t[..i]) && Valid(t[i + 1..])
    ensures Bytes(t) == Bytes(t[..i]) + Utf8(t[i].r) + Bytes(t[i + 1..])
  {
    hide Utf8, Bytes;
    var u := t[i..];
    assert t == t[..i] + u && u[1..] == t[i + 1..] && u[0] == t[i];
    Parts(t, i);
    BytesConcat(t[..i], u);
    BytesHead(u);
    Regroup(Bytes(t[..i]), Utf8(t[i].r), Bytes(t[i + 1..]));
  }

  lemma Regroup(p: seq<nat>, x: seq<nat>, u: seq<nat>)
    ensures p + (x + u) == p + x + u
  {
  }

  lemma Parts(t: Text, i: nat)
    requires Valid(t) && i < |t|
    ensures t[i].Rune? && Valid(t[..i]) && Valid(t[i..]) && Valid(t[i + 1..])
  {
    assert t[i] in t;
  }

  lemma SmallerInside(p: seq<nat>, x: seq<nat>, y: seq<nat>, i: nat, u: seq<nat>, v: seq<nat>)
    requires SmallerFirstAt(x, y, i)
    ensures SmallerFirstAt(p + x + u, p + y + v, |p| + i)
  {
    assert (p + x + u)[..|p| + i] == p + x[..i];
    assert (p + y + v)[..|p| + i] == p + y[..i];
  }

  lemma CodePointsThenBytes(a: Text, b: Text)
    requires Valid(a) && Valid(b) && CodePointBefore(a, b)
    ensures BytesBefore(Bytes(a), Bytes(b))
  {
    hide Bytes, Utf8;
    if |a| < |b| && b[..|a|] == a {
      assert b == a + b[|a|..];
      BytesConcat(a, b[|a|..]);
      assert Bytes(b)[..|Bytes(a)|] == Bytes(a);
    } else {
      var i: nat :| DiffersFirstAt(a, b, i) && CodePoint(a, i) < CodePoint(b, i);
      BytesAt(a, i);
      BytesAt(b, i);
      var k := RuneOrder(a[i].r, b[i].r);
      SmallerInside(Bytes(a[..i]), Utf8(a[i].r), Utf8(b[i].r), k, Bytes(a[i + 1..]), Bytes(b[i + 1..]));
    }
  }

  /** Where the comparison ends: past the end of x, or at a smaller byte of x. */
  ghost predicate EndsAt(x: seq<nat>, y: seq<nat>, i: nat) {
    i <= |x| && i < |y| && x[..i] == y[..i] && (i == |x| || x[i] < y[i])
  }

  lemma End(x: seq<nat>, y: seq<nat>) returns (i: nat)
    requires BytesBefore(x, y)
    ensures EndsAt(x, y, i)
  {
    if |x| < |y| && y[..|x|] == x {
      i := |x|;
      assert x[..i] == x;
    } else {
      i :| SmallerFirstAt(x, y, i);
    }
  }

  lemma EndsMeet(x: seq<nat>, y: seq<nat>, k: nat, l: nat)
    requires EndsAt(x, y, k)
    ensures !EndsAt(y, x, l)
  {
    AgreeBelow(x, y, k);
    if EndsAt(y, x, l) {
      AgreeBelow(y, x, l);
    }
  }

  lemma BytesAsymmetric(x: seq<nat>, y: seq<nat>)
    ensures !(BytesBefore(x, y) && BytesBefore(y, x))
    ensures !BytesBefore(x, x)
  {
    if BytesBefore(x, y) {
      var k := End(x, y);
      if BytesBefore(y, x) {
        var l := End(y, x);
        EndsMeet(x, y, k, l);
      }
    }
  }

  /** On valid texts this is the byte order sort.Strings sorts by. */
  lemma LessIsByteOrder(a: Text, b: Text)
    requires Valid(a) && Valid(b)
    ensures Less(a, b) <==> BytesBefore(Bytes(a), Bytes(b))
  {
    hide Less, Bytes, CodePointBefore, BytesBefore;
    LessTotal(a, b);
    LessIsCodePointBefore(a, b);
    LessIsCodePointBefore(b, a);
    BytesAsymmetric(Bytes(a), Bytes(b));
    if Less(a, b) {
      CodePointsThenBytes(a, b);
    } else if Less(b, a) {
      CodePointsThenBytes(b, a);
    }
  }

  predicate Sorted(ks: seq<Text>) {
    forall i, j :: 0 <= i < j < |ks| ==> Less(ks[i], ks[j])
  }

  function Elements(ks: seq<Text>): set<Text> {
    set k | k in ks
  }

  function Insert(k: Text, ks: seq<Text>): (r: seq<Text>)
    requires Sorted(ks) && k !in ks
    ensures Sorted(r)
    ensures forall x :: x in r <==> x == k || x in ks
  {
    if ks == [] then [k]
    else if Less(k, ks[0]) then
      assert forall j :: 0 <= j < |ks| ==> Less(k, ks[j]) by {
        forall j | 0 < j < |ks| ensures Less(k, ks[j]) {
          LessTransitive(k, ks[0], ks[j]);
        }
      }
      [k] + ks
    else
      assert ks[0] in ks;
      LessTotal(k, ks[0]);
      var tail := Insert(k, ks[1..]);
      assert forall x | x in tail :: Less(ks[0], x);
      assert ks == [ks[0]] + ks[1..];
      [ks[0]] + tail
  }

  /** A sorted list is determined by its elements, so the order a map is walked in cannot show. */
  lemma {:induction false} SortedUnique(a: seq<Text>, b: seq<Text>)
    requires Sorted(a) && Sorted(b)
    requires forall x :: x in a <==> x in b
    ensures a == b
  {
    assert |b| > 0 ==> b[0] in b;
    if a != [] {
      assert a[0] in a;
      LessTotal(a[0], b[0]);
      assert a == [a[0]] + a[1..] && b == [b[0]] + b[1..];
      LessTotal(a[0], a[0]);
      forall x ensures x in a[1..] <==> x in b[1..] {
        if x in a[1..] { assert x in a; assert Less(a[0], x); assert x in b; }
        if x in b[1..] { assert x in b; assert Less(b[0], x); assert x in a; }
      }
      SortedUnique(a[1..], b[1..]);
    }
  }

  lemma {:induction false} SortedExists(keys: set<Text>) returns (ks: seq<Text>)
    ensures Sorted(ks) && forall x :: x in ks <==> x in keys
  {
    if keys == {} {
      ks := [];
    } else {
      var k :| k in keys;
      var rest := SortedExists(keys - {k});
      ks := Insert(k, rest);
    }
  }

  /** The keys of a map in increasing order. */
  ghost function SortedKeys(keys: set<Text>): (ks: seq<Text>)
    ensures Sorted(ks) && forall x :: x in ks <==> x in keys
  {
    assert exists s: seq<Text> :: Sorted(s) && forall x :: x in s <==> x in keys by {
      var s := SortedExists(keys);
    }
    var s: seq<Text> :| Sorted(s) && forall x :: x in s <==> x in keys;
    s
  }

  /** Each valid text comes before the valid texts behind it, by code points and by bytes. */
  ghost predicate InOrder(ks: seq<Text>) {
    forall i, j :: 0 <= i < j < |ks| && Valid(ks[i]) && Valid(ks[j]) ==>
      CodePointBefore(ks[i], ks[j]) && BytesBefore(Bytes(ks[i]), Bytes(ks[j]))
  }

  lemma SortedInOrder(ks: seq<Text>)
    requires Sorted(ks)
    ensures InOrder(ks)
  {
    hide Less, Bytes, CodePointBefore, BytesBefore;
    forall i, j | 0 <= i < j < |ks| && Valid(ks[i]) && Valid(ks[j])
      ensures CodePointBefore(ks[i], ks[j]) && BytesBefore(Bytes(ks[i]), Bytes(ks[j]))
    {
      LessIsCodePointBefore(ks[i], ks[j]);
      LessIsByteOrder(ks[i], ks[j]);
    }
  }

  /** sort.Strings on a list without repetitions. */
  method SortStrings(keys: seq<Text>) returns (sorted: seq<Text>)
    requires forall i, j :: 0 <= i < j < |keys| ==> keys[i] != keys[j]
    ensures sorted == SortedKeys(Elements(keys))
    ensures InOrder(sorted) && forall x :: x in sorted <==> x in keys
  {
    sorted := [];
    for i := 0 to |keys|
      invariant Sorted(sorted)
      invariant forall x :: x in sorted <==> x in keys[..i]
    {
      sorted := Insert(keys[i], sorted);
      assert keys[..i + 1] == keys[..i] + [keys[i]];
    }
    assert keys[..|keys|] == keys;
    SortedUnique(sorted, SortedKeys(Elements(keys)));
    SortedInOrder(sorted);
  }
}
