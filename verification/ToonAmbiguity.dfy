/**
 * Keys under which text is ambiguous. A bare key may hold a bracket, so a key such as `a[0]` over an empty
 * map prints what the key `a` over an empty list prints; this happens exactly for keys of that form. And a
 * bare key may hold the start of a field list, so two tables can print the same.
 */
module ToonAmbiguity {
  import opened Numerals
  import opened ToonText
  import opened ToonOrder
  import opened ToonEncode
  import opened ToonDecode
  import opened ToonRoundTrip
  import opened ToonCollisions

  /** Some other value prints the same text. */
  ghost predicate Ambiguous(g: GoLib, v: Value)
    requires !v.Other?
  {
    exists w :: Proper(g, w) && w != v && Encoded(g, w) == Encoded(g, v)
  }

  /** A bare key that is an empty-list header: `[0]`, or a shorter bare key followed by it. */
  ghost predicate EndsInEmptyBrackets(g: GoLib, k: Text) {
    k != [] && !NeedsQuote(g, k) && exists p :: BracketSplit(g, k, p)
  }

  ghost predicate BracketSplit(g: GoLib, k: Text, p: string)
    requires Valid(k)
  {
    Raw(k) == p + "[0]" && (p == "" || !NeedsQuote(g, Lift(p)))
  }

  ghost function Singleton(k: Text, v: Value): Value {
    Map(map[k := v])
  }

  lemma SingletonNodes(g: GoLib, k: Text, v: Value)
    ensures RootNodes(g, Singleton(k, v)) == [Node(QuoteIfNeeded(g, k), v)]
  {
    var keys := SortedKeys(Singleton(k, v).m.Keys);
    NoRepeats(keys, {k});
    assert keys[0] in keys;
  }

  lemma EmptyNodes(g: GoLib, v: Value)
    requires v == Map(map[]) || v == List([])
    ensures Keyed(v) && Children(g, v) == []
  {
    if v.Map? {
      var keys := SortedKeys(v.m.Keys);
      NoRepeats(keys, {});
    }
  }

  /** Two values of one entry each share their text when the entries are alike. */
  lemma OneEntryEach(g: GoLib, v: Value, a: Node, w: Value, b: Node)
    requires g.Lawful() && Proper(g, v) && Proper(g, w) && Container(v) && Container(w) && v != w
    requires RootNodes(g, v) == [a] && RootNodes(g, w) == [b] && Alike(g, a, b)
    ensures Ambiguous(g, w)
  {
    hide Encoded, Alike, RootNodes;
    SameTextIffAlike(g, v, w);
  }

  /** The empty list, at the top or under a bare key. */
  ghost function EmptyListUnder(p: string): Value {
    if p == "" then List([]) else Singleton(Lift(p), List([]))
  }

  lemma EmptyListNode(g: GoLib, p: string)
    requires p == "" || !NeedsQuote(g, Lift(p))
    ensures RootNodes(g, EmptyListUnder(p)) == [Node(p, List([]))]
    ensures Proper(g, EmptyListUnder(p))
  {
    if p != "" {
      RawLift(p);
      SingletonNodes(g, Lift(p), List([]));
    }
  }

  lemma EmptiesMeet(g: GoLib, k: string, p: string)
    requires k == p + "[0]"
    ensures Alike(g, Node(p, List([])), Node(k, Map(map[])))
  {
    EmptyNodes(g, Map(map[]));
    EmptyNodes(g, List([]));
    assert Decimal(0) == "0";
    assert p + "[" + "0" + "]" == p + "[0]";
  }

  lemma Collides(g: GoLib, k: Text)
    requires g.Lawful() && EndsInEmptyBrackets(g, k)
    ensures Ambiguous(g, Singleton(k, Map(map[])))
  {
    hide Ambiguous, RootNodes, Alike;
    var p :| BracketSplit(g, k, p);
    var v := Singleton(k, Map(map[]));
    var w := EmptyListUnder(p);
    SingletonNodes(g, k, Map(map[]));
    EmptyListNode(g, p);
    EmptiesMeet(g, Raw(k), p);
    assert v.m[k] == Map(map[]);
    assert w.Map? ==> w.m[Lift(p)] == List([]);
    OneEntryEach(g, w, Node(p, List([])), v, Node(Raw(k), Map(map[])));
  }

  /** Another value printing one `key:` line can only be an empty list under the shorter key. */
  lemma CollisionIsBracket(g: GoLib, k: Text, w: Value)
    requires g.Lawful() && Proper(g, w)
    requires w != Singleton(k, Map(map[])) && Encoded(g, w) == Encoded(g, Singleton(k, Map(map[])))
    ensures EndsInEmptyBrackets(g, k)
  {
    var v := Singleton(k, Map(map[]));
    hide Encoded, EndsInEmptyBrackets;
    SameTextIffAlike(g, v, w);
    SingletonNodes(g, k, Map(map[]));
    EmptyNodes(g, Map(map[]));
    var n := RootNodes(g, w)[0];
    assert RootNodes(g, w) == [n] && Alike(g, Node(QuoteIfNeeded(g, k), Map(map[])), n);
    if w.List? {
      BracketKey(g, k, "");
    } else {
      var k' := LoneKey(g, w);
      if w.m[k'].Map? {
        EmptyMapIs(g, w.m[k']);
        SafeKeyInjective(g, k', k);
      } else {
        BracketKey(g, k, QuoteIfNeeded(g, k'));
        BareFront(g, k, k');
      }
    }
  }

  /** The key of a map that prints one entry. */
  lemma LoneKey(g: GoLib, w: Value) returns (k: Text)
    requires w.Map? && |RootNodes(g, w)| == 1
    ensures k in w.m && w == Singleton(k, w.m[k]) && RootNodes(g, w)[0] == Node(QuoteIfNeeded(g, k), w.m[k])
  {
    var keys := SortedKeys(w.m.Keys);
    k := keys[0];
    assert keys == [k] && k in keys;
    assert w.m == map[k := w.m[k]];
  }

  lemma EmptyMapIs(g: GoLib, v: Value)
    requires v.Map? && Children(g, v) == []
    ensures v == Map(map[])
  {
    assert SortedKeys(v.m.Keys) == [];
    assert v.m.Keys == {};
  }

  /** A printed key that ends in a bracket is bare. */
  lemma BracketKey(g: GoLib, k: Text, front: string)
    requires g.Lawful() && QuoteIfNeeded(g, k) == front + "[" + Decimal(0) + "]"
    ensures k != [] && !NeedsQuote(g, k) && Raw(k) == front + "[0]"
    ensures front == "" ==> EndsInEmptyBrackets(g, k)
  {
    var t := QuoteIfNeeded(g, k);
    assert Decimal(0) == "0";
    assert t == front + "[0]";
    assert t[|t| - 1] == ']';
    if front == "" {
      assert BracketSplit(g, k, front);
    }
  }

  /** What stands before the brackets of a bare key is itself printed bare. */
  lemma BareFront(g: GoLib, k: Text, k': Text)
    requires g.Lawful() && k != [] && !NeedsQuote(g, k) && Raw(k) == QuoteIfNeeded(g, k') + "[0]"
    ensures EndsInEmptyBrackets(g, k)
  {
    PlainChars(g, k);
    var p := QuoteIfNeeded(g, k');
    StringTokenText(g, k');
    assert Raw(k)[0] == p[0];
    LiftRaw(k');
    assert BracketSplit(g, k, p);
  }

  /** A map with the single key k over an empty map shares its text iff k ends in empty brackets. */
  lemma EmptyBlockAmbiguity(g: GoLib, k: Text)
    requires g.Lawful()
    ensures Ambiguous(g, Singleton(k, Map(map[]))) <==> EndsInEmptyBrackets(g, k)
  {
    var v := Singleton(k, Map(map[]));
    if Ambiguous(g, v) {
      var w :| Proper(g, w) && w != v && Encoded(g, w) == Encoded(g, v);
      CollisionIsBracket(g, k, w);
    }
    if EndsInEmptyBrackets(g, k) {
      Collides(g, k);
    }
  }

  // ---- tables ----

  ghost function OneRow(f: string, x: Value): Value {
    List([Map(map[Lift(f) := x])])
  }

  lemma OneRowTable(g: GoLib, key: string, f: string, x: Value)
    requires Printable(g, x) && f != "" && !NeedsQuote(g, Lift(f))
    ensures var items := OneRow(f, x).items;
            var fields := SortedKeys(items[0].m.Keys);
            && UniformTable(items) && Proper(g, OneRow(f, x))
            && HasFields(items[0].m, fields) && Values(items[0].m, fields) == [x]
            && TableHeader(key, 1, QuotedAll(g, fields)) == key + TableMark(1) + (f + "}:")
  {
    var m := map[Lift(f) := x];
    assert OneRow(f, x).items == [Map(m)] && m.Keys == {Lift(f)};
    var fields := SortedKeys(m.Keys);
    NoRepeats(fields, {Lift(f)});
    assert fields[0] in fields;
    assert fields == [Lift(f)];
    RawLift(f);
    assert QuotedAll(g, fields) == [f] && Join([f]) == f;
    HeaderParts(key, 1, [f]);
    assert Values(m, fields) == [m[Lift(f)]] + Values(m, fields[1..]);
  }

  /**
   * Two one-row tables under different keys that print the same: the brackets stand in the key of the one and
   * in the field of the other.
   */
  lemma TableCollides(g: GoLib, p: string, q: string, f: string, x: Value)
    requires g.Lawful() && Printable(g, x) && p != "" && f != ""
    requires !NeedsQuote(g, Lift(p)) && !NeedsQuote(g, Lift(p + TableMark(1) + q))
    requires !NeedsQuote(g, Lift(f)) && !NeedsQuote(g, Lift(q + TableMark(1) + f))
    ensures Ambiguous(g, Singleton(Lift(p), OneRow(q + TableMark(1) + f, x)))
  {
    hide Ambiguous, RootNodes, NeedsQuote, Alike, OneRow, UniformTable, Proper;
    var k, f' := p + TableMark(1) + q, q + TableMark(1) + f;
    var x', x'' := OneRow(f', x), OneRow(f, x);
    RawLift(p);
    RawLift(k);
    SingletonNodes(g, Lift(p), x');
    SingletonNodes(g, Lift(k), x'');
    assert p + TableMark(1) + f' == k + TableMark(1) + f;
    TablesMeet(g, p, f', k, f, x);
    SingletonProper(g, Lift(p), f', x);
    SingletonProper(g, Lift(k), f, x);
    assert |Lift(p)| < |Lift(k)|;
    DistinctSingletons(Lift(p), x', Lift(k), x'');
    OneEntryEach(g, Singleton(Lift(k), x''), Node(k, x''), Singleton(Lift(p), x'), Node(p, x'));
  }

  lemma SingletonProper(g: GoLib, k: Text, f: string, x: Value)
    requires Printable(g, x)
    ensures Proper(g, Singleton(k, OneRow(f, x)))
  {
    assert Proper(g, Map(map[Lift(f) := x]));
    assert Proper(g, OneRow(f, x));
  }

  lemma DistinctSingletons(k: Text, x: Value, k': Text, x': Value)
    requires k != k'
    ensures Singleton(k, x) != Singleton(k', x')
  {
    assert k in map[k := x] && k !in map[k' := x'];
  }

  lemma TablesMeet(g: GoLib, p: string, f': string, k: string, f: string, x: Value)
    requires Printable(g, x) && f != "" && f' != "" && !NeedsQuote(g, Lift(f)) && !NeedsQuote(g, Lift(f'))
    requires p + TableMark(1) + f' == k + TableMark(1) + f
    ensures Alike(g, Node(k, OneRow(f, x)), Node(p, OneRow(f', x)))
  {
    hide TableMark, TableHeader, NeedsQuote;
    OneRowTable(g, p, f', x);
    OneRowTable(g, k, f, x);
    assert p + TableMark(1) + (f' + "}:") == p + TableMark(1) + f' + "}:";
    assert k + TableMark(1) + (f + "}:") == k + TableMark(1) + f + "}:";
  }
}
