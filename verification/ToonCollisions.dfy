/**
 * When two values print the same text. Keys are not quoted for their brackets, so a header can be read in
 * more than one way; `Alike` says in terms of the values exactly when that happens.
 */
module ToonCollisions {
  import opened Numerals
  import opened ToonText
  import opened ToonOrder
  import opened ToonEncode
  import opened ToonDecode
  import opened ToonRoundTrip

  /** A printed key, empty for a list at the top level, and the value under it. */
  datatype Node = Node(key: string, value: Value)

  ghost predicate Printed(g: GoLib, n: Node) {
    Proper(g, n.value) && PrintedKey(g, n.key) && (IsScalar(n.value) ==> n.key != "")
  }

  ghost function NodeLines(g: GoLib, n: Node, d: nat): (ls: seq<Line>)
    requires !n.value.Other?
  {
    if n.value.Map? then
      [Line(d, BlockLine(n.key))] + EntriesLines(g, n.value, SortedKeys(n.value.m.Keys), d + 1)
    else if n.value.List? then SliceLines(g, n.key, n.value, d)
    else [Line(d, ScalarLine(n.key, ScalarText(g, n.value)))]
  }

  ghost predicate AllPrinted(g: GoLib, ns: seq<Node>) {
    forall i | 0 <= i < |ns| :: Printed(g, ns[i])
  }

  ghost function NodesLines(g: GoLib, ns: seq<Node>, d: nat): seq<Line>
    requires AllPrinted(g, ns)
  {
    if ns == [] then [] else NodeLines(g, ns[0], d) + NodesLines(g, ns[1..], d)
  }

  /** A list printed as a table or as bare scalars. */
  ghost predicate Flat(v: Value) {
    v.List? && (UniformTable(v.items) || (AllScalar(v.items) && v.items != []))
  }

  /** Everything that is printed as a header and keyed entries below it. */
  ghost predicate Keyed(v: Value) {
    Container(v) && !Flat(v)
  }

  function Head(n: Node): string {
    if n.value.List? then n.key + "[" + Decimal(|n.value.items|) + "]" else n.key
  }

  ghost function KeyNodes(g: GoLib, v: Value, keys: seq<Text>): (ns: seq<Node>)
    requires v.Map? && forall k | k in keys :: k in v.m
    ensures |ns| == |keys|
    ensures forall i | 0 <= i < |keys| :: ns[i] == Node(QuoteIfNeeded(g, keys[i]), v.m[keys[i]])
  {
    if keys == [] then []
    else
      assert keys[0] in keys;
      [Node(QuoteIfNeeded(g, keys[0]), v.m[keys[0]])] + KeyNodes(g, v, keys[1..])
  }

  ghost function ItemNodes(g: GoLib, v: Value, i: nat): (ns: seq<Node>)
    requires v.List? && i <= |v.items|
    ensures |ns| == |v.items| - i
    ensures forall j | 0 <= j < |ns| :: ns[j] == Node(QuoteIfNeeded(g, Lift(Decimal(i + j))), v.items[i + j])
    decreases |v.items| - i
  {
    if i == |v.items| then []
    else [Node(QuoteIfNeeded(g, Lift(Decimal(i))), v.items[i])] + ItemNodes(g, v, i + 1)
  }

  /** The entries below a header. */
  ghost function Children(g: GoLib, v: Value): (ns: seq<Node>)
    requires Container(v)
    ensures forall i | 0 <= i < |ns| :: ns[i].value < v
  {
    if v.Map? then KeyNodes(g, v, SortedKeys(v.m.Keys)) else ItemNodes(g, v, 0)
  }

  /** Two lists printed flat, with equal lines: tables may differ in where the key ends and the fields begin. */
  ghost predicate FlatAlike(g: GoLib, a: Node, b: Node)
    requires a.value.List? && b.value.List?
  {
    var items, items' := a.value.items, b.value.items;
    if UniformTable(items) && UniformTable(items') then
      var fields, fields' := SortedKeys(items[0].m.Keys), SortedKeys(items'[0].m.Keys);
      && TableHeader(a.key, |items|, QuotedAll(g, fields)) == TableHeader(b.key, |items'|, QuotedAll(g, fields'))
      && SameCells(items, fields, items', fields')
    else
      !UniformTable(items) && !UniformTable(items') && a == b
  }

  ghost predicate SameCells(items: seq<Value>, fields: seq<Text>, items': seq<Value>, fields': seq<Text>) {
    && |items| == |items'| && Tabular(items, fields) && Tabular(items', fields')
    && forall i | 0 <= i < |items| :: Values(items[i].m, fields) == Values(items'[i].m, fields')
  }

  /**
   * Two entries that print the same lines: equal scalars under one key, flat lists as above, and otherwise
   * headers that read the same above entries that are alike one by one. A map and a list can be alike.
   */
  ghost predicate Alike(g: GoLib, a: Node, b: Node)
    decreases a.value
  {
    if !Container(a.value) || !Container(b.value) then a == b
    else if Flat(a.value) || Flat(b.value) then a.value.List? && b.value.List? && FlatAlike(g, a, b)
    else
      var xs, ys := Children(g, a.value), Children(g, b.value);
      && Head(a) == Head(b) && |xs| == |ys|
      && forall i | 0 <= i < |xs| :: Alike(g, xs[i], ys[i])
  }

  // ---- entries as nodes ----

  lemma EntryNode(g: GoLib, key: Text, v: Value, d: nat)
    requires g.Lawful() && Proper(g, v)
    ensures Printed(g, Node(QuoteIfNeeded(g, key), v))
    ensures NodeLines(g, Node(QuoteIfNeeded(g, key), v), d) == EntryLines(g, key, v, d)
  {
    hide QuoteIfNeeded;
    StringTokenText(g, key);
  }

  lemma {:induction false} EntriesAsNodes(g: GoLib, v: Value, keys: seq<Text>, d: nat)
    requires g.Lawful() && Proper(g, v) && v.Map? && forall k | k in keys :: k in v.m
    ensures AllPrinted(g, KeyNodes(g, v, keys))
    ensures NodesLines(g, KeyNodes(g, v, keys), d) == EntriesLines(g, v, keys, d)
  {
    hide EntryLines, NodeLines, Printed, QuoteIfNeeded;
    if keys != [] {
      assert keys[0] in keys;
      EntryNode(g, keys[0], v.m[keys[0]], d);
      EntriesAsNodes(g, v, keys[1..], d);
    }
  }

  lemma {:induction false} NumberedAsNodes(g: GoLib, v: Value, i: nat, d: nat)
    requires g.Lawful() && Proper(g, v) && v.List? && i <= |v.items|
    ensures AllPrinted(g, ItemNodes(g, v, i))
    ensures NodesLines(g, ItemNodes(g, v, i), d) == NumberedLines(g, v, i, d)
    decreases |v.items| - i
  {
    hide EntryLines, NodeLines, Printed, QuoteIfNeeded;
    if i < |v.items| {
      EntryNode(g, Lift(Decimal(i)), v.items[i], d);
      NumberedAsNodes(g, v, i + 1, d);
    }
  }

  /** A keyed value is its header and, below it, its children. */
  lemma KeyedLines(g: GoLib, n: Node, d: nat)
    requires g.Lawful() && Printed(g, n) && Keyed(n.value)
    ensures AllPrinted(g, Children(g, n.value))
    ensures NodeLines(g, n, d) == [Line(d, Head(n) + ":")] + NodesLines(g, Children(g, n.value), d + 1)
  {
    var v := n.value;
    if v.Map? {
      EntriesAsNodes(g, v, SortedKeys(v.m.Keys), d + 1);
    } else {
      NumberedAsNodes(g, v, 0, d + 1);
      assert SliceHeader(n.key, |v.items|) == Head(n) + ":";
      if v.items == [] {
        assert SliceLines(g, n.key, v, d) == [Line(d, SliceHeader(n.key, 0))] + ItemLines(g, v.items, d + 1);
      }
    }
  }

  /** A node is one line at its depth and everything else below it. */
  lemma NodeShape(g: GoLib, n: Node, d: nat)
    requires Printed(g, n)
    ensures !n.value.Other?
    ensures var ls := NodeLines(g, n, d);
            ls != [] && ls[0].depth == d && AtLeast(ls[1..], d + 1)
  {
    ProperSupported(g, n.value);
    if n.value.Map? {
      EntriesShape(g, n.value, SortedKeys(n.value.m.Keys), d + 1);
      hide EntriesLines;
    } else if n.value.List? {
      SliceShape(g, n.key, n.value, d);
      hide SliceLines;
    }
  }

  lemma NoLonger(a: seq<Line>, r: seq<Line>, b: seq<Line>, q: seq<Line>, d: nat)
    requires a != [] && (r == [] || r[0].depth == d)
    requires b != [] && AtLeast(b[1..], d + 1)
    requires a + r == b + q
    ensures |a| >= |b|
  {
    var ls := b + q;
    forall i | 1 <= i < |b| ensures ls[i].depth > d {
      assert ls[i] == b[1..][i - 1];
    }
    assert |a| < |ls| ==> (a + r)[|a|] == r[0];
  }

  /** Lines split into entries in one way only. */
  lemma SplitUnique(a: seq<Line>, r: seq<Line>, b: seq<Line>, q: seq<Line>, d: nat)
    requires a != [] && a[0].depth == d && AtLeast(a[1..], d + 1) && (r == [] || r[0].depth == d)
    requires b != [] && b[0].depth == d && AtLeast(b[1..], d + 1) && (q == [] || q[0].depth == d)
    requires a + r == b + q
    ensures a == b && r == q
  {
    NoLonger(a, r, b, q, d);
    NoLonger(b, q, a, r, d);
    assert a == (a + r)[..|a|] && b == (b + q)[..|b|];
    assert r == (a + r)[|a|..] && q == (b + q)[|b|..];
  }

  lemma NodesStart(g: GoLib, ns: seq<Node>, d: nat)
    requires AllPrinted(g, ns)
    ensures NodesLines(g, ns, d) == [] <==> ns == []
    ensures ns != [] ==> NodesLines(g, ns, d)[0].depth == d
  {
    hide NodeLines;
    if ns != [] {
      NodeShape(g, ns[0], d);
    }
  }

  // ---- first lines told apart ----

  lemma ContainerHead(g: GoLib, n: Node, d: nat)
    requires Container(n.value)
    ensures EndsHeader(NodeLines(g, n, d)[0].text)
  {
    if n.value.List? {
      SliceHeadEnds(g, n.key, n.value, d);
    }
  }

  lemma SliceHeadEnds(g: GoLib, safeKey: string, v: Value, d: nat)
    requires v.List?
    ensures EndsHeader(SliceLines(g, safeKey, v, d)[0].text)
  {
    if UniformTable(v.items) {
      var cells := QuotedAll(g, SortedKeys(v.items[0].m.Keys));
      assert SliceLines(g, safeKey, v, d)[0].text == TableHeader(safeKey, |v.items|, cells);
    } else {
      assert SliceLines(g, safeKey, v, d)[0].text == SliceHeader(safeKey, |v.items|);
    }
  }

  /** A scalar line gives back its key and its scalar. */
  lemma ScalarLineInjective(g: GoLib, a: Node, b: Node)
    requires g.Lawful() && Printed(g, a) && Printed(g, b) && IsScalar(a.value) && IsScalar(b.value)
    requires ScalarLine(a.key, ScalarText(g, a.value)) == ScalarLine(b.key, ScalarText(g, b.value))
    ensures a == b
  {
    hide ScalarText, QuoteIfNeeded, ScanToken, NeedsQuote, ScalarOf, TokenFor, TextOf;
    var t, t' := ScalarText(g, a.value), ScalarText(g, b.value);
    ScanKey(g, a.key, ": " + t);
    ScanKey(g, b.key, ": " + t');
    assert ScalarLine(a.key, t) == a.key + (": " + t) && ScalarLine(b.key, t') == b.key + (": " + t');
    assert (": " + t)[2..] == t && (": " + t')[2..] == t';
    assert t + "" == t;
    ScanScalar(g, a.value, ':', "");
    ScanScalar(g, b.value, ':', "");
    assert (a.key + (": " + t))[..|a.key|] == a.key;
  }

  lemma ScanKey(g: GoLib, safeKey: string, rest: string)
    requires g.Lawful() && PrintedKey(g, safeKey) && safeKey != "" && rest != "" && rest[0] == ':'
    ensures ScanToken(safeKey + rest, ':').1 == rest
  {
    hide ScanToken;
    var key :| safeKey == QuoteIfNeeded(g, key);
    if key != [] && !NeedsQuote(g, key) {
      PlainChars(g, key);
    }
    ScanStringToken(g, key, ':', rest);
  }

  lemma ScalarHead(g: GoLib, n: Node, d: nat)
    requires g.Lawful() && Printed(g, n) && IsScalar(n.value)
    ensures !EndsHeader(NodeLines(g, n, d)[0].text)
  {
    ScalarTokenText(g, n.value);
    ScalarLineParts(g, n.key, ScalarText(g, n.value));
  }

  // ---- rows ----

  lemma {:induction false} RowTextsOfValues(
    g: GoLib, m: map<Text, Value>, fields: seq<Text>, m': map<Text, Value>, fields': seq<Text>)
    requires HasFields(m, fields) && HasFields(m', fields') && Values(m, fields) == Values(m', fields')
    ensures RowTexts(g, m, fields) == RowTexts(g, m', fields')
  {
    if fields != [] {
      assert fields[0] in fields && fields'[0] in fields';
      assert Values(m, fields)[0] == Values(m', fields')[0];
      assert Values(m, fields)[1..] == Values(m, fields[1..]) && Values(m', fields')[1..] == Values(m', fields'[1..]);
      RowTextsOfValues(g, m, fields[1..], m', fields'[1..]);
    }
  }

  /** Two rows read the same iff they hold the same scalars. */
  lemma SameRow(g: GoLib, v: Value, fields: seq<Text>, w: Value, fields': seq<Text>)
    requires g.Lawful() && Proper(g, v) && Proper(g, w) && v.Map? && w.Map?
    requires HasFields(v.m, fields) && HasFields(w.m, fields')
    ensures Join(RowTexts(g, v.m, fields)) == Join(RowTexts(g, w.m, fields'))
       <==> Values(v.m, fields) == Values(w.m, fields')
  {
    CellsOfRow(g, v.m, fields);
    CellsOfRow(g, w.m, fields');
    if Values(v.m, fields) == Values(w.m, fields') {
      RowTextsOfValues(g, v.m, fields, w.m, fields');
    }
  }

  lemma {:induction false} SameRows(
    g: GoLib, items: seq<Value>, fields: seq<Text>, items': seq<Value>, fields': seq<Text>, d: nat)
    requires g.Lawful() && Tabular(items, fields) && Tabular(items', fields')
    requires Proper(g, List(items)) && Proper(g, List(items'))
    ensures RowLines(g, items, fields, d) == RowLines(g, items', fields', d)
       <==> SameCells(items, fields, items', fields')
  {
    hide Join, Values, RowTexts;
    if items != [] && items' != [] {
      SameRow(g, items[0], fields, items'[0], fields');
      SameRows(g, items[1..], fields, items'[1..], fields', d);
      var first := Line(d, Join(RowTexts(g, items[0].m, fields)));
      var first' := Line(d, Join(RowTexts(g, items'[0].m, fields')));
      ConsEqual(first, RowLines(g, items[1..], fields, d), first', RowLines(g, items'[1..], fields', d));
      assert forall i | 0 < i < |items| :: items[i] == items[1..][i - 1];
      assert forall i | 0 < i < |items'| :: items'[i] == items'[1..][i - 1];
    }
  }

  lemma ConsEqual<T>(x: T, xs: seq<T>, y: T, ys: seq<T>)
    ensures [x] + xs == [y] + ys <==> x == y && xs == ys
  {
    assert ([x] + xs)[0] == x && ([x] + xs)[1..] == xs;
    assert ([y] + ys)[0] == y && ([y] + ys)[1..] == ys;
  }

  lemma {:induction false} SameItems(g: GoLib, items: seq<Value>, items': seq<Value>, d: nat)
    requires g.Lawful() && AllScalar(items) && AllScalar(items')
    requires Proper(g, List(items)) && Proper(g, List(items'))
    ensures ItemLines(g, items, d) == ItemLines(g, items', d) <==> items == items'
  {
    hide ScalarText;
    if items != [] && items' != [] {
      SameScalar(g, items[0], items'[0]);
      SameItems(g, items[1..], items'[1..], d);
      ConsEqual(Line(d, ScalarText(g, items[0])), ItemLines(g, items[1..], d),
                Line(d, ScalarText(g, items'[0])), ItemLines(g, items'[1..], d));
      ConsEqual(items[0], items[1..], items'[0], items'[1..]);
      assert [items[0]] + items[1..] == items && [items'[0]] + items'[1..] == items';
    }
  }

  lemma SameScalar(g: GoLib, v: Value, w: Value)
    requires g.Lawful() && Printable(g, v) && Printable(g, w)
    ensures ScalarText(g, v) == ScalarText(g, w) <==> v == w
  {
    hide ScalarText, ScanToken, ScalarOf;
    assert ScalarText(g, v) + "" == ScalarText(g, v) && ScalarText(g, w) + "" == ScalarText(g, w);
    ScanScalar(g, v, ':', "");
    ScanScalar(g, w, ':', "");
  }

  // ---- a row is no entry ----

  lemma {:induction false} JoinLast(ts: seq<string>)
    requires ts != [] && forall i :: 0 <= i < |ts| ==> TokenText(ts[i])
    ensures Join(ts) != "" && Join(ts)[|Join(ts)| - 1] != ':'
  {
    if |ts| > 1 {
      JoinLast(ts[1..]);
    }
  }

  lemma {:induction false} SpanPast(t: string, stop: char, n: nat)
    requires n < |t| && forall i :: 0 <= i <= n ==> t[i] != stop
    ensures Span(t, stop) > n
  {
    if n > 0 {
      SpanPast(t[1..], stop, n - 1);
    }
  }

  /** A bare cell holds no colon. */
  lemma CellToken(g: GoLib, v: Value, rest: string)
    requires g.Lawful() && Printable(g, v) && (rest == "" || rest[0] == ',')
    ensures var k := ScanToken(ScalarText(g, v) + rest, ',').0;
            k.Plain? ==> ':' !in k.raw
  {
    hide ScanToken, NeedsQuote;
    if v.Str? {
      if v.s != [] && !NeedsQuote(g, v.s) {
        PlainChars(g, v.s);
      }
      ScanStringToken(g, v.s, ',', rest);
    } else {
      if v.Num? {
        NumberChars(g, v.text);
      }
      ScanPlain(ScalarText(g, v), ',', rest);
    }
  }

  /** What the first token of an entry's scalar line is, read up to a comma. */
  lemma KeyToken(g: GoLib, key: Text, text: string)
    requires g.Lawful()
    ensures var (k, rest) := ScanToken(QuoteIfNeeded(g, key) + (": " + text), ',');
            if k.Plain? then ':' in k.raw else rest == ": " + text
  {
    var tail := ": " + text;
    if key == [] || NeedsQuote(g, key) {
      ScanQuote(g, key, ',', tail);
      assert QuoteIfNeeded(g, key) == Quote(g, key);
    } else {
      PlainChars(g, key);
      var t := Raw(key) + tail;
      hide ScanQuoted, NeedsQuote;
      SpanPast(t, ',', |Raw(key)|);
      assert t[..Span(t, ',')][|Raw(key)|] == ':';
    }
  }

  lemma RowIsNoScalarLine(g: GoLib, m: map<Text, Value>, fields: seq<Text>, key: Text, text: string)
    requires g.Lawful() && HasFields(m, fields) && fields != [] && forall f | f in fields :: Printable(g, m[f])
    ensures Join(RowTexts(g, m, fields)) != ScalarLine(QuoteIfNeeded(g, key), text)
  {
    hide ScanToken, Join, ScalarText, QuoteIfNeeded;
    assert fields[0] in fields;
    var v := m[fields[0]];
    var ts := RowTexts(g, m, fields);
    JoinCons(ts);
    CellToken(g, v, JoinRest(ts));
    ScanScalar(g, v, ',', JoinRest(ts));
    KeyToken(g, key, text);
    assert ScalarLine(QuoteIfNeeded(g, key), text) == QuoteIfNeeded(g, key) + (": " + text);
    assert (": " + text)[0] == ':';
  }

  /** A table's rows and keyed entries never read the same. */
  lemma RowIsNoEntry(g: GoLib, v: Value, fields: seq<Text>, n: Node, d: nat)
    requires g.Lawful() && v.Map? && Proper(g, v) && HasFields(v.m, fields) && fields != []
    requires Printed(g, n) && (Container(n.value) || n.key != "")
    ensures Join(RowTexts(g, v.m, fields)) != NodeLines(g, n, d)[0].text
  {
    if Container(n.value) {
      ContainerHead(g, n, d);
      RowTextsClean(g, v.m, fields);
      JoinLast(RowTexts(g, v.m, fields));
    } else {
      var key :| n.key == QuoteIfNeeded(g, key);
      RowIsNoScalarLine(g, v.m, fields, key, ScalarText(g, n.value));
    }
  }

  /** Nor does a bare scalar. */
  lemma ItemIsNoEntry(g: GoLib, v: Value, n: Node, d: nat)
    requires g.Lawful() && Printable(g, v) && Printed(g, n)
    ensures ScalarText(g, v) != NodeLines(g, n, d)[0].text
  {
    if Container(n.value) {
      ContainerHead(g, n, d);
      ScalarTokenText(g, v);
    } else {
      var key :| n.key == QuoteIfNeeded(g, key);
      hide ScanToken, QuoteIfNeeded, ScalarText;
      ScanScalar(g, v, ':', "");
      assert ScalarText(g, v) + "" == ScalarText(g, v);
      KeyedIsNoToken(g, key, ": " + ScalarText(g, n.value));
      assert (": " + ScalarText(g, n.value))[0] == ':';
      assert ScalarLine(n.key, ScalarText(g, n.value)) == n.key + (": " + ScalarText(g, n.value));
    }
  }

  // ---- flat lists ----

  lemma TableLines(g: GoLib, n: Node, d: nat)
    requires Printed(g, n) && n.value.List? && UniformTable(n.value.items)
    ensures var items := n.value.items;
            var fields := SortedKeys(items[0].m.Keys);
            && fields != [] && Tabular(items, fields)
            && NodeLines(g, n, d) ==
               [Line(d, TableHeader(n.key, |items|, QuotedAll(g, fields)))] + RowLines(g, items, fields, d + 1)
  {
    UniformIsTabular(n.value.items, SortedKeys(n.value.items[0].m.Keys));
  }

  lemma ScalarListLines(g: GoLib, n: Node, d: nat)
    requires Printed(g, n) && Flat(n.value) && !UniformTable(n.value.items)
    ensures NodeLines(g, n, d) ==
            [Line(d, SliceHeader(n.key, |n.value.items|))] + ItemLines(g, n.value.items, d + 1)
  {
  }

  lemma SameTables(g: GoLib, a: Node, b: Node, d: nat)
    requires g.Lawful() && Printed(g, a) && Printed(g, b) && a.value.List? && b.value.List?
    requires UniformTable(a.value.items) && UniformTable(b.value.items)
    ensures NodeLines(g, a, d) == NodeLines(g, b, d) <==> FlatAlike(g, a, b)
  {
    hide NodeLines, TableHeader, SameCells, Tabular, QuotedAll;
    var items, items' := a.value.items, b.value.items;
    var fields, fields' := SortedKeys(items[0].m.Keys), SortedKeys(items'[0].m.Keys);
    TableLines(g, a, d);
    TableLines(g, b, d);
    assert a.value == List(items) && b.value == List(items');
    SameRows(g, items, fields, items', fields', d + 1);
    ConsEqual(Line(d, TableHeader(a.key, |items|, QuotedAll(g, fields))), RowLines(g, items, fields, d + 1),
              Line(d, TableHeader(b.key, |items'|, QuotedAll(g, fields'))), RowLines(g, items', fields', d + 1));
  }

  lemma SameScalarLists(g: GoLib, a: Node, b: Node, d: nat)
    requires g.Lawful() && Printed(g, a) && Printed(g, b) && Flat(a.value) && Flat(b.value)
    requires !UniformTable(a.value.items) && !UniformTable(b.value.items)
    ensures NodeLines(g, a, d) == NodeLines(g, b, d) <==> a == b
  {
    hide NodeLines, SliceHeader, ItemLines, UniformTable;
    var items, items' := a.value.items, b.value.items;
    ScalarListLines(g, a, d);
    ScalarListLines(g, b, d);
    assert a.value == List(items) && b.value == List(items');
    SameItems(g, items, items', d + 1);
    ConsEqual(Line(d, SliceHeader(a.key, |items|)), ItemLines(g, items, d + 1),
              Line(d, SliceHeader(b.key, |items'|)), ItemLines(g, items', d + 1));
    SameSliceKey(a.key, b.key, |items|);
  }

  lemma SameSliceKey(a: string, b: string, n: nat)
    ensures SliceHeader(a, n) == SliceHeader(b, n) <==> a == b
  {
    SameFront(a, b, "[" + Decimal(n) + "]:");
    assert SliceHeader(a, n) == a + ("[" + Decimal(n) + "]:") && SliceHeader(b, n) == b + ("[" + Decimal(n) + "]:");
  }

  lemma SameFlat(g: GoLib, a: Node, b: Node, d: nat)
    requires g.Lawful() && Printed(g, a) && Printed(g, b) && Flat(a.value) && Flat(b.value)
    ensures NodeLines(g, a, d) == NodeLines(g, b, d) <==> FlatAlike(g, a, b)
  {
    hide NodeLines, UniformTable;
    if UniformTable(a.value.items) && UniformTable(b.value.items) {
      SameTables(g, a, b, d);
    } else if UniformTable(a.value.items) {
      TableIsNoSlice(g, a, b, d);
    } else if UniformTable(b.value.items) {
      TableIsNoSlice(g, b, a, d);
    } else {
      SameScalarLists(g, a, b, d);
    }
  }

  lemma SameFront(a: string, b: string, tail: string)
    ensures a + tail == b + tail <==> a == b
  {
    if a + tail == b + tail {
      assert a == (a + tail)[..|a|] && b == (b + tail)[..|a|];
    }
  }

  lemma TableIsNoSlice(g: GoLib, a: Node, b: Node, d: nat)
    requires Printed(g, a) && a.value.List? && UniformTable(a.value.items)
    requires Printed(g, b) && Flat(b.value) && !UniformTable(b.value.items)
    ensures NodeLines(g, a, d)[0].text != NodeLines(g, b, d)[0].text
  {
    TableLines(g, a, d);
    ScalarListLines(g, b, d);
    hide NodeLines, UniformTable;
    var t, u := NodeLines(g, a, d)[0].text, NodeLines(g, b, d)[0].text;
    assert t[|t| - 2] == '}' && u[|u| - 2] == ']';
  }

  /** Below the header of a flat list stands a line that is no keyed entry. */
  lemma FlatBelow(g: GoLib, a: Node, n: Node, d: nat)
    requires g.Lawful() && Printed(g, a) && Flat(a.value) && Printed(g, n)
    ensures var ls := NodeLines(g, a, d);
            |ls| > 1 && ls[1].text != NodeLines(g, n, d + 1)[0].text
  {
    hide NodeLines, Join, RowTexts, ScalarText, TableHeader;
    var items := a.value.items;
    assert Proper(g, items[0]);
    if UniformTable(items) {
      TableLines(g, a, d);
      var fields := SortedKeys(items[0].m.Keys);
      assert NodeLines(g, a, d)[1] == RowLines(g, items, fields, d + 1)[0];
      RowIsNoEntry(g, items[0], fields, n, d + 1);
    } else {
      ScalarListLines(g, a, d);
      assert NodeLines(g, a, d)[1] == ItemLines(g, items, d + 1)[0];
      ItemIsNoEntry(g, items[0], n, d + 1);
    }
  }

  /** So it never reads like a keyed value. */
  lemma FlatIsNotKeyed(g: GoLib, a: Node, b: Node, d: nat)
    requires g.Lawful() && Printed(g, a) && Printed(g, b) && Flat(a.value) && Keyed(b.value)
    ensures NodeLines(g, a, d) != NodeLines(g, b, d)
  {
    hide NodeLines, UniformTable, AllScalar;
    KeyedLines(g, b, d);
    FlatBelow(g, a, a, d);
    var below := Children(g, b.value);
    if below != [] {
      FlatBelow(g, a, below[0], d);
      NodeShape(g, below[0], d + 1);
      assert NodesLines(g, below, d + 1)[0] == NodeLines(g, below[0], d + 1)[0];
    }
  }

  // ---- the theorem ----

  /** Two printed entries show the same lines iff they are alike. */
  lemma {:induction false} SameLines(g: GoLib, a: Node, b: Node, d: nat)
    requires g.Lawful() && Printed(g, a) && Printed(g, b)
    ensures NodeLines(g, a, d) == NodeLines(g, b, d) <==> Alike(g, a, b)
    decreases a.value, 1, 0
  {
    hide NodeLines, Head;
    if !Container(a.value) || !Container(b.value) {
      ScalarsAlike(g, a, b, d);
    } else if Flat(a.value) && Flat(b.value) {
      SameFlat(g, a, b, d);
    } else if Flat(a.value) {
      FlatIsNotKeyed(g, a, b, d);
    } else if Flat(b.value) {
      FlatIsNotKeyed(g, b, a, d);
    } else {
      KeyedLines(g, a, d);
      KeyedLines(g, b, d);
      var xs, ys := Children(g, a.value), Children(g, b.value);
      ConsEqual(Line(d, Head(a) + ":"), NodesLines(g, xs, d + 1), Line(d, Head(b) + ":"), NodesLines(g, ys, d + 1));
      SameFront(Head(a), Head(b), ":");
      SameNodes(g, a.value, xs, ys, d + 1);
    }
  }

  lemma ScalarsAlike(g: GoLib, a: Node, b: Node, d: nat)
    requires g.Lawful() && Printed(g, a) && Printed(g, b) && (!Container(a.value) || !Container(b.value))
    ensures NodeLines(g, a, d) == NodeLines(g, b, d) <==> a == b
  {
    if Container(a.value) {
      ContainerHead(g, a, d);
      ScalarHead(g, b, d);
    } else if Container(b.value) {
      ScalarHead(g, a, d);
      ContainerHead(g, b, d);
    } else if NodeLines(g, a, d) == NodeLines(g, b, d) {
      ScalarLineInjective(g, a, b);
    }
  }

  /** Entry by entry, for values below `bound`. */
  lemma {:induction false} SameNodes(g: GoLib, bound: Value, xs: seq<Node>, ys: seq<Node>, d: nat)
    requires g.Lawful() && AllPrinted(g, xs) && AllPrinted(g, ys) && forall i | 0 <= i < |xs| :: xs[i].value < bound
    ensures NodesLines(g, xs, d) == NodesLines(g, ys, d)
       <==> |xs| == |ys| && forall i | 0 <= i < |xs| :: Alike(g, xs[i], ys[i])
    decreases bound, 0, |xs|
  {
    hide NodeLines, Alike, Printed;
    NodesStart(g, xs, d);
    NodesStart(g, ys, d);
    if xs != [] && ys != [] {
      SameLines(g, xs[0], ys[0], d);
      SameNodes(g, bound, xs[1..], ys[1..], d);
      NodeShape(g, xs[0], d);
      NodeShape(g, ys[0], d);
      NodesStart(g, xs[1..], d);
      NodesStart(g, ys[1..], d);
      if NodesLines(g, xs, d) == NodesLines(g, ys, d) {
        SplitUnique(NodeLines(g, xs[0], d), NodesLines(g, xs[1..], d),
                    NodeLines(g, ys[0], d), NodesLines(g, ys[1..], d), d);
      }
      assert forall i | 0 < i < |xs| :: xs[i] == xs[1..][i - 1];
      assert forall i | 0 < i < |ys| :: ys[i] == ys[1..][i - 1];
    }
  }

  // ---- whole texts ----

  ghost function RootNodes(g: GoLib, v: Value): seq<Node>
    requires Container(v)
  {
    if v.Map? then Children(g, v) else [Node("", v)]
  }

  /** Alike as a whole: equal scalars, or alike entry by entry from the top. */
  ghost predicate RootAlike(g: GoLib, v: Value, w: Value) {
    if !Container(v) || !Container(w) then v == w
    else
      var xs, ys := RootNodes(g, v), RootNodes(g, w);
      |xs| == |ys| && forall i | 0 <= i < |xs| :: Alike(g, xs[i], ys[i])
  }

  lemma RootAsNodes(g: GoLib, v: Value)
    requires g.Lawful() && Proper(g, v) && Container(v)
    ensures AllPrinted(g, RootNodes(g, v))
    ensures RootLines(g, v) == NodesLines(g, RootNodes(g, v), 0)
  {
    if v.Map? {
      EntriesAsNodes(g, v, SortedKeys(v.m.Keys), 0);
    } else {
      var ns := [Node("", v)];
      assert ns[1..] == [] && NodesLines(g, [], 0) == [];
    }
  }

  lemma RootText(g: GoLib, v: Value)
    requires g.Lawful() && Proper(g, v) && Container(v)
    ensures RootLines(g, v) == [] ==> Encoded(g, v) == ""
    ensures RootLines(g, v) != [] ==> Encoded(g, v) != "" && LinesOf(Encoded(g, v)) == RootLines(g, v)
  {
    hide RootLines, LinesOf;
    RootClean(g, v);
    if RootLines(g, v) != [] {
      LinesSurvive(RootLines(g, v));
      RenderJoined(RootLines(g, v));
    }
  }

  /** No map or list prints what a scalar prints. */
  lemma ContainerIsNoScalar(g: GoLib, v: Value, w: Value)
    requires g.Lawful() && Proper(g, v) && Container(v) && Printable(g, w)
    ensures Encoded(g, v) != Encoded(g, w)
  {
    hide TokenLine, Encoded, RootLines, Joined;
    ScalarSurvives(g, w);
    if v.List? {
      ListIsNoToken(g, v);
    } else if v.m == map[] {
      EmptyMapSurvives(g, v);
    } else {
      var k := MapHead(g, v);
      RootClean(g, v);
      EncodedIsJoined(g, v);
    }
  }

  lemma EncodedIsJoined(g: GoLib, v: Value)
    requires Container(v) && RootLines(g, v) != [] && Clean(RootLines(g, v))
    ensures Encoded(g, v) == Joined(RootLines(g, v))
  {
    hide RootLines;
    LinesSurvive(RootLines(g, v));
  }

  lemma ListIsNoToken(g: GoLib, v: Value)
    requires g.Lawful() && Proper(g, v) && v.List?
    ensures !TokenLine(Encoded(g, v))
  {
    var ls := RootLines(g, v);
    RootClean(g, v);
    RootListHead(g, v);
    EncodedIsJoined(g, v);
    JoinedStarts(ls);
    hide RootLines, Encoded, Joined, SliceLines;
    var t, head := Joined(ls), ls[0].text;
    assert t[0] == head[0] == '[' && t[|head| - 1] == ':';
    ColonStops(t);
  }

  /** Two values print the same text iff they are alike. */
  lemma SameTextIffAlike(g: GoLib, v: Value, w: Value)
    requires g.Lawful() && Proper(g, v) && Proper(g, w)
    ensures Encoded(g, v) == Encoded(g, w) <==> RootAlike(g, v, w)
  {
    hide Encoded, Alike, RootLines;
    if Container(v) && Container(w) {
      RootText(g, v);
      RootText(g, w);
      RootAsNodes(g, v);
      RootAsNodes(g, w);
      assert List([v]).items[0] == v;
      SameNodes(g, if v.Map? then v else List([v]), RootNodes(g, v), RootNodes(g, w), 0);
      EncodedOfLines(g, v, w);
    } else if Container(v) {
      ContainerIsNoScalar(g, v, w);
    } else if Container(w) {
      ContainerIsNoScalar(g, w, v);
    } else {
      ScalarSurvives(g, v);
      ScalarSurvives(g, w);
      hide Decode;
    }
  }

  lemma EncodedOfLines(g: GoLib, v: Value, w: Value)
    requires Container(v) && Container(w) && !v.Other? && !w.Other?
    ensures RootLines(g, v) == RootLines(g, w) ==> Encoded(g, v) == Encoded(g, w)
  {
    hide RootLines, Render, TrimRight;
  }

  // ---- keys that cannot be misread ----

  /** A printed key that ends like a list header. */
  ghost predicate ReadsAsCount(t: string) {
    exists p, n: nat :: t == p + ("[" + Decimal(n) + "]")
  }

  /** A bare printed key that goes on like a table header. */
  ghost predicate ReadsAsTable(t: string) {
    (t == "" || t[0] != '"') && exists p, n: nat, q :: t == p + TableMark(n) + q
  }

  ghost predicate SafeKey(t: string, v: Value) {
    && (v.Map? ==> !ReadsAsCount(t))
    && (v.List? && UniformTable(v.items) ==> !ReadsAsTable(t))
  }

  /** No key over a map ends in a bracketed count, and no key over a table holds the start of a field list. */
  ghost predicate Harmless(g: GoLib, v: Value) {
    match v
    case Map(m) => forall k | k in m :: Harmless(g, m[k]) && SafeKey(QuoteIfNeeded(g, k), m[k])
    case List(items) => forall i | 0 <= i < |items| :: Harmless(g, items[i])
    case _ => true
  }

  ghost predicate HarmlessNode(g: GoLib, n: Node) {
    Printed(g, n) && Harmless(g, n.value) && SafeKey(n.key, n.value)
  }

  /** Of two readings of one text around a mark, the longer front holds the shorter one and the mark. */
  lemma TwoReadings(a: string, mark: string, more: string, b: string, more': string)
    requires mark != "" && mark[0] == '[' && forall i | 0 < i < |mark| :: mark[i] != '['
    requires |a| < |b| && a + mark + more == b + mark + more'
    ensures |a + mark| <= |b| && b == a + mark + b[|a + mark|..]
  {
    var t := a + mark + more;
    assert t[|b|] == '[' by { assert (b + mark + more')[|b|] == mark[0]; }
    forall i | |a| < i < |a| + |mark| ensures t[i] != '[' {
      assert t[i] == mark[i - |a|];
    }
    assert t[..|b|] == b by { assert t == b + mark + more'; }
    assert t[..|b|][..|a + mark|] == a + mark;
  }

  function TableMark(n: nat): string {
    "[" + Decimal(n) + "]{"
  }

  lemma MarkShape(n: nat)
    ensures var mark := TableMark(n);
            mark != "" && mark[0] == '[' && forall i | 0 < i < |mark| :: mark[i] != '['
  {
    var mark := TableMark(n);
    forall i | 0 < i < |mark| ensures mark[i] != '[' {
      if i <= |Decimal(n)| { DecimalPlain(n, i - 1); }
    }
  }

  /** A quoted key ends where its closing quote stands. */
  lemma QuotedKeysAgree(g: GoLib, a: string, rest: string, b: string, rest': string)
    requires g.Lawful() && PrintedKey(g, a) && PrintedKey(g, b) && b != "" && b[0] == '"'
    requires a + rest == b + rest' && rest != "" && rest[0] != '"'
    ensures |a| == |b|
  {
    assert (a + rest)[0] == b[0];
    var key, key' :| a == QuoteIfNeeded(g, key) && b == QuoteIfNeeded(g, key');
    QuotedKey(g, key);
    QuotedKey(g, key');
    ScanQuote(g, key, ',', rest);
    ScanQuote(g, key', ',', rest');
    hide ScanToken;
    assert |a + rest| == |b + rest'|;
  }

  /** So one table header has one reading unless the longer key reads on as a table. */
  lemma KeyGoesOn(g: GoLib, a: string, n: nat, more: string, b: string, more': string)
    requires g.Lawful() && PrintedKey(g, a) && PrintedKey(g, b) && |a| < |b|
    requires a + TableMark(n) + more == b + TableMark(n) + more'
    ensures ReadsAsTable(b)
  {
    MarkShape(n);
    var mark := TableMark(n);
    hide TableMark, PrintedKey;
    TwoReadings(a, mark, more, b, more');
    assert a + mark + more == a + (mark + more) && b + mark + more' == b + (mark + more');
    if b[0] == '"' {
      QuotedKeysAgree(g, a, mark + more, b, mark + more');
      assert false;
    }
    MarkedKey(a, n, b);
  }

  lemma MarkedKey(a: string, n: nat, b: string)
    requires |a + TableMark(n)| <= |b| && b == a + TableMark(n) + b[|a + TableMark(n)|..] && b[0] != '"'
    ensures ReadsAsTable(b)
  {
    hide Decimal;
  }

  lemma TableKeysAgree(g: GoLib, a: string, n: nat, fields: seq<Text>, b: string, fields': seq<Text>)
    requires g.Lawful() && PrintedKey(g, a) && PrintedKey(g, b) && !ReadsAsTable(a) && !ReadsAsTable(b)
    requires TableHeader(a, n, QuotedAll(g, fields)) == TableHeader(b, n, QuotedAll(g, fields'))
    ensures a == b && fields == fields'
  {
    hide *;
    var cells, cells' := Join(QuotedAll(g, fields)), Join(QuotedAll(g, fields'));
    HeaderParts(a, n, QuotedAll(g, fields));
    HeaderParts(b, n, QuotedAll(g, fields'));
    if |a| < |b| {
      KeyGoesOn(g, a, n, cells + "}:", b, cells' + "}:");
    } else if |b| < |a| {
      KeyGoesOn(g, b, n, cells' + "}:", a, cells + "}:");
    } else {
      var mark := TableMark(n);
      assert a == (a + mark + (cells + "}:"))[..|a|];
      assert b == (b + mark + (cells' + "}:"))[..|b|];
      SameBack(a + mark, cells + "}:", cells' + "}:");
      SameFront(cells, cells', "}:");
      CellsOfKeys(g, fields);
      CellsOfKeys(g, fields');
    }
  }

  lemma HeaderParts(key: string, n: nat, ts: seq<string>)
    ensures TableHeader(key, n, ts) == key + TableMark(n) + (Join(ts) + "}:")
  {
    hide Decimal, Join;
    assert key + "[" + Decimal(n) + "]{" + Join(ts) + "}:" == key + ("[" + Decimal(n) + "]{") + (Join(ts) + "}:");
  }

  lemma SameBack(front: string, a: string, b: string)
    requires front + a == front + b
    ensures a == b
  {
    assert a == (front + a)[|front|..] && b == (front + b)[|front|..];
  }

  lemma QuotedKey(g: GoLib, key: Text)
    requires QuoteIfNeeded(g, key)[..1] == "\""
    ensures QuoteIfNeeded(g, key) == Quote(g, key)
  {
    if key != [] && !NeedsQuote(g, key) {
      PlainChars(g, key);
    }
  }

  lemma {:induction false} SameValuesSameMap(m: map<Text, Value>, m': map<Text, Value>, fields: seq<Text>)
    requires HasFields(m, fields) && HasFields(m', fields) && Values(m, fields) == Values(m', fields)
    ensures forall f | f in fields :: m[f] == m'[f]
  {
    if fields != [] {
      assert fields[0] in fields;
      assert Values(m, fields)[0] == m[fields[0]] && Values(m', fields)[0] == m'[fields[0]];
      assert Values(m, fields)[1..] == Values(m, fields[1..]) && Values(m', fields)[1..] == Values(m', fields[1..]);
      SameValuesSameMap(m, m', fields[1..]);
      assert fields == [fields[0]] + fields[1..];
    }
  }

  lemma AlikeTables(g: GoLib, a: Node, b: Node)
    requires g.Lawful() && HarmlessNode(g, a) && HarmlessNode(g, b) && a.value.List? && b.value.List?
    requires UniformTable(a.value.items) && UniformTable(b.value.items) && FlatAlike(g, a, b)
    ensures a == b
  {
    hide Values, TableHeader, ReadsAsTable, QuotedAll;
    var items, items' := a.value.items, b.value.items;
    var fields, fields' := SortedKeys(items[0].m.Keys), SortedKeys(items'[0].m.Keys);
    TableKeysAgree(g, a.key, |items|, fields, b.key, fields');
    forall i | 0 <= i < |items| ensures items[i] == items'[i] {
      SameValuesSameMap(items[i].m, items'[i].m, fields);
      assert items[i].m.Keys == items[0].m.Keys && items'[i].m.Keys == items'[0].m.Keys;
      assert items[i].m == items'[i].m;
    }
    assert items == items';
  }

  lemma HarmlessChildren(g: GoLib, n: Node)
    requires g.Lawful() && HarmlessNode(g, n) && Keyed(n.value)
    ensures forall i | 0 <= i < |Children(g, n.value)| :: HarmlessNode(g, Children(g, n.value)[i])
  {
    hide QuoteIfNeeded, ReadsAsTable, Decimal, Lift;
    KeyedLines(g, n, 0);
    var ns := Children(g, n.value);
    forall i | 0 <= i < |ns| ensures HarmlessNode(g, ns[i]) {
      if n.value.Map? {
        var keys := SortedKeys(n.value.m.Keys);
        assert keys[i] in keys;
      } else {
        NumberIsSafe(g, i, n.value.items[i]);
      }
    }
  }

  /** The key of a numbered entry holds no bracket. */
  lemma NumberIsSafe(g: GoLib, i: nat, v: Value)
    requires g.Lawful()
    ensures SafeKey(QuoteIfNeeded(g, Lift(Decimal(i))), v)
  {
    var key := Lift(Decimal(i));
    if key != [] && !NeedsQuote(g, key) {
      RawLift(Decimal(i));
      forall j | 0 <= j < |Decimal(i)| ensures Decimal(i)[j] != '[' { DecimalPlain(i, j); }
      BareIsSafe(Decimal(i), v);
    } else {
      QuotedIsSafe(g, key, v);
    }
  }

  lemma QuotedIsSafe(g: GoLib, key: Text, v: Value)
    ensures SafeKey(Quote(g, key), v)
  {
    var t := Quote(g, key);
    assert t[|t| - 1] == '"';
    forall p, n: nat ensures t != p + ("[" + Decimal(n) + "]") {
      var u := p + ("[" + Decimal(n) + "]");
      assert u[|u| - 1] == ']';
    }
  }

  lemma BareIsSafe(t: string, v: Value)
    requires '[' !in t
    ensures SafeKey(t, v)
  {
    forall p, n: nat ensures t != p + ("[" + Decimal(n) + "]") {
      assert (p + ("[" + Decimal(n) + "]"))[|p|] == '[';
    }
    forall p, n: nat, q ensures t != p + TableMark(n) + q {
      assert (p + TableMark(n) + q)[|p|] == '[';
    }
  }

  /** Harmless entries are alike only when equal. */
  lemma {:induction false} AlikeIsEqual(g: GoLib, a: Node, b: Node)
    requires g.Lawful() && HarmlessNode(g, a) && HarmlessNode(g, b) && Alike(g, a, b)
    ensures a == b
    decreases a.value
  {
    if !Container(a.value) || !Container(b.value) {
    } else if Flat(a.value) || Flat(b.value) {
      if UniformTable(a.value.items) && UniformTable(b.value.items) {
        AlikeTables(g, a, b);
      }
    } else {
      HarmlessChildren(g, a);
      HarmlessChildren(g, b);
      var xs, ys := Children(g, a.value), Children(g, b.value);
      forall i | 0 <= i < |xs| ensures xs[i] == ys[i] {
        AlikeIsEqual(g, xs[i], ys[i]);
      }
      assert xs == ys;
      EqualKeyed(g, a, b);
    }
  }

  /** Equal headers over equal children come from equal keys and equal values. */
  lemma EqualKeyed(g: GoLib, a: Node, b: Node)
    requires g.Lawful() && HarmlessNode(g, a) && HarmlessNode(g, b) && Keyed(a.value) && Keyed(b.value)
    requires Head(a) == Head(b) && Children(g, a.value) == Children(g, b.value)
    ensures a == b
  {
    hide Children, Flat, Harmless, Printed, ReadsAsCount, ReadsAsTable;
    if a.value.Map? && b.value.Map? {
      SameKeyNodes(g, a.value, b.value);
    } else if a.value.List? && b.value.List? {
      SameItemNodes(g, a.value, b.value);
      SameFront(a.key, b.key, "[" + Decimal(|a.value.items|) + "]");
      HeadParts(a);
      HeadParts(b);
    } else if a.value.Map? {
      HeadCounts(b, a.key);
    } else {
      HeadCounts(a, b.key);
    }
  }

  lemma HeadParts(n: Node)
    requires n.value.List?
    ensures Head(n) == n.key + ("[" + Decimal(|n.value.items|) + "]")
  {
    assert n.key + "[" + Decimal(|n.value.items|) + "]" == n.key + ("[" + Decimal(|n.value.items|) + "]");
  }

  lemma SameItemNodes(g: GoLib, v: Value, w: Value)
    requires v.List? && w.List? && Children(g, v) == Children(g, w)
    ensures v == w
  {
    hide QuoteIfNeeded, Lift, Decimal;
    var xs := Children(g, v);
    forall i | 0 <= i < |xs| ensures v.items[i] == w.items[i] {
      assert xs[i].value == v.items[i];
    }
    assert v.items == w.items;
  }

  lemma HeadCounts(n: Node, t: string)
    requires n.value.List? && Head(n) == t
    ensures ReadsAsCount(t)
  {
    HeadParts(n);
  }

  lemma SameKeyNodes(g: GoLib, v: Value, w: Value)
    requires g.Lawful() && v.Map? && w.Map? && Children(g, v) == Children(g, w)
    ensures v == w
  {
    hide QuoteIfNeeded, Sorted;
    var ks, ks' := SortedKeys(v.m.Keys), SortedKeys(w.m.Keys);
    var xs := Children(g, v);
    forall i | 0 <= i < |ks| ensures ks[i] == ks'[i] && v.m[ks[i]] == w.m[ks'[i]] {
      assert xs[i] == Node(QuoteIfNeeded(g, ks[i]), v.m[ks[i]]);
      SafeKeyInjective(g, ks[i], ks'[i]);
    }
    assert ks == ks';
    SameEntries(v.m, w.m, ks);
  }

  lemma SameEntries(m: map<Text, Value>, n: map<Text, Value>, ks: seq<Text>)
    requires forall k :: k in ks <==> k in m
    requires forall k :: k in ks <==> k in n
    requires forall i | 0 <= i < |ks| :: ks[i] in m && ks[i] in n && m[ks[i]] == n[ks[i]]
    ensures m == n
  {
    assert m.Keys == n.Keys;
    forall k | k in m ensures m[k] == n[k] {
      assert k in ks;
    }
  }

  /** Among values whose keys cannot be misread, no two share a text. */
  lemma HarmlessInjective(g: GoLib, v: Value, w: Value)
    requires g.Lawful() && Proper(g, v) && Proper(g, w) && Harmless(g, v) && Harmless(g, w)
    requires Encoded(g, v) == Encoded(g, w)
    ensures v == w
  {
    hide Encoded, Alike, Harmless;
    SameTextIffAlike(g, v, w);
    if Container(v) && Container(w) {
      HarmlessRoot(g, v);
      HarmlessRoot(g, w);
      var xs, ys := RootNodes(g, v), RootNodes(g, w);
      forall i | 0 <= i < |xs| ensures xs[i] == ys[i] {
        AlikeIsEqual(g, xs[i], ys[i]);
      }
      assert xs == ys;
      SameRoot(g, v, w);
    }
  }

  lemma SameRoot(g: GoLib, v: Value, w: Value)
    requires g.Lawful() && Container(v) && Container(w) && RootNodes(g, v) == RootNodes(g, w)
    ensures v == w
  {
    RootKeys(g, v);
    RootKeys(g, w);
    if v.Map? && w.Map? {
      SameKeyNodes(g, v, w);
    } else {
      assert RootNodes(g, v)[0] == RootNodes(g, w)[0];
    }
  }

  lemma RootKeys(g: GoLib, v: Value)
    requires g.Lawful() && Container(v)
    ensures forall i | 0 <= i < |RootNodes(g, v)| :: RootNodes(g, v)[i].key == "" <==> v.List?
  {
    if v.Map? {
      var keys := SortedKeys(v.m.Keys);
      forall i | 0 <= i < |keys| ensures QuoteIfNeeded(g, keys[i]) != "" {
        StringTokenText(g, keys[i]);
      }
    }
  }

  lemma HarmlessRoot(g: GoLib, v: Value)
    requires g.Lawful() && Proper(g, v) && Harmless(g, v) && Container(v)
    ensures forall i | 0 <= i < |RootNodes(g, v)| :: HarmlessNode(g, RootNodes(g, v)[i])
  {
    if v.Map? {
      var keys := SortedKeys(v.m.Keys);
      EntriesAsNodes(g, v, keys, 0);
      forall i | 0 <= i < |keys| ensures HarmlessNode(g, RootNodes(g, v)[i]) {
        assert keys[i] in keys;
      }
    } else {
      BareIsSafe("", v);
    }
  }

  /** Every legible value is harmless. */
  lemma {:induction false} LegibleHarmless(g: GoLib, v: Value)
    requires Legible(g, v)
    ensures Harmless(g, v)
  {
    match v {
      case Map(m) =>
        forall k | k in m ensures Harmless(g, m[k]) && SafeKey(QuoteIfNeeded(g, k), m[k]) {
          LegibleHarmless(g, m[k]);
          if Container(m[k]) {
            if k == [] || NeedsQuote(g, k) {
              QuotedIsSafe(g, k, m[k]);
              assert QuoteIfNeeded(g, k) == Quote(g, k);
            } else {
              BareIsSafe(Raw(k), m[k]);
            }
          }
        }
      case List(items) => forall i | 0 <= i < |items| ensures Harmless(g, items[i]) { LegibleHarmless(g, items[i]); }
      case _ =>
    }
  }
}
