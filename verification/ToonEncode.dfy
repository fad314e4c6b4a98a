/**
 * The TOON encoder: what it prints, line by line, and the string-builder methods that print it.
 * A line is its depth and the text after the padding.
 */
module ToonEncode {
  import opened Numerals
  import opened ToonText
  import opened ToonOrder

  /** The inputs of Encode. Numbers are their printed text; Other is any type Encode refuses. */
  datatype Value =
    | Null
    | Bool(b: bool)
    | Num(text: string)
    | Str(s: Text)
    | Map(m: map<Text, Value>)
    | List(items: seq<Value>)
    | Other

  predicate IsScalar(v: Value) {
    v.Null? || v.Bool? || v.Num? || v.Str?
  }

  function ScalarText(g: GoLib, v: Value): string
    requires IsScalar(v)
  {
    match v
    case Null => "null"
    case Bool(b) => if b then "true" else "false"
    case Num(t) => t
    case Str(s) => QuoteIfNeeded(g, s)
  }

  /** No unsupported type anywhere below. */
  ghost predicate Supported(v: Value) {
    match v
    case Map(m) => forall k | k in m :: Supported(m[k])
    case List(items) => forall i | 0 <= i < |items| :: Supported(items[i])
    case Other => false
    case _ => true
  }

  // ---- what is printed ----

  datatype Line = Line(depth: nat, text: string)

  function Pad(n: nat): string {
    if n == 0 then "" else "  " + Pad(n - 1)
  }

  function Render(ls: seq<Line>): string {
    if ls == [] then "" else Pad(ls[0].depth) + ls[0].text + "\n" + Render(ls[1..])
  }

  /** strings.Join with a comma. */
  function Join(ts: seq<string>): string {
    if ts == [] then "" else if |ts| == 1 then ts[0] else ts[0] + "," + Join(ts[1..])
  }

  /** A non-empty list of maps with one shared, non-empty key set and scalar values only. */
  ghost predicate UniformTable(items: seq<Value>) {
    && items != []
    && items[0].Map?
    && items[0].m != map[]
    && forall i | 0 <= i < |items| ::
         items[i].Map? && items[i].m.Keys == items[0].m.Keys && AllScalarValues(items[i].m)
  }

  ghost predicate AllScalarValues(m: map<Text, Value>) {
    forall k | k in m :: IsScalar(m[k])
  }

  ghost predicate AllScalar(items: seq<Value>) {
    forall i | 0 <= i < |items| :: IsScalar(items[i])
  }

  ghost predicate HasFields(m: map<Text, Value>, fields: seq<Text>) {
    forall f | f in fields :: f in m && IsScalar(m[f])
  }

  function QuotedAll(g: GoLib, ks: seq<Text>): (r: seq<string>)
    ensures |r| == |ks|
  {
    if ks == [] then [] else [QuoteIfNeeded(g, ks[0])] + QuotedAll(g, ks[1..])
  }

  ghost function RowTexts(g: GoLib, m: map<Text, Value>, fields: seq<Text>): (r: seq<string>)
    requires HasFields(m, fields)
    ensures |r| == |fields|
  {
    if fields == [] then []
    else
      assert fields[0] in fields;
      [ScalarText(g, m[fields[0]])] + RowTexts(g, m, fields[1..])
  }

  /** Lines for one map entry; an unsupported value has none, and Encode then reports an error. */
  ghost function EntryLines(g: GoLib, key: Text, v: Value, d: nat): (ls: seq<Line>)
    ensures !v.Other? ==> ls != [] && ls[0].depth == d
    decreases v, 2, 0
  {
    var safeKey := QuoteIfNeeded(g, key);
    match v
    case Map(m) => [Line(d, BlockLine(safeKey))] + EntriesLines(g, v, SortedKeys(m.Keys), d + 1)
    case List(_) => SliceLines(g, safeKey, v, d)
    case Other => []
    case _ => [Line(d, ScalarLine(safeKey, ScalarText(g, v)))]
  }

  /** One entry after another, for the listed keys of a map. */
  ghost function EntriesLines(g: GoLib, v: Value, keys: seq<Text>, d: nat): seq<Line>
    requires v.Map?
    requires forall k | k in keys :: k in v.m
    decreases v, 0, |keys|
  {
    if keys == [] then []
    else
      assert keys[0] in keys;
      EntryLines(g, keys[0], v.m[keys[0]], d) + EntriesLines(g, v, keys[1..], d)
  }

  function SliceHeader(key: string, n: nat): string {
    key + "[" + Decimal(n) + "]:"
  }

  function TableHeader(key: string, n: nat, safeFields: seq<string>): string {
    key + "[" + Decimal(n) + "]{" + Join(safeFields) + "}:"
  }

  function ScalarLine(safeKey: string, scalar: string): string {
    safeKey + ": " + scalar
  }

  function BlockLine(safeKey: string): string {
    safeKey + ":"
  }

  ghost function SliceLines(g: GoLib, key: string, v: Value, d: nat): (ls: seq<Line>)
    requires v.List?
    ensures ls != [] && ls[0].depth == d
    decreases v, 1, 0
  {
    var items := v.items;
    if UniformTable(items) then
      var fields := SortedKeys(items[0].m.Keys);
      [Line(d, TableHeader(key, |items|, QuotedAll(g, fields)))] + RowLines(g, items, fields, d + 1)
    else if AllScalar(items) then
      [Line(d, SliceHeader(key, |items|))] + ItemLines(g, items, d + 1)
    else
      [Line(d, SliceHeader(key, |items|))] + NumberedLines(g, v, 0, d + 1)
  }

  ghost predicate Tabular(items: seq<Value>, fields: seq<Text>) {
    forall i | 0 <= i < |items| :: items[i].Map? && HasFields(items[i].m, fields)
  }

  ghost function RowLines(g: GoLib, items: seq<Value>, fields: seq<Text>, d: nat): (r: seq<Line>)
    requires Tabular(items, fields)
    ensures |r| == |items|
  {
    if items == [] then []
    else [Line(d, Join(RowTexts(g, items[0].m, fields)))] + RowLines(g, items[1..], fields, d)
  }

  ghost function ItemLines(g: GoLib, items: seq<Value>, d: nat): (r: seq<Line>)
    requires AllScalar(items)
    ensures |r| == |items|
  {
    if items == [] then [] else [Line(d, ScalarText(g, items[0]))] + ItemLines(g, items[1..], d)
  }

  /** Items from position i on, keyed by their decimal index. */
  ghost function NumberedLines(g: GoLib, v: Value, i: nat, d: nat): seq<Line>
    requires v.List? && i <= |v.items|
    decreases v, 0, |v.items| - i
  {
    if i == |v.items| then []
    else EntryLines(g, Lift(Decimal(i)), v.items[i], d) + NumberedLines(g, v, i + 1, d)
  }

  /** strings.TrimRight(s, "\n"). */
  function TrimRight(t: string): string {
    if t != "" && t[|t| - 1] == '\n' then TrimRight(t[..|t| - 1]) else t
  }

  /** The lines of a top-level map or slice. */
  ghost function RootLines(g: GoLib, v: Value): seq<Line>
    requires v.Map? || v.List?
  {
    if v.Map? then EntriesLines(g, v, SortedKeys(v.m.Keys), 0) else SliceLines(g, "", v, 0)
  }

  ghost function Encoded(g: GoLib, v: Value): string
    requires !v.Other?
  {
    if IsScalar(v) then TrimRight(ScalarText(g, v)) else TrimRight(Render(RootLines(g, v)))
  }

  lemma BlockLines(g: GoLib, key: Text, v: Value, d: nat)
    requires v.Map?
    ensures EntryLines(g, key, v, d)
         == [Line(d, BlockLine(QuoteIfNeeded(g, key)))] + EntriesLines(g, v, SortedKeys(v.m.Keys), d + 1)
  {
    hide EntriesLines, QuoteIfNeeded, BlockLine;
  }

  lemma {:induction false} RenderConcat(a: seq<Line>, b: seq<Line>)
    ensures Render(a + b) == Render(a) + Render(b)
  {
    if a == [] {
      assert a + b == b;
    } else {
      assert (a + b)[1..] == a[1..] + b;
      RenderConcat(a[1..], b);
    }
  }

  lemma RenderAfter(before: string, a: seq<Line>, b: seq<Line>)
    ensures before + Render(a + b) == before + Render(a) + Render(b)
  {
    RenderConcat(a, b);
    assert before + (Render(a) + Render(b)) == before + Render(a) + Render(b);
  }

  lemma RenderDeeper(d: nat, t: string)
    ensures Render([Line(d, "  " + t)]) == Render([Line(d + 1, t)])
  {
    PadOneMore(d);
  }

  lemma {:induction false} PadOneMore(n: nat)
    ensures Pad(n) + "  " == Pad(n + 1)
  {
    if n > 0 {
      PadOneMore(n - 1);
    }
  }

  // ---- the program ----

  /** strings.Builder. */
  class Builder {
    var text: string

    constructor ()
      ensures text == ""
    {
      text := "";
    }

    method WriteString(t: string)
      modifies this
      ensures text == old(text) + t
    {
      text := text + t;
    }

    /** fmt.Fprintf of the padding, one line and a newline. */
    method WriteLine(indent: nat, line: string)
      modifies this
      ensures text == old(text) + Render([Line(indent, line)])
    {
      WriteString(Pad(indent) + line + "\n");
    }
  }

  method KeysOf(m: map<Text, Value>) returns (keys: seq<Text>)
    ensures keys == SortedKeys(m.Keys)
    ensures InOrder(keys) && forall x :: x in keys <==> x in m
  {
    keys := [];
    var rest := m.Keys;
    while rest != {}
      invariant rest <= m.Keys
      invariant forall x :: x in keys <==> x in m.Keys && x !in rest
      invariant forall i, j :: 0 <= i < j < |keys| ==> keys[i] != keys[j]
      decreases rest
    {
      var k :| k in rest;
      keys := keys + [k];
      rest := rest - {k};
    }
    assert Elements(keys) == m.Keys;
    keys := SortStrings(keys);
  }

  method AllScalarItems(items: seq<Value>) returns (all: bool)
    ensures all <==> AllScalar(items)
  {
    for i := 0 to |items|
      invariant AllScalar(items[..i])
    {
      if !IsScalar(items[i]) {
        return false;
      }
      assert items[..i + 1] == items[..i] + [items[i]];
    }
    assert items[..|items|] == items;
    return true;
  }

  /** The test uniformMapFields makes of one item: every field there, each with a scalar. */
  method FieldsPresent(m: map<Text, Value>, fields: seq<Text>) returns (present: bool)
    ensures present <==> HasFields(m, fields)
  {
    for j := 0 to |fields|
      invariant HasFields(m, fields[..j])
    {
      if fields[j] !in m || !IsScalar(m[fields[j]]) {
        assert fields[j] in fields;
        return false;
      }
      assert fields[..j + 1] == fields[..j] + [fields[j]];
    }
    assert fields[..|fields|] == fields;
    return true;
  }

  /** The sorted field list when the items form a table, and an empty list otherwise. */
  method UniformMapFields(items: seq<Value>) returns (fields: seq<Text>)
    ensures UniformTable(items) ==> fields == SortedKeys(items[0].m.Keys) && fields != []
    ensures !UniformTable(items) ==> fields == []
  {
    if |items| == 0 || !items[0].Map? || |items[0].m| == 0 {
      return [];
    }
    var first := items[0].m;
    fields := KeysOf(first);
    var firstScalar := FieldsPresent(first, fields);
    if !firstScalar {
      return [];
    }
    NoRepeats(fields, first.Keys);
    for i := 1 to |items|
      invariant forall n | 0 <= n < i ::
          items[n].Map? && items[n].m.Keys == first.Keys && AllScalarValues(items[n].m)
    {
      if !items[i].Map? || |items[i].m| != |fields| {
        assert items[i].Map? ==> |items[i].m.Keys| != |first.Keys|;
        return [];
      }
      var present := FieldsPresent(items[i].m, fields);
      if !present {
        return [];
      }
      SameSize(first.Keys, items[i].m.Keys);
    }
    assert first.Keys != {};
  }

  /** A sorted list holds each element once. */
  lemma {:induction false} NoRepeats(ks: seq<Text>, keys: set<Text>)
    requires Sorted(ks) && forall x :: x in ks <==> x in keys
    ensures |ks| == |keys|
  {
    if ks == [] {
      assert keys == {};
    } else {
      LessTotal(ks[0], ks[0]);
      assert ks == [ks[0]] + ks[1..];
      NoRepeats(ks[1..], keys - {ks[0]});
    }
  }

  /** The length test plus inclusion is key-set equality. */
  lemma SameSize(a: set<Text>, b: set<Text>)
    requires a <= b && |a| == |b|
    ensures a == b
  {
    assert |b - a| == |b| - |a|;
  }

  /** What printing entry i of a map leaves to print. */
  lemma EntriesStep(before: string, g: GoLib, v: Value, keys: seq<Text>, i: nat, d: nat)
    requires v.Map? && i < |keys| && forall k | k in keys :: k in v.m
    ensures keys[i] in v.m
    ensures before + Render(EntriesLines(g, v, keys[i..], d))
         == before + Render(EntryLines(g, keys[i], v.m[keys[i]], d))
          + Render(EntriesLines(g, v, keys[i + 1..], d))
  {
    assert keys[i] in keys;
    assert keys[i..][1..] == keys[i + 1..];
    RenderAfter(before, EntryLines(g, keys[i], v.m[keys[i]], d), EntriesLines(g, v, keys[i + 1..], d));
  }

  lemma EntriesDone(g: GoLib, v: Value, keys: seq<Text>, d: nat)
    requires v.Map? && forall k | k in keys :: k in v.m
    ensures Render(EntriesLines(g, v, keys[|keys|..], d)) == ""
  {
  }

  lemma SupportedList(v: Value)
    requires v.List?
    ensures Supported(v) <==> forall n | 0 <= n < |v.items| :: Supported(v.items[n])
  {
  }

  lemma SupportedMap(v: Value, keys: seq<Text>)
    requires v.Map? && forall x :: x in keys <==> x in v.m.Keys
    ensures Supported(v) <==> forall n | 0 <= n < |keys| :: Supported(v.m[keys[n]])
  {
    if forall n | 0 <= n < |keys| :: Supported(v.m[keys[n]]) {
      forall k | k in v.m ensures Supported(v.m[k]) {
        assert k in keys;
      }
    }
  }

  lemma NumberedDone(g: GoLib, v: Value, d: nat)
    requires v.List?
    ensures Render(NumberedLines(g, v, |v.items|, d)) == ""
  {
  }

  lemma NumberedStep(before: string, g: GoLib, v: Value, i: nat, d: nat)
    requires v.List? && i < |v.items|
    ensures before + Render(NumberedLines(g, v, i, d))
         == before + Render(EntryLines(g, Lift(Decimal(i)), v.items[i], d))
          + Render(NumberedLines(g, v, i + 1, d))
  {
    RenderAfter(before, EntryLines(g, Lift(Decimal(i)), v.items[i], d), NumberedLines(g, v, i + 1, d));
  }

  lemma ItemStep(before: string, g: GoLib, items: seq<Value>, i: nat, d: nat)
    requires AllScalar(items) && i < |items|
    ensures before + Render(ItemLines(g, items[i..], d + 1))
         == before + Render([Line(d, "  " + ScalarText(g, items[i]))])
          + Render(ItemLines(g, items[i + 1..], d + 1))
  {
    assert items[i..][1..] == items[i + 1..];
    RenderDeeper(d, ScalarText(g, items[i]));
    RenderAfter(before, [Line(d + 1, ScalarText(g, items[i]))], ItemLines(g, items[i + 1..], d + 1));
  }

  lemma RowStep(before: string, g: GoLib, items: seq<Value>, fields: seq<Text>, i: nat, d: nat)
    requires Tabular(items, fields) && i < |items|
    ensures before + Render(RowLines(g, items[i..], fields, d + 1))
         == before + Render([Line(d, "  " + Join(RowTexts(g, items[i].m, fields)))])
          + Render(RowLines(g, items[i + 1..], fields, d + 1))
  {
    assert items[i..][1..] == items[i + 1..];
    RenderDeeper(d, Join(RowTexts(g, items[i].m, fields)));
    var row := Line(d + 1, Join(RowTexts(g, items[i].m, fields)));
    RenderAfter(before, [row], RowLines(g, items[i + 1..], fields, d + 1));
  }

  method EncodeMap(g: GoLib, sb: Builder, v: Value, indent: nat) returns (ok: bool)
    requires v.Map?
    modifies sb
    ensures ok <==> Supported(v)
    ensures ok ==> sb.text == old(sb.text) + Render(EntriesLines(g, v, SortedKeys(v.m.Keys), indent))
    decreases v, 1
  {
    hide *;
    var keys := KeysOf(v.m);
    ghost var all := old(sb.text) + Render(EntriesLines(g, v, keys, indent));
    EntriesDone(g, v, keys, indent);
    SupportedMap(v, keys);
    assert keys[0..] == keys;
    for i := 0 to |keys|
      invariant forall n | 0 <= n < i :: Supported(v.m[keys[n]])
      invariant sb.text + Render(EntriesLines(g, v, keys[i..], indent)) == all
    {
      EntriesStep(sb.text, g, v, keys, i, indent);
      var entryOk := EncodeEntry(g, sb, keys[i], v.m[keys[i]], indent);
      if !entryOk {
        return false;
      }
    }
    return true;
  }

  lemma BlockTotal(before: string, g: GoLib, key: Text, v: Value, d: nat)
    requires v.Map?
    ensures before + Render(EntryLines(g, key, v, d))
         == before + Render([Line(d, BlockLine(QuoteIfNeeded(g, key)))])
          + Render(EntriesLines(g, v, SortedKeys(v.m.Keys), d + 1))
    ensures v.m == map[] ==> EntriesLines(g, v, SortedKeys(v.m.Keys), d + 1) == []
  {
    RenderAfter(before, [Line(d, BlockLine(QuoteIfNeeded(g, key)))], EntriesLines(g, v, SortedKeys(v.m.Keys), d + 1));
  }

  lemma ItemsTotal(before: string, g: GoLib, key: string, v: Value, d: nat)
    requires v.List? && AllScalar(v.items) && !UniformTable(v.items)
    ensures before + Render(SliceLines(g, key, v, d))
         == before + Render([Line(d, SliceHeader(key, |v.items|))])
          + Render(ItemLines(g, v.items, d + 1))
  {
    RenderAfter(before, [Line(d, SliceHeader(key, |v.items|))], ItemLines(g, v.items, d + 1));
  }

  lemma NumberedTotal(before: string, g: GoLib, key: string, v: Value, d: nat)
    requires v.List? && !AllScalar(v.items) && !UniformTable(v.items)
    ensures before + Render(SliceLines(g, key, v, d))
         == before + Render([Line(d, SliceHeader(key, |v.items|))])
          + Render(NumberedLines(g, v, 0, d + 1))
  {
    RenderAfter(before, [Line(d, SliceHeader(key, |v.items|))], NumberedLines(g, v, 0, d + 1));
  }

  lemma TableTotal(before: string, g: GoLib, key: string, items: seq<Value>, fields: seq<Text>, d: nat)
    requires UniformTable(items) && fields == SortedKeys(items[0].m.Keys)
    ensures Tabular(items, fields)
    ensures before + Render(SliceLines(g, key, List(items), d))
         == before + Render([Line(d, TableHeader(key, |items|, QuotedAll(g, fields)))])
          + Render(RowLines(g, items, fields, d + 1))
  {
    UniformIsTabular(items, fields);
    RenderAfter(before, [Line(d, TableHeader(key, |items|, QuotedAll(g, fields)))], RowLines(g, items, fields, d + 1));
  }

  method EncodeEntry(g: GoLib, sb: Builder, key: Text, v: Value, indent: nat) returns (ok: bool)
    modifies sb
    ensures ok <==> Supported(v)
    ensures ok ==> sb.text == old(sb.text) + Render(EntryLines(g, key, v, indent))
    decreases v, 3
  {
    var safeKey := QuoteIfNeeded(g, key);
    match v {
      case Map(m) =>
        BlockTotal(sb.text, g, key, v, indent);
        sb.WriteLine(indent, BlockLine(safeKey));
        if |m| == 0 {
          return true;
        }
        ok := EncodeMap(g, sb, v, indent + 1);
      case List(_) =>
        ok := EncodeSlice(g, sb, safeKey, v, indent);
      case Other =>
        ok := false;
      case _ =>
        sb.WriteLine(indent, ScalarLine(safeKey, ScalarText(g, v)));
        ok := true;
    }
  }

  method EncodeSlice(g: GoLib, sb: Builder, key: string, v: Value, indent: nat) returns (ok: bool)
    requires v.List?
    modifies sb
    ensures ok <==> Supported(v)
    ensures ok ==> sb.text == old(sb.text) + Render(SliceLines(g, key, v, indent))
    decreases v, 2
  {
    var fields := UniformMapFields(v.items);
    if fields != [] {
      EncodeTable(g, sb, key, v.items, fields, indent);
      UniformIsTabular(v.items, fields);
      return true;
    }
    var all := AllScalarItems(v.items);
    if all {
      EncodeItems(g, sb, key, v, indent);
      return true;
    }
    ok := EncodeNumbered(g, sb, key, v, indent);
  }

  method EncodeItems(g: GoLib, sb: Builder, key: string, v: Value, indent: nat)
    requires v.List? && AllScalar(v.items) && !UniformTable(v.items)
    modifies sb
    ensures sb.text == old(sb.text) + Render(SliceLines(g, key, v, indent))
  {
    var items := v.items;
    ItemsTotal(sb.text, g, key, v, indent);
    sb.WriteLine(indent, SliceHeader(key, |items|));
    assert items[0..] == items;
    ghost var total := sb.text + Render(ItemLines(g, items, indent + 1));
    for i := 0 to |items|
      invariant sb.text + Render(ItemLines(g, items[i..], indent + 1)) == total
    {
      ItemStep(sb.text, g, items, i, indent);
      sb.WriteLine(indent, "  " + ScalarText(g, items[i]));
    }
  }

  method EncodeNumbered(g: GoLib, sb: Builder, key: string, v: Value, indent: nat) returns (ok: bool)
    requires v.List? && !AllScalar(v.items) && !UniformTable(v.items)
    modifies sb
    ensures ok <==> Supported(v)
    ensures ok ==> sb.text == old(sb.text) + Render(SliceLines(g, key, v, indent))
    decreases v, 1
  {
    hide *;
    NumberedTotal(sb.text, g, key, v, indent);
    NumberedDone(g, v, indent + 1);
    SupportedList(v);
    sb.WriteLine(indent, SliceHeader(key, |v.items|));
    ghost var total := sb.text + Render(NumberedLines(g, v, 0, indent + 1));
    for i := 0 to |v.items|
      invariant forall n | 0 <= n < i :: Supported(v.items[n])
      invariant sb.text + Render(NumberedLines(g, v, i, indent + 1)) == total
    {
      NumberedStep(sb.text, g, v, i, indent + 1);
      var entryOk := EncodeEntry(g, sb, Lift(Decimal(i)), v.items[i], indent + 1);
      if !entryOk {
        return false;
      }
    }
    return true;
  }

  method EncodeTable(g: GoLib, sb: Builder, key: string, items: seq<Value>, fields: seq<Text>, indent: nat)
    requires UniformTable(items) && fields == SortedKeys(items[0].m.Keys)
    modifies sb
    ensures sb.text == old(sb.text) + Render(SliceLines(g, key, List(items), indent))
  {
    TableTotal(sb.text, g, key, items, fields, indent);
    var safeFields := QuoteFields(g, fields);
    sb.WriteLine(indent, TableHeader(key, |items|, safeFields));
    ghost var total := sb.text + Render(RowLines(g, items, fields, indent + 1));
    assert items[0..] == items;
    for i := 0 to |items|
      invariant sb.text + Render(RowLines(g, items[i..], fields, indent + 1)) == total
    {
      RowStep(sb.text, g, items, fields, i, indent);
      var row := TableRow(g, items[i].m, fields);
      sb.WriteLine(indent, "  " + row);
    }
  }

  method QuoteFields(g: GoLib, fields: seq<Text>) returns (safeFields: seq<string>)
    ensures safeFields == QuotedAll(g, fields)
  {
    safeFields := [];
    for j := 0 to |fields|
      invariant safeFields + QuotedAll(g, fields[j..]) == QuotedAll(g, fields)
    {
      assert fields[j..][1..] == fields[j + 1..];
      safeFields := safeFields + [QuoteIfNeeded(g, fields[j])];
    }
    assert safeFields == QuotedAll(g, fields);
  }

  method TableRow(g: GoLib, m: map<Text, Value>, fields: seq<Text>) returns (row: string)
    requires HasFields(m, fields)
    ensures row == Join(RowTexts(g, m, fields))
  {
    var vals := [];
    for j := 0 to |fields|
      invariant vals + RowTexts(g, m, fields[j..]) == RowTexts(g, m, fields)
    {
      assert fields[j] in fields;
      assert fields[j..][1..] == fields[j + 1..];
      vals := vals + [ScalarText(g, m[fields[j]])];
    }
    assert vals == RowTexts(g, m, fields);
    row := Join(vals);
  }

  lemma UniformIsTabular(items: seq<Value>, fields: seq<Text>)
    requires UniformTable(items) && fields == SortedKeys(items[0].m.Keys)
    ensures Tabular(items, fields) && Supported(List(items)) && fields != []
  {
    assert items[0].m.Keys != {};
  }

  /** Encode fails exactly on unsupported types, and then returns the empty string. */
  method Encode(g: GoLib, v: Value) returns (text: string, ok: bool)
    ensures ok <==> Supported(v)
    ensures text == if Supported(v) then Encoded(g, v) else ""
  {
    var sb := new Builder();
    match v {
      case Map(_) => ok := EncodeMap(g, sb, v, 0);
      case List(_) => ok := EncodeSlice(g, sb, "", v, 0);
      case Other => ok := false;
      case _ =>
        sb.WriteString(ScalarText(g, v));
        assert sb.text == ScalarText(g, v);
        ok := true;
    }
    assert ok && !IsScalar(v) ==> sb.text == Render(RootLines(g, v));
    text := if ok then TrimRight(sb.text) else "";
  }
}
