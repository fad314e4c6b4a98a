/**
 * What the encoder promises of its text: reading it back gives the value it was printed from, no
 * line is blank or carries a control character, and every count is the number of entries below it.
 */
module ToonRoundTrip {
  import opened Numerals
  import opened ToonText
  import opened ToonOrder
  import opened ToonEncode
  import opened ToonDecode

  /** Supported values whose numbers Go can print; no condition on keys. */
  ghost predicate Proper(g: GoLib, v: Value) {
    match v
    case Num(t) => g.printsNumber(t)
    case Map(m) => forall k | k in m :: Proper(g, m[k])
    case List(items) => forall i | 0 <= i < |items| :: Proper(g, items[i])
    case Other => false
    case _ => true
  }

  lemma {:induction false} LegibleProper(g: GoLib, v: Value)
    requires Legible(g, v)
    ensures Proper(g, v)
  {
    match v {
      case Map(m) => forall k | k in m ensures Proper(g, m[k]) { LegibleProper(g, m[k]); }
      case List(items) => forall i | 0 <= i < |items| ensures Proper(g, items[i]) { LegibleProper(g, items[i]); }
      case _ =>
    }
  }

  lemma {:induction false} ProperSupported(g: GoLib, v: Value)
    requires Proper(g, v)
    ensures Supported(v)
  {
    match v {
      case Map(m) => forall k | k in m ensures Supported(m[k]) { ProperSupported(g, m[k]); }
      case List(items) => forall i | 0 <= i < |items| ensures Supported(items[i]) { ProperSupported(g, items[i]); }
      case _ =>
    }
  }

  // ---- clean lines ----

  ghost predicate LineText(t: string) {
    t != "" && t[0] != ' ' && forall i :: 0 <= i < |t| ==> !Control(t[i])
  }

  ghost predicate Clean(ls: seq<Line>) {
    forall i :: 0 <= i < |ls| ==> LineText(ls[i].text)
  }

  lemma LineOfParts(a: string, b: string)
    requires a + b != "" && (if a == "" then b[0] != ' ' else a[0] != ' ')
    requires forall i :: 0 <= i < |a| ==> !Control(a[i])
    requires forall i :: 0 <= i < |b| ==> !Control(b[i])
    ensures LineText(a + b)
  {
  }

  lemma {:induction false} JoinClean(ts: seq<string>)
    requires ts != [] && forall i :: 0 <= i < |ts| ==> TokenText(ts[i])
    ensures LineText(Join(ts))
  {
    if |ts| > 1 {
      JoinClean(ts[1..]);
      LineOfParts(ts[0] + ",", Join(ts[1..]));
    }
  }

  lemma {:induction false} QuotedAllClean(g: GoLib, ks: seq<Text>)
    requires g.Lawful()
    ensures forall i :: 0 <= i < |ks| ==> TokenText(QuotedAll(g, ks)[i])
  {
    if ks != [] {
      StringTokenText(g, ks[0]);
      QuotedAllClean(g, ks[1..]);
    }
  }

  lemma {:induction false} RowTextsClean(g: GoLib, m: map<Text, Value>, fields: seq<Text>)
    requires g.Lawful() && HasFields(m, fields) && forall f | f in fields :: Printable(g, m[f])
    ensures forall i :: 0 <= i < |fields| ==> TokenText(RowTexts(g, m, fields)[i])
  {
    if fields != [] {
      assert fields[0] in fields;
      ScalarTokenText(g, m[fields[0]]);
      RowTextsClean(g, m, fields[1..]);
    }
  }

  /** A printed key, or no key at the top level. */
  ghost predicate PrintedKey(g: GoLib, safeKey: string) {
    safeKey == "" || exists key :: safeKey == QuoteIfNeeded(g, key)
  }

  lemma PrintedKeyClean(g: GoLib, safeKey: string)
    requires g.Lawful() && PrintedKey(g, safeKey)
    ensures safeKey == "" || TokenText(safeKey)
  {
    if safeKey != "" {
      var key :| safeKey == QuoteIfNeeded(g, key);
      StringTokenText(g, key);
    }
  }

  lemma SliceHeaderClean(g: GoLib, safeKey: string, n: nat)
    requires g.Lawful() && PrintedKey(g, safeKey)
    ensures LineText(SliceHeader(safeKey, n))
  {
    hide Decimal, PrintedKey, Control, LineText;
    PrintedKeyClean(g, safeKey);
    var tail := "[" + Decimal(n) + "]:";
    CountClean(n);
    LineOfParts(safeKey, tail);
    assert SliceHeader(safeKey, n) == safeKey + tail;
  }

  lemma CountClean(n: nat)
    ensures var tail := "[" + Decimal(n) + "]:";
            (forall i | 0 <= i < |tail| :: !Control(tail[i])) && tail[|tail| - 1] != ' '
  {
    var tail := "[" + Decimal(n) + "]:";
    forall i | 0 <= i < |tail| ensures !Control(tail[i]) {
      if 1 <= i <= |Decimal(n)| { DecimalPlain(n, i - 1); }
    }
  }

  lemma TableHeaderClean(g: GoLib, safeKey: string, n: nat, fields: seq<Text>)
    requires g.Lawful() && PrintedKey(g, safeKey) && fields != []
    ensures LineText(TableHeader(safeKey, n, QuotedAll(g, fields)))
  {
    hide Decimal, PrintedKey, Join, QuotedAll;
    SliceHeaderClean(g, safeKey, n);
    QuotedAllClean(g, fields);
    JoinClean(QuotedAll(g, fields));
    var t := SliceHeader(safeKey, n);
    var front := t[..|t| - 1];
    assert front == safeKey + "[" + Decimal(n) + "]";
    var cells := Join(QuotedAll(g, fields));
    LineOfParts(front, "{" + cells + "}:");
    assert TableHeader(safeKey, n, QuotedAll(g, fields)) == front + ("{" + cells + "}:");
  }

  lemma {:induction false} EntryClean(g: GoLib, key: Text, v: Value, d: nat)
    requires g.Lawful() && Proper(g, v)
    ensures Clean(EntryLines(g, key, v, d))
    decreases v, 3, 0
  {
    var safeKey := QuoteIfNeeded(g, key);
    StringTokenText(g, key);
    if v.Map? {
      hide QuoteIfNeeded;
      LineOfParts(safeKey, ":");
      EntriesClean(g, v, SortedKeys(v.m.Keys), d + 1);
    } else if v.List? {
      SliceClean(g, safeKey, v, d);
    } else {
      hide QuoteIfNeeded;
      ScalarTokenText(g, v);
      hide ScalarText;
      LineOfParts(safeKey + ": ", ScalarText(g, v));
    }
  }

  lemma {:induction false} EntriesClean(g: GoLib, v: Value, keys: seq<Text>, d: nat)
    requires g.Lawful() && v.Map? && Proper(g, v) && forall k | k in keys :: k in v.m
    ensures Clean(EntriesLines(g, v, keys, d))
    decreases v, 1, |keys|
  {
    hide EntryLines;
    if keys != [] {
      assert keys[0] in keys;
      EntryClean(g, keys[0], v.m[keys[0]], d);
      EntriesClean(g, v, keys[1..], d);
    }
  }

  lemma {:induction false} SliceClean(g: GoLib, safeKey: string, v: Value, d: nat)
    requires g.Lawful() && v.List? && Proper(g, v) && PrintedKey(g, safeKey)
    ensures Clean(SliceLines(g, safeKey, v, d))
    decreases v, 2, 0
  {
    var items := v.items;
    SliceHeaderClean(g, safeKey, |items|);
    if UniformTable(items) {
      var fields := SortedKeys(items[0].m.Keys);
      UniformIsTabular(items, fields);
      TableHeaderClean(g, safeKey, |items|, fields);
      RowsClean(g, items, fields, d + 1);
    } else if AllScalar(items) {
      ItemsClean(g, items, d + 1);
    } else {
      NumberedClean(g, v, 0, d + 1);
    }
  }

  lemma {:induction false} RowsClean(g: GoLib, items: seq<Value>, fields: seq<Text>, d: nat)
    requires g.Lawful() && Tabular(items, fields) && fields != []
    requires forall i | 0 <= i < |items| :: Proper(g, items[i])
    ensures Clean(RowLines(g, items, fields, d))
  {
    if items != [] {
      var m := items[0].m;
      assert Proper(g, items[0]);
      forall f | f in fields ensures f in m && Printable(g, m[f]) {
      }
      RowTextsClean(g, m, fields);
      JoinClean(RowTexts(g, m, fields));
      RowsClean(g, items[1..], fields, d);
    }
  }

  lemma {:induction false} ItemsClean(g: GoLib, items: seq<Value>, d: nat)
    requires g.Lawful() && AllScalar(items) && forall i | 0 <= i < |items| :: Proper(g, items[i])
    ensures Clean(ItemLines(g, items, d))
  {
    if items != [] {
      ScalarTokenText(g, items[0]);
      ItemsClean(g, items[1..], d);
    }
  }

  lemma {:induction false} NumberedClean(g: GoLib, v: Value, i: nat, d: nat)
    requires g.Lawful() && v.List? && Proper(g, v) && i <= |v.items|
    ensures Clean(NumberedLines(g, v, i, d))
    decreases v, 1, |v.items| - i
  {
    hide EntryLines;
    if i < |v.items| {
      EntryClean(g, Lift(Decimal(i)), v.items[i], d);
      NumberedClean(g, v, i + 1, d);
    }
  }

  /** No line of a printed map or slice is blank, padded or holds a control character. */
  lemma RootClean(g: GoLib, v: Value)
    requires g.Lawful() && Proper(g, v) && Container(v)
    ensures Clean(RootLines(g, v))
  {
    if v.Map? {
      EntriesClean(g, v, SortedKeys(v.m.Keys), 0);
    } else {
      SliceClean(g, "", v, 0);
    }
  }

  // ---- from lines to text and back ----

  /** Render without its last newline. */
  function Joined(ls: seq<Line>): string
    requires ls != []
  {
    var first := Pad(ls[0].depth) + ls[0].text;
    if |ls| == 1 then first else first + "\n" + Joined(ls[1..])
  }

  lemma {:induction false} RenderJoined(ls: seq<Line>)
    requires ls != [] && Clean(ls)
    ensures Render(ls) == Joined(ls) + "\n"
    ensures Joined(ls) != "" && Joined(ls)[|Joined(ls)| - 1] != '\n'
  {
    var t := ls[0].text;
    var first := Pad(ls[0].depth) + t;
    assert first[|first| - 1] == t[|t| - 1] && !Control(t[|t| - 1]);
    if |ls| == 1 {
      assert Render(ls[1..]) == "";
      assert Render(ls) == first + "\n" + "";
    } else {
      RenderJoined(ls[1..]);
      assert first + "\n" + (Joined(ls[1..]) + "\n") == (first + "\n" + Joined(ls[1..])) + "\n";
    }
  }

  lemma TrimsOne(t: string)
    requires t != "" && t[|t| - 1] != '\n'
    ensures TrimRight(t + "\n") == t && TrimRight(t) == t
  {
    assert (t + "\n")[..|t|] == t;
  }

  lemma SpacesStep(t: string)
    ensures Spaces("  " + t) == 2 + Spaces(t)
  {
    var s := "  " + t;
    assert s[1..] == " " + t && s[1..][1..] == t;
  }

  lemma {:induction false} SpacesOfPad(d: nat, t: string)
    requires t != "" && t[0] != ' '
    ensures Spaces(Pad(d) + t) == 2 * d && |Pad(d)| == 2 * d
  {
    if d == 0 {
      assert Pad(d) + t == t;
    } else {
      SpacesOfPad(d - 1, t);
      SpacesStep(Pad(d - 1) + t);
      assert Pad(d) + t == "  " + (Pad(d - 1) + t);
    }
  }

  lemma {:induction false} PadHasNoNewline(d: nat)
    ensures '\n' !in Pad(d)
  {
    if d > 0 {
      PadHasNoNewline(d - 1);
    }
  }

  lemma LinesOfLast(first: string)
    requires '\n' !in first
    ensures LinesOf(first) == [LineOf(first)]
  {
    SpanOf(first, '\n', "");
    assert first + "" == first;
  }

  lemma LinesOfStep(first: string, more: string)
    requires '\n' !in first
    ensures LinesOf(first + "\n" + more) == [LineOf(first)] + LinesOf(more)
  {
    hide LineOf;
    var t := first + "\n" + more;
    assert t == first + ("\n" + more);
    SpanOf(first, '\n', "\n" + more);
    assert t[..|first|] == first && t[|first| + 1..] == more;
  }

  lemma {:induction false} LinesOfJoined(ls: seq<Line>)
    requires ls != [] && Clean(ls)
    ensures LinesOf(Joined(ls)) == ls
  {
    var l := ls[0];
    var first := Pad(l.depth) + l.text;
    PadHasNoNewline(l.depth);
    assert '\n' !in l.text;
    SpacesOfPad(l.depth, l.text);
    assert first[|Pad(l.depth)|..] == l.text;
    assert LineOf(first) == l;
    hide LineOf, LinesOf, Pad;
    if |ls| == 1 {
      LinesOfLast(first);
      assert ls == [l];
    } else {
      LinesOfStep(first, Joined(ls[1..]));
      LinesOfJoined(ls[1..]);
      assert ls == [l] + ls[1..];
    }
  }

  /** Clean lines survive being printed, trimmed and split again. */
  lemma LinesSurvive(ls: seq<Line>)
    requires ls != [] && Clean(ls)
    ensures TrimRight(Render(ls)) == Joined(ls) && LinesOf(Joined(ls)) == ls
  {
    RenderJoined(ls);
    TrimsOne(Joined(ls));
    LinesOfJoined(ls);
  }

  // ---- the round trip ----

  lemma ScalarSurvives(g: GoLib, v: Value)
    requires g.Lawful() && Printable(g, v)
    ensures Encoded(g, v) == ScalarText(g, v) && Encoded(g, v) != ""
    ensures TokenLine(Encoded(g, v)) && Decode(g, Encoded(g, v)) == v
  {
    ScalarTokenText(g, v);
    TrimsOne(ScalarText(g, v));
    ScanScalar(g, v, ':', "");
    assert ScalarText(g, v) + "" == ScalarText(g, v);
  }

  lemma {:induction false} JoinedStarts(ls: seq<Line>)
    requires ls != [] && ls[0].depth == 0
    ensures |ls[0].text| <= |Joined(ls)| && Joined(ls)[..|ls[0].text|] == ls[0].text
  {
    assert Pad(0) + ls[0].text == ls[0].text;
  }

  lemma ListSurvives(g: GoLib, v: Value)
    requires g.Lawful() && Legible(g, v) && v.List?
    ensures Decode(g, Encoded(g, v)) == v
  {
    LegibleProper(g, v);
    var ls := RootLines(g, v);
    RootClean(g, v);
    LinesSurvive(ls);
    JoinedStarts(ls);
    RootListHead(g, v);
    var t := Joined(ls);
    var head := ls[0].text;
    assert t[|head| - 1] == ':' && t[0] == '[';
    assert ':' in t;
    ColonStops(t);
    hide SliceLines, ParseEntry;
    SliceRoundTrip(g, "", [], v, 0, []);
    assert ls + [] == ls;
  }

  lemma RootListHead(g: GoLib, v: Value)
    requires v.List?
    ensures var head := RootLines(g, v)[0].text;
            head != "" && head[0] == '[' && head[|head| - 1] == ':'
  {
    if UniformTable(v.items) {
      var fields := SortedKeys(v.items[0].m.Keys);
      assert RootLines(g, v)[0].text == TableHeader("", |v.items|, QuotedAll(g, fields));
    } else {
      assert RootLines(g, v)[0].text == SliceHeader("", |v.items|);
    }
  }

  lemma MapSurvives(g: GoLib, v: Value)
    requires g.Lawful() && Legible(g, v) && v.Map?
    ensures Decode(g, Encoded(g, v)) == v
  {
    if v.m == map[] {
      EmptyMapSurvives(g, v);
    } else {
      var keys := SortedKeys(v.m.Keys);
      LegibleProper(g, v);
      RootClean(g, v);
      var k := MapHead(g, v);
      FirstEntryIsNoRootList(g, v, k, 0);
      var ls := RootLines(g, v);
      assert ls == EntriesLines(g, v, keys, 0);
      hide EntryLines, EntriesLines, RootLines, ParseEntries, TokenLine, Joined, LinesOf;
      LinesSurvive(ls);
      EntriesRoundTrip(g, v, keys, 0, []);
      assert ls + [] == ls;
      assert (map x | x in keys :: v.m[x]) == v.m;
    }
  }

  lemma EmptyMapSurvives(g: GoLib, v: Value)
    requires v.Map? && v.m == map[]
    ensures Encoded(g, v) == "" && Decode(g, Encoded(g, v)) == v
  {
    var keys := SortedKeys(v.m.Keys);
    assert forall i :: 0 <= i < |keys| ==> keys[i] in keys;
    assert RootLines(g, v) == [];
  }

  lemma MapHead(g: GoLib, v: Value) returns (k: Text)
    requires g.Lawful() && Proper(g, v) && v.Map? && v.m != map[]
    ensures k in v.m && !v.m[k].Other?
    ensures var ls := RootLines(g, v);
            && ls != [] && ls[0] == EntryLines(g, k, v.m[k], 0)[0]
            && Joined(ls) != "" && !TokenLine(Joined(ls))
  {
    var keys := SortedKeys(v.m.Keys);
    assert v.m.Keys != {};
    k := keys[0];
    assert k in keys;
    assert Proper(g, v.m[k]);
    var ls := RootLines(g, v);
    assert ls == EntryLines(g, k, v.m[k], 0) + EntriesLines(g, v, keys[1..], 0);
    var tail := EntryTail(g, k, v.m[k], 0);
    hide EntryLines, EntriesLines, RootLines, TokenLine, QuoteIfNeeded;
    KeyedTextIsNoToken(g, k, tail, ls);
  }

  /** A text that opens with an entry line is no lone scalar. */
  lemma KeyedTextIsNoToken(g: GoLib, k: Text, tail: string, ls: seq<Line>)
    requires g.Lawful() && ':' in tail
    requires ls != [] && ls[0] == Line(0, QuoteIfNeeded(g, k) + tail)
    ensures Joined(ls) != "" && !TokenLine(Joined(ls))
  {
    hide TokenLine, QuoteIfNeeded;
    JoinedStarts(ls);
    var t := Joined(ls);
    hide Joined;
    var safeKey := QuoteIfNeeded(g, k);
    var more := t[|safeKey + tail|..];
    assert t == safeKey + (tail + more);
    KeyedIsNoToken(g, k, tail + more);
  }

  lemma FirstEntryIsNoRootList(g: GoLib, v: Value, k: Text, d: nat)
    requires g.Lawful() && v.Map? && Legible(g, v) && k in v.m && !v.m[k].Other?
    ensures var t := EntryLines(g, k, v.m[k], d)[0].text;
            t != "" && !(t[0] == '[' && t[|t| - 1] == ':')
  {
    var x := v.m[k];
    var tail := EntryTail(g, k, x, d);
    StringTokenText(g, k);
    var safeKey := QuoteIfNeeded(g, k);
    assert (safeKey + tail)[0] == safeKey[0];
    if safeKey[0] == '[' {
      assert Raw(k)[0] in Raw(k);
      if IsScalar(x) {
        ScalarTokenText(g, x);
        ScalarLineParts(g, safeKey, ScalarText(g, x));
      }
    }
  }

  /**
   * Encode accepts the value, and reading back what it printed gives the value, across nesting, tables,
   * scalar lists, numbered lists and empty containers.
   */
  lemma DecodeInvertsEncode(g: GoLib, v: Value)
    requires g.Lawful() && Legible(g, v)
    ensures Supported(v) && Decode(g, Encoded(g, v)) == v
  {
    LegibleSupported(g, v);
    if v.Map? {
      MapSurvives(g, v);
    } else if v.List? {
      ListSurvives(g, v);
    } else {
      ScalarSurvives(g, v);
    }
  }

  /** No two legible values share an encoding. */
  lemma EncodeInjective(g: GoLib, v: Value, w: Value)
    requires g.Lawful() && Legible(g, v) && Legible(g, w) && Encoded(g, v) == Encoded(g, w)
    ensures v == w
  {
    DecodeInvertsEncode(g, v);
    DecodeInvertsEncode(g, w);
  }

  // ---- shape ----

  ghost function CountAt(ls: seq<Line>, d: nat): nat {
    if ls == [] then 0 else (if ls[0].depth == d then 1 else 0) + CountAt(ls[1..], d)
  }

  ghost predicate AtLeast(ls: seq<Line>, d: nat) {
    forall i :: 0 <= i < |ls| ==> ls[i].depth >= d
  }

  lemma {:induction false} CountConcat(a: seq<Line>, b: seq<Line>, d: nat)
    ensures CountAt(a + b, d) == CountAt(a, d) + CountAt(b, d)
  {
    if a == [] {
      assert a + b == b;
    } else {
      assert (a + b)[1..] == a[1..] + b;
      CountConcat(a[1..], b, d);
    }
  }

  lemma {:induction false} CountDeeper(ls: seq<Line>, d: nat)
    requires AtLeast(ls, d + 1)
    ensures CountAt(ls, d) == 0
  {
    if ls != [] {
      CountDeeper(ls[1..], d);
    }
  }

  lemma {:induction false} CountFlat(ls: seq<Line>, d: nat)
    requires forall i :: 0 <= i < |ls| ==> ls[i].depth == d
    ensures CountAt(ls, d) == |ls|
  {
    if ls != [] {
      CountFlat(ls[1..], d);
    }
  }

  /** An entry is one line at its depth and everything else below it. */
  lemma {:induction false} EntryShape(g: GoLib, key: Text, v: Value, d: nat)
    requires Supported(v)
    ensures var ls := EntryLines(g, key, v, d);
            CountAt(ls, d) == 1 && AtLeast(ls, d)
    decreases v, 3, 0
  {
    var ls := EntryLines(g, key, v, d);
    if v.Map? {
      var body := EntriesLines(g, v, SortedKeys(v.m.Keys), d + 1);
      EntriesShape(g, v, SortedKeys(v.m.Keys), d + 1);
      assert ls[1..] == body;
      hide EntryLines;
      CountDeeper(body, d);
    } else if v.List? {
      SliceShape(g, QuoteIfNeeded(g, key), v, d);
      hide SliceLines;
      CountDeeper(ls[1..], d);
    } else {
      assert ls[1..] == [];
    }
  }

  lemma {:induction false} EntriesShape(g: GoLib, v: Value, keys: seq<Text>, d: nat)
    requires v.Map? && Supported(v) && forall k | k in keys :: k in v.m
    ensures var ls := EntriesLines(g, v, keys, d);
            CountAt(ls, d) == |keys| && AtLeast(ls, d)
    decreases v, 1, |keys|
  {
    hide EntryLines;
    if keys != [] {
      assert keys[0] in keys;
      EntryShape(g, keys[0], v.m[keys[0]], d);
      EntriesShape(g, v, keys[1..], d);
      CountConcat(EntryLines(g, keys[0], v.m[keys[0]], d), EntriesLines(g, v, keys[1..], d), d);
    }
  }

  /** The [n] header of a slice is followed by exactly n direct entries one level deeper. */
  lemma {:induction false} SliceShape(g: GoLib, safeKey: string, v: Value, d: nat)
    requires v.List? && Supported(v)
    ensures var ls := SliceLines(g, safeKey, v, d);
            && (exists tail :: ls[0].text == safeKey + "[" + Decimal(|v.items|) + tail)
            && AtLeast(ls[1..], d + 1) && CountAt(ls[1..], d + 1) == |v.items|
    decreases v, 2, 0
  {
    var items := v.items;
    var ls := SliceLines(g, safeKey, v, d);
    SliceHead(g, safeKey, v, d);
    if UniformTable(items) {
      var fields := SortedKeys(items[0].m.Keys);
      UniformIsTabular(items, fields);
      assert ls[1..] == RowLines(g, items, fields, d + 1);
      hide SliceLines, RowLines;
      RowDepths(g, items, fields, d + 1);
      CountFlat(ls[1..], d + 1);
    } else if AllScalar(items) {
      assert ls[1..] == ItemLines(g, items, d + 1);
      hide SliceLines, ItemLines;
      ItemDepths(g, items, d + 1);
      CountFlat(ls[1..], d + 1);
    } else {
      assert ls[1..] == NumberedLines(g, v, 0, d + 1);
      hide SliceLines, NumberedLines;
      NumberedShape(g, v, 0, d + 1);
    }
  }

  lemma SliceHead(g: GoLib, safeKey: string, v: Value, d: nat)
    requires v.List?
    ensures exists tail :: SliceLines(g, safeKey, v, d)[0].text == safeKey + "[" + Decimal(|v.items|) + tail
  {
    hide Decimal, AllScalarValues, QuotedAll, Join, RowLines, ItemLines, NumberedLines, SortedKeys;
    var front := safeKey + "[" + Decimal(|v.items|);
    if UniformTable(v.items) {
      var cells := Join(QuotedAll(g, SortedKeys(v.items[0].m.Keys)));
      assert SliceLines(g, safeKey, v, d)[0].text == front + ("]{" + cells + "}:");
    } else {
      assert SliceLines(g, safeKey, v, d)[0].text == front + "]:";
    }
  }

  lemma {:induction false} RowDepths(g: GoLib, items: seq<Value>, fields: seq<Text>, d: nat)
    requires Tabular(items, fields)
    ensures forall i :: 0 <= i < |items| ==> RowLines(g, items, fields, d)[i].depth == d
  {
    if items != [] {
      RowDepths(g, items[1..], fields, d);
    }
  }

  lemma {:induction false} ItemDepths(g: GoLib, items: seq<Value>, d: nat)
    requires AllScalar(items)
    ensures forall i :: 0 <= i < |items| ==> ItemLines(g, items, d)[i].depth == d
  {
    if items != [] {
      ItemDepths(g, items[1..], d);
    }
  }

  lemma {:induction false} NumberedShape(g: GoLib, v: Value, i: nat, d: nat)
    requires v.List? && Supported(v) && i <= |v.items|
    ensures var ls := NumberedLines(g, v, i, d);
            CountAt(ls, d) == |v.items| - i && AtLeast(ls, d)
    decreases v, 1, |v.items| - i
  {
    hide EntryLines;
    if i < |v.items| {
      EntryShape(g, Lift(Decimal(i)), v.items[i], d);
      NumberedShape(g, v, i + 1, d);
      CountConcat(EntryLines(g, Lift(Decimal(i)), v.items[i], d), NumberedLines(g, v, i + 1, d), d);
    }
  }

  // ---- size ----

  /** The lines an entry takes: its own, and one per row, item or nested line. */
  ghost function Size(v: Value): nat
    decreases v, 1, 0
  {
    if v.Map? then 1 + SizeOfKeys(v, SortedKeys(v.m.Keys))
    else if !v.List? then 1
    else if UniformTable(v.items) || AllScalar(v.items) then 1 + |v.items|
    else 1 + SizeFrom(v, 0)
  }

  ghost function SizeOfKeys(v: Value, keys: seq<Text>): nat
    requires v.Map? && forall k | k in keys :: k in v.m
    decreases v, 0, |keys|
  {
    if keys == [] then 0
    else
      assert keys[0] in keys;
      Size(v.m[keys[0]]) + SizeOfKeys(v, keys[1..])
  }

  ghost function SizeFrom(v: Value, i: nat): nat
    requires v.List? && i <= |v.items|
    decreases v, 0, |v.items| - i
  {
    if i == |v.items| then 0 else Size(v.items[i]) + SizeFrom(v, i + 1)
  }

  lemma {:induction false} EntrySize(g: GoLib, key: Text, v: Value, d: nat)
    requires Supported(v)
    ensures |EntryLines(g, key, v, d)| == Size(v)
    decreases v, 3, 0
  {
    hide QuoteIfNeeded;
    if v.Map? {
      EntriesSize(g, v, SortedKeys(v.m.Keys), d + 1);
    } else if v.List? {
      SliceSize(g, QuoteIfNeeded(g, key), v, d);
    }
  }

  lemma {:induction false} EntriesSize(g: GoLib, v: Value, keys: seq<Text>, d: nat)
    requires v.Map? && Supported(v) && forall k | k in keys :: k in v.m
    ensures |EntriesLines(g, v, keys, d)| == SizeOfKeys(v, keys)
    decreases v, 1, |keys|
  {
    hide EntryLines, Size;
    if keys != [] {
      assert keys[0] in keys;
      EntrySize(g, keys[0], v.m[keys[0]], d);
      EntriesSize(g, v, keys[1..], d);
    }
  }

  lemma {:induction false} SliceSize(g: GoLib, safeKey: string, v: Value, d: nat)
    requires v.List? && Supported(v)
    ensures |SliceLines(g, safeKey, v, d)| == Size(v)
    decreases v, 2, 0
  {
    if UniformTable(v.items) {
      UniformIsTabular(v.items, SortedKeys(v.items[0].m.Keys));
    } else if !AllScalar(v.items) {
      NumberedSize(g, v, 0, d + 1);
    }
  }

  lemma {:induction false} NumberedSize(g: GoLib, v: Value, i: nat, d: nat)
    requires v.List? && Supported(v) && i <= |v.items|
    ensures |NumberedLines(g, v, i, d)| == SizeFrom(v, i)
    decreases v, 1, |v.items| - i
  {
    hide EntryLines, Size;
    if i < |v.items| {
      EntrySize(g, Lift(Decimal(i)), v.items[i], d);
      NumberedSize(g, v, i + 1, d);
    }
  }

  /** The text of a list has as many lines as its size says; a map at the top has no line of its own. */
  lemma LineCount(g: GoLib, v: Value)
    requires g.Lawful() && Proper(g, v) && Container(v) && v != Map(map[])
    ensures |LinesOf(Encoded(g, v))| == Size(v) - if v.Map? then 1 else 0
  {
    hide LinesOf, Size, EntriesLines, SliceLines;
    ProperSupported(g, v);
    RootClean(g, v);
    if v.Map? {
      var k := MapHead(g, v);
      EntriesSize(g, v, SortedKeys(v.m.Keys), 0);
      MapSize(v);
    } else {
      SliceSize(g, "", v, 0);
    }
    LinesSurvive(RootLines(g, v));
  }

  lemma MapSize(v: Value)
    requires v.Map?
    ensures Size(v) == 1 + SizeOfKeys(v, SortedKeys(v.m.Keys))
  {
  }
}
