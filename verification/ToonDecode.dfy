/**
 * A reader for TOON text, written as a specification of what the encoder's output means,
 * and the proof that it recovers every value whose container keys are free of bare brackets.
 */
module ToonDecode {
  import opened Numerals
  import opened ToonText
  import opened ToonOrder
  import opened ToonEncode

  // ---- the reader ----

  function ScalarOf(g: GoLib, k: Token): Value {
    match k
    case Quoted(s) => Str(s)
    case Plain(w) =>
      if w == "null" then Null
      else if w == "true" then Bool(true)
      else if w == "false" then Bool(false)
      else if g.parsesFloat(w) then Num(w)
      else Str(Lift(w))
  }

  /** The comma-separated tokens of a row or a field list. */
  function Cells(t: string): seq<Token>
    decreases |t|
  {
    if t == "" then []
    else
      var (k, r) := ScanToken(t, ',');
      if r == "" || |r| > |t| then [k] else [k] + Cells(r[1..])
  }

  function TextsOf(ks: seq<Token>): seq<Text> {
    if ks == [] then [] else [TextOf(ks[0])] + TextsOf(ks[1..])
  }

  function ScalarsOf(g: GoLib, ks: seq<Token>): seq<Value> {
    if ks == [] then [] else [ScalarOf(g, ks[0])] + ScalarsOf(g, ks[1..])
  }

  function Zip(fields: seq<Text>, vals: seq<Value>): map<Text, Value> {
    if fields == [] || vals == [] then map[] else Zip(fields[1..], vals[1..])[fields[0] := vals[0]]
  }

  datatype Header =
    | Block(key: Text)
    | Slice(key: Text, n: nat)
    | Table(key: Text, n: nat, fields: seq<Text>)

  /** Reads a line that ends with a colon. */
  function ParseHeader(t: string): Header
    requires t != ""
  {
    var (k, r) := ScanToken(t[..|t| - 1], '[');
    var key := TextOf(k);
    if |r| < 2 then Block(key)
    else if r[|r| - 1] == ']' then Slice(key, DecimalValue(r[1..|r| - 1]))
    else Table(key, TableSize(r), TableFields(r))
  }

  /** The count in the brackets at the head of `r`. */
  function TableSize(r: string): nat {
    var e := Span(r, ']');
    if e == 0 then 0 else DecimalValue(r[1..e])
  }

  /** The field list between the brackets' end and the closing brace. */
  function TableFields(r: string): seq<Text> {
    var e := Span(r, ']');
    if e + 3 <= |r| then TextsOf(Cells(r[e + 2..|r| - 1])) else []
  }

  function ParseRows(g: GoLib, ls: seq<Line>, n: nat, fields: seq<Text>): seq<Value> {
    if n == 0 || ls == [] then []
    else [Map(Zip(fields, ScalarsOf(g, Cells(ls[0].text))))] + ParseRows(g, ls[1..], n - 1, fields)
  }

  function ParseItems(g: GoLib, ls: seq<Line>, n: nat): seq<Value> {
    if n == 0 || ls == [] then []
    else [ScalarOf(g, ScanToken(ls[0].text, ':').0)] + ParseItems(g, ls[1..], n - 1)
  }

  /** A line holding one token and nothing else. */
  predicate TokenLine(t: string) {
    ScanToken(t, ':').1 == ""
  }

  /** All but the first n lines. */
  function Drop(ls: seq<Line>, n: nat): (r: seq<Line>)
    ensures |r| <= |ls|
    ensures n <= |ls| ==> r == ls[n..]
  {
    if n <= |ls| then ls[n..] else []
  }

  function ParseSlice(g: GoLib, ls: seq<Line>, n: nat, d: nat): (r: (seq<Value>, seq<Line>))
    ensures |r.1| <= |ls|
    decreases |ls|, 2
  {
    if n == 0 || ls == [] then ([], ls)
    else if TokenLine(ls[0].text) then (ParseItems(g, ls, n), Drop(ls, n))
    else ParseNumbered(g, ls, n, d)
  }

  /** n entries, whose keys are only their positions. */
  function ParseNumbered(g: GoLib, ls: seq<Line>, n: nat, d: nat): (r: (seq<Value>, seq<Line>))
    ensures |r.1| <= |ls|
    decreases |ls|, 1
  {
    if n == 0 || ls == [] then ([], ls)
    else
      var (_, v, rest) := ParseEntry(g, ls, d);
      var (vs, rest') := ParseNumbered(g, rest, n - 1, d);
      ([v] + vs, rest')
  }

  /** One entry: a scalar line, or a header and everything below it. */
  function ParseEntry(g: GoLib, ls: seq<Line>, d: nat): (r: (Text, Value, seq<Line>))
    requires ls != []
    ensures |r.2| < |ls|
    decreases |ls|, 0
  {
    var t := ls[0].text;
    var below := ls[1..];
    if t == "" then ([], Null, below)
    else if t[|t| - 1] != ':' then
      var (k, r) := ScanToken(t, ':');
      (TextOf(k), if |r| < 2 then Null else ScalarOf(g, ScanToken(r[2..], ':').0), below)
    else
      match ParseHeader(t)
      case Block(key) =>
        var (m, rest) := ParseEntries(g, below, d + 1);
        (key, Map(m), rest)
      case Slice(key, n) =>
        var (vs, rest) := ParseSlice(g, below, n, d + 1);
        (key, List(vs), rest)
      case Table(key, n, fields) =>
        (key, List(ParseRows(g, below, n, fields)), Drop(below, n))
  }

  /** Entries for as long as lines stand at depth d. */
  function ParseEntries(g: GoLib, ls: seq<Line>, d: nat): (r: (map<Text, Value>, seq<Line>))
    ensures |r.1| <= |ls|
    decreases |ls|, 1
  {
    if ls == [] || ls[0].depth != d then (map[], ls)
    else
      var (k, v, rest) := ParseEntry(g, ls, d);
      var (m, rest') := ParseEntries(g, rest, d);
      (m[k := v], rest')
  }

  function Spaces(t: string): (n: nat)
    ensures n <= |t|
  {
    if t == "" || t[0] != ' ' then 0 else 1 + Spaces(t[1..])
  }

  function LineOf(t: string): Line {
    Line(Spaces(t) / 2, t[Spaces(t)..])
  }

  function LinesOf(t: string): seq<Line>
    decreases |t|
  {
    var n := Span(t, '\n');
    if n == |t| then [LineOf(t)] else [LineOf(t[..n])] + LinesOf(t[n + 1..])
  }

  function Decode(g: GoLib, t: string): Value {
    if t == "" then Map(map[])
    else if TokenLine(t) then ScalarOf(g, ScanToken(t, ':').0)
    else
      var ls := LinesOf(t);
      var head := ls[0].text;
      if head != "" && head[0] == '[' && head[|head| - 1] == ':' then ParseEntry(g, ls, 0).1
      else Map(ParseEntries(g, ls, 0).0)
  }

  // ---- the values it recovers ----

  /** A key that is quoted, or bare without a bracket. */
  predicate KeyFits(g: GoLib, k: Text) {
    k == [] || NeedsQuote(g, k) || '[' !in Raw(k)
  }

  predicate Container(v: Value) {
    v.Map? || v.List?
  }

  /** Supported values whose numbers Go can print and whose container keys fit. */
  ghost predicate Legible(g: GoLib, v: Value) {
    match v
    case Num(t) => g.printsNumber(t)
    case Map(m) => forall k | k in m :: Legible(g, m[k]) && (Container(m[k]) ==> KeyFits(g, k))
    case List(items) => forall i | 0 <= i < |items| :: Legible(g, items[i])
    case Other => false
    case _ => true
  }

  lemma {:induction false} LegibleSupported(g: GoLib, v: Value)
    requires Legible(g, v)
    ensures Supported(v)
  {
    match v {
      case Map(m) => forall k | k in m ensures Supported(m[k]) { LegibleSupported(g, m[k]); }
      case List(items) => forall i | 0 <= i < |items| ensures Supported(items[i]) { LegibleSupported(g, items[i]); }
      case _ =>
    }
  }

  // ---- tokens ----

  ghost predicate Printable(g: GoLib, v: Value) {
    IsScalar(v) && (v.Num? ==> g.printsNumber(v.text))
  }

  lemma NumberChars(g: GoLib, t: string)
    requires g.Lawful() && g.printsNumber(t)
    ensures t != "" && !Reserved(t) && g.parsesFloat(t)
    ensures forall i :: 0 <= i < |t| ==> !Structural(t[i]) && !Control(t[i]) && !Blank(t[i])
  {
    assert NumberShaped(t);
    forall i | 0 <= i < |t| ensures !Structural(t[i]) && !Control(t[i]) && !Blank(t[i]) {
      assert t[i] in t;
    }
    assert t[0] in t;
  }

  /** A printed scalar reads back as itself in front of a comma, a colon or the end. */
  lemma ScanScalar(g: GoLib, v: Value, stop: char, rest: string)
    requires g.Lawful() && Printable(g, v)
    requires stop in [',', ':'] && (rest == "" || rest[0] == stop)
    ensures ScanToken(ScalarText(g, v) + rest, stop).1 == rest
    ensures ScalarOf(g, ScanToken(ScalarText(g, v) + rest, stop).0) == v
  {
    hide ScanToken, ScanQuoted, EscapeAll, Quote, Raw, Control;
    match v {
      case Null => ScanPlain("null", stop, rest);
      case Bool(b) => ScanPlain(if b then "true" else "false", stop, rest);
      case Num(t) =>
        NumberChars(g, t);
        ScanPlain(t, stop, rest);
      case Str(s) =>
        if s != [] && !NeedsQuote(g, s) {
          PlainChars(g, s);
        }
        ScanStringToken(g, s, stop, rest);
    }
  }

  lemma ScalarTokenText(g: GoLib, v: Value)
    requires g.Lawful() && Printable(g, v)
    ensures TokenText(ScalarText(g, v))
  {
    match v {
      case Num(t) => NumberChars(g, t);
      case Str(s) => StringTokenText(g, s);
      case _ =>
    }
  }

  /** A row is read token by token. */
  lemma CellsCons(first: string, rest: string, k: Token)
    requires first != "" && ScanToken(first + rest, ',') == (k, rest)
    ensures Cells(first + rest) == [k] + if rest == "" then [] else Cells(rest[1..])
  {
    hide ScanToken;
  }

  lemma JoinCons(ts: seq<string>)
    requires ts != []
    ensures Join(ts) == ts[0] + JoinRest(ts)
  {
  }

  /** What follows the first text of a join. */
  function JoinRest(ts: seq<string>): (r: string)
    requires ts != []
    ensures r == "" || (r[0] == ',' && |ts| > 1 && r[1..] == Join(ts[1..]))
    ensures r == "" <==> |ts| == 1
  {
    if |ts| == 1 then "" else "," + Join(ts[1..])
  }

  /** A printed key reads back as itself in front of a comma or the end. */
  lemma KeyCell(g: GoLib, key: Text, rest: string)
    requires g.Lawful() && (rest == "" || rest[0] == ',')
    ensures QuoteIfNeeded(g, key) != ""
    ensures ScanToken(QuoteIfNeeded(g, key) + rest, ',') == (TokenFor(g, key), rest)
    ensures TextOf(TokenFor(g, key)) == key
  {
    hide ScanToken, NeedsQuote;
    if key != [] && !NeedsQuote(g, key) {
      PlainChars(g, key);
    }
    StringTokenText(g, key);
    ScanStringToken(g, key, ',', rest);
  }

  lemma {:induction false} CellsOfKeys(g: GoLib, ks: seq<Text>)
    requires g.Lawful()
    ensures TextsOf(Cells(Join(QuotedAll(g, ks)))) == ks
  {
    hide ScanToken, NeedsQuote, QuoteIfNeeded, TokenFor, TokenText, JoinRest;
    if ks != [] {
      var ts := QuotedAll(g, ks);
      assert ts[1..] == QuotedAll(g, ks[1..]);
      JoinCons(ts);
      KeyCell(g, ks[0], JoinRest(ts));
      CellsCons(ts[0], JoinRest(ts), TokenFor(g, ks[0]));
      CellsOfKeys(g, ks[1..]);
      assert ks == [ks[0]] + ks[1..];
    }
  }

  ghost function Values(m: map<Text, Value>, fields: seq<Text>): (vs: seq<Value>)
    requires HasFields(m, fields)
    ensures |vs| == |fields|
  {
    if fields == [] then []
    else
      assert fields[0] in fields;
      [m[fields[0]]] + Values(m, fields[1..])
  }

  lemma {:induction false} CellsOfRow(g: GoLib, m: map<Text, Value>, fields: seq<Text>)
    requires g.Lawful() && HasFields(m, fields) && forall f | f in fields :: Printable(g, m[f])
    ensures ScalarsOf(g, Cells(Join(RowTexts(g, m, fields)))) == Values(m, fields)
  {
    if fields != [] {
      assert fields[0] in fields;
      var v := m[fields[0]];
      var ts := RowTexts(g, m, fields);
      assert ts[1..] == RowTexts(g, m, fields[1..]);
      JoinCons(ts);
      ScalarTokenText(g, v);
      ScanScalar(g, v, ',', JoinRest(ts));
      hide ScanToken, Join, ScalarText, ScalarOf;
      CellsCons(ts[0], JoinRest(ts), ScanToken(ts[0] + JoinRest(ts), ',').0);
      CellsOfRow(g, m, fields[1..]);
      hide Cells;
    }
  }

  lemma {:induction false} ZipValues(m: map<Text, Value>, fields: seq<Text>)
    requires HasFields(m, fields) && Sorted(fields)
    ensures Zip(fields, Values(m, fields)) == map k | k in fields :: m[k]
  {
    if fields != [] {
      assert fields[0] in fields;
      ZipValues(m, fields[1..]);
      assert fields == [fields[0]] + fields[1..];
      LessTotal(fields[0], fields[0]);
    }
  }

  // ---- headers ----

  /** What a printed key, or no key at the top level, reads back as in front of a bracket. */
  ghost predicate HeaderKey(g: GoLib, safeKey: string, key: Text) {
    (safeKey == "" && key == []) || (safeKey == QuoteIfNeeded(g, key) && KeyFits(g, key))
  }

  lemma ScanHeaderKey(g: GoLib, safeKey: string, key: Text, rest: string)
    requires g.Lawful() && HeaderKey(g, safeKey, key)
    requires rest == "" || rest[0] == '['
    ensures ScanToken(safeKey + rest, '[').1 == rest
    ensures TextOf(ScanToken(safeKey + rest, '[').0) == key
  {
    if safeKey == "" {
      assert safeKey + rest == rest;
    } else {
      ScanStringToken(g, key, '[', rest);
    }
  }

  lemma BlockHeader(g: GoLib, key: Text)
    requires g.Lawful() && KeyFits(g, key)
    ensures ParseHeader(BlockLine(QuoteIfNeeded(g, key))) == Block(key)
    ensures EndsHeader(BlockLine(QuoteIfNeeded(g, key)))
  {
    var safeKey := QuoteIfNeeded(g, key);
    var t := BlockLine(safeKey);
    assert t[..|t| - 1] == safeKey + "";
    ScanHeaderKey(g, safeKey, key, "");
  }

  lemma SliceHeaderParses(g: GoLib, safeKey: string, key: Text, n: nat)
    requires g.Lawful() && HeaderKey(g, safeKey, key)
    ensures ParseHeader(SliceHeader(safeKey, n)) == Slice(key, n)
    ensures EndsHeader(SliceHeader(safeKey, n))
  {
    hide ScanToken, TextOf, Decimal, DecimalValue, HeaderKey;
    var r := "[" + Decimal(n) + "]";
    var t := SliceHeader(safeKey, n);
    assert t[..|t| - 1] == safeKey + r;
    ScanHeaderKey(g, safeKey, key, r);
    assert r[1..|r| - 1] == Decimal(n);
    DecimalRoundTrip(n);
  }

  lemma TablePartsParse(g: GoLib, n: nat, fields: seq<Text>)
    requires g.Lawful()
    ensures var r := "[" + Decimal(n) + "]{" + Join(QuotedAll(g, fields)) + "}";
            TableSize(r) == n && TableFields(r) == fields
  {
    var cells := Join(QuotedAll(g, fields));
    var num := "[" + Decimal(n);
    var tail := "]{" + cells + "}";
    var r := "[" + Decimal(n) + "]{" + cells + "}";
    assert r == num + tail;
    forall i | 0 <= i < |num| ensures num[i] != ']' {
      if i > 0 { DecimalPlain(n, i - 1); }
    }
    SpanOf(num, ']', tail);
    assert r[1..|num|] == Decimal(n);
    assert r[|num| + 2..|r| - 1] == cells;
    CellsOfKeys(g, fields);
    DecimalRoundTrip(n);
  }

  lemma TableHeaderParses(g: GoLib, safeKey: string, key: Text, n: nat, fields: seq<Text>)
    requires g.Lawful() && HeaderKey(g, safeKey, key)
    ensures ParseHeader(TableHeader(safeKey, n, QuotedAll(g, fields))) == Table(key, n, fields)
    ensures EndsHeader(TableHeader(safeKey, n, QuotedAll(g, fields)))
  {
    hide ScanToken, TextOf, Decimal, TableSize, TableFields, Join, HeaderKey;
    var r := "[" + Decimal(n) + "]{" + Join(QuotedAll(g, fields)) + "}";
    var t := TableHeader(safeKey, n, QuotedAll(g, fields));
    assert t[..|t| - 1] == safeKey + r;
    ScanHeaderKey(g, safeKey, key, r);
    TablePartsParse(g, n, fields);
  }

  // ---- entries ----

  /** Nothing in `rest` belongs to a block at depth d. */
  ghost predicate Below(rest: seq<Line>, d: nat) {
    rest == [] || rest[0].depth < d
  }

  lemma EntryOfBlock(g: GoLib, ls: seq<Line>, d: nat, key: Text)
    requires ls != [] && EndsHeader(ls[0].text) && ParseHeader(ls[0].text) == Block(key)
    ensures var (m, rest) := ParseEntries(g, ls[1..], d + 1);
            ParseEntry(g, ls, d) == (key, Map(m), rest)
  {
    hide ParseHeader, ParseEntries;
  }

  lemma EntryOfSlice(g: GoLib, ls: seq<Line>, d: nat, key: Text, n: nat)
    requires ls != [] && EndsHeader(ls[0].text) && ParseHeader(ls[0].text) == Slice(key, n)
    ensures var (vs, rest) := ParseSlice(g, ls[1..], n, d + 1);
            ParseEntry(g, ls, d) == (key, List(vs), rest)
  {
    hide ParseHeader, ParseSlice;
  }

  lemma EntryOfTable(g: GoLib, ls: seq<Line>, d: nat, key: Text, n: nat, fields: seq<Text>)
    requires ls != [] && EndsHeader(ls[0].text) && ParseHeader(ls[0].text) == Table(key, n, fields)
    ensures ParseEntry(g, ls, d) == (key, List(ParseRows(g, ls[1..], n, fields)), Drop(ls[1..], n))
  {
    hide ParseHeader, ParseRows;
  }

  lemma EntriesCons(g: GoLib, ls: seq<Line>, d: nat, k: Text, v: Value, rest: seq<Line>)
    requires ls != [] && ls[0].depth == d && ParseEntry(g, ls, d) == (k, v, rest)
    ensures var (m, rest') := ParseEntries(g, rest, d);
            ParseEntries(g, ls, d) == (m[k := v], rest')
  {
    hide ParseEntry;
  }

  lemma NumberedCons(g: GoLib, ls: seq<Line>, n: nat, d: nat, k: Text, v: Value, rest: seq<Line>)
    requires ls != [] && n > 0 && ParseEntry(g, ls, d) == (k, v, rest)
    ensures var (vs, rest') := ParseNumbered(g, rest, n - 1, d);
            ParseNumbered(g, ls, n, d) == ([v] + vs, rest')
  {
    hide ParseEntry;
  }

  predicate EndsHeader(t: string) {
    t != "" && t[|t| - 1] == ':'
  }

  lemma {:induction false} EntryRoundTrip(g: GoLib, key: Text, v: Value, d: nat, rest: seq<Line>)
    requires g.Lawful() && Legible(g, v) && (Container(v) ==> KeyFits(g, key))
    requires Below(rest, d + 1)
    ensures ParseEntry(g, EntryLines(g, key, v, d) + rest, d) == (key, v, rest)
    decreases v, 3, 0
  {
    var safeKey := QuoteIfNeeded(g, key);
    match v {
      case Map(m) => BlockRoundTrip(g, key, v, d, rest);
      case List(_) => SliceRoundTrip(g, safeKey, key, v, d, rest);
      case _ => ScalarRoundTrip(g, key, v, d, rest);
    }
  }

  lemma ScalarLineParts(g: GoLib, safeKey: string, text: string)
    requires text != "" && text[|text| - 1] != ':'
    ensures var t := ScalarLine(safeKey, text);
            t != "" && !EndsHeader(t) && t == safeKey + (": " + text)
    ensures (": " + text)[2..] == text
  {
  }

  lemma ScalarRoundTrip(g: GoLib, key: Text, v: Value, d: nat, rest: seq<Line>)
    requires g.Lawful() && Printable(g, v)
    ensures ParseEntry(g, [Line(d, ScalarLine(QuoteIfNeeded(g, key), ScalarText(g, v)))] + rest, d) == (key, v, rest)
  {
    hide ScalarLine, ScalarText, QuoteIfNeeded, ScanToken, TextOf, ScalarOf;
    var text := ScalarText(g, v);
    var t := ScalarLine(QuoteIfNeeded(g, key), text);
    assert ([Line(d, t)] + rest)[1..] == rest;
    ScalarTokenText(g, v);
    ScalarLineParts(g, QuoteIfNeeded(g, key), text);
    if key != [] && !NeedsQuote(g, key) {
      PlainChars(g, key);
    }
    ScanStringToken(g, key, ':', ": " + text);
    ScanScalar(g, v, ':', "");
    assert text + "" == text;
  }

  lemma {:induction false} BlockRoundTrip(g: GoLib, key: Text, v: Value, d: nat, rest: seq<Line>)
    requires g.Lawful() && v.Map? && Legible(g, v) && KeyFits(g, key)
    requires Below(rest, d + 1)
    ensures ParseEntry(g, EntryLines(g, key, v, d) + rest, d) == (key, v, rest)
    decreases v, 2, 0
  {
    hide EntryLines, EntriesLines, ParseEntry, ParseEntries, ParseHeader, EndsHeader, Legible, KeyFits, QuoteIfNeeded;
    hide Below, Sorted, BlockLine;
    var keys := SortedKeys(v.m.Keys);
    var body := EntriesLines(g, v, keys, d + 1);
    var header := BlockLine(QuoteIfNeeded(g, key));
    BlockLines(g, key, v, d);
    var ls := EntryLines(g, key, v, d) + rest;
    assert ls[0] == Line(d, header) && ls[1..] == body + rest;
    BlockHeader(g, key);
    EntryOfBlock(g, ls, d, key);
    EntriesRoundTrip(g, v, keys, d + 1, rest);
    assert (map k | k in keys :: v.m[k]) == v.m;
  }

  lemma {:induction false} EntriesRoundTrip(g: GoLib, v: Value, keys: seq<Text>, d: nat, rest: seq<Line>)
    requires g.Lawful() && v.Map? && Legible(g, v)
    requires Sorted(keys) && forall k | k in keys :: k in v.m
    requires Below(rest, d)
    ensures ParseEntries(g, EntriesLines(g, v, keys, d) + rest, d) == (map k | k in keys :: v.m[k], rest)
    decreases v, 1, |keys|
  {
    hide EntryLines, ParseEntry, Legible;
    if keys == [] {
      assert EntriesLines(g, v, keys, d) + rest == rest;
    } else {
      var k := keys[0];
      assert k in keys;
      ChildLegible(g, v, k);
      var first := EntryLines(g, k, v.m[k], d);
      var others := EntriesLines(g, v, keys[1..], d);
      assert EntriesLines(g, v, keys, d) == first + others;
      EntriesBelow(g, v, keys[1..], d, rest);
      hide EntriesLines, ParseEntries, Sorted, Below;
      assert (first + others) + rest == first + (others + rest);
      EntryRoundTrip(g, k, v.m[k], d, others + rest);
      EntriesCons(g, first + (others + rest), d, k, v.m[k], others + rest);
      SortedTail(keys);
      EntriesRoundTrip(g, v, keys[1..], d, rest);
      MapOfCons(v.m, keys);
    }
  }

  lemma SortedTail(keys: seq<Text>)
    requires keys != [] && Sorted(keys)
    ensures Sorted(keys[1..])
  {
  }

  lemma MapOfCons(m: map<Text, Value>, keys: seq<Text>)
    requires keys != [] && forall k | k in keys :: k in m
    ensures (map k | k in keys[1..] :: m[k])[keys[0] := m[keys[0]]] == map k | k in keys :: m[k]
  {
    assert keys == [keys[0]] + keys[1..];
  }

  lemma ChildLegible(g: GoLib, v: Value, k: Text)
    requires v.Map? && Legible(g, v) && k in v.m
    ensures Legible(g, v.m[k]) && !v.m[k].Other? && (Container(v.m[k]) ==> KeyFits(g, k))
  {
  }

  lemma EntriesBelow(g: GoLib, v: Value, keys: seq<Text>, d: nat, rest: seq<Line>)
    requires v.Map? && Legible(g, v) && forall k | k in keys :: k in v.m
    requires Below(rest, d)
    ensures Below(EntriesLines(g, v, keys, d) + rest, d + 1)
  {
    hide EntryLines;
    if keys == [] {
      assert EntriesLines(g, v, keys, d) + rest == rest;
    } else {
      assert keys[0] in keys;
      assert !v.m[keys[0]].Other?;
    }
  }

  lemma {:induction false} SliceRoundTrip(g: GoLib, safeKey: string, key: Text, v: Value, d: nat, rest: seq<Line>)
    requires g.Lawful() && v.List? && Legible(g, v) && HeaderKey(g, safeKey, key)
    requires Below(rest, d + 1)
    ensures ParseEntry(g, SliceLines(g, safeKey, v, d) + rest, d) == (key, v, rest)
    decreases v, 2, 0
  {
    var items := v.items;
    if UniformTable(items) {
      TableRoundTrip(g, safeKey, key, v, d, rest);
    } else {
      var header := SliceHeader(safeKey, |items|);
      var body := if AllScalar(items) then ItemLines(g, items, d + 1) else NumberedLines(g, v, 0, d + 1);
      assert SliceLines(g, safeKey, v, d) == [Line(d, header)] + body;
      hide SliceLines, ItemLines, NumberedLines, SliceHeader, ParseEntry, ParseSlice, ParseHeader;
      var ls := SliceLines(g, safeKey, v, d) + rest;
      assert ls[0] == Line(d, header) && ls[1..] == body + rest;
      SliceHeaderParses(g, safeKey, key, |items|);
      EntryOfSlice(g, ls, d, key, |items|);
      if AllScalar(items) {
        ItemsSliceRoundTrip(g, items, d + 1, rest);
      } else {
        NumberedSliceRoundTrip(g, v, d + 1, rest);
      }
    }
  }

  lemma ItemsSliceRoundTrip(g: GoLib, items: seq<Value>, d: nat, rest: seq<Line>)
    requires g.Lawful() && AllScalar(items) && Legible(g, List(items))
    ensures ParseSlice(g, ItemLines(g, items, d) + rest, |items|, d) == (items, rest)
  {
    var ls := ItemLines(g, items, d) + rest;
    if items == [] {
      assert ls == rest;
    } else {
      ScalarTokenText(g, items[0]);
      assert ls[0].text == ScalarText(g, items[0]) + "";
      ScanScalar(g, items[0], ':', "");
      hide ScanToken, ItemLines, ScalarText, ParseItems;
      ItemsRoundTrip(g, items, d, rest);
      assert ls[|items|..] == rest;
    }
  }

  lemma {:induction false} NumberedSliceRoundTrip(g: GoLib, v: Value, d: nat, rest: seq<Line>)
    requires g.Lawful() && v.List? && !AllScalar(v.items) && Legible(g, v)
    requires Below(rest, d)
    ensures ParseSlice(g, NumberedLines(g, v, 0, d) + rest, |v.items|, d) == (v.items, rest)
    decreases v, 1, |v.items| + 1
  {
    hide EntryLines, ParseNumbered;
    var ls := NumberedLines(g, v, 0, d) + rest;
    assert !v.items[0].Other?;
    assert ls[0] == EntryLines(g, Lift(Decimal(0)), v.items[0], d)[0];
    NumberedLineIsNoToken(g, v.items[0], d);
    hide TokenLine, NumberedLines;
    NumberedRoundTrip(g, v, 0, d, rest);
    assert v.items[0..] == v.items;
  }

  lemma {:induction false} ItemsRoundTrip(g: GoLib, items: seq<Value>, d: nat, rest: seq<Line>)
    requires g.Lawful() && AllScalar(items) && forall i | 0 <= i < |items| :: Printable(g, items[i])
    ensures ParseItems(g, ItemLines(g, items, d) + rest, |items|) == items
  {
    hide ScanToken, ScalarText, ScalarOf;
    if items != [] {
      var ls := ItemLines(g, items, d) + rest;
      assert ls[0].text == ScalarText(g, items[0]) + "";
      assert ls[1..] == ItemLines(g, items[1..], d) + rest;
      ScanScalar(g, items[0], ':', "");
      ItemsRoundTrip(g, items[1..], d, rest);
    }
  }

  lemma {:induction false} TableRoundTrip(g: GoLib, safeKey: string, key: Text, v: Value, d: nat, rest: seq<Line>)
    requires g.Lawful() && v.List? && UniformTable(v.items) && Legible(g, v) && HeaderKey(g, safeKey, key)
    ensures ParseEntry(g, SliceLines(g, safeKey, v, d) + rest, d) == (key, v, rest)
  {
    var items := v.items;
    var fields := SortedKeys(items[0].m.Keys);
    UniformIsTabular(items, fields);
    var body := RowLines(g, items, fields, d + 1);
    var header := TableHeader(safeKey, |items|, QuotedAll(g, fields));
    assert SliceLines(g, safeKey, v, d) == [Line(d, header)] + body;
    hide SliceLines, RowLines, TableHeader, ParseEntry, ParseRows, ParseHeader;
    var ls := SliceLines(g, safeKey, v, d) + rest;
    assert ls[0] == Line(d, header) && ls[1..] == body + rest;
    TableHeaderParses(g, safeKey, key, |items|, fields);
    EntryOfTable(g, ls, d, key, |items|, fields);
    RowsRoundTrip(g, items, fields, d + 1, rest);
    assert (body + rest)[|items|..] == rest;
  }

  lemma {:induction false} RowsRoundTrip(g: GoLib, items: seq<Value>, fields: seq<Text>, d: nat, rest: seq<Line>)
    requires g.Lawful() && Tabular(items, fields) && Sorted(fields)
    requires forall i | 0 <= i < |items| :: Legible(g, items[i]) && forall x :: x in fields <==> x in items[i].m
    ensures ParseRows(g, RowLines(g, items, fields, d) + rest, |items|, fields) == items
  {
    if items != [] {
      var line := Line(d, Join(RowTexts(g, items[0].m, fields)));
      var others := RowLines(g, items[1..], fields, d);
      assert RowLines(g, items, fields, d) == [line] + others;
      RowRoundTrip(g, items[0], fields);
      hide Zip, Cells, Join, RowTexts, ScalarsOf, RowLines;
      assert RowLines(g, items, fields, d) + rest == [line] + (others + rest);
      RowsCons(g, line, others + rest, |items|, fields);
      hide ParseRows;
      RowsRoundTrip(g, items[1..], fields, d, rest);
      assert items == [items[0]] + items[1..];
    }
  }

  lemma RowsCons(g: GoLib, line: Line, ls: seq<Line>, n: nat, fields: seq<Text>)
    requires n > 0
    ensures ParseRows(g, [line] + ls, n, fields)
         == [Map(Zip(fields, ScalarsOf(g, Cells(line.text))))] + ParseRows(g, ls, n - 1, fields)
  {
    assert ([line] + ls)[1..] == ls;
  }

  lemma RowRoundTrip(g: GoLib, v: Value, fields: seq<Text>)
    requires g.Lawful() && v.Map? && HasFields(v.m, fields) && Sorted(fields) && Legible(g, v)
    requires forall x :: x in fields <==> x in v.m
    ensures Zip(fields, ScalarsOf(g, Cells(Join(RowTexts(g, v.m, fields))))) == v.m
  {
    forall f | f in fields ensures f in v.m && Printable(g, v.m[f]) {
    }
    CellsOfRow(g, v.m, fields);
    ZipValues(v.m, fields);
    assert (map k | k in fields :: v.m[k]) == v.m;
  }

  lemma DecimalKeyFits(g: GoLib, i: nat)
    ensures KeyFits(g, Lift(Decimal(i)))
  {
    var k := Lift(Decimal(i));
    RawLift(Decimal(i));
    forall j | 0 <= j < |Raw(k)| ensures Raw(k)[j] != '[' {
      DecimalPlain(i, j);
    }
  }

  lemma {:induction false} NumberedRoundTrip(g: GoLib, v: Value, i: nat, d: nat, rest: seq<Line>)
    requires g.Lawful() && v.List? && Legible(g, v) && i <= |v.items|
    requires Below(rest, d)
    ensures ParseNumbered(g, NumberedLines(g, v, i, d) + rest, |v.items| - i, d) == (v.items[i..], rest)
    decreases v, 1, |v.items| - i
  {
    hide EntryLines, ParseEntry;
    if i == |v.items| {
      assert NumberedLines(g, v, i, d) + rest == rest;
      assert v.items[i..] == [];
    } else {
      var key := Lift(Decimal(i));
      var item := v.items[i];
      var first := EntryLines(g, key, item, d);
      var others := NumberedLines(g, v, i + 1, d);
      assert NumberedLines(g, v, i, d) == first + others;
      NumberedBelow(g, v, i + 1, d, rest);
      assert !item.Other?;
      hide NumberedLines, ParseNumbered, Decimal, Lift;
      var ls := first + (others + rest);
      assert NumberedLines(g, v, i, d) + rest == ls;
      DecimalKeyFits(g, i);
      EntryRoundTrip(g, key, item, d, others + rest);
      NumberedCons(g, ls, |v.items| - i, d, key, item, others + rest);
      NumberedRoundTrip(g, v, i + 1, d, rest);
      assert v.items[i..] == [item] + v.items[i + 1..];
    }
  }

  lemma NumberedBelow(g: GoLib, v: Value, i: nat, d: nat, rest: seq<Line>)
    requires v.List? && Legible(g, v) && i <= |v.items|
    requires Below(rest, d)
    ensures Below(NumberedLines(g, v, i, d) + rest, d + 1)
  {
    hide EntryLines;
    if i == |v.items| {
      assert NumberedLines(g, v, i, d) + rest == rest;
    } else {
      assert !v.items[i].Other?;
    }
  }

  /** A text that starts with a key and goes on with a colon somewhere is no lone scalar. */
  lemma KeyedIsNoToken(g: GoLib, key: Text, tail: string)
    requires g.Lawful() && ':' in tail
    ensures !TokenLine(QuoteIfNeeded(g, key) + tail)
  {
    if key == [] || NeedsQuote(g, key) {
      ScanQuote(g, key, ':', tail);
      assert QuoteIfNeeded(g, key) == Quote(g, key);
    } else {
      PlainChars(g, key);
      hide ScanQuoted, NeedsQuote;
      ColonStops(Raw(key) + tail);
    }
  }

  /** The first line of a numbered list is never a lone token, so the two list forms cannot be confused. */
  lemma NumberedLineIsNoToken(g: GoLib, v: Value, d: nat)
    requires g.Lawful() && !v.Other?
    ensures !TokenLine(EntryLines(g, Lift(Decimal(0)), v, d)[0].text)
  {
    hide EntryLines, TokenLine, QuoteIfNeeded, Lift, Decimal;
    var tail := EntryTail(g, Lift(Decimal(0)), v, d);
    KeyedIsNoToken(g, Lift(Decimal(0)), tail);
  }

  /** An entry's first line is its key and a tail with a colon at one of its ends. */
  lemma EntryTail(g: GoLib, key: Text, v: Value, d: nat) returns (tail: string)
    requires !v.Other?
    ensures EntryLines(g, key, v, d)[0].text == QuoteIfNeeded(g, key) + tail
    ensures tail != "" && ':' in tail
  {
    EntryHead(g, key, v, d);
    hide EntryLines, SliceLines, QuoteIfNeeded;
    if v.Map? {
      tail := ":";
    } else if v.List? {
      tail := SliceTail(g, QuoteIfNeeded(g, key), v, d);
    } else {
      hide ScalarText;
      tail := ": " + ScalarText(g, v);
      assert tail[0] == ':';
      assert ScalarLine(QuoteIfNeeded(g, key), ScalarText(g, v)) == QuoteIfNeeded(g, key) + tail;
    }
  }

  lemma EntryHead(g: GoLib, key: Text, v: Value, d: nat)
    requires !v.Other?
    ensures var safeKey := QuoteIfNeeded(g, key);
            EntryLines(g, key, v, d)[0].text ==
              if v.Map? then BlockLine(safeKey)
              else if v.List? then SliceLines(g, safeKey, v, d)[0].text
              else ScalarLine(safeKey, ScalarText(g, v))
  {
    hide SliceLines, QuoteIfNeeded, ScalarText, EntriesLines;
  }

  lemma SliceTail(g: GoLib, safeKey: string, v: Value, d: nat) returns (tail: string)
    requires v.List?
    ensures SliceLines(g, safeKey, v, d)[0].text == safeKey + tail
    ensures tail != "" && ':' in tail
  {
    hide Decimal, Join, QuotedAll, NumberedLines, ItemLines, RowLines;
    var n := |v.items|;
    var num := "[" + Decimal(n);
    if UniformTable(v.items) {
      var cells := QuotedAll(g, SortedKeys(v.items[0].m.Keys));
      assert SliceLines(g, safeKey, v, d)[0].text == TableHeader(safeKey, n, cells);
      hide SliceLines, UniformTable;
      tail := num + "]{" + Join(cells) + "}:";
      assert TableHeader(safeKey, n, cells) == safeKey + tail;
    } else {
      assert SliceLines(g, safeKey, v, d)[0].text == SliceHeader(safeKey, n);
      hide SliceLines, UniformTable;
      tail := num + "]:";
      assert SliceHeader(safeKey, n) == safeKey + tail;
    }
    assert tail[|tail| - 1] == ':';
  }

  lemma {:induction false} ColonStops(t: string)
    requires ':' in t
    ensures Span(t, ':') < |t|
  {
    if t[0] != ':' {
      ColonStops(t[1..]);
    }
  }

  lemma SafeKeyInjective(g: GoLib, a: Text, b: Text)
    requires g.Lawful() && QuoteIfNeeded(g, a) == QuoteIfNeeded(g, b)
    ensures a == b
  {
    if a != [] && !NeedsQuote(g, a) { PlainChars(g, a); }
    if b != [] && !NeedsQuote(g, b) { PlainChars(g, b); }
    ScanStringToken(g, a, ',', "");
    ScanStringToken(g, b, ',', "");
  }
}
