/** Which layout a list gets, and the documented output of the encoder, character by character. */
module ToonLayout {
  import opened Numerals
  import opened ToonText
  import opened ToonOrder
  import opened ToonEncode

  /** A non-empty list of maps that all have the same keys, at least one, with scalars under them. */
  ghost predicate SameShape(items: seq<Value>) {
    && items != []
    && (forall i | 0 <= i < |items| :: items[i].Map? && items[i].m != map[])
    && (forall i, k | 0 <= i < |items| && k in items[i].m :: IsScalar(items[i].m[k]) && k in items[0].m)
    && (forall i, k | 0 <= i < |items| && k in items[0].m :: k in items[i].m)
  }

  lemma SameShapeIsTable(items: seq<Value>)
    ensures SameShape(items) <==> UniformTable(items)
  {
    if SameShape(items) {
      forall i | 0 <= i < |items|
        ensures items[i].Map? && items[i].m.Keys == items[0].m.Keys && AllScalarValues(items[i].m)
      {
        assert forall k :: k in items[i].m <==> k in items[0].m;
      }
    }
    if UniformTable(items) {
      forall i | 0 <= i < |items| ensures items[i].Map? && items[i].m != map[] {
        assert items[i].m.Keys == items[0].m.Keys;
      }
    }
  }

  lemma {:induction false} RowTextsAt(g: GoLib, m: map<Text, Value>, fields: seq<Text>)
    requires HasFields(m, fields)
    ensures forall j | 0 <= j < |fields| ::
              fields[j] in m && IsScalar(m[fields[j]]) && RowTexts(g, m, fields)[j] == ScalarText(g, m[fields[j]])
  {
    hide ScalarText;
    if fields != [] {
      assert fields[0] in fields;
      RowTextsAt(g, m, fields[1..]);
      forall j | 0 <= j < |fields|
        ensures fields[j] in m && IsScalar(m[fields[j]]) && RowTexts(g, m, fields)[j] == ScalarText(g, m[fields[j]])
      {
        if j > 0 {
          assert fields[j] == fields[1..][j - 1];
        }
      }
    }
  }

  lemma {:induction false} QuotedAllAt(g: GoLib, ks: seq<Text>)
    ensures forall j | 0 <= j < |ks| :: QuotedAll(g, ks)[j] == QuoteIfNeeded(g, ks[j])
  {
    hide QuoteIfNeeded;
    if ks != [] {
      QuotedAllAt(g, ks[1..]);
    }
  }

  lemma {:induction false} RowLinesAt(g: GoLib, items: seq<Value>, fields: seq<Text>, d: nat)
    requires Tabular(items, fields)
    ensures forall i | 0 <= i < |items| ::
              RowLines(g, items, fields, d)[i] == Line(d, Join(RowTexts(g, items[i].m, fields)))
  {
    hide RowTexts, Join;
    if items != [] {
      assert Tabular(items[1..], fields);
      RowLinesAt(g, items[1..], fields, d);
    }
  }

  lemma {:induction false} ItemLinesAt(g: GoLib, items: seq<Value>, d: nat)
    requires AllScalar(items)
    ensures forall i | 0 <= i < |items| :: ItemLines(g, items, d)[i] == Line(d, ScalarText(g, items[i]))
  {
    hide ScalarText;
    if items != [] {
      ItemLinesAt(g, items[1..], d);
    }
  }

  /** One row: the scalars of a map under the fields, in the fields' order, between commas. */
  ghost predicate IsRow(g: GoLib, t: string, m: map<Text, Value>, fields: seq<Text>) {
    exists cells: seq<string> :: t == Join(cells) && CellsOf(g, cells, m, fields)
  }

  ghost predicate CellsOf(g: GoLib, cells: seq<string>, m: map<Text, Value>, fields: seq<Text>) {
    && |cells| == |fields|
    && forall j | 0 <= j < |cells| ::
         fields[j] in m && IsScalar(m[fields[j]]) && cells[j] == ScalarText(g, m[fields[j]])
  }

  /** The field list between braces: every key once, in order, quoted where needed. */
  ghost predicate IsFieldList(g: GoLib, t: string, fields: seq<Text>, m: map<Text, Value>) {
    && InOrder(fields) && Sorted(fields) && (forall k :: k in fields <==> k in m)
    && exists names: seq<string> :: t == Join(names) && NamesOf(g, names, fields)
  }

  ghost predicate NamesOf(g: GoLib, names: seq<string>, fields: seq<Text>) {
    |names| == |fields| && forall j | 0 <= j < |names| :: names[j] == QuoteIfNeeded(g, fields[j])
  }

  /** A list of maps of one shape prints as a header with the fields and one row for each map. */
  lemma TableLayout(g: GoLib, key: string, items: seq<Value>, d: nat) returns (fields: seq<Text>, list: string)
    requires SameShape(items)
    ensures IsFieldList(g, list, fields, items[0].m)
    ensures var ls := SliceLines(g, key, List(items), d);
            && |ls| == 1 + |items|
            && ls[0] == Line(d, key + "[" + Decimal(|items|) + "]{" + list + "}:")
            && forall i | 0 <= i < |items| :: ls[1 + i].depth == d + 1 && IsRow(g, ls[1 + i].text, items[i].m, fields)
  {
    hide Less, QuoteIfNeeded, ScalarText, Join, RowTexts, QuotedAll, CodePointBefore, BytesBefore, Decimal;
    SameShapeIsTable(items);
    fields := SortedKeys(items[0].m.Keys);
    SortedInOrder(fields);
    QuotedAllAt(g, fields);
    var names := QuotedAll(g, fields);
    list := Join(names);
    assert NamesOf(g, names, fields);
    RowLinesAt(g, items, fields, d + 1);
    forall i | 0 <= i < |items|
      ensures IsRow(g, Join(RowTexts(g, items[i].m, fields)), items[i].m, fields)
    {
      RowTextsAt(g, items[i].m, fields);
      assert CellsOf(g, RowTexts(g, items[i].m, fields), items[i].m, fields);
    }
  }

  /** Any other list has a header without fields: scalars stand bare below it, anything else under its position. */
  lemma ListLayout(g: GoLib, key: string, items: seq<Value>, d: nat)
    requires !SameShape(items)
    ensures var ls := SliceLines(g, key, List(items), d);
            && ls[0] == Line(d, key + "[" + Decimal(|items|) + "]:")
            && ((forall i | 0 <= i < |items| :: IsScalar(items[i])) ==>
                  && |ls| == 1 + |items|
                  && forall i | 0 <= i < |items| :: ls[1 + i] == Line(d + 1, ScalarText(g, items[i])))
            && ((exists i | 0 <= i < |items| :: !IsScalar(items[i])) ==>
                  ls[1..] == NumberedLines(g, List(items), 0, d + 1))
  {
    hide ScalarText, Decimal;
    SameShapeIsTable(items);
    if AllScalar(items) {
      ItemLinesAt(g, items, d + 1);
    }
  }

  // ---- documented output ----

  function Word(t: string): Value {
    Str(Lift(t))
  }

  function Issue(number: string, title: string, state: string): map<Text, Value> {
    map[Lift("number") := Num(number), Lift("title") := Word(title), Lift("state") := Word(state)]
  }

  /** ParseFloat takes none of the words below for a number, as no word with such letters is one. */
  predicate Words(g: GoLib, ts: seq<string>) {
    forall t | t in ts :: !g.parsesFloat(t)
  }

  lemma BareWord(g: GoLib, t: string)
    requires t != "" && !g.parsesFloat(t) && !Reserved(t) && !Blank(t[0]) && !Blank(t[|t| - 1])
    requires forall i | 0 <= i < |t| :: !Structural(t[i]) && !Control(t[i])
    ensures QuoteIfNeeded(g, Lift(t)) == t
  {
    hide Quote, Raw, Lift, Structural, Control, Reserved, Blank;
    RawLift(t);
    AllPlain(t);
    assert Lift(t) != [];
  }

  lemma AllPlain(t: string)
    requires forall i | 0 <= i < |t| :: !Structural(t[i]) && !Control(t[i])
    ensures !exists c | c in t :: Structural(c) || Control(c)
  {
    hide Structural, Control;
  }

  /** The keys of an issue, sorted. */
  lemma IssueFields(m: map<Text, Value>)
    requires m.Keys == {Lift("number"), Lift("title"), Lift("state")}
    ensures SortedKeys(m.Keys) == [Lift("number"), Lift("state"), Lift("title")]
  {
    var ks := [Lift("number"), Lift("state"), Lift("title")];
    assert Less(ks[0], ks[1]) && Less(ks[0], ks[2]);
    assert Less(ks[1], ks[2]) by {
      assert Lift("state")[1..] == Lift("tate");
      assert Lift("title")[1..] == Lift("itle");
    }
    SortedUnique(ks, SortedKeys(m.Keys));
  }

  lemma IssueRow(g: GoLib, number: string, title: string, state: string)
    requires QuoteIfNeeded(g, Lift(title)) == title && QuoteIfNeeded(g, Lift(state)) == state
    ensures var m, fields := Issue(number, title, state), [Lift("number"), Lift("state"), Lift("title")];
            HasFields(m, fields) && Join(RowTexts(g, m, fields)) == number + "," + state + "," + title
  {
    hide QuoteIfNeeded, Lift;
    var n, s, t := Lift("number"), Lift("state"), Lift("title");
    ThreeKeys();
    var m := Issue(number, title, state);
    var fields := [n, s, t];
    assert fields[1..] == [s, t] && [s, t][1..] == [t] && [t][1..] == [];
    assert RowTexts(g, m, [t]) == [title] + RowTexts(g, m, []);
    assert RowTexts(g, m, [s, t]) == [state] + RowTexts(g, m, [t]);
    assert RowTexts(g, m, fields) == [number] + RowTexts(g, m, [s, t]);
    assert RowTexts(g, m, fields) == [number, state, title];
    JoinThree(number, state, title);
  }

  lemma ThreeKeys()
    ensures Lift("number") != Lift("state") && Lift("state") != Lift("title") && Lift("number") != Lift("title")
  {
    assert |Lift("number")| == 6 && |Lift("state")| == 5;
    assert Lift("state")[0] == Rune('s') && Lift("title")[0] == Rune('t');
  }

  lemma JoinThree(a: string, b: string, c: string)
    ensures Join([a, b, c]) == a + "," + b + "," + c
  {
    assert [a, b, c][1..] == [b, c] && [b, c][1..] == [c];
    assert Join([b, c]) == b + "," + Join([c]);
  }

  /** README.md:253-261 and the table example of toon/example_test.go. */
  lemma TableExample(g: GoLib)
    requires !g.parsesFloat("issues") && !g.parsesFloat("number") && !g.parsesFloat("state") && !g.parsesFloat("title")
    requires !g.parsesFloat("open") && !g.parsesFloat("Fix login bug") && !g.parsesFloat("Add dark mode")
    ensures var v := Map(map[Lift("issues") := List([
                       Map(Issue("42", "Fix login bug", "open")), Map(Issue("43", "Add dark mode", "open"))])]);
            Encoded(g, v) == "issues" + "[2]{" + "number,state,title" + "}:"
                             + "\n  " + "42,open,Fix login bug"
                             + "\n  " + "43,open,Add dark mode"
  {
    hide *;
    var a, b := Issue("42", "Fix login bug", "open"), Issue("43", "Add dark mode", "open");
    var fields := [Lift("number"), Lift("state"), Lift("title")];
    ShortWordsAreBare(g);
    LongWordsAreBare(g);
    IssueKeys("42", "Fix login bug", "open");
    IssueKeys("43", "Add dark mode", "open");
    IssueFields(a);
    IssueRow(g, "42", "Fix login bug", "open");
    IssueRow(g, "43", "Add dark mode", "open");
    QuotedThree(g, fields[0], fields[1], fields[2]);
    JoinThree("number", "state", "title");
    TwoIssues(g, a, b);
    Lengths();
    TableText(g, Lift("issues"), a, b, fields, "number,state,title", "42,open,Fix login bug", "43,open,Add dark mode");
  }

  /** A map with one key over a table of two rows. */
  lemma TableText(g: GoLib, k: Text, a: map<Text, Value>, b: map<Text, Value>, fields: seq<Text>,
                  list: string, row: string, last: string)
    requires UniformTable([Map(a), Map(b)]) && fields == SortedKeys(a.Keys)
    requires HasFields(a, fields) && HasFields(b, fields)
    requires list == Join(QuotedAll(g, fields))
    requires row == Join(RowTexts(g, a, fields)) && last == Join(RowTexts(g, b, fields))
    requires last != "" && last[|last| - 1] != '\n'
    ensures Encoded(g, Map(map[k := List([Map(a), Map(b)])]))
         == QuoteIfNeeded(g, k) + "[2]{" + list + "}:" + "\n  " + row + "\n  " + last
  {
    hide QuoteIfNeeded, RowTexts, RowLines, Join, TrimRight, Render, Decimal, QuotedAll, RootLines, SortedKeys;
    var items, key := [Map(a), Map(b)], QuoteIfNeeded(g, k);
    var v := Map(map[k := List(items)]);
    DecimalTwo();
    TwoRows(g, a, b, fields);
    OneTable(g, v, k, items);
    var header := key + "[2]{" + list + "}:";
    assert TableHeader(key, 2, QuotedAll(g, fields)) == header;
    Printed(header, row, last);
  }

  lemma IssueKeys(number: string, title: string, state: string)
    ensures var m := Issue(number, title, state);
            && m.Keys == {Lift("number"), Lift("title"), Lift("state")} && m != map[] && AllScalarValues(m)
  {
    hide Lift;
  }

  lemma Lengths()
    ensures "43,open,Add dark mode" != "" && "43,open,Add dark mode"[20] == 'e' && |"43,open,Add dark mode"| == 21
    ensures "42" + "," + "open" + "," + "Fix login bug" == "42,open,Fix login bug"
    ensures "43" + "," + "open" + "," + "Add dark mode" == "43,open,Add dark mode"
    ensures "number" + "," + "state" + "," + "title" == "number,state,title"
  {
  }

  lemma TwoIssues(g: GoLib, a: map<Text, Value>, b: map<Text, Value>)
    requires a.Keys == b.Keys && a != map[] && AllScalarValues(a) && AllScalarValues(b)
    ensures UniformTable([Map(a), Map(b)])
  {
  }

  lemma DecimalTwo()
    ensures Decimal(2) == "2"
  {
  }

  lemma DigitKey(g: GoLib, c: char)
    requires g.Lawful() && '0' <= c <= '9' && g.parsesFloat([c])
    ensures QuoteIfNeeded(g, Lift([c])) == "\"" + [c] + "\""
  {
    RawLift([c]);
    assert Lift([c]) == [Rune(c)];
    assert [Rune(c)][1..] == [];
    assert EscapeAll(g, [Rune(c)]) == Escape(g, Rune(c)) + EscapeAll(g, []);
  }

  lemma ScalarEntry(g: GoLib, key: Text, v: Value, d: nat)
    requires IsScalar(v)
    ensures EntryLines(g, key, v, d) == [Line(d, QuoteIfNeeded(g, key) + ": " + ScalarText(g, v))]
  {
  }

  lemma OneKeyEntry(g: GoLib, key: Text, k: Text, x: Value, d: nat)
    requires IsScalar(x)
    ensures EntryLines(g, key, Map(map[k := x]), d)
         == [Line(d, QuoteIfNeeded(g, key) + ":"), Line(d + 1, QuoteIfNeeded(g, k) + ": " + ScalarText(g, x))]
  {
    hide QuoteIfNeeded, ScalarText;
    var v := Map(map[k := x]);
    OneKey(k);
    assert v.m.Keys == {k} && [k][1..] == [];
    ScalarEntry(g, k, x, d + 1);
    assert EntriesLines(g, v, [k], d + 1) == EntryLines(g, k, v.m[k], d + 1) + EntriesLines(g, v, [], d + 1);
    BlockLines(g, key, v, d);
  }

  lemma NumberedStep(g: GoLib, v: Value, i: nat, d: nat)
    requires v.List? && i < |v.items|
    ensures NumberedLines(g, v, i, d)
         == EntryLines(g, Lift(Decimal(i)), v.items[i], d) + NumberedLines(g, v, i + 1, d)
    ensures NumberedLines(g, v, |v.items|, d) == []
  {
    hide EntryLines;
  }

  lemma SmallDecimals()
    ensures Decimal(0) == "0" && Decimal(1) == "1" && Decimal(2) == "2" && Decimal(3) == "3"
  {
  }

  /** The mixed list of toon/toon_test.go:137-161: positions from 0, quoted because they read as numbers. */
  lemma MixedExample(g: GoLib)
    requires g.Lawful() && g.parsesFloat("0") && g.parsesFloat("1") && g.parsesFloat("2")
    requires !g.parsesFloat("a") && !g.parsesFloat("k") && !g.parsesFloat("v")
    ensures SliceLines(g, "mixed", List([Word("a"), Map(map[Lift("k") := Word("v")]), Num("42")]), 0)
         == [Line(0, "mixed[3]:"), Line(1, "\"0\": a"), Line(1, "\"1\":"), Line(2, "k: v"), Line(1, "\"2\": 42")]
  {
    hide QuoteIfNeeded, EntryLines, EntriesLines, NumberedLines, Decimal, Lift;
    var items := [Word("a"), Map(map[Lift("k") := Word("v")]), Num("42")];
    var v := List(items);
    SmallDecimals();
    LettersAreBare(g);
    DigitKey(g, '0');
    DigitKey(g, '1');
    DigitKey(g, '2');
    ScalarEntry(g, Lift("0"), items[0], 1);
    OneKeyEntry(g, Lift("1"), Lift("k"), Word("v"), 1);
    ScalarEntry(g, Lift("2"), items[2], 1);
    NumberedStep(g, v, 0, 1);
    NumberedStep(g, v, 1, 1);
    NumberedStep(g, v, 2, 1);
    assert !UniformTable(items) && !AllScalar(items) by {
      assert !items[0].Map? && !IsScalar(items[1]);
    }
    MixedLines(g, v);
    assert "mixed" + "[" + "3" + "]:" == "mixed[3]:" && "k" + ": " + "v" == "k: v";
    assert "\"" + "0" + "\"" + ": " + "a" == "\"0\": a";
    assert "\"" + "1" + "\"" + ":" == "\"1\":";
    assert "\"" + "2" + "\"" + ": " + "42" == "\"2\": 42";
    var a, b, c := [Line(1, "\"0\": a")], [Line(1, "\"1\":"), Line(2, "k: v")], [Line(1, "\"2\": 42")];
    assert NumberedLines(g, v, 0, 1) == a + (b + (c + []));
  }

  lemma MixedLines(g: GoLib, v: Value)
    requires v.List? && !UniformTable(v.items) && !AllScalar(v.items)
    ensures SliceLines(g, "mixed", v, 0)
         == [Line(0, "mixed" + "[" + Decimal(|v.items|) + "]:")] + NumberedLines(g, v, 0, 1)
  {
    hide UniformTable, AllScalar, NumberedLines, Decimal;
  }

  lemma LettersAreBare(g: GoLib)
    requires !g.parsesFloat("a") && !g.parsesFloat("k") && !g.parsesFloat("v")
    ensures QuoteIfNeeded(g, Lift("a")) == "a" && QuoteIfNeeded(g, Lift("k")) == "k"
    ensures QuoteIfNeeded(g, Lift("v")) == "v"
  {
    hide QuoteIfNeeded, Lift;
    BareWord(g, "a");
    BareWord(g, "k");
    BareWord(g, "v");
  }

  lemma TwoRows(g: GoLib, a: map<Text, Value>, b: map<Text, Value>, fields: seq<Text>)
    requires HasFields(a, fields) && HasFields(b, fields)
    ensures RowLines(g, [Map(a), Map(b)], fields, 1)
         == [Line(1, Join(RowTexts(g, a, fields))), Line(1, Join(RowTexts(g, b, fields)))]
  {
    hide Join, RowTexts;
    RowLinesAt(g, [Map(a), Map(b)], fields, 1);
  }

  /** A map with one key over a table. */
  lemma OneTable(g: GoLib, v: Value, k: Text, items: seq<Value>)
    requires v == Map(map[k := List(items)]) && UniformTable(items)
    ensures var fields := SortedKeys(items[0].m.Keys);
            && Tabular(items, fields)
            && RootLines(g, v)
               == [Line(0, TableHeader(QuoteIfNeeded(g, k), |items|, QuotedAll(g, fields)))]
                  + RowLines(g, items, fields, 1)
  {
    hide QuoteIfNeeded, SliceLines, TableHeader, QuotedAll, RowLines, UniformTable;
    OneKey(k);
    assert v.m.Keys == {k} && [k][1..] == [];
    assert EntriesLines(g, v, [k], 0) == EntryLines(g, k, v.m[k], 0) + EntriesLines(g, v, [], 0);
    TableLines(g, QuoteIfNeeded(g, k), items);
  }

  lemma TableLines(g: GoLib, key: string, items: seq<Value>)
    requires UniformTable(items)
    ensures var fields := SortedKeys(items[0].m.Keys);
            && Tabular(items, fields)
            && SliceLines(g, key, List(items), 0)
               == [Line(0, TableHeader(key, |items|, QuotedAll(g, fields)))] + RowLines(g, items, fields, 1)
  {
    hide QuotedAll, RowLines, TableHeader;
  }

  lemma ShortWordsAreBare(g: GoLib)
    requires !g.parsesFloat("issues") && !g.parsesFloat("number") && !g.parsesFloat("state") && !g.parsesFloat("title")
    ensures QuoteIfNeeded(g, Lift("issues")) == "issues" && QuoteIfNeeded(g, Lift("number")) == "number"
    ensures QuoteIfNeeded(g, Lift("state")) == "state" && QuoteIfNeeded(g, Lift("title")) == "title"
  {
    hide QuoteIfNeeded, Lift;
    BareWord(g, "issues");
    BareWord(g, "number");
    BareWord(g, "state");
    BareWord(g, "title");
  }

  lemma LongWordsAreBare(g: GoLib)
    requires !g.parsesFloat("open") && !g.parsesFloat("Fix login bug") && !g.parsesFloat("Add dark mode")
    ensures QuoteIfNeeded(g, Lift("open")) == "open"
    ensures QuoteIfNeeded(g, Lift("Fix login bug")) == "Fix login bug"
    ensures QuoteIfNeeded(g, Lift("Add dark mode")) == "Add dark mode"
  {
    hide QuoteIfNeeded, Lift;
    BareWord(g, "open");
    BareWord(g, "Fix login bug");
    BareWord(g, "Add dark mode");
  }

  lemma OneKey(k: Text)
    ensures SortedKeys({k}) == [k]
  {
    SortedUnique([k], SortedKeys({k}));
  }

  lemma QuotedThree(g: GoLib, a: Text, b: Text, c: Text)
    ensures QuotedAll(g, [a, b, c]) == [QuoteIfNeeded(g, a), QuoteIfNeeded(g, b), QuoteIfNeeded(g, c)]
  {
    hide QuoteIfNeeded;
    QuotedAllAt(g, [a, b, c]);
  }

  lemma Printed(header: string, row: string, last: string)
    requires last != "" && last[|last| - 1] != '\n'
    ensures TrimRight(Render([Line(0, header)] + [Line(1, row), Line(1, last)]))
         == header + "\n  " + row + "\n  " + last
  {
    var a, b, c := [Line(0, header)], [Line(1, row)], [Line(1, last)];
    assert a + [Line(1, row), Line(1, last)] == a + (b + c);
    RenderConcat(a, b + c);
    RenderConcat(b, c);
    RenderOne(0, header);
    RenderOne(1, row);
    RenderOne(1, last);
    assert Pad(1) == "  ";
    var t := header + "\n  " + row + "\n  " + last;
    assert Render(a + (b + c)) == t + "\n";
    TrimOne(t);
  }

  lemma RenderOne(d: nat, t: string)
    ensures Render([Line(d, t)]) == Pad(d) + t + "\n"
  {
    assert [Line(d, t)][1..] == [];
  }

  lemma TrimOne(t: string)
    requires t != "" && t[|t| - 1] != '\n'
    ensures TrimRight(t + "\n") == t
  {
    assert (t + "\n")[..|t|] == t;
    assert TrimRight(t) == t;
  }
}
