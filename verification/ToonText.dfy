/** Strings, quoting and tokens of the TOON encoder, and the scanner that reads tokens back. */
module ToonText {
  import opened Numerals

  /** A Go string as `range` decodes it: runes, and bytes that belong to no valid UTF-8 rune. */
  type BadByte = b: int | 0x80 <= b <= 0xFF witness 0x80

  datatype Sym = Rune(r: char) | Bad(b: BadByte)

  type Text = seq<Sym>

  function Lift(t: string): (s: Text)
    ensures |s| == |t|
  {
    if t == "" then [] else [Rune(t[0])] + Lift(t[1..])
  }

  /** utf8.ValidString. */
  predicate Valid(s: Text) {
    forall x | x in s :: x.Rune?
  }

  function Raw(s: Text): (t: string)
    requires Valid(s)
    ensures |t| == |s|
  {
    if s == [] then "" else [s[0].r] + Raw(s[1..])
  }

  lemma {:induction false} LiftRaw(s: Text)
    requires Valid(s)
    ensures Lift(Raw(s)) == s
  {
    if s != [] {
      LiftRaw(s[1..]);
      assert s[0] in s;
      assert Raw(s)[1..] == Raw(s[1..]);
      assert s == [s[0]] + s[1..];
    }
  }

  lemma {:induction false} RawLift(t: string)
    ensures Valid(Lift(t)) && Raw(Lift(t)) == t
  {
    if t != "" {
      RawLift(t[1..]);
      assert Lift(t)[1..] == Lift(t[1..]);
    }
  }

  /**
   * What the encoder takes from Go's strconv: which strings ParseFloat accepts, which runes
   * IsPrint accepts, and which texts FormatInt, FormatUint and FormatFloat can print.
   */
  datatype GoLib = GoLib(parsesFloat: string -> bool, isPrint: char -> bool, printsNumber: string -> bool) {
    ghost predicate Lawful() {
      && (forall t :: printsNumber(t) ==> parsesFloat(t) && NumberShaped(t))
      && (forall c: char :: c as int < 0x80 ==> (isPrint(c) <==> 0x20 <= c as int < 0x7f))
    }
  }

  /** Decimal notation without exponent, or one of Go's three non-finite names. */
  predicate NumberShaped(t: string) {
    || t in ["NaN", "+Inf", "-Inf"]
    || (t != "" && forall c | c in t :: '0' <= c <= '9' || c == '.' || c == '-')
  }

  predicate Control(c: char) {
    c as int < 0x20 || c as int == 0x7f
  }

  predicate Structural(c: char) {
    c in [':', ',', '\n', '\r', '"', '\\']
  }

  predicate Reserved(t: string) {
    t in ["null", "true", "false"]
  }

  predicate Blank(c: char) {
    c == ' ' || c == '\t'
  }

  predicate NeedsQuote(g: GoLib, s: Text)
    requires s != []
  {
    if !Valid(s) then true
    else
      var t := Raw(s);
      || Reserved(t)
      || g.parsesFloat(t)
      || Blank(t[0]) || Blank(t[|t| - 1])
      || exists c | c in t :: Structural(c) || Control(c)
  }

  function QuoteIfNeeded(g: GoLib, s: Text): string {
    if s == [] then "\"\"" else if NeedsQuote(g, s) then Quote(g, s) else Raw(s)
  }

  /** strconv.Quote. */
  function Quote(g: GoLib, s: Text): string {
    "\"" + EscapeAll(g, s) + "\""
  }

  function EscapeAll(g: GoLib, s: Text): string {
    if s == [] then "" else Escape(g, s[0]) + EscapeAll(g, s[1..])
  }

  function Escape(g: GoLib, x: Sym): string {
    match x
    case Bad(b) => "\\x" + Hex(b, 2)
    case Rune(c) =>
      if c == '"' || c == '\\' then ['\\', c]
      else if g.isPrint(c) then [c]
      else if ShortEscape(c) != ' ' then ['\\', ShortEscape(c)]
      else if Control(c) then "\\x" + Hex(c as int, 2)
      else if c as int < 0x1_0000 then "\\u" + Hex(c as int, 4)
      else "\\U" + Hex(c as int, 8)
  }

  /** The letter of a one-letter escape, or a space when the rune has none. */
  function ShortEscape(c: char): char {
    match c as int
    case 7 => 'a'
    case 8 => 'b'
    case 12 => 'f'
    case 10 => 'n'
    case 13 => 'r'
    case 9 => 't'
    case 11 => 'v'
    case _ => ' '
  }

  // ---- reading text back ----

  function Unshort(c: char): Sym {
    match c
    case 'a' => Rune(7 as char)
    case 'b' => Rune(8 as char)
    case 'f' => Rune(12 as char)
    case 'n' => Rune('\n')
    case 'r' => Rune('\r')
    case 't' => Rune('\t')
    case 'v' => Rune(11 as char)
    case _ => Rune(c)
  }

  function SymOf(code: nat): Sym {
    if code < 0xD800 || 0xE000 <= code < 0x11_0000 then Rune(code as char) else Rune(' ')
  }

  /** How many characters of `t` the escape or character at its head takes, and what it stands for. */
  function Unescape(t: string): (r: (nat, Sym))
    requires t != ""
    ensures 1 <= r.0
  {
    if t[0] != '\\' || |t| < 2 then (1, Rune(t[0]))
    else if t[1] == 'x' && |t| >= 4 then
      var n := HexValue(t[2..4]);
      (4, if 0x80 <= n <= 0xFF then Bad(n) else SymOf(n))
    else if t[1] == 'u' && |t| >= 6 then (6, SymOf(HexValue(t[2..6])))
    else if t[1] == 'U' && |t| >= 10 then (10, SymOf(HexValue(t[2..10])))
    else (2, Unshort(t[1]))
  }

  /** Reads up to the closing quote; returns the text and what follows the quote. */
  function ScanQuoted(t: string): (r: (Text, string))
    decreases |t|
  {
    if t == "" then ([], "")
    else if t[0] == '"' then ([], t[1..])
    else
      var (n, x) := Unescape(t);
      if n > |t| then ([], "")
      else
        var (s, rest) := ScanQuoted(t[n..]);
        ([x] + s, rest)
  }

  lemma UnescapeInverts(g: GoLib, x: Sym, rest: string)
    requires g.Lawful()
    ensures var e := Escape(g, x);
            1 <= |e| && e[0] != '"' && Unescape(e + rest) == (|e|, x)
  {
    var e := Escape(g, x);
    var t := e + rest;
    match x {
      case Bad(b) =>
        HexRoundTrip(b, 2);
        assert Pow16(2) == 256 by { assert Pow16(1) == 16; }
        assert t[2..4] == Hex(b, 2);
      case Rune(c) =>
        if c == '"' || c == '\\' {
          assert t[0] == '\\' && t[1] == c;
        } else if g.isPrint(c) {
        } else if ShortEscape(c) != ' ' {
          assert t[0] == '\\' && t[1] == ShortEscape(c);
        } else if Control(c) {
          assert Pow16(2) == 256 by { assert Pow16(1) == 16; }
          HexRoundTrip(c as int, 2);
          assert t[2..4] == Hex(c as int, 2);
        } else if c as int < 0x1_0000 {
          Pow16At4();
          HexRoundTrip(c as int, 4);
          assert t[2..6] == Hex(c as int, 4);
        } else {
          Pow16At4();
          HexRoundTrip(c as int, 8);
          assert t[2..10] == Hex(c as int, 8);
        }
    }
  }

  lemma Pow16At4()
    ensures Pow16(4) == 0x1_0000
    ensures Pow16(8) == 0x1_0000_0000
  {
    assert Pow16(2) == 256 by { assert Pow16(1) == 16; }
    assert Pow16(3) == 0x1000;
    assert Pow16(5) == 0x10_0000;
    assert Pow16(6) == 0x100_0000;
    assert Pow16(7) == 0x1000_0000;
  }

  lemma ScanQuotedStep(t: string)
    requires t != "" && t[0] != '"' && Unescape(t).0 <= |t|
    ensures var (n, x) := Unescape(t);
            ScanQuoted(t) == ([x] + ScanQuoted(t[n..]).0, ScanQuoted(t[n..]).1)
  {
  }

  lemma {:induction false} ScanQuotedInverts(g: GoLib, s: Text, rest: string)
    requires g.Lawful()
    ensures ScanQuoted(EscapeAll(g, s) + "\"" + rest) == (s, rest)
  {
    var t := EscapeAll(g, s) + "\"" + rest;
    if s == [] {
      assert t[1..] == rest;
    } else {
      var e := Escape(g, s[0]);
      var tail := EscapeAll(g, s[1..]) + "\"" + rest;
      assert t == e + tail;
      UnescapeInverts(g, s[0], tail);
      assert t[|e|..] == tail;
      ScanQuotedInverts(g, s[1..], rest);
      ScanQuotedStep(t);
      assert s == [s[0]] + s[1..];
    }
  }

  // ---- tokens ----

  datatype Token = Quoted(text: Text) | Plain(raw: string)

  /** The length of the prefix of `t` before the first `stop`. */
  function Span(t: string, stop: char): (n: nat)
    ensures n <= |t|
  {
    if t == "" || t[0] == stop then 0 else 1 + Span(t[1..], stop)
  }

  lemma {:induction false} SpanOf(w: string, stop: char, rest: string)
    requires stop !in w
    requires rest == "" || rest[0] == stop
    ensures Span(w + rest, stop) == |w|
  {
    if w == "" {
      assert w + rest == rest;
    } else {
      assert (w + rest)[1..] == w[1..] + rest;
      SpanOf(w[1..], stop, rest);
    }
  }

  /** Reads one token: a quoted string, or everything before `stop`. */
  function ScanToken(t: string, stop: char): (Token, string) {
    if t != "" && t[0] == '"' then
      var (s, rest) := ScanQuoted(t[1..]);
      (Quoted(s), rest)
    else
      (Plain(t[..Span(t, stop)]), t[Span(t, stop)..])
  }

  function TextOf(k: Token): Text {
    match k
    case Quoted(s) => s
    case Plain(w) => Lift(w)
  }

  /** The token QuoteIfNeeded prints for a string. */
  ghost function TokenFor(g: GoLib, s: Text): (k: Token)
    ensures k.Plain? ==> Valid(s) && s != [] && k.raw == Raw(s)
  {
    if s == [] || NeedsQuote(g, s) then Quoted(s) else Plain(Raw(s))
  }

  /** A text the encoder prints for one scalar: one line, not blank at its ends, never ending a header. */
  ghost predicate TokenText(t: string) {
    && t != ""
    && !Blank(t[0]) && !Blank(t[|t| - 1]) && t[|t| - 1] != ':'
    && forall i :: 0 <= i < |t| ==> !Control(t[i])
  }

  lemma PlainChars(g: GoLib, s: Text)
    requires s != [] && !NeedsQuote(g, s)
    ensures Valid(s)
    ensures var t := Raw(s);
            && !Reserved(t) && !g.parsesFloat(t) && !Blank(t[0]) && !Blank(t[|t| - 1])
            && forall i :: 0 <= i < |t| ==> !Structural(t[i]) && !Control(t[i])
  {
    var t := Raw(s);
    forall i | 0 <= i < |t| ensures !Structural(t[i]) && !Control(t[i]) {
      assert t[i] in t;
    }
  }

  /** No rune of the text has to be escaped or could be taken for structure. */
  ghost predicate PlainRunes(s: Text) {
    forall i | 0 <= i < |s| ::
      && s[i].Rune? && 0x20 <= s[i].r as int != 0x7f
      && s[i].r != ':' && s[i].r != ',' && s[i].r != '"' && s[i].r != '\\'
  }

  /**
   * A string is printed as it is iff it is safe to: not empty, valid, no reserved word and no number, no blank at
   * either end, and nothing structural or unprintable in it. Every other string is printed between quotes.
   */
  lemma BareIffSafe(g: GoLib, s: Text)
    ensures var t := QuoteIfNeeded(g, s);
            if s != [] && PlainRunes(s) && Raw(s) !in {"null", "true", "false"} && !g.parsesFloat(Raw(s))
               && s[0] != Rune(' ') && s[|s| - 1] != Rune(' ')
            then |t| == |s| && forall i | 0 <= i < |s| :: t[i] == s[i].r
            else |t| >= 2 && t[0] == '"' && t[|t| - 1] == '"'
  {
    hide EscapeAll;
    if s != [] && Valid(s) {
      RawAt(s);
      var t := Raw(s);
      forall i | 0 <= i < |s|
        ensures Structural(t[i]) || Control(t[i]) <==>
                !(0x20 <= s[i].r as int != 0x7f
                  && s[i].r != ':' && s[i].r != ',' && s[i].r != '"' && s[i].r != '\\')
      {
        assert t[i] in t;
      }
    }
  }

  /** Between quotes a printable rune stands as it is; quotes, backslashes and control characters are escaped. */
  lemma {:induction false} QuotedAsIs(g: GoLib, s: Text)
    requires Valid(s) && forall x | x in s :: g.isPrint(x.r) && x.r != '"' && x.r != '\\'
    ensures Quote(g, s) == "\"" + Raw(s) + "\""
  {
    if s != [] {
      assert s[0] in s;
      QuotedAsIs(g, s[1..]);
      assert Quote(g, s[1..])[1..][..|s| - 1] == Raw(s[1..]);
      assert EscapeAll(g, s[1..]) == Raw(s[1..]);
    }
  }

  lemma EscapedAs(g: GoLib)
    requires g.Lawful()
    ensures Escape(g, Rune('"')) == "\\\"" && Escape(g, Rune('\\')) == "\\\\"
    ensures Escape(g, Rune('\n')) == "\\n" && Escape(g, Rune('\r')) == "\\r" && Escape(g, Rune('\t')) == "\\t"
    ensures Escape(g, Rune('\0')) == "\\x00" && Escape(g, Bad(0xFF)) == "\\xff"
  {
    HexByTwo(0);
    HexByTwo(0xFF);
  }

  lemma HexByTwo(n: nat)
    requires n < 256
    ensures Hex(n, 2) == [Digit(n / 16), Digit(n % 16)]
  {
    assert Hex(n / 16, 1) == Hex(n / 16 / 16, 0) + [Digit(n / 16 % 16)];
    assert n / 16 % 16 == n / 16;
    assert Hex(n, 2) == Hex(n / 16, 1) + [Digit(n % 16)];
  }

  lemma {:induction false} RawAt(s: Text)
    requires Valid(s)
    ensures forall i | 0 <= i < |s| :: s[i].Rune? && Raw(s)[i] == s[i].r
  {
    if s != [] {
      RawAt(s[1..]);
      forall i | 0 <= i < |s| ensures s[i].Rune? && Raw(s)[i] == s[i].r {
        assert s[i] in s;
        if i > 0 {
          assert s[i] == s[1..][i - 1];
        }
      }
    }
  }

  lemma ScanPlain(w: string, stop: char, rest: string)
    requires w != "" && w[0] != '"' && stop !in w
    requires rest == "" || rest[0] == stop
    ensures ScanToken(w + rest, stop) == (Plain(w), rest)
  {
    hide ScanQuoted;
    SpanOf(w, stop, rest);
    assert (w + rest)[..|w|] == w && (w + rest)[|w|..] == rest;
  }

  lemma ScanQuote(g: GoLib, s: Text, stop: char, rest: string)
    requires g.Lawful()
    ensures ScanToken(Quote(g, s) + rest, stop) == (Quoted(s), rest)
  {
    var t := Quote(g, s) + rest;
    assert t[1..] == EscapeAll(g, s) + "\"" + rest;
    ScanQuotedInverts(g, s, rest);
    hide ScanQuoted, EscapeAll;
  }

  /** A printed string reads back as itself, whatever the stop character, provided it is not in it. */
  lemma ScanStringToken(g: GoLib, s: Text, stop: char, rest: string)
    requires g.Lawful()
    requires rest == "" || rest[0] == stop
    requires s == [] || NeedsQuote(g, s) || stop !in Raw(s)
    ensures ScanToken(QuoteIfNeeded(g, s) + rest, stop) == (TokenFor(g, s), rest)
    ensures TextOf(TokenFor(g, s)) == s
  {
    if s == [] || NeedsQuote(g, s) {
      ScanQuote(g, s, stop, rest);
      assert QuoteIfNeeded(g, s) == Quote(g, s);
    } else {
      PlainChars(g, s);
      var w := Raw(s);
      assert w[0] in w;
      ScanPlain(w, stop, rest);
      LiftRaw(s);
    }
    hide ScanToken, NeedsQuote;
  }

  lemma EscapeClean(g: GoLib, x: Sym)
    requires g.Lawful()
    ensures forall i :: 0 <= i < |Escape(g, x)| ==> !Control(Escape(g, x)[i])
  {
    var e := Escape(g, x);
    forall i | 0 <= i < |e| ensures !Control(e[i]) {
      match x
      case Bad(b) => if i >= 2 { HexPlain(b, 2, i - 2); }
      case Rune(c) =>
        if c == '"' || c == '\\' || g.isPrint(c) || ShortEscape(c) != ' ' {
        } else if i >= 2 {
          HexPlain(c as int, |e| - 2, i - 2);
        }
    }
  }

  lemma {:induction false} EscapeAllClean(g: GoLib, s: Text)
    requires g.Lawful()
    ensures forall i :: 0 <= i < |EscapeAll(g, s)| ==> !Control(EscapeAll(g, s)[i])
  {
    if s != [] {
      EscapeClean(g, s[0]);
      EscapeAllClean(g, s[1..]);
    }
  }

  lemma StringTokenText(g: GoLib, s: Text)
    requires g.Lawful()
    ensures TokenText(QuoteIfNeeded(g, s))
  {
    if s == [] || NeedsQuote(g, s) {
      EscapeAllClean(g, s);
      assert QuoteIfNeeded(g, s) == Quote(g, s);
    } else {
      PlainChars(g, s);
    }
  }
}
