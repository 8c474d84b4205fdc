/**
 * JSON text as JSON.stringify writes it and JSON.parse reads it (RFC 8259):
 * a serialiser, a recursive-descent parser, and the proof that the parser undoes the serialiser.
 * Numbers that are no integers are carried by their literal text; strings are sequences of Unicode scalar values.
 */
module Json {
  import opened Prelude
  import Decimal
  import opened Numerals

  datatype Json =
    | JNull
    | JBool(b: bool)
    | JNum(n: int)
    | JDec(text: Literal)
    | JStr(s: string)
    | JArr(items: seq<Json>)
    | JObj(fields: seq<(string, Json)>)

  // ----- serialiser -----

  function HexDigit(d: nat): char
    requires d < 16
  {
    if d < 10 then ('0' as int + d) as char else ('a' as int + d - 10) as char
  }

  /** Section 7 of RFC 8259, with the short escapes JSON.stringify prefers. */
  function Escape(c: char): (e: string)
    ensures |e| >= 1
  {
    if c == '\"' then "\\\""
    else if c == '\\' then "\\\\"
    else if c == '\U{08}' then "\\b"
    else if c == '\U{0C}' then "\\f"
    else if c == '\n' then "\\n"
    else if c == '\r' then "\\r"
    else if c == '\t' then "\\t"
    else if c < ' ' then "\\u00" + [HexDigit(c as int / 16), HexDigit(c as int % 16)]
    else [c]
  }

  function EscapeAll(s: string): string {
    if s == [] then [] else Escape(s[0]) + EscapeAll(s[1..])
  }

  function Quote(s: string): string {
    "\"" + EscapeAll(s) + "\""
  }

  function NumText(n: int): string {
    if n < 0 then "-" + Decimal.Text(-n) else Decimal.Text(n)
  }

  function Stringify(v: Json): string
    decreases v, 1
  {
    match v
    case JNull => "null"
    case JBool(b) => if b then "true" else "false"
    case JNum(n) => NumText(n)
    case JDec(text) => text
    case JStr(s) => Quote(s)
    case JArr(items) => "[" + StringifyItems(items) + "]"
    case JObj(fields) => "{" + StringifyFields(fields) + "}"
  }

  function StringifyItems(xs: seq<Json>): string
    decreases xs, 0
  {
    if xs == [] then ""
    else if |xs| == 1 then Stringify(xs[0])
    else Stringify(xs[0]) + "," + StringifyItems(xs[1..])
  }

  function StringifyField(f: (string, Json)): string
    decreases f, 2
  {
    Quote(f.0) + ":" + Stringify(f.1)
  }

  function StringifyFields(fs: seq<(string, Json)>): string
    decreases fs, 0
  {
    if fs == [] then ""
    else if |fs| == 1 then StringifyField(fs[0])
    else StringifyField(fs[0]) + "," + StringifyFields(fs[1..])
  }

  /** What the text of two elements looks like: nothing but the values and a comma between the brackets. */
  lemma TwoElements(a: Json, b: Json)
    ensures Stringify(JArr([a, b])) == "[" + (Stringify(a) + "," + Stringify(b)) + "]"
  {
    var xs := [a, b];
    assert xs[1..] == [b];
    assert StringifyItems([b]) == Stringify(b);
    assert StringifyItems(xs) == Stringify(a) + "," + StringifyItems([b]);
  }

  /** And of two fields: names, colons, values and a comma between the braces. */
  lemma TwoFields(f: (string, Json), g: (string, Json))
    ensures Stringify(JObj([f, g])) == "{" + (StringifyField(f) + "," + StringifyField(g)) + "}"
    ensures StringifyField(f) == Quote(f.0) + ":" + Stringify(f.1)
  {
    var fs := [f, g];
    assert fs[1..] == [g];
    assert StringifyFields([g]) == StringifyField(g);
    assert StringifyFields(fs) == StringifyField(f) + "," + StringifyFields([g]);
  }

  /** Characters below the space, the quotation mark and the backslash are escaped, and nothing else. */
  lemma EscapeExamples(c: char)
    ensures c >= ' ' && c != '\"' && c != '\\' ==> Escape(c) == [c]
    ensures Escape('\"') == "\\\"" && Escape('\\') == "\\\\" && Escape('\n') == "\\n" && Escape('\t') == "\\t"
    ensures Escape('\U{1F}') == "\\u001f" && Escape('\U{08}') == "\\b"
    ensures NumText(-12) == "-12" && NumText(0) == "0"
  {
    assert Decimal.Text(1) == "1" && Decimal.Text(12) == Decimal.Text(1) + "2";
    assert "-" + Decimal.Text(12) == "-12";
  }

  // ----- parser -----

  predicate IsSpace(c: char) { c == ' ' || c == '\n' || c == '\r' || c == '\t' }

  function HexValue(c: char): Option<nat> {
    if '0' <= c <= '9' then Some(c as int - '0' as int)
    else if 'a' <= c <= 'f' then Some(c as int - 'a' as int + 10)
    else if 'A' <= c <= 'F' then Some(c as int - 'A' as int + 10)
    else None
  }

  function Hex4(s: string): Option<nat>
    requires |s| == 4
  {
    match (HexValue(s[0]), HexValue(s[1]), HexValue(s[2]), HexValue(s[3]))
    case (Some(a), Some(b), Some(c), Some(d)) => Some(((a * 16 + b) * 16 + c) * 16 + d)
    case _ => None
  }

  /** Reads one escape sequence, backslash included. */
  function ParseEscape(s: string): (r: Option<(char, string)>)
    requires s != [] && s[0] == '\\'
    ensures r.Some? ==> |r.value.1| < |s|
  {
    if |s| < 2 then None
    else if s[1] == '\"' then Some(('\"', s[2..]))
    else if s[1] == '\\' then Some(('\\', s[2..]))
    else if s[1] == '/' then Some(('/', s[2..]))
    else if s[1] == 'b' then Some(('\U{08}', s[2..]))
    else if s[1] == 'f' then Some(('\U{0C}', s[2..]))
    else if s[1] == 'n' then Some(('\n', s[2..]))
    else if s[1] == 'r' then Some(('\r', s[2..]))
    else if s[1] == 't' then Some(('\t', s[2..]))
    else if s[1] == 'u' && |s| >= 6 then
      match Hex4(s[2..6])
      case Some(n) => if n < 0xD800 || 0xE000 <= n < 0x10000 then Some((n as char, s[6..])) else None
      case None => None
    else None
  }

  /** Reads the inside of a string up to and including the closing quote. */
  function ParseChars(s: string): (r: Option<(string, string)>)
    ensures r.Some? ==> |r.value.1| < |s|
    decreases |s|
  {
    if s == [] then None
    else if s[0] == '\"' then Some(([], s[1..]))
    else if s[0] == '\\' then
      match ParseEscape(s)
      case None => None
      case Some((c, t)) => (
        match ParseChars(t)
        case None => None
        case Some((cs, rest)) => Some(([c] + cs, rest)))
    else if s[0] < ' ' then None
    else
      match ParseChars(s[1..])
      case None => None
      case Some((cs, rest)) => Some(([s[0]] + cs, rest))
  }

  // Reading is split into a scanner (text to tokens, white space dropped) and a
  // recursive-descent parser over tokens.

  datatype Token =
    | TNull | TBool(b: bool) | TNum(n: int) | TDec(text: Literal) | TStr(s: string)
    | TOpenArr | TCloseArr | TOpenObj | TCloseObj | TComma | TColon

  /** The longest stretch of number characters must be an integer or another literal. */
  function ScanNumber(s: string): (r: Option<(Token, string)>)
    ensures r.Some? ==> |r.value.1| < |s|
  {
    var k := NumberRun(s);
    var text := s[..k];
    if IntOf(text).Some? then Some((TNum(IntOf(text).value), s[k..]))
    else if IsLiteral(text) then Some((TDec(text), s[k..]))
    else None
  }

  function ScanWord(s: string, word: string, t: Token): (r: Option<(Token, string)>)
    requires word != []
    ensures r.Some? ==> |r.value.1| < |s|
  {
    if word <= s then Some((t, s[|word|..])) else None
  }

  function ScanString(s: string): (r: Option<(Token, string)>)
    requires s != []
    ensures r.Some? ==> |r.value.1| < |s|
  {
    match ParseChars(s[1..])
    case None => None
    case Some((cs, rest)) => Some((TStr(cs), rest))
  }

  function Punctuation(c: char): Option<Token> {
    if c == '[' then Some(TOpenArr)
    else if c == ']' then Some(TCloseArr)
    else if c == '{' then Some(TOpenObj)
    else if c == '}' then Some(TCloseObj)
    else if c == ',' then Some(TComma)
    else if c == ':' then Some(TColon)
    else None
  }

  function ScanToken(s: string): (r: Option<(Token, string)>)
    requires s != []
    ensures r.Some? ==> |r.value.1| < |s|
  {
    if Punctuation(s[0]).Some? then Some((Punctuation(s[0]).value, s[1..]))
    else if s[0] == 'n' then ScanWord(s, "null", TNull)
    else if s[0] == 't' then ScanWord(s, "true", TBool(true))
    else if s[0] == 'f' then ScanWord(s, "false", TBool(false))
    else if s[0] == '\"' then ScanString(s)
    else ScanNumber(s)
  }

  function Scan(s: string): Option<seq<Token>>
    decreases |s|
  {
    if s == [] then Some([])
    else if IsSpace(s[0]) then Scan(s[1..])
    else
      match ScanToken(s)
      case None => None
      case Some((t, rest)) => (
        match Scan(rest)
        case None => None
        case Some(ts) => Some([t] + ts))
  }

  function ParseValue(ts: seq<Token>): (r: Option<(Json, seq<Token>)>)
    ensures r.Some? ==> |r.value.1| < |ts|
    decreases |ts|, 0
  {
    if ts == [] then None
    else
      match ts[0]
      case TNull => Some((JNull, ts[1..]))
      case TBool(b) => Some((JBool(b), ts[1..]))
      case TNum(n) => Some((JNum(n), ts[1..]))
      case TDec(text) => Some((JDec(text), ts[1..]))
      case TStr(s) => Some((JStr(s), ts[1..]))
      case TOpenArr => (
        if |ts| > 1 && ts[1].TCloseArr? then Some((JArr([]), ts[2..]))
        else
          match ParseItems(ts[1..])
          case None => None
          case Some((xs, rest)) => Some((JArr(xs), rest)))
      case TOpenObj => (
        if |ts| > 1 && ts[1].TCloseObj? then Some((JObj([]), ts[2..]))
        else
          match ParseFields(ts[1..])
          case None => None
          case Some((fs, rest)) => Some((JObj(Collapse(fs)), rest)))
      case _ => None
  }

  /** Reads a non-empty element list up to and including the closing bracket. */
  function ParseItems(ts: seq<Token>): (r: Option<(seq<Json>, seq<Token>)>)
    ensures r.Some? ==> |r.value.1| < |ts|
    decreases |ts|, 1
  {
    match ParseValue(ts)
    case None => None
    case Some((v, rest)) =>
      if rest == [] then None
      else if rest[0].TCloseArr? then Some(([v], rest[1..]))
      else if rest[0].TComma? then
        match ParseItems(rest[1..])
        case None => None
        case Some((vs, rest')) => Some(([v] + vs, rest'))
      else None
  }

  /** Reads a non-empty member list up to and including the closing brace. */
  function ParseFields(ts: seq<Token>): (r: Option<(seq<(string, Json)>, seq<Token>)>)
    ensures r.Some? ==> |r.value.1| < |ts|
    decreases |ts|, 1
  {
    if |ts| < 2 || !ts[0].TStr? || !ts[1].TColon? then None
    else
      match ParseValue(ts[2..])
      case None => None
      case Some((v, rest)) =>
        if rest == [] then None
        else if rest[0].TCloseObj? then Some(([(ts[0].s, v)], rest[1..]))
        else if rest[0].TComma? then
          match ParseFields(rest[1..])
          case None => None
          case Some((fs, rest')) => Some(([(ts[0].s, v)] + fs, rest'))
        else None
  }

  /** Index of key k, or |fs| when it is absent. */
  function IndexOf(fs: seq<(string, Json)>, k: string): (i: nat)
    ensures i <= |fs|
    ensures i < |fs| ==> fs[i].0 == k
    ensures forall j :: 0 <= j < i ==> fs[j].0 != k
  {
    if fs == [] then 0 else if fs[0].0 == k then 0 else 1 + IndexOf(fs[1..], k)
  }

  /** Property assignment: a repeated key keeps its place and takes the later value. */
  function Put(fs: seq<(string, Json)>, f: (string, Json)): seq<(string, Json)> {
    var i := IndexOf(fs, f.0);
    if i < |fs| then fs[i := f] else fs + [f]
  }

  function Collapse(fs: seq<(string, Json)>): seq<(string, Json)> {
    if fs == [] then [] else Put(Collapse(fs[..|fs| - 1]), fs[|fs| - 1])
  }

  function Parse(s: string): Option<Json> {
    match Scan(s)
    case None => None
    case Some(ts) =>
      match ParseValue(ts)
      case None => None
      case Some((v, rest)) => if rest == [] then Some(v) else None
  }

  /** A property, absent when the value is not an object or has no such property. */
  function Field(v: Json, k: string): Option<Json> {
    if v.JObj? && IndexOf(v.fields, k) < |v.fields| then Some(v.fields[IndexOf(v.fields, k)].1) else None
  }

  // ----- values a JavaScript program can hold: no object repeats a key -----

  ghost predicate DistinctKeys(fs: seq<(string, Json)>) {
    forall i, j :: 0 <= i < j < |fs| ==> fs[i].0 != fs[j].0
  }

  ghost predicate WellFormed(v: Json)
    decreases v
  {
    match v
    case JArr(items) => forall i :: 0 <= i < |items| ==> WellFormed(items[i])
    case JObj(fields) => DistinctKeys(fields) && forall i :: 0 <= i < |fields| ==> WellFormed(fields[i].1)
    case _ => true
  }

  lemma FieldAt(fs: seq<(string, Json)>, i: nat)
    requires DistinctKeys(fs) && i < |fs|
    ensures Field(JObj(fs), fs[i].0) == Some(fs[i].1)
  {
    var j := IndexOf(fs, fs[i].0);
    assert j <= i;
  }

  // ----- round trip -----

  lemma ParseEscapeOf(c: char, t: string)
    requires Escape(c)[0] == '\\'
    ensures ParseEscape(Escape(c) + t) == Some((c, t))
  {
    var s := Escape(c) + t;
    if |Escape(c)| == 2 {
      assert s[2..] == t;
    } else {
      assert s[6..] == t;
      assert s[2..6] == "00" + [HexDigit(c as int / 16), HexDigit(c as int % 16)];
      assert Hex4(s[2..6]) == Some(c as int);
    }
  }

  lemma {:induction false} ParseCharsOf(s: string, rest: string)
    ensures ParseChars(EscapeAll(s) + "\"" + rest) == Some((s, rest))
  {
    var text := EscapeAll(s) + "\"" + rest;
    if s == [] {
      assert text[1..] == rest;
    } else {
      var tail := EscapeAll(s[1..]) + "\"" + rest;
      assert text == Escape(s[0]) + tail;
      ParseCharsOf(s[1..], rest);
      assert [s[0]] + s[1..] == s;
      if Escape(s[0])[0] == '\\' {
        ParseEscapeOf(s[0], tail);
      } else {
        assert text[1..] == tail;
      }
    }
  }

  // The tokens of a value, and their text.

  function Tokens(v: Json): seq<Token>
    decreases v, 1
  {
    match v
    case JNull => [TNull]
    case JBool(b) => [TBool(b)]
    case JNum(n) => [TNum(n)]
    case JDec(text) => [TDec(text)]
    case JStr(s) => [TStr(s)]
    case JArr(items) => [TOpenArr] + TokensItems(items) + [TCloseArr]
    case JObj(fields) => [TOpenObj] + TokensFields(fields) + [TCloseObj]
  }

  function TokensItems(xs: seq<Json>): seq<Token>
    decreases xs, 0
  {
    if xs == [] then []
    else if |xs| == 1 then Tokens(xs[0])
    else Tokens(xs[0]) + [TComma] + TokensItems(xs[1..])
  }

  function TokensField(f: (string, Json)): seq<Token>
    decreases f, 2
  {
    [TStr(f.0), TColon] + Tokens(f.1)
  }

  function TokensFields(fs: seq<(string, Json)>): seq<Token>
    decreases fs, 0
  {
    if fs == [] then []
    else if |fs| == 1 then TokensField(fs[0])
    else TokensField(fs[0]) + [TComma] + TokensFields(fs[1..])
  }

  function TokenText(t: Token): (s: string)
    ensures |s| >= 1
  {
    match t
    case TNull => "null"
    case TBool(b) => if b then "true" else "false"
    case TNum(n) => NumText(n)
    case TDec(text) => text
    case TStr(s) => Quote(s)
    case TOpenArr => "["
    case TCloseArr => "]"
    case TOpenObj => "{"
    case TCloseObj => "}"
    case TComma => ","
    case TColon => ":"
  }

  function Concat(ts: seq<Token>): string {
    if ts == [] then "" else TokenText(ts[0]) + Concat(ts[1..])
  }

  lemma {:induction false} ConcatAppend(a: seq<Token>, b: seq<Token>)
    ensures Concat(a + b) == Concat(a) + Concat(b)
  {
    if a == [] {
      assert a + b == b;
    } else {
      assert (a + b)[1..] == a[1..] + b;
      ConcatAppend(a[1..], b);
    }
  }

  lemma ConcatOne(t: Token)
    ensures Concat([t]) == TokenText(t)
  {
    assert Concat([t][1..]) == "";
  }

  lemma ConcatBetween(open: Token, ts: seq<Token>, close: Token)
    ensures Concat([open] + ts + [close]) == TokenText(open) + Concat(ts) + TokenText(close)
  {
    ConcatAppend([open] + ts, [close]);
    ConcatAppend([open], ts);
    ConcatOne(open);
    ConcatOne(close);
  }

  lemma ConcatComma(a: seq<Token>, b: seq<Token>)
    ensures Concat(a + [TComma] + b) == Concat(a) + "," + Concat(b)
  {
    ConcatAppend(a + [TComma], b);
    ConcatAppend(a, [TComma]);
    ConcatOne(TComma);
  }

  lemma ConcatLabel(name: string, ts: seq<Token>)
    ensures Concat([TStr(name), TColon] + ts) == Quote(name) + ":" + Concat(ts)
  {
    ConcatAppend([TStr(name), TColon], ts);
    ConcatAppend([TStr(name)], [TColon]);
    assert [TStr(name)] + [TColon] == [TStr(name), TColon];
    ConcatOne(TStr(name));
    ConcatOne(TColon);
  }

  lemma TextOfScalar(v: Json)
    requires !v.JArr? && !v.JObj?
    ensures Concat(Tokens(v)) == Stringify(v)
  {
    ConcatOne(Tokens(v)[0]);
  }

  lemma {:induction false} TextOfTokens(v: Json)
    ensures Concat(Tokens(v)) == Stringify(v)
    decreases v, 1
  {
    match v
    case JArr(items) =>
      TextOfItems(items);
      ConcatBetween(TOpenArr, TokensItems(items), TCloseArr);
    case JObj(fields) =>
      TextOfFields(fields);
      ConcatBetween(TOpenObj, TokensFields(fields), TCloseObj);
    case _ => TextOfScalar(v);
  }

  lemma {:induction false} TextOfItems(xs: seq<Json>)
    ensures Concat(TokensItems(xs)) == StringifyItems(xs)
    decreases xs, 0
  {
    if xs != [] {
      TextOfTokens(xs[0]);
      if |xs| > 1 {
        TextOfItems(xs[1..]);
        ConcatComma(Tokens(xs[0]), TokensItems(xs[1..]));
      }
    }
  }

  lemma {:induction false} TextOfField(f: (string, Json))
    ensures Concat(TokensField(f)) == StringifyField(f)
    decreases f, 2
  {
    TextOfTokens(f.1);
    ConcatLabel(f.0, Tokens(f.1));
  }

  lemma {:induction false} TextOfFields(fs: seq<(string, Json)>)
    ensures Concat(TokensFields(fs)) == StringifyFields(fs)
    decreases fs, 0
  {
    if fs != [] {
      TextOfField(fs[0]);
      if |fs| > 1 {
        TextOfFields(fs[1..]);
        ConcatComma(TokensField(fs[0]), TokensFields(fs[1..]));
      }
    }
  }

  // Scanning gives the tokens back as long as no two scalar tokens touch.

  predicate IsPunctuation(t: Token) {
    t.TOpenArr? || t.TCloseArr? || t.TOpenObj? || t.TCloseObj? || t.TComma? || t.TColon?
  }

  ghost predicate Separated(ts: seq<Token>) {
    forall i :: 0 <= i < |ts| - 1 ==> IsPunctuation(ts[i]) || IsPunctuation(ts[i + 1])
  }

  lemma ScanRun(t: string, rest: string)
    requires t != "" && AllNumberChars(t) && (rest != [] ==> Punctuation(rest[0]).Some?)
    ensures var s := t + rest; NumberRun(s) == |t| && s[..NumberRun(s)] == t && s[NumberRun(s)..] == rest
  {
    NumberRunOf(t, rest);
  }

  lemma ScanNumberOf(n: int, rest: string)
    requires rest != [] ==> Punctuation(rest[0]).Some?
    ensures ScanNumber(NumText(n) + rest) == Some((TNum(n), rest))
    ensures NumText(n)[0] == '-' || Decimal.IsDigit(NumText(n)[0])
  {
    var digits := Decimal.Text(if n < 0 then -n else n);
    IntegerRead(if n < 0 then -n else n);
    assert n < 0 ==> NumText(n)[1..] == digits;
    assert IntOf(NumText(n)) == Some(n);
    ScanRun(NumText(n), rest);
  }

  lemma ScanLiteralOf(text: Literal, rest: string)
    requires rest != [] ==> Punctuation(rest[0]).Some?
    ensures ScanNumber(text + rest) == Some((TDec(text), rest))
    ensures text[0] == '-' || Decimal.IsDigit(text[0])
  {
    LiteralStarts(text);
    ScanRun(text, rest);
  }

  lemma ScanStringOf(cs: string, rest: string)
    ensures ScanString(Quote(cs) + rest) == Some((TStr(cs), rest))
  {
    assert (Quote(cs) + rest)[1..] == EscapeAll(cs) + "\"" + rest;
    ParseCharsOf(cs, rest);
  }

  lemma ScanPunctuation(t: Token, rest: string)
    requires IsPunctuation(t)
    ensures !IsSpace(TokenText(t)[0]) && ScanToken(TokenText(t) + rest) == Some((t, rest))
  {
    var s := TokenText(t) + rest;
    assert s[1..] == rest;
    assert Punctuation(s[0]) == Some(t);
  }

  lemma ScanNull(rest: string)
    ensures ScanToken("null" + rest) == Some((TNull, rest))
  {
    assert ("null" + rest)[..4] == "null" && ("null" + rest)[4..] == rest;
  }

  lemma ScanBool(b: bool, rest: string)
    ensures ScanToken((if b then "true" else "false") + rest) == Some((TBool(b), rest))
  {
    if b {
      assert ("true" + rest)[..4] == "true" && ("true" + rest)[4..] == rest;
    } else {
      assert ("false" + rest)[..5] == "false" && ("false" + rest)[5..] == rest;
    }
  }

  /** Text that starts like a number is scanned as one. */
  lemma ScanNumeral(s: string)
    requires s != [] && (s[0] == '-' || Decimal.IsDigit(s[0]))
    ensures !IsSpace(s[0]) && ScanToken(s) == ScanNumber(s)
  {
    var c := s[0];
    assert !IsSpace(c) && Punctuation(c).None? && c != 'n' && c != 't' && c != 'f' && c != '\"';
  }

  lemma ScanQuoted(cs: string, rest: string)
    ensures !IsSpace(Quote(cs)[0]) && ScanToken(Quote(cs) + rest) == Some((TStr(cs), rest))
  {
    ScanStringOf(cs, rest);
    assert (Quote(cs) + rest)[0] == Quote(cs)[0] == '\"';
  }

  lemma ScanTokenOf(t: Token, rest: string)
    requires IsPunctuation(t) || rest == [] || Punctuation(rest[0]).Some?
    ensures !IsSpace(TokenText(t)[0])
    ensures ScanToken(TokenText(t) + rest) == Some((t, rest))
  {
    var s := TokenText(t) + rest;
    if IsPunctuation(t) {
      ScanPunctuation(t, rest);
    } else {
      match t
      case TNull => ScanNull(rest);
      case TBool(b) => ScanBool(b, rest);
      case TNum(n) =>
        ScanNumberOf(n, rest);
        ScanNumeral(NumText(n) + rest);
      case TDec(text) =>
        ScanLiteralOf(text, rest);
        ScanNumeral(text + rest);
      case TStr(cs) => ScanQuoted(cs, rest);
    }
  }

  lemma {:induction false} ScanOf(ts: seq<Token>)
    requires Separated(ts)
    ensures Scan(Concat(ts)) == Some(ts)
  {
    if ts != [] {
      var rest := Concat(ts[1..]);
      ScanOf(ts[1..]);
      if |ts| > 1 && !IsPunctuation(ts[0]) {
        assert IsPunctuation(ts[0 + 1]);
        assert rest[0] == TokenText(ts[1])[0];
      }
      ScanTokenOf(ts[0], rest);
      assert [ts[0]] + ts[1..] == ts;
    }
  }

  lemma SeparatedJoin(a: seq<Token>, t: Token, b: seq<Token>)
    requires Separated(a) && Separated(b) && IsPunctuation(t)
    ensures Separated(a + [t] + b)
  {
  }

  lemma {:induction false} TokensSeparated(v: Json)
    ensures Separated(Tokens(v))
    decreases v, 1
  {
    match v
    case JArr(items) =>
      ItemsSeparated(items);
      SeparatedJoin([], TOpenArr, TokensItems(items));
      assert [] + [TOpenArr] == [TOpenArr];
      SeparatedJoin([TOpenArr] + TokensItems(items), TCloseArr, []);
    case JObj(fields) =>
      FieldsSeparated(fields);
      SeparatedJoin([], TOpenObj, TokensFields(fields));
      assert [] + [TOpenObj] == [TOpenObj];
      SeparatedJoin([TOpenObj] + TokensFields(fields), TCloseObj, []);
    case _ =>
  }

  lemma {:induction false} ItemsSeparated(xs: seq<Json>)
    ensures Separated(TokensItems(xs))
    decreases xs, 0
  {
    if xs != [] {
      TokensSeparated(xs[0]);
      if |xs| > 1 {
        ItemsSeparated(xs[1..]);
        SeparatedJoin(Tokens(xs[0]), TComma, TokensItems(xs[1..]));
      }
    }
  }

  lemma {:induction false} FieldSeparated(f: (string, Json))
    ensures Separated(TokensField(f))
    decreases f, 2
  {
    TokensSeparated(f.1);
    SeparatedJoin([TStr(f.0)], TColon, Tokens(f.1));
    assert [TStr(f.0)] + [TColon] == [TStr(f.0), TColon];
  }

  lemma {:induction false} FieldsSeparated(fs: seq<(string, Json)>)
    ensures Separated(TokensFields(fs))
    decreases fs, 0
  {
    if fs != [] {
      FieldSeparated(fs[0]);
      if |fs| > 1 {
        FieldsSeparated(fs[1..]);
        SeparatedJoin(TokensField(fs[0]), TComma, TokensFields(fs[1..]));
      }
    }
  }

  lemma {:induction false} CollapseDistinct(fs: seq<(string, Json)>)
    requires DistinctKeys(fs)
    ensures Collapse(fs) == fs
  {
    if fs != [] {
      var init := fs[..|fs| - 1];
      CollapseDistinct(init);
      assert fs == init + [fs[|fs| - 1]];
      assert forall j :: 0 <= j < |init| ==> init[j].0 == fs[j].0;
    }
  }

  // One unfolding of each parsing function.

  lemma ParseOpenArr(ts: seq<Token>, xs: seq<Json>, rest: seq<Token>)
    requires |ts| > 1 && ts[0] == TOpenArr && ts[1] != TCloseArr && ParseItems(ts[1..]) == Some((xs, rest))
    ensures ParseValue(ts) == Some((JArr(xs), rest))
  {
  }

  lemma ParseOpenObj(ts: seq<Token>, fs: seq<(string, Json)>, rest: seq<Token>)
    requires |ts| > 1 && ts[0] == TOpenObj && ts[1] != TCloseObj && ParseFields(ts[1..]) == Some((fs, rest))
    requires Collapse(fs) == fs
    ensures ParseValue(ts) == Some((JObj(fs), rest))
  {
  }

  lemma ParseEmpty(rest: seq<Token>)
    ensures ParseValue([TOpenArr, TCloseArr] + rest) == Some((JArr([]), rest))
    ensures ParseValue([TOpenObj, TCloseObj] + rest) == Some((JObj([]), rest))
  {
    assert ([TOpenArr, TCloseArr] + rest)[2..] == rest && ([TOpenObj, TCloseObj] + rest)[2..] == rest;
  }

  lemma ParseScalar(t: Token, v: Json, rest: seq<Token>)
    requires !v.JArr? && !v.JObj? && Tokens(v) == [t]
    ensures ParseValue([t] + rest) == Some((v, rest))
  {
    assert ([t] + rest)[1..] == rest;
  }

  lemma ParseLastItem(ts: seq<Token>, x: Json, rest: seq<Token>)
    requires ParseValue(ts) == Some((x, [TCloseArr] + rest))
    ensures ParseItems(ts) == Some(([x], rest))
  {
    assert ([TCloseArr] + rest)[1..] == rest;
  }

  lemma ParseNextItem(ts: seq<Token>, x: Json, more: seq<Token>, xs: seq<Json>, rest: seq<Token>)
    requires ParseValue(ts) == Some((x, [TComma] + more)) && ParseItems(more) == Some((xs, rest))
    ensures ParseItems(ts) == Some(([x] + xs, rest))
  {
    assert ([TComma] + more)[1..] == more;
  }

  lemma {:induction false} ParseLastField(f: (string, Json), rest: seq<Token>)
    requires ParseValue(Tokens(f.1) + ([TCloseObj] + rest)) == Some((f.1, [TCloseObj] + rest))
    ensures ParseFields(TokensField(f) + ([TCloseObj] + rest)) == Some(([f], rest))
  {
    var ts := TokensField(f) + ([TCloseObj] + rest);
    FieldShape(f, [TCloseObj] + rest);
    assert ts[2..] == Tokens(f.1) + ([TCloseObj] + rest);
    assert ([TCloseObj] + rest)[1..] == rest;
  }

  lemma {:induction false} ParseNextField(f: (string, Json), more: seq<Token>, fs: seq<(string, Json)>, rest: seq<Token>)
    requires ParseValue(Tokens(f.1) + ([TComma] + more)) == Some((f.1, [TComma] + more))
    requires ParseFields(more) == Some((fs, rest))
    ensures ParseFields(TokensField(f) + ([TComma] + more)) == Some(([f] + fs, rest))
  {
    var ts := TokensField(f) + ([TComma] + more);
    FieldShape(f, [TComma] + more);
    assert ts[2..] == Tokens(f.1) + ([TComma] + more);
    assert ([TComma] + more)[1..] == more;
  }

  lemma FieldShape(f: (string, Json), more: seq<Token>)
    ensures TokensField(f) + more == [TStr(f.0), TColon] + (Tokens(f.1) + more)
  {
  }

  /** Parsing the tokens of a value gives back the value and leaves what follows. */
  lemma {:induction false} ParseValueOf(v: Json, rest: seq<Token>)
    requires WellFormed(v)
    ensures ParseValue(Tokens(v) + rest) == Some((v, rest))
    ensures Tokens(v) != [] && Tokens(v)[0] != TCloseArr
    decreases v, 1
  {
    match v
    case JArr(_) => ParseArrOf(v, rest);
    case JObj(_) => ParseObjOf(v, rest);
    case _ => ParseScalar(Tokens(v)[0], v, rest);
  }

  lemma {:induction false} ParseArrOf(v: Json, rest: seq<Token>)
    requires v.JArr? && WellFormed(v)
    ensures ParseValue(Tokens(v) + rest) == Some((v, rest))
    decreases v, 0
  {
    var ts := Tokens(v) + rest;
    if v.items == [] {
      assert TokensItems(v.items) == [];
      assert ts == [TOpenArr, TCloseArr] + rest;
      ParseEmpty(rest);
    } else {
      assert ts[1..] == TokensItems(v.items) + [TCloseArr] + rest;
      ParseItemsOf(v.items, rest);
      assert ts[1] == ts[1..][0];
      ParseOpenArr(ts, v.items, rest);
    }
  }

  lemma {:induction false} ParseObjOf(v: Json, rest: seq<Token>)
    requires v.JObj? && WellFormed(v)
    ensures ParseValue(Tokens(v) + rest) == Some((v, rest))
    decreases v, 0
  {
    var ts := Tokens(v) + rest;
    if v.fields == [] {
      assert TokensFields(v.fields) == [];
      assert ts == [TOpenObj, TCloseObj] + rest;
      ParseEmpty(rest);
    } else {
      assert ts[1..] == TokensFields(v.fields) + [TCloseObj] + rest;
      ParseFieldsOf(v.fields, rest);
      FieldsStart(v.fields);
      CollapseDistinct(v.fields);
      assert ts[1] == ts[1..][0];
      ParseOpenObj(ts, v.fields, rest);
    }
  }

  lemma ItemsShape(xs: seq<Json>, rest: seq<Token>)
    requires |xs| > 1
    ensures TokensItems(xs) + [TCloseArr] + rest == Tokens(xs[0]) + ([TComma] + (TokensItems(xs[1..]) + [TCloseArr] + rest))
  {
    var first, others := Tokens(xs[0]), TokensItems(xs[1..]);
    assert TokensItems(xs) == first + [TComma] + others;
    Regroup(first, TComma, others, TCloseArr, rest);
  }

  lemma FieldsShape(fs: seq<(string, Json)>, rest: seq<Token>)
    requires |fs| > 1
    ensures TokensFields(fs) + [TCloseObj] + rest
            == TokensField(fs[0]) + ([TComma] + (TokensFields(fs[1..]) + [TCloseObj] + rest))
  {
    var first, others := TokensField(fs[0]), TokensFields(fs[1..]);
    assert TokensFields(fs) == first + [TComma] + others;
    Regroup(first, TComma, others, TCloseObj, rest);
  }

  lemma FieldsStart(fs: seq<(string, Json)>)
    requires fs != []
    ensures TokensFields(fs) != [] && TokensFields(fs)[0] == TStr(fs[0].0)
  {
  }

  lemma Regroup(a: seq<Token>, t: Token, b: seq<Token>, u: Token, rest: seq<Token>)
    ensures a + [t] + b + [u] + rest == a + ([t] + (b + [u] + rest))
  {
  }

  lemma {:induction false} ParseItemsOf(xs: seq<Json>, rest: seq<Token>)
    requires xs != [] && forall i :: 0 <= i < |xs| ==> WellFormed(xs[i])
    ensures ParseItems(TokensItems(xs) + [TCloseArr] + rest) == Some((xs, rest))
    ensures (TokensItems(xs) + [TCloseArr] + rest)[0] != TCloseArr
    decreases xs, 0
  {
    var ts := TokensItems(xs) + [TCloseArr] + rest;
    if |xs| == 1 {
      assert ts == Tokens(xs[0]) + ([TCloseArr] + rest);
      ParseValueOf(xs[0], [TCloseArr] + rest);
      ParseLastItem(ts, xs[0], rest);
      assert [xs[0]] == xs;
    } else {
      var more := TokensItems(xs[1..]) + [TCloseArr] + rest;
      ItemsShape(xs, rest);
      ParseValueOf(xs[0], [TComma] + more);
      ParseItemsOf(xs[1..], rest);
      ParseNextItem(ts, xs[0], more, xs[1..], rest);
      assert [xs[0]] + xs[1..] == xs;
    }
  }

  lemma {:induction false} ParseFieldOf(f: (string, Json), rest: seq<Token>)
    requires WellFormed(f.1)
    ensures ParseValue(Tokens(f.1) + rest) == Some((f.1, rest))
    decreases f, 2
  {
    ParseValueOf(f.1, rest);
  }

  lemma {:induction false} ParseLastFieldOf(f: (string, Json), rest: seq<Token>)
    requires WellFormed(f.1)
    ensures ParseFields(TokensField(f) + ([TCloseObj] + rest)) == Some(([f], rest))
    decreases f, 3
  {
    ParseFieldOf(f, [TCloseObj] + rest);
    ParseLastField(f, rest);
  }

  lemma {:induction false} ParseNextFieldOf(f: (string, Json), more: seq<Token>, fs: seq<(string, Json)>, rest: seq<Token>)
    requires WellFormed(f.1) && ParseFields(more) == Some((fs, rest))
    ensures ParseFields(TokensField(f) + ([TComma] + more)) == Some(([f] + fs, rest))
    decreases f, 3
  {
    ParseFieldOf(f, [TComma] + more);
    ParseNextField(f, more, fs, rest);
  }

  lemma {:induction false} ParseFieldsOf(fs: seq<(string, Json)>, rest: seq<Token>)
    requires fs != [] && forall i :: 0 <= i < |fs| ==> WellFormed(fs[i].1)
    ensures ParseFields(TokensFields(fs) + [TCloseObj] + rest) == Some((fs, rest))
    decreases fs, 0
  {
    if |fs| == 1 {
      assert TokensFields(fs) + [TCloseObj] + rest == TokensField(fs[0]) + ([TCloseObj] + rest);
      ParseLastFieldOf(fs[0], rest);
      assert [fs[0]] == fs;
    } else {
      FieldsShape(fs, rest);
      ParseFieldsOf(fs[1..], rest);
      ParseNextFieldOf(fs[0], TokensFields(fs[1..]) + [TCloseObj] + rest, fs[1..], rest);
      assert [fs[0]] + fs[1..] == fs;
    }
  }

  /** JSON.parse undoes JSON.stringify. */
  lemma RoundTrip(v: Json)
    requires WellFormed(v)
    ensures Parse(Stringify(v)) == Some(v)
  {
    TextOfTokens(v);
    TokensSeparated(v);
    ScanOf(Tokens(v));
    ParseValueOf(v, []);
    assert Tokens(v) + [] == Tokens(v);
  }

  /** Text that goes on after a value is refused. */
  lemma NothingMayFollow(v: Json, t: Token)
    requires WellFormed(v) && IsPunctuation(t)
    ensures Parse(Stringify(v) + TokenText(t)) == None
  {
    var ts := Tokens(v) + [t];
    TextOfTokens(v);
    ConcatAppend(Tokens(v), [t]);
    ConcatOne(t);
    TokensSeparated(v);
    SeparatedJoin(Tokens(v), t, []);
    assert ts + [] == ts;
    ScanOf(ts);
    ParseValueOf(v, [t]);
  }

  /** Hexadecimal escapes are read in either case, up to the surrogates and beyond them. */
  lemma HexEscapes()
    ensures HexValue('A') == HexValue('a') == Some(10) && HexValue('F') == HexValue('f') == Some(15)
    ensures ParseEscape("\\uE000") == Some(('\U{E000}', "")) && ParseEscape("\\uD800") == None
  {
    var above, inside := "\\uE000", "\\uD800";
    assert above[2..6] == "E000" && inside[2..6] == "D800" && above[6..] == "";
    assert Hex4("E000") == Some(0xE000) && Hex4("D800") == Some(0xD800);
  }

  /** Hence the text determines the value. */
  lemma StringifyInjective(a: Json, b: Json)
    requires WellFormed(a) && WellFormed(b)
    requires Stringify(a) == Stringify(b)
    ensures a == b
  {
    RoundTrip(a);
    RoundTrip(b);
  }

  // ----- what JSON.parse returns is well formed -----

  lemma PutDistinct(fs: seq<(string, Json)>, f: (string, Json))
    requires DistinctKeys(fs)
    ensures DistinctKeys(Put(fs, f))
  {
  }

  lemma {:induction false} CollapseWellFormed(fs: seq<(string, Json)>)
    requires forall i :: 0 <= i < |fs| ==> WellFormed(fs[i].1)
    ensures DistinctKeys(Collapse(fs)) && forall i :: 0 <= i < |Collapse(fs)| ==> WellFormed(Collapse(fs)[i].1)
  {
    if fs != [] {
      CollapseWellFormed(fs[..|fs| - 1]);
      PutDistinct(Collapse(fs[..|fs| - 1]), fs[|fs| - 1]);
    }
  }

  lemma {:induction false} ValueWellFormed(ts: seq<Token>)
    requires ParseValue(ts).Some?
    ensures WellFormed(ParseValue(ts).value.0)
    decreases |ts|, 0
  {
    match ts[0]
    case TOpenArr =>
      if !(|ts| > 1 && ts[1].TCloseArr?) { ItemsWellFormed(ts[1..]); }
    case TOpenObj =>
      if !(|ts| > 1 && ts[1].TCloseObj?) {
        FieldsWellFormed(ts[1..]);
        CollapseWellFormed(ParseFields(ts[1..]).value.0);
      }
    case _ =>
  }

  lemma {:induction false} ItemsWellFormed(ts: seq<Token>)
    requires ParseItems(ts).Some?
    ensures forall i :: 0 <= i < |ParseItems(ts).value.0| ==> WellFormed(ParseItems(ts).value.0[i])
    decreases |ts|, 1
  {
    ValueWellFormed(ts);
    var rest := ParseValue(ts).value.1;
    if !rest[0].TCloseArr? { ItemsWellFormed(rest[1..]); }
  }

  lemma {:induction false} FieldsWellFormed(ts: seq<Token>)
    requires ParseFields(ts).Some?
    ensures forall i :: 0 <= i < |ParseFields(ts).value.0| ==> WellFormed(ParseFields(ts).value.0[i].1)
    decreases |ts|, 1
  {
    ValueWellFormed(ts[2..]);
    var rest := ParseValue(ts[2..]).value.1;
    if !rest[0].TCloseObj? { FieldsWellFormed(rest[1..]); }
  }

  lemma ParseWellFormed(s: string)
    requires Parse(s).Some?
    ensures WellFormed(Parse(s).value)
  {
    ValueWellFormed(Scan(s).value);
  }
}
