/** Base64 with the standard alphabet and padding (section 4 of RFC 4648), and the padding helpers. */
module Base64 {
  import opened Prelude
  import opened Utf8

  function Symbol(v: int): char
    requires 0 <= v < 64
  {
    if v < 26 then ('A' as int + v) as char
    else if v < 52 then ('a' as int + v - 26) as char
    else if v < 62 then ('0' as int + v - 52) as char
    else if v == 62 then '+' else '/'
  }

  function SymbolValue(c: char): (r: Option<int>)
    ensures r.Some? ==> 0 <= r.value < 64
  {
    if 'A' <= c <= 'Z' then Some(c as int - 'A' as int)
    else if 'a' <= c <= 'z' then Some(c as int - 'a' as int + 26)
    else if '0' <= c <= '9' then Some(c as int - '0' as int + 52)
    else if c == '+' then Some(62)
    else if c == '/' then Some(63)
    else None
  }

  predicate IsSymbol(c: char) { SymbolValue(c).Some? }

  lemma SymbolInverse(v: int)
    requires 0 <= v < 64
    ensures SymbolValue(Symbol(v)) == Some(v)
    ensures Symbol(v) != '='
  {
  }

  function EncodeTail(bs: seq<Byte>): string
    requires |bs| < 3
  {
    if |bs| == 0 then ""
    else if |bs| == 1 then [Symbol(bs[0] / 4), Symbol(bs[0] % 4 * 16), '=', '=']
    else [Symbol(bs[0] / 4), Symbol(bs[0] % 4 * 16 + bs[1] / 16), Symbol(bs[1] % 16 * 4), '=']
  }

  function EncodeGroup(a: Byte, b: Byte, c: Byte): (s: string)
    ensures |s| == 4
  {
    [Symbol(a / 4), Symbol(a % 4 * 16 + b / 16), Symbol(b % 16 * 4 + c / 64), Symbol(c % 64)]
  }

  function Encode(bs: seq<Byte>): string {
    if |bs| < 3 then EncodeTail(bs) else EncodeGroup(bs[0], bs[1], bs[2]) + Encode(bs[3..])
  }

  // The three bytes that four symbol values carry.

  function First(a: int, b: int): Byte
    requires 0 <= a < 64 && 0 <= b < 64
  {
    a * 4 + b / 16
  }

  function Second(b: int, c: int): Byte
    requires 0 <= b < 64 && 0 <= c < 64
  {
    b % 16 * 16 + c / 4
  }

  function Third(c: int, d: int): Byte
    requires 0 <= c < 64 && 0 <= d < 64
  {
    c % 4 * 64 + d
  }

  /** A final group of four, with one or two padding characters. */
  function DecodeTail(s: string): Option<seq<Byte>>
    requires |s| == 4 && s[3] == '='
  {
    match (SymbolValue(s[0]), SymbolValue(s[1]), SymbolValue(s[2]))
    case (Some(a), Some(b), Some(c)) => Some([First(a, b), Second(b, c)])
    case (Some(a), Some(b), None) => if s[2] == '=' then Some([First(a, b)]) else None
    case _ => None
  }

  function DecodeGroup(s: string): Option<seq<Byte>>
    requires |s| == 4
  {
    match (SymbolValue(s[0]), SymbolValue(s[1]), SymbolValue(s[2]), SymbolValue(s[3]))
    case (Some(a), Some(b), Some(c), Some(d)) => Some([First(a, b), Second(b, c), Third(c, d)])
    case _ => None
  }

  function Decode(s: string): Option<seq<Byte>> {
    if s == "" then Some([])
    else if |s| < 4 then None
    else if |s| == 4 && s[3] == '=' then DecodeTail(s)
    else
      match DecodeGroup(s[..4])
      case None => None
      case Some(g) =>
        match Decode(s[4..])
        case None => None
        case Some(bs) => Some(g + bs)
  }

  lemma BytesOf(a: Byte, b: Byte, c: Byte)
    ensures First(a / 4, a % 4 * 16 + b / 16) == a
    ensures Second(a % 4 * 16 + b / 16, b % 16 * 4 + c / 64) == b
    ensures Third(b % 16 * 4 + c / 64, c % 64) == c
  {
  }

  lemma DecodeGroupOf(a: Byte, b: Byte, c: Byte)
    ensures DecodeGroup(EncodeGroup(a, b, c)) == Some([a, b, c])
    ensures forall i :: 0 <= i < 4 ==> IsSymbol(EncodeGroup(a, b, c)[i]) && EncodeGroup(a, b, c)[i] != '='
  {
    SymbolInverse(a / 4);
    SymbolInverse(a % 4 * 16 + b / 16);
    SymbolInverse(b % 16 * 4 + c / 64);
    SymbolInverse(c % 64);
    BytesOf(a, b, c);
  }

  lemma DecodeOneOf(a: Byte)
    ensures DecodeTail(EncodeTail([a])) == Some([a])
    ensures IsSymbol(EncodeTail([a])[0]) && IsSymbol(EncodeTail([a])[1])
  {
    SymbolInverse(a / 4);
    SymbolInverse(a % 4 * 16);
    BytesOf(a, 0, 0);
  }

  lemma DecodeTwoOf(a: Byte, b: Byte)
    ensures DecodeTail(EncodeTail([a, b])) == Some([a, b])
    ensures forall i :: 0 <= i < 3 ==> IsSymbol(EncodeTail([a, b])[i])
  {
    SymbolInverse(a / 4);
    SymbolInverse(a % 4 * 16 + b / 16);
    SymbolInverse(b % 16 * 4);
    BytesOf(a, b, 0);
  }

  lemma DecodeTailOf(bs: seq<Byte>)
    requires 1 <= |bs| < 3
    ensures |EncodeTail(bs)| == 4 && EncodeTail(bs)[3] == '='
    ensures DecodeTail(EncodeTail(bs)) == Some(bs)
    ensures forall i :: 0 <= i <= |bs| ==> IsSymbol(EncodeTail(bs)[i])
  {
    if |bs| == 1 {
      DecodeOneOf(bs[0]);
      assert [bs[0]] == bs;
    } else {
      DecodeTwoOf(bs[0], bs[1]);
      assert [bs[0], bs[1]] == bs;
    }
  }

  lemma {:induction false} RoundTrip(bs: seq<Byte>)
    ensures Decode(Encode(bs)) == Some(bs)
  {
    if |bs| == 0 {
    } else if |bs| < 3 {
      DecodeTailOf(bs);
    } else {
      var g := EncodeGroup(bs[0], bs[1], bs[2]);
      DecodeGroupOf(bs[0], bs[1], bs[2]);
      assert Encode(bs)[..4] == g && Encode(bs)[4..] == Encode(bs[3..]);
      RoundTrip(bs[3..]);
      assert [bs[0], bs[1], bs[2]] + bs[3..] == bs;
    }
  }

  /** Whole groups of symbols, with up to two padding characters at the very end. */
  ghost predicate Grouped(s: string) {
    |s| % 4 == 0 && forall i :: 0 <= i < |s| ==> IsSymbol(s[i]) || (s[i] == '=' && i >= |s| - 2)
  }

  lemma GroupedJoin(g: string, t: string)
    requires |g| == 4 && (forall i :: 0 <= i < 4 ==> IsSymbol(g[i])) && Grouped(t)
    ensures Grouped(g + t)
  {
    forall i | 0 <= i < |g + t| ensures IsSymbol((g + t)[i]) || ((g + t)[i] == '=' && i >= |g + t| - 2) {
      if i >= 4 { assert (g + t)[i] == t[i - 4]; }
    }
  }

  /** Nothing else decodes. */
  lemma {:induction false} DecodedText(s: string)
    requires Decode(s).Some?
    ensures Grouped(s)
  {
    if s != "" && !(|s| == 4 && s[3] == '=') {
      DecodedText(s[4..]);
      GroupedJoin(s[..4], s[4..]);
      assert s[..4] + s[4..] == s;
    }
  }

  /** Examples of section 10 of RFC 4648: the bytes of f, fo, foo and foobar. */
  lemma Vectors()
    ensures Encode([102]) == "Zg==" && Encode([102, 111]) == "Zm8=" && Encode([102, 111, 111]) == "Zm9v"
    ensures Encode([102, 111, 111, 98, 97, 114]) == "Zm9vYmFy"
    ensures Encode([251]) == "+w==" && Encode([255]) == "/w=="
  {
    var six: seq<Byte> := [102, 111, 111, 98, 97, 114];
    assert six[3..] == [98, 97, 114];
    var none: seq<Byte> := [];
    assert six[3..][3..] == none && [102, 111, 111][3..] == none;
    assert Encode(none) == "";
    assert Encode(six[3..]) == "YmFy";
  }

  // ----- padding -----

  /** The text without its trailing padding. */
  function RemovePadding(s: string): string {
    if s != "" && s[|s| - 1] == '=' then RemovePadding(s[..|s| - 1]) else s
  }

  function Repeat(c: char, n: nat): (s: string)
    ensures |s| == n
  {
    if n == 0 then "" else [c] + Repeat(c, n - 1)
  }

  /** Padding up to the next multiple of four, as the token reader computes it. */
  function PadEnd(s: string): string {
    s + Repeat('=', (|s| + 3) / 4 * 4 - |s|)
  }

  /** Padding by what the length lacks modulo four, as the shared helper computes it. */
  function AddPadding(s: string): string {
    s + Repeat('=', (4 - |s| % 4) % 4)
  }

  /** The reader's own padding arithmetic and the shared helper agree on every length. */
  lemma PaddingsAgree(s: string)
    ensures PadEnd(s) == AddPadding(s) && |PadEnd(s)| % 4 == 0
  {
    assert (|s| + 3) / 4 * 4 - |s| == (4 - |s| % 4) % 4;
  }

  /** How many symbols, padding apart, encode n bytes. */
  function SymbolCount(n: nat): (k: nat) {
    n / 3 * 4 + (if n % 3 == 0 then 0 else n % 3 + 1)
  }

  /** k symbols followed by the padding that completes the last group of four. */
  ghost predicate Shape(s: string, k: nat) {
    && |s| == (k + 3) / 4 * 4
    && (forall i :: 0 <= i < k ==> IsSymbol(s[i]))
    && (forall i :: k <= i < |s| ==> s[i] == '=')
  }

  lemma ShapeStep(g: string, t: string, k: nat)
    requires |g| == 4 && Shape(t, k) && forall i :: 0 <= i < 4 ==> IsSymbol(g[i])
    ensures Shape(g + t, k + 4)
  {
    forall i | 0 <= i < k + 4 ensures IsSymbol((g + t)[i]) {
      if i >= 4 { assert (g + t)[i] == t[i - 4]; }
    }
    forall i | k + 4 <= i < |g + t| ensures (g + t)[i] == '=' {
      assert (g + t)[i] == t[i - 4];
    }
  }

  lemma TailShape(bs: seq<Byte>)
    requires 1 <= |bs| < 3
    ensures Shape(EncodeTail(bs), SymbolCount(|bs|))
  {
    DecodeTailOf(bs);
    assert |bs| == 1 ==> EncodeTail(bs)[2] == '=';
    assert SymbolCount(|bs|) == |bs| + 1;
  }

  lemma {:induction false} EncodeShape(bs: seq<Byte>)
    ensures Shape(Encode(bs), SymbolCount(|bs|))
  {
    if |bs| == 0 {
    } else if |bs| < 3 {
      TailShape(bs);
    } else {
      EncodeShape(bs[3..]);
      DecodeGroupOf(bs[0], bs[1], bs[2]);
      assert SymbolCount(|bs|) == SymbolCount(|bs| - 3) + 4;
      ShapeStep(EncodeGroup(bs[0], bs[1], bs[2]), Encode(bs[3..]), SymbolCount(|bs| - 3));
    }
  }

  lemma {:induction false} RemovePaddingOf(s: string, n: nat)
    requires s != "" ==> s[|s| - 1] != '='
    ensures RemovePadding(s + Repeat('=', n)) == s
  {
    if n == 0 {
      assert s + Repeat('=', 0) == s;
    } else {
      RepeatSnoc('=', n);
      var t := s + Repeat('=', n);
      assert t == s + Repeat('=', n - 1) + ['='];
      assert t[..|t| - 1] == s + Repeat('=', n - 1);
      RemovePaddingOf(s, n - 1);
    }
  }

  lemma {:induction false} RepeatSnoc(c: char, n: nat)
    requires n > 0
    ensures Repeat(c, n) == Repeat(c, n - 1) + [c]
  {
    if n > 1 {
      RepeatSnoc(c, n - 1);
    } else {
      assert Repeat(c, 0) == "";
    }
  }

  lemma {:induction false} RepeatAt(c: char, n: nat)
    ensures forall i :: 0 <= i < n ==> Repeat(c, n)[i] == c
  {
    if n > 0 { RepeatAt(c, n - 1); }
  }

  /** Text of k symbols and then padding, up to a multiple of four. */
  lemma ShapeSplits(e: string, k: nat)
    requires Shape(e, k)
    ensures k <= |e| && e == e[..k] + Repeat('=', |e| - k)
    ensures RemovePadding(e) == e[..k] && PadEnd(e[..k]) == e
  {
    RepeatAt('=', |e| - k);
    assert e == e[..k] + Repeat('=', |e| - k);
    if k > 0 {
      assert IsSymbol(e[k - 1]);
    }
    RemovePaddingOf(e[..k], |e| - k);
  }

  /** Stripping the padding and recomputing it restores the encoded text; the stripped text is all symbols. */
  lemma PaddingRoundTrip(bs: seq<Byte>)
    ensures PadEnd(RemovePadding(Encode(bs))) == Encode(bs)
    ensures forall c :: c in RemovePadding(Encode(bs)) ==> IsSymbol(c)
    ensures bs != [] ==> RemovePadding(Encode(bs)) != ""
  {
    EncodeShape(bs);
    ShapeSplits(Encode(bs), SymbolCount(|bs|));
  }
}
