/** Derivation paths of single-use keys and the index read back from their last segment. */
module KeyPaths {
  import opened Prelude
  import Decimal

  const BASE_PATH := "m/7'/23'/11'/16'/0"

  /** The text of an integer. */
  function IndexText(index: int): string {
    if index < 0 then ['-'] + Decimal.Text(-index) else Decimal.Text(index)
  }

  /** buildSingleUseKeyPath */
  function PathOf(index: int): (path: string)
    ensures path != ""
  {
    BASE_PATH + ['/'] + IndexText(index)
  }

  /** How many characters at the end of s are digits. */
  function TailRun(s: string): (k: nat)
    ensures k <= |s| && Decimal.AllDigits(s[|s| - k..])
    ensures k < |s| ==> !Decimal.IsDigit(s[|s| - 1 - k])
  {
    if s == [] || !Decimal.IsDigit(s[|s| - 1]) then 0
    else
      var init := s[..|s| - 1];
      var k := 1 + TailRun(init);
      assert s[|s| - k..] == init[|init| - (k - 1)..] + [s[|s| - 1]];
      k
  }

  lemma {:induction false} TailRunOf(front: string, digits: string)
    requires Decimal.AllDigits(digits)
    requires front != [] ==> !Decimal.IsDigit(front[|front| - 1])
    ensures TailRun(front + digits) == |digits|
  {
    if digits == [] {
      assert front + digits == front;
    } else {
      var n := |digits| - 1;
      assert (front + digits)[..|front + digits| - 1] == front + digits[..n];
      TailRunOf(front, digits[..n]);
    }
  }

  /** parseIndexFromPath: the match of a slash and digits up to the end, if any. */
  function ParseIndex(path: Option<string>): Option<nat> {
    if path.None? then None
    else
      var s := path.value;
      var k := TailRun(s);
      if k == 0 || k == |s| || s[|s| - 1 - k] != '/' then None else Some(Decimal.Value(s[|s| - k..]))
  }

  /** A path tells an index exactly when it ends in a slash and digits, and then the number they write. */
  lemma ParseMeans(front: string, digits: string)
    requires digits != "" && Decimal.AllDigits(digits)
    ensures ParseIndex(Some(front + "/" + digits)) == Some(Decimal.Value(digits))
  {
    var head := front + "/";
    TailRunOf(head, digits);
    assert (head + digits)[|head|..] == digits;
    assert (head + digits)[|head| - 1] == '/';
  }

  lemma ParsedEnds(path: Option<string>)
    requires ParseIndex(path).Some?
    ensures path.Some?
    ensures exists n: nat ::
              && n + 1 < |path.value| && path.value[n] == '/' && Decimal.AllDigits(path.value[n + 1..])
              && ParseIndex(path) == Some(Decimal.Value(path.value[n + 1..]))
  {
    var n := |path.value| - 1 - TailRun(path.value);
    assert path.value[n + 1..] == path.value[|path.value| - TailRun(path.value)..];
  }

  /** An index is read back from the path built for it, and from no path built for a negative one. */
  lemma PathRoundTrip(index: int)
    ensures ParseIndex(Some(PathOf(index))) == if index >= 0 then Some(index) else None
  {
    var sign := if index < 0 then ['-'] else [];
    var digits := Decimal.Text(if index < 0 then -index else index);
    var front := BASE_PATH + ['/'] + sign;
    assert PathOf(index) == front + digits;
    TailRunOf(front, digits);
    assert (front + digits)[|front|..] == digits;
    if index >= 0 {
      assert front == BASE_PATH + ['/'];
      Decimal.ValueOfText(index);
    }
  }
}
