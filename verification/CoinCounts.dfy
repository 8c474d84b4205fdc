/**
 * From counts per denomination to choices of held tokens: every choice of tokens has its counts, so the
 * optimum over counts is the optimum over choices.
 */
module CoinCounts {
  import opened Prelude
  import opened JsMap
  import opened Tokens
  import opened WalletIndexes
  import opened CoinSelection

  /** The coins on offer: each denomination of the issuer's index with the number of hashes listed. */
  function DenominationsOf(index: Index): (ds: seq<Denomination>)
    ensures |ds| == |index| && forall i :: 0 <= i < |ds| ==> ds[i] == Denomination(index[i].key, |index[i].value|)
  {
    seq(|index|, i requires 0 <= i < |index| => Denomination(index[i].key, |index[i].value|))
  }

  ghost predicate DistinctDenominations(ds: seq<Denomination>) {
    forall i, j :: 0 <= i < j < |ds| ==> ds[i].d != ds[j].d
  }

  /** A choice of held tokens: chosen[k] takes held[k]; tokens not counted as funds add nothing. */
  function ChoiceSum(held: seq<Token>, chosen: seq<bool>): nat
    requires |chosen| == |held|
  {
    if held == [] then 0
    else
      var n := |held| - 1;
      ChoiceSum(held[..n], chosen[..n]) + if chosen[n] && Fungible(held[n]) then AmountOf(held[n]) else 0
  }

  /** How many tokens of amount d a choice takes. */
  function CountOf(held: seq<Token>, chosen: seq<bool>, d: nat): nat
    requires |chosen| == |held|
  {
    if held == [] then 0
    else
      var n := |held| - 1;
      CountOf(held[..n], chosen[..n], d) + if chosen[n] && Fungible(held[n]) && AmountOf(held[n]) == d then 1 else 0
  }

  function CountsOf(ds: seq<Denomination>, held: seq<Token>, chosen: seq<bool>): (cs: seq<nat>)
    requires |chosen| == |held|
    ensures |cs| == |ds| && forall i :: 0 <= i < |ds| ==> cs[i] == CountOf(held, chosen, ds[i].d)
  {
    seq(|ds|, i requires 0 <= i < |ds| => CountOf(held, chosen, ds[i].d))
  }

  ghost predicate Covers(ds: seq<Denomination>, held: seq<Token>) {
    forall k :: 0 <= k < |held| && Fungible(held[k]) ==> exists i :: 0 <= i < |ds| && ds[i].d == AmountOf(held[k])
  }

  lemma {:induction false} SumBump(ds: seq<Denomination>, a: seq<nat>, i: nat)
    requires |a| == |ds| && i < |ds|
    ensures Sum(ds, a[i := a[i] + 1]) == Sum(ds, a) + ds[i].d
  {
    if i == 0 {
      assert a[0 := a[0] + 1][1..] == a[1..];
      Distribute(ds[0].d, a[0]);
    } else {
      assert a[i := a[i] + 1][1..] == a[1..][i - 1 := a[1..][i - 1] + 1];
      SumBump(ds[1..], a[1..], i - 1);
    }
  }

  lemma Distribute(d: nat, a: nat)
    ensures d * (a + 1) == d * a + d
  {
  }

  /** A choice and its counts make the same sum. */
  lemma {:induction false} ChoiceCounts(ds: seq<Denomination>, held: seq<Token>, chosen: seq<bool>)
    requires |chosen| == |held| && DistinctDenominations(ds) && Covers(ds, held)
    ensures Sum(ds, CountsOf(ds, held, chosen)) == ChoiceSum(held, chosen)
  {
    if held == [] {
      ZeroSum(ds, CountsOf(ds, held, chosen));
    } else {
      var n := |held| - 1;
      assert forall k :: 0 <= k < n ==> held[..n][k] == held[k];
      ChoiceCounts(ds, held[..n], chosen[..n]);
      var before, after := CountsOf(ds, held[..n], chosen[..n]), CountsOf(ds, held, chosen);
      if chosen[n] && Fungible(held[n]) {
        var j :| 0 <= j < |ds| && ds[j].d == AmountOf(held[n]);
        assert after == before[j := before[j] + 1];
        SumBump(ds, before, j);
      } else {
        assert after == before;
      }
    }
  }

  /** A choice takes no more of a denomination than is held. */
  lemma {:induction false} ChoiceBounded(held: seq<Token>, chosen: seq<bool>, d: nat)
    requires |chosen| == |held|
    ensures CountOf(held, chosen, d) <= |Bucket(held, d)|
  {
    if held != [] {
      var n := |held| - 1;
      ChoiceBounded(held[..n], chosen[..n], d);
    }
  }

  function Everything(held: seq<Token>): (chosen: seq<bool>)
    ensures |chosen| == |held| && forall k :: 0 <= k < |held| ==> chosen[k]
  {
    seq(|held|, _ => true)
  }

  lemma {:induction false} EverythingCounts(held: seq<Token>, d: nat)
    ensures CountOf(held, Everything(held), d) == |Bucket(held, d)|
    ensures ChoiceSum(held, Everything(held)) == Funds(held)
  {
    if held != [] {
      var n := |held| - 1;
      assert Everything(held)[..n] == Everything(held[..n]);
      EverythingCounts(held[..n], d);
    }
  }

  /** The denominations read from the index are distinct, count what is held, and cover it. */
  lemma DenominationsFit(held: seq<Token>)
    ensures var ds := DenominationsOf(IndexOf(held));
            && DistinctDenominations(ds) && Covers(ds, held)
            && forall i :: 0 <= i < |ds| ==> ds[i].c == |Bucket(held, ds[i].d)|
  {
    var index := IndexOf(held);
    var ds := DenominationsOf(index);
    IndexKeyed(held);
    forall i | 0 <= i < |ds| ensures ds[i].c == |Bucket(held, ds[i].d)| {
      IndexMeans(held, index[i].key);
      GetAt(index, i);
    }
    forall k | 0 <= k < |held| && Fungible(held[k]) ensures exists i :: 0 <= i < |ds| && ds[i].d == AmountOf(held[k]) {
      IndexMeans(held, AmountOf(held[k]));
      BucketLists(held, AmountOf(held[k]), held[k].claimedHash);
      GetFinds(index, AmountOf(held[k]));
      var i :| 0 <= i < |index| && index[i] == Pair(AmountOf(held[k]), Get(index, AmountOf(held[k])).value);
      assert ds[i].d == AmountOf(held[k]);
    }
  }

  /** The coins on offer are worth what is held. */
  lemma HoldingsAreFunds(held: seq<Token>)
    ensures Holdings(DenominationsOf(IndexOf(held))) == Funds(held)
  {
    var ds := DenominationsOf(IndexOf(held));
    DenominationsFit(held);
    ChoiceCounts(ds, held, Everything(held));
    EverythingCounts(held, 0);
    AllCoinsSum(ds);
    forall i | 0 <= i < |ds| ensures CountsOf(ds, held, Everything(held))[i] == AllCoins(ds)[i] {
      EverythingCounts(held, ds[i].d);
    }
    assert CountsOf(ds, held, Everything(held)) == AllCoins(ds);
  }

  /** An optimum over counts is an optimum over all choices of held tokens. */
  lemma OptimalOverChoices(held: seq<Token>, target: int, counts: seq<nat>, chosen: seq<bool>)
    requires Optimal(DenominationsOf(IndexOf(held)), target, counts)
    requires |chosen| == |held| && ChoiceSum(held, chosen) >= target
    ensures Sum(DenominationsOf(IndexOf(held)), counts) <= ChoiceSum(held, chosen)
  {
    var ds := DenominationsOf(IndexOf(held));
    DenominationsFit(held);
    ChoiceCounts(ds, held, chosen);
    forall i | 0 <= i < |ds| ensures CountsOf(ds, held, chosen)[i] <= ds[i].c {
      ChoiceBounded(held, chosen, ds[i].d);
    }
    assert Bounded(ds, CountsOf(ds, held, chosen));
  }
}
