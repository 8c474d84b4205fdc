/**
 * Coin selection: an exhaustive search over how many coins of each denomination to use, with one shared
 * array of counts that every branch writes and restores, cut off as soon as a prefix reaches the target.
 */
module CoinSelection {
  import opened Prelude

  /** A denomination d of which c coins are held. */
  datatype Denomination = Denomination(d: nat, c: nat)

  datatype Use = Use(d: nat, used: nat)

  /** Counts within the holdings, one per denomination. */
  ghost predicate Bounded(ds: seq<Denomination>, counts: seq<nat>) {
    |counts| == |ds| && forall i :: 0 <= i < |ds| ==> counts[i] <= ds[i].c
  }

  /** The sum counts make. */
  function Sum(ds: seq<Denomination>, counts: seq<nat>): nat
    requires |counts| == |ds|
  {
    if ds == [] then 0 else ds[0].d * counts[0] + Sum(ds[1..], counts[1..])
  }

  function Holdings(ds: seq<Denomination>): nat {
    if ds == [] then 0 else ds[0].d * ds[0].c + Holdings(ds[1..])
  }

  /** The selection that counts stand for: each denomination used at least once, with its count. */
  function Combo(ds: seq<Denomination>, counts: seq<nat>): seq<Use>
    requires |counts| == |ds|
  {
    if ds == [] then []
    else (if counts[0] > 0 then [Use(ds[0].d, counts[0])] else []) + Combo(ds[1..], counts[1..])
  }

  // ----- sums of prefixes -----

  lemma {:induction false} SumAgree(ds: seq<Denomination>, a: seq<nat>, b: seq<nat>)
    requires |a| == |b| == |ds| && forall i :: 0 <= i < |ds| ==> a[i] <= b[i]
    ensures Sum(ds, a) <= Sum(ds, b)
  {
    if ds != [] {
      SumAgree(ds[1..], a[1..], b[1..]);
      Scale(ds[0].d, a[0], b[0]);
    }
  }

  lemma Scale(d: nat, a: nat, b: nat)
    requires a <= b
    ensures d * a <= d * b
  {
  }

  /** Raising one count from zero adds that many coins of its denomination. */
  lemma {:induction false} SumUpdate(ds: seq<Denomination>, a: seq<nat>, i: nat, count: nat)
    requires |a| == |ds| && i < |ds| && a[i] == 0
    ensures Sum(ds, a[i := count]) == Sum(ds, a) + count * ds[i].d
  {
    if i == 0 {
      assert a[0 := count][1..] == a[1..];
    } else {
      assert a[i := count][1..] == a[1..][i - 1 := count];
      SumUpdate(ds[1..], a[1..], i - 1, count);
    }
  }

  lemma {:induction false} SumHoldings(ds: seq<Denomination>, counts: seq<nat>)
    requires Bounded(ds, counts)
    ensures Sum(ds, counts) <= Holdings(ds)
  {
    if ds != [] {
      SumHoldings(ds[1..], counts[1..]);
      Scale(ds[0].d, counts[0], ds[0].c);
    }
  }

  function AllCoins(ds: seq<Denomination>): seq<nat> { seq(|ds|, i requires 0 <= i < |ds| => ds[i].c) }

  lemma {:induction false} AllCoinsSum(ds: seq<Denomination>)
    ensures Bounded(ds, AllCoins(ds)) && Sum(ds, AllCoins(ds)) == Holdings(ds)
  {
    if ds != [] {
      AllCoinsSum(ds[1..]);
      assert AllCoins(ds)[1..] == AllCoins(ds[1..]);
    }
  }

  // ----- the search -----

  /** c continues the counts chosen so far for denominations before idx. */
  ghost predicate Extends(used: seq<nat>, idx: nat, c: seq<nat>) {
    |c| == |used| && idx <= |c| && c[..idx] == used[..idx]
  }

  /** No full choice that continues used beyond idx and reaches the target is cheaper than best (None: no best yet). */
  ghost predicate Beaten(ds: seq<Denomination>, target: int, best: Option<nat>, used: seq<nat>, idx: nat) {
    forall c :: Bounded(ds, c) && Extends(used, idx, c) && Sum(ds, c) >= target ==>
      best.Some? && best.value <= Sum(ds, c)
  }

  /** The same with k coins of denomination idx. */
  ghost predicate BeatenWith(ds: seq<Denomination>, target: int, best: Option<nat>, used: seq<nat>, idx: nat, k: nat)
    requires idx < |used|
  {
    Beaten(ds, target, best, used[idx := k], idx + 1)
  }

  /** What is found is never lost: the best only gets better. */
  ghost predicate Improves(before: Option<nat>, after: Option<nat>) {
    before.Some? ==> after.Some? && after.value <= before.value
  }

  /** best is really reachable, and combo spells out a way to reach it. */
  ghost predicate Achieved(ds: seq<Denomination>, target: int, best: Option<nat>, combo: seq<Use>) {
    best.Some? ==>
      exists c :: Bounded(ds, c) && Sum(ds, c) == best.value && best.value >= target && combo == Combo(ds, c)
  }

  lemma BeatenStays(ds: seq<Denomination>, target: int, before: Option<nat>, after: Option<nat>, used: seq<nat>,
                    idx: nat, count: nat)
    requires idx < |used| && Improves(before, after)
    requires forall k: nat :: k < count ==> BeatenWith(ds, target, before, used, idx, k)
    ensures forall k: nat :: k < count ==> BeatenWith(ds, target, after, used, idx, k)
  {
    forall k: nat | k < count ensures BeatenWith(ds, target, after, used, idx, k) {
      assert BeatenWith(ds, target, before, used, idx, k);
    }
  }

  /** Trying every count of one denomination covers every choice. */
  lemma BeatenByAll(ds: seq<Denomination>, target: int, best: Option<nat>, used: seq<nat>, idx: nat)
    requires |used| == |ds| && idx < |ds|
    requires forall k: nat :: k <= ds[idx].c ==> BeatenWith(ds, target, best, used, idx, k)
    ensures Beaten(ds, target, best, used, idx)
  {
    forall c | Bounded(ds, c) && Extends(used, idx, c) && Sum(ds, c) >= target
      ensures best.Some? && best.value <= Sum(ds, c)
    {
      assert BeatenWith(ds, target, best, used, idx, c[idx]);
      assert c[..idx + 1] == c[..idx] + [c[idx]] == used[idx := c[idx]][..idx + 1];
      assert Extends(used[idx := c[idx]], idx + 1, c);
    }
  }

  /** A prefix, with nothing after it, is the cheapest of its extensions. */
  lemma PrefixIsCheapest(ds: seq<Denomination>, used: seq<nat>, idx: nat)
    requires |used| == |ds| && idx <= |ds| && forall i :: idx <= i < |used| ==> used[i] == 0
    ensures forall c :: Bounded(ds, c) && Extends(used, idx, c) ==> Sum(ds, used) <= Sum(ds, c)
  {
    forall c | Bounded(ds, c) && Extends(used, idx, c) ensures Sum(ds, used) <= Sum(ds, c) {
      forall i | 0 <= i < |ds| ensures used[i] <= c[i] {
        if i < idx { assert used[i] == used[..idx][i] == c[..idx][i]; }
      }
      SumAgree(ds, used, c);
    }
  }

  /** Taking a prefix that reaches the target, when it is cheaper, beats everything that continues it. */
  lemma PrefixBeats(ds: seq<Denomination>, target: int, best: Option<nat>, used: seq<nat>, idx: nat)
    requires |used| == |ds| && idx <= |ds| && forall i :: idx <= i < |used| ==> used[i] == 0
    requires best.Some? && best.value <= Sum(ds, used)
    ensures Beaten(ds, target, best, used, idx)
  {
    PrefixIsCheapest(ds, used, idx);
  }

  /** A full choice short of the target leaves nothing to beat. */
  lemma NothingToBeat(ds: seq<Denomination>, target: int, best: Option<nat>, used: seq<nat>)
    requires |used| == |ds| && Sum(ds, used) < target
    ensures Beaten(ds, target, best, used, |ds|)
  {
    forall c | Extends(used, |ds|, c) ensures c == used {
      assert c[..|ds|] == c && used[..|ds|] == used;
    }
  }

  class Search {
    const denominations: seq<Denomination>
    const target: int
    var bestSum: Option<nat>      // None is Infinity
    var bestCombo: seq<Use>

    constructor (denominations: seq<Denomination>, target: int)
      ensures this.denominations == denominations && this.target == target && bestSum == None && bestCombo == []
    {
      this.denominations, this.target, this.bestSum, this.bestCombo := denominations, target, None, [];
    }

    /** One branch of the search; used comes back exactly as it was. */
    method Explore(idx: nat, currentSum: nat, used: array<nat>)
      requires used.Length == |denominations| && idx <= |denominations|
      requires Bounded(denominations, used[..]) && currentSum == Sum(denominations, used[..])
      requires forall i :: idx <= i < used.Length ==> used[i] == 0
      requires Achieved(denominations, target, bestSum, bestCombo)
      modifies this, used
      ensures used[..] == old(used[..])
      ensures Achieved(denominations, target, bestSum, bestCombo) && Improves(old(bestSum), bestSum)
      ensures Beaten(denominations, target, bestSum, used[..], idx)
      decreases |denominations| - idx, 1
    {
      if currentSum >= target {
        if bestSum.None? || currentSum < bestSum.value {
          bestSum := Some(currentSum);
          bestCombo := Combo(denominations, used[..]);
        }
        PrefixBeats(denominations, target, bestSum, used[..], idx);
        return;
      }
      if idx >= |denominations| {
        NothingToBeat(denominations, target, bestSum, used[..]);
        return;
      }
      ghost var start := used[..];
      var count := 0;
      while count <= denominations[idx].c
        invariant 0 <= count <= denominations[idx].c + 1
        invariant used[..] == start[idx := used[idx]]
        invariant Achieved(denominations, target, bestSum, bestCombo) && Improves(old(bestSum), bestSum)
        invariant forall k: nat :: k < count ==> BeatenWith(denominations, target, bestSum, start, idx, k)
      {
        ghost var best := bestSum;
        Try(idx, currentSum, used, count, start);
        BeatenStays(denominations, target, best, bestSum, start, idx, count);
        count := count + 1;
      }
      used[idx] := 0;
      assert used[..] == start;
      BeatenByAll(denominations, target, bestSum, start, idx);
    }

    /** One turn of the loop: count coins of denomination idx, everything after it still at zero. */
    method Try(idx: nat, currentSum: nat, used: array<nat>, count: nat, ghost start: seq<nat>)
      requires used.Length == |denominations| == |start| && idx < |denominations| && count <= denominations[idx].c
      requires Bounded(denominations, start) && currentSum == Sum(denominations, start)
      requires forall i :: idx <= i < |start| ==> start[i] == 0
      requires used[..] == start[idx := used[idx]]
      requires Achieved(denominations, target, bestSum, bestCombo)
      modifies this, used
      ensures used[..] == start[idx := count]
      ensures Achieved(denominations, target, bestSum, bestCombo) && Improves(old(bestSum), bestSum)
      ensures BeatenWith(denominations, target, bestSum, start, idx, count)
      decreases |denominations| - idx, 0
    {
      used[idx] := count;
      assert used[..] == start[idx := count];
      SumUpdate(denominations, start, idx, count);
      Explore(idx + 1, currentSum + count * denominations[idx].d, used);
    }
  }

  lemma {:induction false} ZeroSum(ds: seq<Denomination>, zeros: seq<nat>)
    requires |zeros| == |ds| && forall i :: 0 <= i < |zeros| ==> zeros[i] == 0
    ensures Sum(ds, zeros) == 0
  {
    if ds != [] { ZeroSum(ds[1..], zeros[1..]); }
  }

  /** The total a selection adds up to. */
  function UseTotal(use: seq<Use>): nat {
    if use == [] then 0 else use[0].d * use[0].used + UseTotal(use[1..])
  }

  lemma {:induction false} ComboTotal(ds: seq<Denomination>, counts: seq<nat>)
    requires |counts| == |ds|
    ensures UseTotal(Combo(ds, counts)) == Sum(ds, counts)
  {
    if ds != [] {
      ComboTotal(ds[1..], counts[1..]);
      var rest := Combo(ds[1..], counts[1..]);
      if counts[0] > 0 {
        assert Combo(ds, counts) == [Use(ds[0].d, counts[0])] + rest;
        assert Combo(ds, counts)[1..] == rest;
      } else {
        assert Combo(ds, counts) == rest;
      }
    }
  }

  /** counts is a selection within the holdings that meets the target with the least possible sum. */
  ghost predicate Optimal(ds: seq<Denomination>, target: int, counts: seq<nat>) {
    && Bounded(ds, counts) && Sum(ds, counts) >= target
    && forall c :: Bounded(ds, c) && Sum(ds, c) >= target ==> Sum(ds, counts) <= Sum(ds, c)
  }

  /**
   * greedy: with enough coins the answer is an optimal selection and its overshoot; short of coins it is the
   * target itself with nothing selected.
   */
  method Greedy(ds: seq<Denomination>, target: int) returns (change: int, use: seq<Use>)
    ensures Holdings(ds) >= target ==>
      exists counts :: Optimal(ds, target, counts) && use == Combo(ds, counts) && change == Sum(ds, counts) - target
    ensures Holdings(ds) >= target ==> UseTotal(use) == target + change && change >= 0
    ensures Holdings(ds) < target ==> change == target && use == []
  {
    var search := new Search(ds, target);
    var used := new nat[|ds|](_ => 0);
    ZeroSum(ds, used[..]);
    search.Explore(0, 0, used);
    AllCoinsSum(ds);
    assert Extends(used[..], 0, AllCoins(ds));
    if search.bestSum.None? {
      return target, [];
    }
    ghost var counts :| Bounded(ds, counts) && Sum(ds, counts) == search.bestSum.value
                        && search.bestSum.value >= target && search.bestCombo == Combo(ds, counts);
    SumHoldings(ds, counts);
    ComboTotal(ds, counts);
    forall c | Bounded(ds, c) && Sum(ds, c) >= target ensures Sum(ds, counts) <= Sum(ds, c) {
      assert Extends(used[..], 0, c);
    }
    assert Optimal(ds, target, counts);
    return search.bestSum.value - target, search.bestCombo;
  }
}
