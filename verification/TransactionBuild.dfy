/** Building a balanced transaction from the coins a selection names. */
module TransactionBuild {
  import opened Prelude
  import opened JsMap
  import opened Tokens
  import opened ForgeRules
  import opened WalletIndexes
  import opened PocketTokens
  import opened CoinSelection
  import opened CoinCounts

  /** An output as the wallet states it: issuer, recipient, amount. */
  datatype PayOut = PayOut(issuer: string, to: string, amount: int)

  datatype BuildError = NoOutputs | MixedIssuers | NoTokensForIssuer | NotEnoughTokens | JwtNotFound | TatNotFound

  datatype Built = Failure(error: BuildError) | Built(ins: seq<Wire>, outs: seq<PayOut>)

  function OutSum(outs: seq<PayOut>): int {
    if outs == [] then 0 else OutSum(outs[..|outs| - 1]) + outs[|outs| - 1].amount
  }

  // ----- the hashes a selection names -----

  /** Each denomination used contributes the first hashes of its bucket; None when a bucket is too short. */
  function PickHashes(index: Index, use: seq<Use>): Option<seq<Hash>> {
    if use == [] then Some([])
    else
      var n := |use| - 1;
      var before := PickHashes(index, use[..n]);
      if before.None? || |HashesAt(index, use[n].d)| < use[n].used then None
      else Some(before.value + HashesAt(index, use[n].d)[..use[n].used])
  }

  ghost predicate AllFound(m: Entries, hs: seq<Hash>) { forall i :: 0 <= i < |hs| ==> Has(m, hs[i]) }

  function Lookup(m: Entries, hs: seq<Hash>): (ws: seq<Wire>)
    requires AllFound(m, hs)
    ensures |ws| == |hs| && forall i :: 0 <= i < |hs| ==> ws[i] == Get(m, hs[i]).value
  {
    seq(|hs|, i requires 0 <= i < |hs| => Get(m, hs[i]).value)
  }

  // ----- picks from agreeing indexes are distinct held tokens -----

  /** h is the hash of a held token of amount d. */
  ghost predicate HeldAt(held: seq<Token>, h: Hash, d: nat) {
    exists k :: 0 <= k < |held| && Fungible(held[k]) && AmountOf(held[k]) == d && held[k].claimedHash == h
  }

  lemma HeldOnce(held: seq<Token>, h: Hash, d: nat, d': nat)
    requires ClaimsDistinct(held) && d != d'
    ensures !(HeldAt(held, h, d) && HeldAt(held, h, d'))
  {
  }

  ghost predicate UseFits(held: seq<Token>, use: seq<Use>) {
    && (forall i :: 0 <= i < |use| ==> use[i].used <= |Bucket(held, use[i].d)|)
    && (forall i, j :: 0 <= i < j < |use| ==> use[i].d != use[j].d)
  }

  /** A selection from the denominations the index offers fits what is held. */
  lemma {:induction false} ComboFits(held: seq<Token>, ds: seq<Denomination>, counts: seq<nat>)
    requires DistinctDenominations(ds) && Bounded(ds, counts)
    requires forall i :: 0 <= i < |ds| ==> ds[i].c == |Bucket(held, ds[i].d)|
    ensures UseFits(held, Combo(ds, counts))
    ensures forall u :: u in Combo(ds, counts) ==> exists i :: 0 <= i < |ds| && ds[i].d == u.d
  {
    if ds != [] {
      var rest, restCounts := ds[1..], counts[1..];
      assert forall i :: 0 <= i < |rest| ==> rest[i] == ds[i + 1] && restCounts[i] == counts[i + 1];
      ComboFits(held, rest, restCounts);
      var tail := Combo(rest, restCounts);
      forall u | u in tail ensures u.d != ds[0].d && exists i :: 0 <= i < |ds| && ds[i].d == u.d {
        var i :| 0 <= i < |rest| && rest[i].d == u.d;
        assert ds[i + 1].d == u.d;
      }
      if counts[0] > 0 {
        assert Combo(ds, counts) == [Use(ds[0].d, counts[0])] + tail;
        assert ds[0].d == Use(ds[0].d, counts[0]).d;
        assert forall j :: 0 <= j < |tail| ==> tail[j] in tail;
      } else {
        assert Combo(ds, counts) == tail;
      }
    }
  }

  lemma {:induction false} PicksAreHeld(held: seq<Token>, use: seq<Use>)
    requires ClaimsDistinct(held) && UseFits(held, use)
    ensures PickHashes(IndexOf(held), use).Some?
    ensures var hs := PickHashes(IndexOf(held), use).value;
            && Distinct(hs)
            && forall h :: h in hs ==> exists i :: 0 <= i < |use| && HeldAt(held, h, use[i].d)
  {
    if use != [] {
      var n := |use| - 1;
      var d, used := use[n].d, use[n].used;
      assert forall i :: 0 <= i < n ==> use[..n][i] == use[i];
      PicksAreHeld(held, use[..n]);
      IndexMeans(held, d);
      BucketDistinct(held, d);
      var before, picked := PickHashes(IndexOf(held), use[..n]).value, Bucket(held, d)[..used];
      forall h | h in picked ensures HeldAt(held, h, d) {
        assert h in Bucket(held, d);
        BucketLists(held, d, h);
      }
      forall h | h in before ensures h !in picked {
        var i :| 0 <= i < n && HeldAt(held, h, use[..n][i].d);
        HeldOnce(held, h, use[i].d, d);
      }
      DistinctConcat(before, picked);
      assert HashesAt(IndexOf(held), d)[..used] == picked;
      forall h | h in before + picked ensures exists i :: 0 <= i < |use| && HeldAt(held, h, use[i].d) {
        if h in before {
          var i :| 0 <= i < n && HeldAt(held, h, use[..n][i].d);
          assert HeldAt(held, h, use[i].d);
        } else {
          assert HeldAt(held, h, use[n].d);
        }
      }
    }
  }

  lemma DistinctConcat<T>(a: seq<T>, b: seq<T>)
    requires Distinct(a) && Distinct(b) && forall x :: x in a ==> x !in b
    ensures Distinct(a + b)
  {
    var c := a + b;
    forall i, j | 0 <= i < j < |c| ensures c[i] != c[j] {
      if i < |a| <= j { assert c[i] in a && c[j] in b; }
    }
  }

  /** A held hash is found in the wallet, and what is found is the token of that amount. */
  lemma HeldIsFound(s: State, issuer: string, h: Hash, d: nat)
    requires IssuerOK(s, issuer) && HeldAt(Held(s.tokens, issuer), h, d)
    ensures Has(EntriesOf(s.tokens, issuer), h)
    ensures var w := Get(EntriesOf(s.tokens, issuer), h).value;
            w.Jwt? && w.token.payload.iss == issuer && w.token.claimedHash == h && Fungible(w.token) && AmountOf(w.token) == d
  {
    var m, held := EntriesOf(s.tokens, issuer), Held(s.tokens, issuer);
    CanonicalIsSelf(issuer, m);
    var k :| 0 <= k < |held| && Fungible(held[k]) && AmountOf(held[k]) == d && held[k].claimedHash == h;
    GetAt(m, k);
  }

  /** What a wire contributes as an input. */
  function WireAmount(w: Wire): nat { if w.Jwt? && Fungible(w.token) then AmountOf(w.token) else 0 }

  function WireSum(ws: seq<Wire>): nat {
    if ws == [] then 0 else WireSum(ws[..|ws| - 1]) + WireAmount(ws[|ws| - 1])
  }

  lemma {:induction false} WireSumConcat(a: seq<Wire>, b: seq<Wire>)
    ensures WireSum(a + b) == WireSum(a) + WireSum(b)
  {
    if b == [] {
      assert a + b == a;
    } else {
      assert (a + b)[..|a + b| - 1] == a + b[..|b| - 1];
      WireSumConcat(a, b[..|b| - 1]);
    }
  }

  lemma {:induction false} WireSumSame(ws: seq<Wire>, d: nat)
    requires forall i :: 0 <= i < |ws| ==> WireAmount(ws[i]) == d
    ensures WireSum(ws) == d * |ws|
  {
    if ws != [] {
      var n := |ws| - 1;
      WireSumSame(ws[..n], d);
      Distribute(d, n);
    }
  }

  lemma LookupConcat(m: Entries, a: seq<Hash>, b: seq<Hash>)
    requires AllFound(m, a) && AllFound(m, b)
    ensures AllFound(m, a + b) && Lookup(m, a + b) == Lookup(m, a) + Lookup(m, b)
  {
    assert forall i :: 0 <= i < |a + b| ==> (a + b)[i] == if i < |a| then a[i] else b[i - |a|];
  }

  /** One denomination's picks are found and add up to the count times the denomination. */
  lemma OnePicksValue(s: State, issuer: string, d: nat, used: nat)
    requires IssuerOK(s, issuer) && used <= |Bucket(Held(s.tokens, issuer), d)|
    ensures var m, picked := EntriesOf(s.tokens, issuer), Bucket(Held(s.tokens, issuer), d)[..used];
            AllFound(m, picked) && WireSum(Lookup(m, picked)) == d * used
  {
    var held, m := Held(s.tokens, issuer), EntriesOf(s.tokens, issuer);
    var picked := Bucket(held, d)[..used];
    forall i | 0 <= i < |picked|
      ensures Has(m, picked[i]) && WireAmount(Get(m, picked[i]).value) == d
    {
      assert picked[i] in Bucket(held, d);
      BucketLists(held, d, picked[i]);
      HeldIsFound(s, issuer, picked[i], d);
    }
    WireSumSame(Lookup(m, picked), d);
  }

  function UseSum(use: seq<Use>): nat {
    if use == [] then 0 else UseSum(use[..|use| - 1]) + use[|use| - 1].d * use[|use| - 1].used
  }

  lemma {:induction false} PicksValue(s: State, issuer: string, use: seq<Use>)
    requires IssuerOK(s, issuer) && UseFits(Held(s.tokens, issuer), use)
    requires PickHashes(IndexOf(Held(s.tokens, issuer)), use).Some?
    ensures var m, hs := EntriesOf(s.tokens, issuer), PickHashes(IndexOf(Held(s.tokens, issuer)), use).value;
            AllFound(m, hs) && WireSum(Lookup(m, hs)) == UseSum(use)
  {
    if use != [] {
      var n := |use| - 1;
      var held, m := Held(s.tokens, issuer), EntriesOf(s.tokens, issuer);
      assert forall i :: 0 <= i < n ==> use[..n][i] == use[i];
      PicksValue(s, issuer, use[..n]);
      IndexMeans(held, use[n].d);
      OnePicksValue(s, issuer, use[n].d, use[n].used);
      var before, picked := PickHashes(IndexOf(held), use[..n]).value, Bucket(held, use[n].d)[..use[n].used];
      assert HashesAt(IndexOf(held), use[n].d)[..use[n].used] == picked;
      LookupConcat(m, before, picked);
      WireSumConcat(Lookup(m, before), Lookup(m, picked));
    }
  }

  lemma {:induction false} UseSumFront(u: Use, use: seq<Use>)
    ensures UseSum([u] + use) == u.d * u.used + UseSum(use)
  {
    if use == [] {
      assert [u] + use == [u] && [u][..0] == [];
    } else {
      assert ([u] + use)[..|use|] == [u] + use[..|use| - 1];
      UseSumFront(u, use[..|use| - 1]);
    }
  }

  lemma {:induction false} UseSumIsTotal(use: seq<Use>)
    ensures UseSum(use) == UseTotal(use)
  {
    if use != [] {
      UseSumIsTotal(use[1..]);
      UseSumFront(use[0], use[1..]);
      assert [use[0]] + use[1..] == use;
    }
  }

  // ----- what a built transaction is -----

  /** The inputs are pairwise different tokens the wallet holds of the issuer. */
  ghost predicate HeldInputs(s: State, issuer: string, ins: seq<Wire>) {
    && (forall i :: 0 <= i < |ins| ==>
          && ins[i].Jwt? && ins[i].token.payload.iss == issuer && Fungible(ins[i].token)
          && Get(EntriesOf(s.tokens, issuer), ins[i].token.claimedHash) == Some(ins[i]))
    && forall i, j :: 0 <= i < j < |ins| ==> ins[i].token.claimedHash != ins[j].token.claimedHash
  }

  /** full is outs and, exactly when something is over, one output more: what is over, to the change key. */
  ghost predicate ChangeAdded(full: seq<PayOut>, outs: seq<PayOut>, issuer: string, changeKey: string, change: int) {
    && |full| == |outs| + (if change > 0 then 1 else 0)
    && full[..|outs|] == outs
    && (change > 0 ==>
          && full[|outs|].issuer == issuer && full[|outs|].to == changeKey && full[|outs|].amount == change)
  }

  /** No choice of held tokens that reaches the target is worth less. */
  ghost predicate Cheapest(held: seq<Token>, target: int, total: int) {
    forall chosen: seq<bool> :: |chosen| == |held| && ChoiceSum(held, chosen) >= target ==> total <= ChoiceSum(held, chosen)
  }

  lemma OutSumSnoc(outs: seq<PayOut>, o: PayOut)
    ensures OutSum(outs + [o]) == OutSum(outs) + o.amount
  {
    assert (outs + [o])[..|outs|] == outs;
  }

  /** The selection of an optimum picks distinct held tokens worth exactly its sum, and no choice does better. */
  lemma SelectionIsSound(s: State, issuer: string, target: int, counts: seq<nat>)
    requires IssuerOK(s, issuer)
    requires Optimal(DenominationsOf(IndexOf(Held(s.tokens, issuer))), target, counts)
    ensures var held, m := Held(s.tokens, issuer), EntriesOf(s.tokens, issuer);
            var ds := DenominationsOf(IndexOf(held));
            var picks := PickHashes(IndexOf(held), Combo(ds, counts));
            && picks.Some? && AllFound(m, picks.value)
            && HeldInputs(s, issuer, Lookup(m, picks.value))
            && WireSum(Lookup(m, picks.value)) == Sum(ds, counts)
            && Cheapest(held, target, Sum(ds, counts))
  {
    var held, m := Held(s.tokens, issuer), EntriesOf(s.tokens, issuer);
    var ds := DenominationsOf(IndexOf(held));
    var use := Combo(ds, counts);
    OwnKeyedClaims(issuer, m);
    DenominationsFit(held);
    ComboFits(held, ds, counts);
    PicksAreHeld(held, use);
    PicksValue(s, issuer, use);
    UseSumIsTotal(use);
    ComboTotal(ds, counts);
    LookedUpAreHeld(s, issuer, use);
    forall chosen: seq<bool> | |chosen| == |held| && ChoiceSum(held, chosen) >= target
      ensures Sum(ds, counts) <= ChoiceSum(held, chosen)
    {
      OptimalOverChoices(held, target, counts, chosen);
    }
  }

  lemma LookedUpAreHeld(s: State, issuer: string, use: seq<Use>)
    requires IssuerOK(s, issuer) && ClaimsDistinct(Held(s.tokens, issuer)) && UseFits(Held(s.tokens, issuer), use)
    requires PickHashes(IndexOf(Held(s.tokens, issuer)), use).Some?
    requires AllFound(EntriesOf(s.tokens, issuer), PickHashes(IndexOf(Held(s.tokens, issuer)), use).value)
    ensures HeldInputs(s, issuer, Lookup(EntriesOf(s.tokens, issuer), PickHashes(IndexOf(Held(s.tokens, issuer)), use).value))
  {
    var held, m := Held(s.tokens, issuer), EntriesOf(s.tokens, issuer);
    PicksAreHeld(held, use);
    var hs := PickHashes(IndexOf(held), use).value;
    var ins := Lookup(m, hs);
    forall i | 0 <= i < |ins|
      ensures ins[i].Jwt? && ins[i].token.payload.iss == issuer && Fungible(ins[i].token)
      ensures ins[i].token.claimedHash == hs[i]
    {
      assert hs[i] in hs;
      var k :| 0 <= k < |use| && HeldAt(held, hs[i], use[k].d);
      HeldIsFound(s, issuer, hs[i], use[k].d);
    }
  }

  /** Inputs worth their target and more: with the change, outputs are worth exactly what the inputs are. */
  lemma ChangeBalances(full: seq<PayOut>, outs: seq<PayOut>, issuer: string, changeKey: string, total: int)
    requires total >= OutSum(outs) && ChangeAdded(full, outs, issuer, changeKey, total - OutSum(outs))
    ensures OutSum(full) == total && (|full| == |outs| + 1 <==> total > OutSum(outs))
  {
    if total > OutSum(outs) {
      assert full == outs + [full[|outs|]];
      OutSumSnoc(outs, full[|outs|]);
    } else {
      assert full == outs;
    }
  }

  class Transaction {
    const state: State
    const changeKey: string
    var outs: seq<PayOut>

    constructor (state: State, outs: seq<PayOut>, changeKey: string)
      ensures this.state == state && this.outs == outs && this.changeKey == changeKey
    {
      this.state, this.outs, this.changeKey := state, outs, changeKey;
    }

    method To(issuer: string, to: string, amount: int)
      modifies this
      ensures outs == old(outs) + [PayOut(issuer, to, amount)]
    {
      outs := outs + [PayOut(issuer, to, amount)];
    }

    /** An access token goes out whole: the held token with that id is the one input. */
    method TransferTAT(issuer: string, to: string, tokenID: string)
      returns (error: Option<BuildError>, ins: seq<Wire>, out: Out)
      ensures error == Some(TatNotFound) <==> tokenID !in Row(state.tatIndex, issuer)
      ensures IssuerOK(state, issuer) && tokenID in Row(state.tatIndex, issuer) ==>
        && error.None? && out == Out(to, None, Some(IdText(tokenID)), None)
        && |ins| == 1 && ins[0].Jwt? && ins[0].token.payload.iss == issuer && ins[0].token.payload.tokenID.Some?
        && ins[0].token.payload.tokenID.value.Text() == tokenID
    {
      error, ins, out := None, [], Out(to, None, Some(IdText(tokenID)), None);
      if tokenID !in Row(state.tatIndex, issuer) { return Some(TatNotFound), ins, out; }
      var jwt := Get(EntriesOf(state.tokens, issuer), Row(state.tatIndex, issuer)[tokenID]);
      if IssuerOK(state, issuer) { TatAgrees(state, issuer, tokenID); }
      if jwt.None? { return Some(JwtNotFound), ins, out; }
      ins := [jwt.value];
    }

    /** Look up the JWTs of one denomination's hashes. */
    method CollectJwts(issuer: string, hashes: seq<Hash>) returns (ok: bool, jwts: seq<Wire>)
      ensures ok <==> AllFound(EntriesOf(state.tokens, issuer), hashes)
      ensures ok ==> jwts == Lookup(EntriesOf(state.tokens, issuer), hashes)
    {
      jwts := [];
      var i := 0;
      while i < |hashes|
        invariant 0 <= i <= |hashes| && |jwts| == i
        invariant forall k :: 0 <= k < i ==>
                    Has(EntriesOf(state.tokens, issuer), hashes[k]) && jwts[k] == Get(EntriesOf(state.tokens, issuer), hashes[k]).value
      {
        var jwt := Get(EntriesOf(state.tokens, issuer), hashes[i]);
        if jwt.None? { return false, []; }
        jwts := jwts + [jwt.value];
        i := i + 1;
      }
      return true, jwts;
    }

    /** Collect the JWTs a selection names. */
    method Gather(issuer: string, tokenMap: Index, use: seq<Use>) returns (error: Option<BuildError>, jwts: seq<Wire>)
      ensures error.Some? ==> error == Some(NotEnoughTokens) || error == Some(JwtNotFound)
      ensures error == Some(NotEnoughTokens) ==> PickHashes(tokenMap, use).None?
      ensures error.None? ==> PickHashes(tokenMap, use).Some?
      ensures PickHashes(tokenMap, use).Some? && AllFound(EntriesOf(state.tokens, issuer), PickHashes(tokenMap, use).value) ==>
        error.None? && jwts == Lookup(EntriesOf(state.tokens, issuer), PickHashes(tokenMap, use).value)
    {
      jwts := [];
      var i := 0;
      while i < |use|
        invariant 0 <= i <= |use|
        invariant var picks := PickHashes(tokenMap, use[..i]);
                  picks.Some? && AllFound(EntriesOf(state.tokens, issuer), picks.value)
                  && jwts == Lookup(EntriesOf(state.tokens, issuer), picks.value)
      {
        var d, used := use[i].d, use[i].used;
        var tokenHashes := HashesAt(tokenMap, d);
        assert use[..i + 1][..i] == use[..i];
        if |tokenHashes| < used {
          PicksPrefix(tokenMap, use, i + 1);
          return Some(NotEnoughTokens), [];
        }
        var ok, more := CollectJwts(issuer, tokenHashes[..used]);
        if !ok {
          NotFoundStays(EntriesOf(state.tokens, issuer), tokenMap, use, i);
          return Some(JwtNotFound), [];
        }
        LookupConcat(EntriesOf(state.tokens, issuer), PickHashes(tokenMap, use[..i]).value, tokenHashes[..used]);
        jwts := jwts + more;
        i := i + 1;
      }
      assert use[..i] == use;
      return None, jwts;
    }

    /** All outputs name one issuer. */
    ghost predicate OneIssuer()
      reads this
    {
      forall i :: 0 <= i < |outs| ==> outs[i].issuer == outs[0].issuer
    }

    /** With the denominations known: select, collect, add the change. */
    method BuildFor(issuer: string, tokenMap: Index, amountNeeded: int) returns (r: Built)
      ensures r.Failure? ==> r.error == NotEnoughTokens || r.error == JwtNotFound
      ensures IssuerOK(state, issuer) && tokenMap == IndexOf(Held(state.tokens, issuer)) ==>
        Settles(issuer, amountNeeded, r)
    {
      var denominations := DenominationsOf(tokenMap);
      var change, use := Greedy(denominations, amountNeeded);
      var error, jwts := Gather(issuer, tokenMap, use);
      var full := outs;
      if change > 0 { full := full + [PayOut(issuer, changeKey, change)]; }
      if IssuerOK(state, issuer) && tokenMap == IndexOf(Held(state.tokens, issuer)) {
        Settled(issuer, amountNeeded, change, use, full);
      }
      if error.Some? { return Failure(error.value); }
      return Built(jwts, full);
    }

    /**
     * What agreeing indexes give. Funds enough: distinct held inputs whose amounts are exactly the outputs
     * plus the change, no choice of tokens being cheaper, and a change output exactly when something is
     * over. Funds short: no inputs at all, and the whole target once more as a change output.
     */
    ghost predicate Settles(issuer: string, target: int, r: Built)
      reads this
    {
      var held := Held(state.tokens, issuer);
      if Funds(held) >= target then
        && r.Built? && HeldInputs(state, issuer, r.ins) && WireSum(r.ins) >= target
        && Cheapest(held, target, WireSum(r.ins))
        && ChangeAdded(r.outs, outs, issuer, changeKey, WireSum(r.ins) - target)
      else
        r.Built? && r.ins == [] && ChangeAdded(r.outs, outs, issuer, changeKey, target)
    }

    lemma Settled(issuer: string, target: int, change: int, use: seq<Use>, full: seq<PayOut>)
      requires IssuerOK(state, issuer) && ChangeAdded(full, outs, issuer, changeKey, change)
      requires var ds := DenominationsOf(IndexOf(Held(state.tokens, issuer)));
               if Holdings(ds) >= target then
                 exists counts :: Optimal(ds, target, counts) && use == Combo(ds, counts) && change == Sum(ds, counts) - target
               else change == target && use == []
      ensures var held, m := Held(state.tokens, issuer), EntriesOf(state.tokens, issuer);
              var picks := PickHashes(IndexOf(held), use);
              && picks.Some? && AllFound(m, picks.value)
              && Settles(issuer, target, Built(Lookup(m, picks.value), full))
    {
      var held := Held(state.tokens, issuer);
      var ds := DenominationsOf(IndexOf(held));
      HoldingsAreFunds(held);
      if Holdings(ds) >= target {
        var counts :| Optimal(ds, target, counts) && use == Combo(ds, counts) && change == Sum(ds, counts) - target;
        SelectionIsSound(state, issuer, target, counts);
      }
    }

    method AmountNeeded() returns (sum: int)
      ensures sum == OutSum(outs)
    {
      sum := 0;
      var i := 0;
      while i < |outs|
        invariant 0 <= i <= |outs| && sum == OutSum(outs[..i])
      {
        assert outs[..i + 1][..i] == outs[..i];
        sum := sum + outs[i].amount;
        i := i + 1;
      }
      assert outs[..i] == outs;
    }

    /** The transaction for the outputs asked for, all of one issuer. */
    method Build() returns (r: Built)
      ensures outs == [] <==> r == Failure(NoOutputs)
      ensures outs != [] ==> (r == Failure(MixedIssuers) <==> !OneIssuer())
      ensures outs != [] && OneIssuer() ==> (r == Failure(NoTokensForIssuer) <==> outs[0].issuer !in state.tokenIndex)
      ensures outs != [] && OneIssuer() && outs[0].issuer in state.tokenIndex && IssuerOK(state, outs[0].issuer) ==>
        Settles(outs[0].issuer, OutSum(outs), r)
      ensures outs != [] && OneIssuer() && outs[0].issuer in state.tokenIndex && IssuerOK(state, outs[0].issuer)
              && Funds(Held(state.tokens, outs[0].issuer)) >= OutSum(outs) ==>
        && r.Built? && WireSum(r.ins) >= OutSum(outs) && OutSum(r.outs) == WireSum(r.ins)
        && |r.outs| >= |outs| && r.outs[..|outs|] == outs
        && (|r.outs| == |outs| + 1 <==> WireSum(r.ins) > OutSum(outs))
        && (|r.outs| == |outs| <==> WireSum(r.ins) == OutSum(outs))
        && (WireSum(r.ins) > OutSum(outs) ==>
              r.outs[|outs|] == PayOut(outs[0].issuer, changeKey, WireSum(r.ins) - OutSum(outs)))
      ensures outs != [] && OneIssuer() && outs[0].issuer in state.tokenIndex && IssuerOK(state, outs[0].issuer)
              && Funds(Held(state.tokens, outs[0].issuer)) < OutSum(outs) ==>
        && r.Built? && r.ins == []
        && r.outs == if OutSum(outs) > 0 then outs + [PayOut(outs[0].issuer, changeKey, OutSum(outs))] else outs
    {
      if outs == [] { return Failure(NoOutputs); }
      var issuer := outs[0].issuer;
      var i := 0;
      while i < |outs|
        invariant 0 <= i <= |outs| && forall k :: 0 <= k < i ==> outs[k].issuer == issuer
      {
        if outs[i].issuer != issuer { return Failure(MixedIssuers); }
        i := i + 1;
      }
      if issuer !in state.tokenIndex { return Failure(NoTokensForIssuer); }
      var target := AmountNeeded();
      r := BuildFor(issuer, state.tokenIndex[issuer], target);
      if IssuerOK(state, issuer) && Funds(Held(state.tokens, issuer)) >= target {
        ChangeBalances(r.outs, outs, issuer, changeKey, WireSum(r.ins));
      }
    }
  }

  /** A selection that fails early fails altogether. */
  lemma {:induction false} PicksPrefix(index: Index, use: seq<Use>, n: nat)
    requires n <= |use|
    ensures PickHashes(index, use).Some? ==> PickHashes(index, use[..n]).Some?
    ensures PickHashes(index, use).Some? ==> PickHashes(index, use[..n]).value <= PickHashes(index, use).value
    decreases |use|
  {
    if n == |use| {
      assert use[..n] == use;
    } else {
      var last := |use| - 1;
      assert use[..last][..n] == use[..n];
      PicksPrefix(index, use[..last], n);
    }
  }

  lemma NotFoundStays(m: Entries, index: Index, use: seq<Use>, i: nat)
    requires i < |use| && PickHashes(index, use[..i]).Some? && |HashesAt(index, use[i].d)| >= use[i].used
    requires !AllFound(m, HashesAt(index, use[i].d)[..use[i].used])
    ensures PickHashes(index, use).Some? ==> !AllFound(m, PickHashes(index, use).value)
  {
    if PickHashes(index, use).Some? {
      PicksPrefix(index, use, i + 1);
      assert use[..i + 1][..i] == use[..i];
      var before, some := PickHashes(index, use[..i]).value, HashesAt(index, use[i].d)[..use[i].used];
      var upTo, all := PickHashes(index, use[..i + 1]).value, PickHashes(index, use).value;
      assert upTo == before + some;
      var k :| 0 <= k < |some| && !Has(m, some[k]);
      assert upTo[|before| + k] == some[k];
      assert all[|before| + k] == upTo[|before| + k];
    }
  }
}
