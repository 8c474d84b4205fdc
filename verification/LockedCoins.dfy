/**
 * A wallet with spendable funds enough whose transfer is refused: the selection looks at amounts alone, and the
 * cheapest way to the target is a coin that is still time-locked.
 */
module LockedCoins {
  import opened Prelude
  import opened JsMap
  import opened Tokens
  import opened ForgeRules
  import opened WalletIndexes
  import opened PocketTokens
  import opened CoinCounts
  import opened TransactionBuild
  import opened WalletToForge

  function Coin(issuer: string, amount: int, timeLock: Option<nat>): Token {
    Issue(issuer, Payload(issuer, 1, None, Some(amount), None, timeLock, None, None, None, ""))
  }

  /** Three units free, two units locked until time 100. */
  function Free(issuer: string): Token { Coin(issuer, 3, None) }

  function Locked(issuer: string): Token { Coin(issuer, 2, Some(100)) }

  function Purse(issuer: string): Entries {
    [Pair(Free(issuer).claimedHash, Jwt(Free(issuer))), Pair(Locked(issuer).claimedHash, Jwt(Locked(issuer)))]
  }

  function Coins(issuer: string): seq<Token> { [Free(issuer), Locked(issuer)] }

  function Wallet(issuer: string): State {
    State(map[issuer := Purse(issuer)], map[issuer := IndexOf(Coins(issuer))], map[], map[issuer := BalancesOf(Coins(issuer))])
  }

  lemma PurseHolds(issuer: string)
    ensures OwnKeyed(issuer, Purse(issuer)) && Kept(issuer, Values(Purse(issuer))) == Coins(issuer)
    ensures Held(Wallet(issuer).tokens, issuer) == Coins(issuer)
  {
    assert Free(issuer).payload != Locked(issuer).payload;
    CanonicalIsSelf(issuer, Purse(issuer));
  }

  lemma CoinsIndexed(issuer: string)
    ensures IndexOf(Coins(issuer)) != [] && TatsOf(Coins(issuer)) == map[] && BalancesOf(Coins(issuer)) != map[]
  {
    var held := Coins(issuer);
    assert held[0] == Free(issuer) && Fungible(held[0]);
    BucketLists(held, 3, held[0].claimedHash);
    IndexMeans(held, 3);
    BalanceMeans(held, "-");
    assert SetOf(held[0]) == "-";
    forall id: string ensures id !in TatsOf(held) { TatMeans(held, id); }
  }

  /** The indexes of this wallet agree with its tokens, all of them genuine. */
  lemma WalletAgrees(issuer: string)
    requires issuer != ""
    ensures IssuerOK(Wallet(issuer), issuer) && GenuineTokens(Wallet(issuer).tokens)
  {
    PurseHolds(issuer);
    CoinsIndexed(issuer);
    CanonicalIsSelf(issuer, Purse(issuer));
    forall other: string ensures GenuineEntries(EntriesOf(Wallet(issuer).tokens, other)) { }
  }

  /** What a choice of the two coins is worth. */
  lemma ChoiceWorth(issuer: string, chosen: seq<bool>)
    requires |chosen| == 2
    ensures ChoiceSum(Coins(issuer), chosen) == (if chosen[0] then 3 else 0) + if chosen[1] then 2 else 0
  {
    var held := Coins(issuer);
    var first, taken := [Free(issuer)], [chosen[0]];
    assert held[..1] == first && chosen[..1] == taken;
    assert first[..0] == [] && taken[..0] == [];
    assert ChoiceSum(first, taken) == if chosen[0] then 3 else 0;
  }

  lemma {:induction false} EachIsPart(ins: seq<Wire>, i: nat)
    requires i < |ins|
    ensures WireAmount(ins[i]) <= WireSum(ins)
  {
    var n := |ins| - 1;
    if i < n {
      assert ins[..n][i] == ins[i];
      EachIsPart(ins[..n], i);
    }
  }

  /** The cheapest selection for two units is the locked coin, alone. */
  lemma LockedIsSelected(issuer: string, ins: seq<Wire>)
    requires issuer != "" && HeldInputs(Wallet(issuer), issuer, ins) && WireSum(ins) >= 2
    requires Cheapest(Coins(issuer), 2, WireSum(ins))
    ensures ins == [Jwt(Locked(issuer))]
  {
    ChoiceWorth(issuer, [false, true]);
    assert WireSum(ins) == 2;
    WalletAgrees(issuer);
    PurseHolds(issuer);
    forall i | 0 <= i < |ins| ensures ins[i] == Jwt(Locked(issuer)) {
      EachIsPart(ins, i);
      var k := InputIsHeld(Wallet(issuer), issuer, ins[i]);
    }
    assert |ins| == 1;
  }

  /**
   * Amount 2, funds 5, of which 3 are spendable at once: the wallet builds and signs, and the forge refuses
   * until time 100, although a choice of spendable coins would do.
   */
  lemma SpendableFundsYetRefused(issuer: string, env: Env, to: string, changeKey: string, ins: seq<Wire>, outs: seq<PayOut>)
    requires issuer != "" && env.key == issuer && env.now < 100
    requires Selected(Wallet(issuer), issuer, to, 2, changeKey, ins, outs)
    ensures IssuerOK(Wallet(issuer), issuer) && GenuineTokens(Wallet(issuer).tokens)
    ensures Spendable(env, {}, Free(issuer)) && ChoiceSum(Coins(issuer), [true, false]) >= 2
    ensures ins == [Jwt(Locked(issuer))] && !Carried(Wallet(issuer), env, {}, to, 2, ins)
    ensures Validate(env, Witnessed(ins, AsOuts(outs)), {}) == Reject(TimeLocked)
  {
    WalletAgrees(issuer);
    PurseHolds(issuer);
    ChoiceWorth(issuer, [true, false]);
    ChoiceWorth(issuer, Everything(Coins(issuer)));
    EverythingCounts(Coins(issuer), 0);
    LockedIsSelected(issuer, ins);
    var tx := Witnessed(ins, AsOuts(outs));
    assert CheckInput(env, tx, {}, {}, ins[0]) == Reject(TimeLocked);
  }
}
