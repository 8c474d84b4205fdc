/**
 * What a wallet derives from the tokens it holds of one issuer: hashes by denomination, access tokens by
 * id, balances by token set. held lists the tokens in the order the wallet's map keeps them.
 */
module WalletIndexes {
  import opened Prelude
  import opened JsMap
  import opened Tokens
  import opened ForgeRules

  /** A token counted in a balance: no token id, a positive amount. */
  predicate Fungible(t: Token) { t.payload.tokenID.None? && Positive(t.payload.amount) }

  function AmountOf(t: Token): nat
    requires Fungible(t)
  {
    t.payload.amount.value
  }

  function SetOf(t: Token): string { if t.payload.setID == "" then "-" else t.payload.setID }

  type Index = seq<Pair<nat, seq<Hash>>>

  function HashesAt(index: Index, d: nat): seq<Hash> {
    var found := Get(index, d);
    if found.Some? then found.value else []
  }

  function BalanceAt(balances: map<string, int>, s: string): int {
    if s in balances then balances[s] else 0
  }

  function AddToIndex(index: Index, t: Token): Index {
    if Fungible(t) then Put(index, AmountOf(t), HashesAt(index, AmountOf(t)) + [t.claimedHash]) else index
  }

  function AddToTats(tats: map<string, Hash>, t: Token): map<string, Hash> {
    if t.payload.tokenID.Some? then tats[t.payload.tokenID.value.Text() := t.claimedHash] else tats
  }

  function AddToBalances(balances: map<string, int>, t: Token): map<string, int> {
    if Fungible(t) then balances[SetOf(t) := BalanceAt(balances, SetOf(t)) + AmountOf(t)] else balances
  }

  function IndexOf(held: seq<Token>): Index {
    if held == [] then [] else AddToIndex(IndexOf(held[..|held| - 1]), held[|held| - 1])
  }

  function TatsOf(held: seq<Token>): map<string, Hash> {
    if held == [] then map[] else AddToTats(TatsOf(held[..|held| - 1]), held[|held| - 1])
  }

  function BalancesOf(held: seq<Token>): map<string, int> {
    if held == [] then map[] else AddToBalances(BalancesOf(held[..|held| - 1]), held[|held| - 1])
  }

  lemma ViewsSnoc(held: seq<Token>, t: Token)
    ensures IndexOf(held + [t]) == AddToIndex(IndexOf(held), t)
    ensures TatsOf(held + [t]) == AddToTats(TatsOf(held), t)
    ensures BalancesOf(held + [t]) == AddToBalances(BalancesOf(held), t)
  {
    assert (held + [t])[..|held|] == held;
  }

  // ----- what the indexes say, independently of how they are built -----

  /** The hashes of the held tokens of amount d, in order. */
  function Bucket(held: seq<Token>, d: nat): seq<Hash> {
    if held == [] then []
    else
      var t := held[|held| - 1];
      Bucket(held[..|held| - 1], d) + if Fungible(t) && AmountOf(t) == d then [t.claimedHash] else []
  }

  /** A token is counted in the balance s: no id, a positive amount, and its set s; tokens of no set are those of "-". */
  ghost predicate CountedIn(p: Payload, s: string) {
    p.tokenID.None? && p.amount.Some? && p.amount.value > 0 && (p.setID == s || (p.setID == "" && s == "-")) && s != ""
  }

  /** The sum of the amounts held in a token set. */
  ghost function SetSum(held: seq<Token>, s: string): int {
    if held == [] then 0
    else
      var p := held[|held| - 1].payload;
      SetSum(held[..|held| - 1], s) + if CountedIn(p, s) then p.amount.value else 0
  }

  /** What is held in all. */
  function Funds(held: seq<Token>): int {
    if held == [] then 0
    else
      var t := held[|held| - 1];
      Funds(held[..|held| - 1]) + if Fungible(t) then AmountOf(t) else 0
  }

  /** A denomination has an entry exactly when such tokens are held, and the entry lists their hashes. */
  lemma {:induction false} IndexMeans(held: seq<Token>, d: nat)
    ensures Get(IndexOf(held), d) == if Bucket(held, d) == [] then None else Some(Bucket(held, d))
  {
    if held != [] {
      var init, t := held[..|held| - 1], held[|held| - 1];
      IndexMeans(init, d);
      assert Bucket(init, d) + [] == Bucket(init, d);
      if Fungible(t) {
        assert AmountOf(t) == d ==> HashesAt(IndexOf(init), d) == Bucket(init, d);
        PutGet(IndexOf(init), AmountOf(t), HashesAt(IndexOf(init), AmountOf(t)) + [t.claimedHash], d);
      }
    }
  }

  lemma {:induction false} IndexKeyed(held: seq<Token>)
    ensures Keyed(IndexOf(held))
    ensures forall p :: p in IndexOf(held) ==> p.key > 0
  {
    if held != [] {
      var init, t := held[..|held| - 1], held[|held| - 1];
      IndexKeyed(init);
      if Fungible(t) {
        PutKeyed(IndexOf(init), AmountOf(t), HashesAt(IndexOf(init), AmountOf(t)) + [t.claimedHash]);
      }
    }
  }

  /** A bucket lists exactly the hashes of held tokens of that amount. */
  lemma {:induction false} BucketLists(held: seq<Token>, d: nat, h: Hash)
    ensures h in Bucket(held, d)
            <==> exists i :: 0 <= i < |held| && Fungible(held[i]) && AmountOf(held[i]) == d && held[i].claimedHash == h
  {
    if held != [] {
      var init, t := held[..|held| - 1], held[|held| - 1];
      BucketLists(init, d, h);
      assert forall i :: 0 <= i < |init| ==> init[i] == held[i];
    }
  }

  /** And lists each of them once. */
  lemma {:induction false} BucketDistinct(held: seq<Token>, d: nat)
    requires ClaimsDistinct(held)
    ensures Distinct(Bucket(held, d))
  {
    if held != [] {
      var init, t := held[..|held| - 1], held[|held| - 1];
      BucketDistinct(init, d);
      BucketLists(init, d, t.claimedHash);
    }
  }

  /** Two tokens of that amount that state one hash make it appear twice. */
  lemma {:induction false} BucketRepeats(held: seq<Token>, i: nat, j: nat)
    requires i < j < |held| && Fungible(held[i]) && Fungible(held[j])
    requires AmountOf(held[i]) == AmountOf(held[j]) && held[i].claimedHash == held[j].claimedHash
    ensures !Distinct(Bucket(held, AmountOf(held[j])))
  {
    var init, t, d := held[..|held| - 1], held[|held| - 1], AmountOf(held[j]);
    if j < |held| - 1 {
      BucketRepeats(init, i, j);
      var k, l :| 0 <= k < l < |Bucket(init, d)| && Bucket(init, d)[k] == Bucket(init, d)[l];
      assert Bucket(held, d)[k] == Bucket(held, d)[l];
    } else {
      BucketLists(init, d, t.claimedHash);
      assert init[i] == held[i];
      var k :| 0 <= k < |Bucket(init, d)| && Bucket(init, d)[k] == t.claimedHash;
      assert Bucket(held, d)[k] == Bucket(held, d)[|Bucket(init, d)|];
    }
  }

  /** A token set has a balance exactly when tokens of it are held, and the balance is their sum. */
  lemma {:induction false} BalanceMeans(held: seq<Token>, s: string)
    ensures s in BalancesOf(held) <==> exists i :: 0 <= i < |held| && CountedIn(held[i].payload, s)
    ensures BalanceAt(BalancesOf(held), s) == SetSum(held, s)
    ensures s in BalancesOf(held) ==> BalancesOf(held)[s] > 0
    ensures s !in BalancesOf(held) ==> SetSum(held, s) == 0
  {
    if held != [] {
      var init, t := held[..|held| - 1], held[|held| - 1];
      BalanceMeans(init, s);
      assert forall i :: 0 <= i < |init| ==> init[i] == held[i];
      if CountedIn(t.payload, s) {
        assert held[|held| - 1] == t;
      }
    }
  }

  /** An access token id points to a held token with that id, and every held id is found. */
  lemma {:induction false} TatMeans(held: seq<Token>, id: string)
    ensures id in TatsOf(held) <==>
            exists i :: 0 <= i < |held| && held[i].payload.tokenID.Some? && held[i].payload.tokenID.value.Text() == id
    ensures id in TatsOf(held) ==>
            exists i :: 0 <= i < |held| && held[i].payload.tokenID.Some? && held[i].payload.tokenID.value.Text() == id
                        && held[i].claimedHash == TatsOf(held)[id]
  {
    if held != [] {
      var init, t := held[..|held| - 1], held[|held| - 1];
      TatMeans(init, id);
      assert forall i :: 0 <= i < |init| ==> init[i] == held[i];
    }
  }
}
