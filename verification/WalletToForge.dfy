/** From a wallet's transaction to the forge's verdict: witnesses, and why an honest transfer is accepted. */
module WalletToForge {
  import opened Prelude
  import opened JsMap
  import opened Tokens
  import opened ForgeRules
  import opened WalletIndexes
  import opened PocketTokens
  import opened KeyRules
  import opened PocketKeys
  import CoinCounts
  import opened TransactionBuild
  import Forge = FungibleForge

  /** The public key whose signatures a secret key makes. */
  type Owner = string -> string

  /** The wallet's own key; canSign when a signer or its secret key is at hand. */
  datatype MainKey = MainKey(publicKey: string, canSign: bool)

  function AsOuts(outs: seq<PayOut>): (r: seq<Out>)
    ensures |r| == |outs| && forall i :: 0 <= i < |outs| ==> r[i] == Out(outs[i].to, Some(outs[i].amount), None, None)
  {
    seq(|outs|, i requires 0 <= i < |outs| => Out(outs[i].to, Some(outs[i].amount), None, None))
  }

  // ----- keys the wallet can use -----

  /** Derivation yields key pairs, and a held secret belongs to the public key it is filed under. */
  ghost predicate HonestKeys(owner: Owner, derive: Derivation, keys: Keys) {
    && Keyed(keys)
    && (forall m: string, i: nat :: derive(m, i).secretKey != "" && derive(m, i).publicKey != "")
    && (forall m: string, i: nat :: owner(derive(m, i).secretKey) == derive(m, i).publicKey)
    && forall p :: p in keys && Truthy(p.value.secretKey) ==> owner(p.value.secretKey.value) == p.key
  }

  predicate CanUnlock(derive: Derivation, mnemonic: string, keys: Keys, next: nat, main: MainKey, now: nat, p: Payload) {
    match TruthyText(p.lock)
    case None => true
    case Some(lock) =>
      if lock == main.publicKey then main.canSign else Recover(derive, mnemonic, keys, next, lock, now).Found?
  }

  /** A recovered key has a secret, its own, and leaves the wallet honest. */
  lemma RecoveredIsHonest(owner: Owner, derive: Derivation, mnemonic: string, keys: Keys, next: nat, lock: string, now: nat)
    requires HonestKeys(owner, derive, keys)
    ensures var r := Recover(derive, mnemonic, keys, next, lock, now);
            && HonestKeys(owner, derive, AfterRecovery(keys, lock, r))
            && (r.Found? ==> Truthy(r.key.secretKey) && owner(r.key.secretKey.value) == lock)
  {
    var r := Recover(derive, mnemonic, keys, next, lock, now);
    if r.Found? {
      GetFinds(keys, lock);
      PutKeyed(keys, lock, r.key);
      var existing := Get(keys, lock);
      if existing.Some? { assert Pair(lock, existing.value) in keys; }
    }
  }

  /** Recovering one key takes none away. */
  lemma RecoveryKeepsOthers(owner: Owner, derive: Derivation, mnemonic: string, keys: Keys, next: nat, lock: string, other: string, now: nat)
    requires HonestKeys(owner, derive, keys) && Recover(derive, mnemonic, keys, next, other, now).Found?
    ensures Recover(derive, mnemonic, AfterRecovery(keys, lock, Recover(derive, mnemonic, keys, next, lock, now)), next, other, now).Found?
  {
    var r := Recover(derive, mnemonic, keys, next, lock, now);
    if r.Found? {
      RecoveredIsHonest(owner, derive, mnemonic, keys, next, lock, now);
      PutGet(keys, lock, r.key, other);
      PutGrows(keys, lock, r.key);
      if other != lock {
        SameEntryStaysFound(derive, mnemonic, keys, Put(keys, lock, r.key), next, next, other, now);
      }
    }
  }

  lemma SameEntryStaysFound(derive: Derivation, mnemonic: string, keys: Keys, keys': Keys, next: nat, next': nat,
                            other: string, now: nat)
    requires Get(keys', other) == Get(keys, other) && ScanBound(keys, next) <= ScanBound(keys', next')
    requires Recover(derive, mnemonic, keys, next, other, now).Found?
    ensures Recover(derive, mnemonic, keys', next', other, now).Found?
  {
    if FirstMatch(derive, mnemonic, other, 0, ScanBound(keys, next)).Some? {
      ScanFurther(derive, mnemonic, other, ScanBound(keys, next), ScanBound(keys', next'));
    }
  }

  lemma {:induction false} PutGrows<K, V>(m: seq<Pair<K, V>>, k: K, v: V)
    ensures |m| <= |Put(m, k, v)|
  {
    if m != [] {
      PutGrows(m[1..], k, v);
    }
  }

  lemma ScanFurther(derive: Derivation, mnemonic: string, pubkey: string, end: nat, end': nat)
    requires end <= end' && FirstMatch(derive, mnemonic, pubkey, 0, end).Some?
    ensures FirstMatch(derive, mnemonic, pubkey, 0, end').Some?
  {
    var i := FirstMatch(derive, mnemonic, pubkey, 0, end).value;
    assert derive(mnemonic, i).publicKey == pubkey;
  }

  // ----- witnesses -----

  /** What the witness of an input must be: a signature by its lock over its hash and the outputs. */
  function ProperWitness(t: Token, outs: seq<Out>): Witness {
    match TruthyText(t.payload.lock)
    case None => Absent
    case Some(lock) => Bytes(Signed(lock, OverSpend(t.claimedHash, RoutesOf(outs))))
  }

  function ProperWitnesses(inputs: seq<Token>, outs: seq<Out>): (ws: seq<Witness>)
    ensures |ws| == |inputs| && forall i :: 0 <= i < |inputs| ==> ws[i] == ProperWitness(inputs[i], outs)
  {
    seq(|inputs|, i requires 0 <= i < |inputs| => ProperWitness(inputs[i], outs))
  }

  ghost predicate IsLocked(p: Payload) { p.lock.Some? && p.lock.value != "" }

  /** Nothing to attach when no input is locked; else one entry per input, signed by its lock over its hash and the outputs. */
  ghost predicate WellWitnessed(witnessData: seq<Witness>, inputs: seq<Token>, outs: seq<Out>) {
    if forall i :: 0 <= i < |inputs| ==> !IsLocked(inputs[i].payload) then witnessData == []
    else
      && |witnessData| == |inputs|
      && forall i :: 0 <= i < |inputs| ==>
           if IsLocked(inputs[i].payload) then
             SignedBy(witnessData[i], inputs[i].payload.lock.value, inputs[i].claimedHash, outs, false)
           else witnessData[i] == Absent
  }

  lemma ProperIsWellWitnessed(inputs: seq<Token>, outs: seq<Out>)
    ensures WellWitnessed(Attached(ProperWitnesses(inputs, outs)), inputs, outs)
  {
    var ws := ProperWitnesses(inputs, outs);
    forall i | 0 <= i < |inputs| && IsLocked(inputs[i].payload) ensures ws[i] in ws && ws[i] != Absent { }
  }

  class Sender {
    const owner: Owner
    const main: MainKey
    const ring: KeyRing

    constructor (owner: Owner, main: MainKey, ring: KeyRing)
      ensures this.owner == owner && this.main == main && this.ring == ring
    {
      this.owner, this.main, this.ring := owner, main, ring;
    }

    ghost predicate Unlocks(now: nat, p: Payload)
      reads ring
    {
      CanUnlock(ring.derive, ring.mnemonic, ring.keys, ring.nextIndex, main, now, p)
    }

    ghost predicate CanUnlockAll(inputs: seq<Token>, now: nat)
      reads ring
    {
      forall i :: 0 <= i < |inputs| ==> Unlocks(now, inputs[i].payload)
    }

    /** The witness of one input; None when its key is missing. */
    method Witness1(token: Token, outs: seq<Out>, now: nat) returns (threw: bool, w: Option<Witness>)
      requires HonestKeys(owner, ring.derive, ring.keys)
      modifies ring`keys
      ensures HonestKeys(owner, ring.derive, ring.keys)
      ensures CanUnlock(ring.derive, ring.mnemonic, old(ring.keys), ring.nextIndex, main, now, token.payload) ==>
                !threw && w == Some(ProperWitness(token, outs))
      ensures w.Some? ==> w.value == ProperWitness(token, outs)
      ensures forall p: Payload ::
                CanUnlock(ring.derive, ring.mnemonic, old(ring.keys), ring.nextIndex, main, now, p) ==>
                CanUnlock(ring.derive, ring.mnemonic, ring.keys, ring.nextIndex, main, now, p)
    {
      var lockKey := TruthyText(token.payload.lock);
      if lockKey.None? { return false, Some(Absent); }
      var dataToSign := OverSpend(token.claimedHash, RoutesOf(outs));
      if lockKey.value == main.publicKey {
        if main.canSign { return false, Some(Bytes(Signed(main.publicKey, dataToSign))); }
        return false, None;
      }
      ghost var before := ring.keys;
      var r := ring.FindOrRecover(lockKey.value, now);
      RecoveredIsHonest(owner, ring.derive, ring.mnemonic, before, ring.nextIndex, lockKey.value, now);
      forall p: Payload | CanUnlock(ring.derive, ring.mnemonic, before, ring.nextIndex, main, now, p)
        ensures CanUnlock(ring.derive, ring.mnemonic, ring.keys, ring.nextIndex, main, now, p)
      {
        if TruthyText(p.lock).Some? && p.lock.value != main.publicKey {
          RecoveryKeepsOthers(owner, ring.derive, ring.mnemonic, before, ring.nextIndex, lockKey.value, p.lock.value, now);
        }
      }
      if r.Threw? { return true, None; }
      if r.Found? && Truthy(r.key.secretKey) {
        return false, Some(Bytes(Signed(owner(r.key.secretKey.value), dataToSign)));
      }
      return false, None;
    }

    /** buildWitnessData: one witness per input, in input order; it throws when a key is missing. */
    method BuildWitnessData(inputs: seq<Token>, outs: seq<Out>, now: nat) returns (threw: bool, witnessData: seq<Witness>)
      requires HonestKeys(owner, ring.derive, ring.keys)
      modifies ring`keys
      ensures HonestKeys(owner, ring.derive, ring.keys)
      ensures !threw ==> witnessData == ProperWitnesses(inputs, outs)
      ensures old(CanUnlockAll(inputs, now)) ==> !threw
    {
      witnessData := [];
      var missing := false;
      threw := false;
      var i := 0;
      while i < |inputs|
        invariant 0 <= i <= |inputs| && |witnessData| == i
        invariant HonestKeys(owner, ring.derive, ring.keys)
        invariant !missing ==> witnessData == ProperWitnesses(inputs, outs)[..i]
        invariant old(CanUnlockAll(inputs, now)) ==> !missing && CanUnlockAll(inputs, now)
      {
        var failed, w := Witness1(inputs[i], outs, now);
        if failed { return true, []; }
        if w.None? { missing := true; }
        witnessData := witnessData + [if w.Some? then w.value else Absent];
        i := i + 1;
      }
      if missing { return true, []; }
    }

    /** sendTx up to the request: restore the inputs, witness them over the final outputs, attach the witnesses if any. */
    method PrepareTx(ins: seq<Wire>, outs: seq<PayOut>, now: nat) returns (threw: bool, tx: Tx)
      requires HonestKeys(owner, ring.derive, ring.keys)
      modifies ring`keys
      ensures (forall i :: 0 <= i < |ins| ==> ins[i].Jwt?) && old(CanUnlockAll(Restored(ins), now)) ==> !threw
      ensures !threw ==>
        && (forall i :: 0 <= i < |ins| ==> ins[i].Jwt?)
        && tx.ins == Some(ins) && tx.outs == AsOuts(outs)
        && tx.witnessData == Attached(ProperWitnesses(Restored(ins), AsOuts(outs)))
        && WellWitnessed(tx.witnessData, Restored(ins), tx.outs)
    {
      tx := Tx(Some(ins), AsOuts(outs), []);
      var inputs: seq<Token> := [];
      var i := 0;
      while i < |ins|
        invariant 0 <= i <= |ins| && inputs == Restored(ins[..i])
        invariant forall k :: 0 <= k < i ==> ins[k].Jwt?
      {
        if ins[i].Malformed? { return true, tx; }
        inputs := inputs + [ins[i].token];
        i := i + 1;
      }
      assert ins[..i] == ins;
      var failed, witnessData := BuildWitnessData(inputs, tx.outs, now);
      if failed { return true, tx; }
      ProperIsWellWitnessed(inputs, tx.outs);
      return false, tx.(witnessData := Attached(witnessData));
    }
  }

  function Restored(ins: seq<Wire>): (ts: seq<Token>)
    ensures (forall i :: 0 <= i < |ins| ==> ins[i].Jwt?) ==> ts == TokensOf(ins)
  {
    if forall i :: 0 <= i < |ins| ==> ins[i].Jwt? then TokensOf(ins) else []
  }

  /** witnessData goes along only when some witness is not empty. */
  function Attached(ws: seq<Witness>): seq<Witness> {
    if exists w :: w in ws && w != Absent then ws else []
  }

  // ----- acceptance -----

  /** What the forge asks of an input beyond its being genuine, once and witnessed. */
  ghost predicate Spendable(env: Env, spent: set<Hash>, t: Token) {
    && Digest(t.payload) !in spent
    && (t.payload.exp.Some? && t.payload.exp.value != 0 ==> env.now < t.payload.exp.value)
    && (t.payload.timeLock.Some? && t.payload.timeLock.value != 0 ==> env.now >= t.payload.timeLock.value)
    && (t.payload.htlc.Some? && t.payload.htlc.value != "" ==> t.payload.htlc.value in env.refundable)
  }

  ghost predicate InputsSpendable(env: Env, spent: set<Hash>, ins: seq<Wire>)
    requires forall i :: 0 <= i < |ins| ==> ins[i].Jwt?
  {
    forall i :: 0 <= i < |ins| ==> Spendable(env, spent, ins[i].token)
  }

  /** The request a wallet sends for these inputs and outputs. */
  function Witnessed(ins: seq<Wire>, outs: seq<Out>): Tx
    requires forall i :: 0 <= i < |ins| ==> ins[i].Jwt?
  {
    Tx(Some(ins), outs, Attached(ProperWitnesses(TokensOf(ins), outs)))
  }

  lemma {:induction false} InputTotalIsWireSum(ins: seq<Wire>)
    requires forall i :: 0 <= i < |ins| ==> ins[i].Jwt? && Fungible(ins[i].token)
    ensures InputTotal(TokensOf(ins)) == WireSum(ins)
  {
    if ins != [] {
      var n := |ins| - 1;
      InputTotalIsWireSum(ins[..n]);
      assert TokensOf(ins)[..n] == TokensOf(ins[..n]);
    }
  }

  lemma {:induction false} OutputTotalIsOutSum(outs: seq<PayOut>)
    ensures OutputTotal(AsOuts(outs)) == OutSum(outs)
  {
    if outs != [] {
      var n := |outs| - 1;
      OutputTotalIsOutSum(outs[..n]);
      assert AsOuts(outs)[..n] == AsOuts(outs[..n]);
    }
  }

  /**
   * Genuine held inputs with proper witnesses pass input validation exactly when each is unspent, unexpired,
   * not time-locked and passes the HTLC check: witness i is the one checked for input i.
   */
  lemma WitnessedInputsPass(env: Env, spent: set<Hash>, s: State, ins: seq<Wire>, outs: seq<Out>)
    requires HeldInputs(s, env.key, ins) && forall i :: 0 <= i < |ins| ==> Genuine(ins[i].token)
    ensures Validate(env, Witnessed(ins, outs), spent) == Pass <==> InputsSpendable(env, spent, ins)
  {
    var tx := Witnessed(ins, outs);
    forall i | 0 <= i < |ins| ensures InputGood(env, tx, spent, i) <==> Spendable(env, spent, ins[i].token) {
      WitnessedInput(env, spent, ins, outs, i);
    }
    ValidateMeans(env, tx, spent);
    assert DistinctInputs(ins);
  }

  lemma WitnessedInput(env: Env, spent: set<Hash>, ins: seq<Wire>, outs: seq<Out>, i: nat)
    requires i < |ins| && forall k :: 0 <= k < |ins| ==> ins[k].Jwt?
    requires ins[i].token.payload.iss == env.key && Genuine(ins[i].token)
    ensures InputGood(env, Witnessed(ins, outs), spent, i) <==> Spendable(env, spent, ins[i].token)
  {
    var ws := ProperWitnesses(TokensOf(ins), outs);
    if TruthyText(ins[i].token.payload.lock).Some? {
      assert ws[i] in ws && ws[i] != Absent;
    }
  }

  /** A transfer a forge would carry out: recipients named, positive amounts. */
  ghost predicate GoodOuts(outs: seq<PayOut>) {
    outs != [] && forall i :: 0 <= i < |outs| ==> outs[i].amount > 0 && outs[i].to != ""
  }

  lemma {:induction false} GoodOutsSum(outs: seq<PayOut>)
    requires forall i :: 0 <= i < |outs| ==> outs[i].amount > 0
    ensures OutSum(outs) >= |outs|
  {
    if outs != [] {
      GoodOutsSum(outs[..|outs| - 1]);
    }
  }

  /** What validateFungibleTransfer asks of inputs and outputs. */
  lemma BalancedIsGood(s: State, issuer: string, ins: seq<Wire>, full: seq<PayOut>)
    requires HeldInputs(s, issuer, ins) && ins != []
    requires forall i :: 0 <= i < |full| ==> full[i].amount > 0 && full[i].to != ""
    requires OutSum(full) == WireSum(ins)
    ensures FungibleGood(TokensOf(ins), AsOuts(full)) && InputTotal(TokensOf(ins)) == OutputTotal(AsOuts(full))
  {
    InputTotalIsWireSum(ins);
    OutputTotalIsOutSum(full);
    var ts := TokensOf(ins);
    assert forall i :: 0 <= i < |ts| ==> Fungible(ts[i]);
    assert ClaimsDistinct(ts);
  }

  /**
   * A balanced transaction over genuine held inputs, witnessed by its wallet: the forge accepts it exactly when
   * every input is still spendable, and it has no change of its own to give.
   */
  lemma HonestTransferAccepted(env: Env, clock: Clock, spent: set<Hash>, s: State, ins: seq<Wire>, full: seq<PayOut>, sender: string)
    requires GoodOuts(full) && HeldInputs(s, env.key, ins) && OutSum(full) == WireSum(ins)
    requires forall i :: 0 <= i < |ins| ==> Genuine(ins[i].token)
    ensures ins != []
    ensures PlanOf(env, clock, spent, ForgeRules.Transfer(Witnessed(ins, AsOuts(full)), sender))
            == if InputsSpendable(env, spent, ins)
               then Some(Plan(HashesOf(TokensOf(ins)), RecipientPayloads(env.key, clock, AsOuts(full), ins[0].token.payload)))
               else None
  {
    WitnessedInputsPass(env, spent, s, ins, AsOuts(full));
    GoodOutsSum(full);
    assert ins != [];
    BalancedIsGood(s, env.key, ins, full);
    NoChangePlan(env, clock, TokensOf(ins), AsOuts(full), sender);
  }

  lemma NoChangePlan(env: Env, clock: Clock, ts: seq<Token>, outs: seq<Out>, sender: string)
    requires ts != [] && InputTotal(ts) == OutputTotal(outs)
    ensures Outputs(env.key, clock, ts, outs, sender) == RecipientPayloads(env.key, clock, outs, ts[0].payload)
  {
    var recipients := RecipientPayloads(env.key, clock, outs, ts[0].payload);
    assert recipients + [] == recipients;
  }

  /** Without inputs there is no plan, whatever the outputs. */
  lemma NoInputsNoPlan(env: Env, clock: Clock, spent: set<Hash>, outs: seq<Out>, sender: string)
    ensures PlanOf(env, clock, spent, ForgeRules.Transfer(Witnessed([], outs), sender)) == None
  {
  }

  // ----- the whole transfer -----

  lemma AddedGet(keys: Keys, pubkey: string, key: SingleUseKey, other: string)
    ensures Get(Added(keys, pubkey, key), other)
            == if other == pubkey && !Has(keys, pubkey) then Some(Completed(key)) else Get(keys, other)
    ensures |keys| <= |Added(keys, pubkey, key)|
  {
    if !Has(keys, pubkey) {
      PutNew(keys, pubkey, Completed(key));
      PutGet(keys, pubkey, Completed(key), other);
    }
  }

  /** Filing a freshly derived key leaves the wallet honest. */
  lemma DerivingStaysHonest(owner: Owner, derive: Derivation, mnemonic: string, keys: Keys, next: nat, now: nat)
    requires HonestKeys(owner, derive, keys)
    ensures var key := DerivedKey(derive, mnemonic, next, now);
            HonestKeys(owner, derive, Added(keys, key.publicKey, key))
  {
    GetFinds(keys, derive(mnemonic, next).publicKey);
  }

  /** And takes no key away. */
  lemma DerivingKeepsKeys(owner: Owner, derive: Derivation, mnemonic: string, keys: Keys, next: nat, other: string, now: nat)
    requires HonestKeys(owner, derive, keys) && Recover(derive, mnemonic, keys, next, other, now).Found?
    ensures var key := DerivedKey(derive, mnemonic, next, now);
            var keys' := Added(keys, key.publicKey, key);
            Recover(derive, mnemonic, keys', Raised(next + 1, keys'), other, now).Found?
  {
    var key := DerivedKey(derive, mnemonic, next, now);
    var keys' := Added(keys, key.publicKey, key);
    AddedGet(keys, key.publicKey, key, other);
    RaisedIsAbove(next + 1, keys');
    if Get(keys', other) == Get(keys, other) {
      SameEntryStaysFound(derive, mnemonic, keys, keys', next, Raised(next + 1, keys'), other, now);
    }
  }

  /** An input found in the wallet is one of the held tokens. */
  lemma InputIsHeld(s: State, issuer: string, w: Wire) returns (k: nat)
    requires IssuerOK(s, issuer) && w.Jwt? && Get(EntriesOf(s.tokens, issuer), w.token.claimedHash) == Some(w)
    ensures k < |Held(s.tokens, issuer)| && Held(s.tokens, issuer)[k] == w.token
    ensures k < |EntriesOf(s.tokens, issuer)| && EntriesOf(s.tokens, issuer)[k].value == w
  {
    var m := EntriesOf(s.tokens, issuer);
    CanonicalIsSelf(issuer, m);
    GetFinds(m, w.token.claimedHash);
    k :| 0 <= k < |m| && m[k] == Pair(w.token.claimedHash, w);
  }

  /** The inputs and outputs a transfer is built from: the cheapest selection and its change, or nothing and the whole amount. */
  ghost predicate Selected(s: State, issuer: string, to: string, amount: int, changeKey: string, ins: seq<Wire>, outs: seq<PayOut>) {
    var asked := [PayOut(issuer, to, amount)];
    if Funds(Held(s.tokens, issuer)) >= amount then
      && HeldInputs(s, issuer, ins) && WireSum(ins) >= amount && Cheapest(Held(s.tokens, issuer), amount, WireSum(ins))
      && ChangeAdded(outs, asked, issuer, changeKey, WireSum(ins) - amount)
    else
      ins == [] && ChangeAdded(outs, asked, issuer, changeKey, amount)
  }

  lemma SelectedAreHeld(s: State, issuer: string, to: string, amount: int, changeKey: string, ins: seq<Wire>, outs: seq<PayOut>)
    requires IssuerOK(s, issuer) && GenuineTokens(s.tokens) && Selected(s, issuer, to, amount, changeKey, ins, outs)
    ensures HeldInputs(s, issuer, ins)
    ensures forall i :: 0 <= i < |ins| ==> Genuine(ins[i].token) && ins[i].token in Held(s.tokens, issuer)
  {
    assert GenuineEntries(EntriesOf(s.tokens, issuer));
    forall i | 0 <= i < |ins| ensures Genuine(ins[i].token) && ins[i].token in Held(s.tokens, issuer) {
      var k := InputIsHeld(s, issuer, ins[i]);
    }
  }

  /** What decides a transfer: a recipient, a positive amount, funds enough, and selected inputs still spendable. */
  ghost predicate Carried(s: State, env: Env, spent: set<Hash>, to: string, amount: int, ins: seq<Wire>)
    requires forall i :: 0 <= i < |ins| ==> ins[i].Jwt?
  {
    to != "" && amount > 0 && Funds(Held(s.tokens, env.key)) >= amount && InputsSpendable(env, spent, ins)
  }

  /** Nothing asked for selects nothing. */
  lemma NothingSelected(s: State, issuer: string, amount: int, ins: seq<Wire>)
    requires HeldInputs(s, issuer, ins) && Cheapest(Held(s.tokens, issuer), amount, WireSum(ins)) && amount <= 0
    ensures ins == []
  {
    var held := Held(s.tokens, issuer);
    var none := seq(|held|, _ => false);
    NoneChosen(held, none);
    assert CoinCounts.ChoiceSum(held, none) >= amount;
  }

  lemma {:induction false} NoneChosen(held: seq<Token>, chosen: seq<bool>)
    requires |chosen| == |held| && forall k :: 0 <= k < |chosen| ==> !chosen[k]
    ensures CoinCounts.ChoiceSum(held, chosen) == 0
  {
    if held != [] {
      NoneChosen(held[..|held| - 1], chosen[..|held| - 1]);
    }
  }

  /** The plan the forge has for a selected and witnessed transfer. */
  ghost function TransferPlanFor(env: Env, clock: Clock, ins: seq<Wire>, outs: seq<PayOut>): Plan
    requires ins != [] && forall i :: 0 <= i < |ins| ==> ins[i].Jwt?
  {
    Plan(HashesOf(TokensOf(ins)), RecipientPayloads(env.key, clock, AsOuts(outs), ins[0].token.payload))
  }

  lemma SelectedPlan(env: Env, clock: Clock, spent: set<Hash>, s: State, to: string, amount: int, changeKey: string,
                     ins: seq<Wire>, outs: seq<PayOut>, sender: string)
    requires IssuerOK(s, env.key) && GenuineTokens(s.tokens) && changeKey != ""
    requires Selected(s, env.key, to, amount, changeKey, ins, outs)
    ensures HeldInputs(s, env.key, ins)
    ensures Carried(s, env, spent, to, amount, ins) ==> ins != []
    ensures PlanOf(env, clock, spent, ForgeRules.Transfer(Witnessed(ins, AsOuts(outs)), sender))
            == if Carried(s, env, spent, to, amount, ins) then Some(TransferPlanFor(env, clock, ins, outs)) else None
  {
    var asked := [PayOut(env.key, to, amount)];
    assert OutSum(asked) == amount by { assert asked[..0] == []; }
    SelectedAreHeld(s, env.key, to, amount, changeKey, ins, outs);
    if Funds(Held(s.tokens, env.key)) < amount {
      NoInputsNoPlan(env, clock, spent, AsOuts(outs), sender);
    } else if amount <= 0 {
      NothingSelected(s, env.key, amount, ins);
      NoInputsNoPlan(env, clock, spent, AsOuts(outs), sender);
    } else if to == "" {
      assert outs[0] == outs[..1][0];
      assert AsOuts(outs)[0].to == "";
      assert !OutputsGood(AsOuts(outs));
    } else {
      ChangeBalances(outs, asked, env.key, changeKey, WireSum(ins));
      AskedIsGood(outs, env.key, to, amount, changeKey, WireSum(ins) - amount);
      HonestTransferAccepted(env, clock, spent, s, ins, outs, sender);
    }
  }

  /** The recipient and the change key are named, and both amounts are positive. */
  lemma AskedIsGood(outs: seq<PayOut>, issuer: string, to: string, amount: int, changeKey: string, over: int)
    requires to != "" && changeKey != "" && amount > 0
    requires ChangeAdded(outs, [PayOut(issuer, to, amount)], issuer, changeKey, over)
    ensures GoodOuts(outs)
  {
    assert outs[0] == outs[..1][0];
  }

  /** What was sent on top of before: the recipient's token of that amount and, if something is over, the wallet's change. */
  ghost predicate Delivered(before: seq<Payload>, after: seq<Payload>, key: string, to: string, amount: int,
                            changeKey: string, over: int) {
    && |after| == |before| + (if over > 0 then 2 else 1) && after[..|before|] == before
    && after[|before|].lock == Some(to) && after[|before|].amount == Some(amount)
    && (over > 0 ==> after[|before| + 1].lock == Some(changeKey) && after[|before| + 1].amount == Some(over))
    && forall k :: |before| <= k < |after| ==> after[k].iss == key && after[k].timeLock.None? && after[k].exp.None?
  }

  lemma PlanDelivers(env: Env, clock: Clock, before: seq<Payload>, ins: seq<Wire>, outs: seq<PayOut>,
                     to: string, amount: int, changeKey: string, over: int)
    requires ins != [] && (forall i :: 0 <= i < |ins| ==> ins[i].Jwt?) && to != "" && changeKey != ""
    requires ChangeAdded(outs, [PayOut(env.key, to, amount)], env.key, changeKey, over)
    ensures Delivered(before, before + TransferPlanFor(env, clock, ins, outs).outputs, env.key, to, amount, changeKey, over)
  {
    assert outs[0] == outs[..1][0];
    var ps := TransferPlanFor(env, clock, ins, outs).outputs;
    assert forall k :: 0 <= k < |ps| ==> (before + ps)[|before| + k] == ps[k];
    assert forall k :: |before| <= k < |before + ps| ==> (before + ps)[k] == ps[k - |before|];
  }

  /** How a transfer ends: not built, not signed for want of a key, or answered by the forge. */
  datatype Sent = NotBuilt(error: BuildError) | NotSigned | Answered(v: Verdict)

  /** The change key: derived, filed, and nothing the wallet could unlock is lost. */
  method ChangeKey(sender: Sender, now: nat) returns (publicKey: string)
    requires HonestKeys(sender.owner, sender.ring.derive, sender.ring.keys)
    modifies sender.ring`keys, sender.ring`nextIndex
    ensures publicKey == sender.ring.derive(sender.ring.mnemonic, old(sender.ring.nextIndex)).publicKey
    ensures HonestKeys(sender.owner, sender.ring.derive, sender.ring.keys)
    ensures forall p: Payload :: old(sender.Unlocks(now, p)) ==> sender.Unlocks(now, p)
  {
    var ring := sender.ring;
    ghost var before := ring.keys;
    var index, key := ring.BeginDerive(now);
    DerivingStaysHonest(sender.owner, ring.derive, ring.mnemonic, before, index, now);
    ring.AddSingleUseKey(key.publicKey, key);
    forall p: Payload | CanUnlock(ring.derive, ring.mnemonic, before, index, sender.main, now, p)
      ensures CanUnlock(ring.derive, ring.mnemonic, ring.keys, ring.nextIndex, sender.main, now, p)
    {
      var lock := TruthyText(p.lock);
      if lock.Some? && lock.value != sender.main.publicKey {
        DerivingKeepsKeys(sender.owner, ring.derive, ring.mnemonic, before, index, lock.value, now);
      }
    }
    publicKey := key.publicKey;
  }

  method BuildTransfer(state: State, issuer: string, to: string, amount: int, changeKey: string)
    returns (error: Option<BuildError>, ins: seq<Wire>, outs: seq<PayOut>)
    requires IssuerOK(state, issuer)
    ensures error == if issuer in state.tokenIndex then None else Some(NoTokensForIssuer)
    ensures error.None? ==> Selected(state, issuer, to, amount, changeKey, ins, outs)
    ensures error.None? ==>
      var over := if Funds(Held(state.tokens, issuer)) >= amount then WireSum(ins) - amount else amount;
      outs == [PayOut(issuer, to, amount)] + if over > 0 then [PayOut(issuer, changeKey, over)] else []
  {
    var request := new Transaction(state, [], changeKey);
    request.To(issuer, to, amount);
    assert request.outs == [PayOut(issuer, to, amount)];
    assert OutSum(request.outs) == amount by { assert request.outs[..0] == []; }
    var built := request.Build();
    match built
    case Failure(e) => return Some(e), [], [];
    case Built(builtIns, builtOuts) => return None, builtIns, builtOuts;
  }

  /** Witness, send, and let the forge handle the request. */
  method Submit(sender: Sender, forge: Forge.FungibleForge, env: Env, clock: Clock,
                ins: seq<Wire>, outs: seq<PayOut>, now: nat) returns (r: Sent)
    requires env.key == forge.key && HonestKeys(sender.owner, sender.ring.derive, sender.ring.keys)
    requires forall i :: 0 <= i < |ins| ==> ins[i].Jwt?
    modifies sender.ring`keys, forge
    ensures r.NotSigned? || r.Answered?
    ensures old(sender.CanUnlockAll(TokensOf(ins), now)) ==> r.Answered?
    ensures r != Answered(Pass) ==> forge.spentTokens == old(forge.spentTokens) && forge.outbox == old(forge.outbox)
    ensures var plan := PlanOf(env, clock, old(forge.spentTokens),
                               ForgeRules.Transfer(Witnessed(ins, AsOuts(outs)), sender.main.publicKey));
            && (r.Answered? ==> (r.v == Pass <==> plan.Some?))
            && (r == Answered(Pass) ==>
                  && forge.spentTokens == old(forge.spentTokens) + (set h | h in plan.value.hashes)
                  && forge.outbox == old(forge.outbox) + plan.value.outputs)
  {
    var threw, tx := sender.PrepareTx(ins, outs, now);
    if threw { return NotSigned; }
    assert tx == Witnessed(ins, AsOuts(outs));
    var v := forge.TransferToken(env, clock, tx, sender.main.publicKey);
    return Answered(v);
  }

  /** The forge's plan for what was selected, and what carrying it out sends on top of before. */
  lemma PlanOfSelected(env: Env, clock: Clock, spent: set<Hash>, before: seq<Payload>, s: State, to: string, amount: int,
                       changeKey: string, ins: seq<Wire>, outs: seq<PayOut>, sender: string)
    requires IssuerOK(s, env.key) && GenuineTokens(s.tokens) && changeKey != ""
    requires Selected(s, env.key, to, amount, changeKey, ins, outs) && forall i :: 0 <= i < |ins| ==> ins[i].Jwt?
    ensures var plan := PlanOf(env, clock, spent, ForgeRules.Transfer(Witnessed(ins, AsOuts(outs)), sender));
            && (plan.Some? <==> Carried(s, env, spent, to, amount, ins))
            && (plan.Some? ==>
                  && ins != [] && plan.value == TransferPlanFor(env, clock, ins, outs)
                  && Delivered(before, before + plan.value.outputs, env.key, to, amount, changeKey, WireSum(ins) - amount))
  {
    SelectedPlan(env, clock, spent, s, to, amount, changeKey, ins, outs, sender);
    if Carried(s, env, spent, to, amount, ins) {
      PlanDelivers(env, clock, before, ins, outs, to, amount, changeKey, WireSum(ins) - amount);
    }
  }

  /** A transfer once built: it is accepted exactly when Carried, and then the selected inputs are spent and its tokens sent. */
  method SendSelected(state: State, sender: Sender, forge: Forge.FungibleForge, env: Env, clock: Clock,
                      to: string, amount: int, changeKey: string, ins: seq<Wire>, outs: seq<PayOut>, now: nat)
    returns (r: Sent)
    requires env.key == forge.key && IssuerOK(state, env.key) && GenuineTokens(state.tokens) && changeKey != ""
    requires HonestKeys(sender.owner, sender.ring.derive, sender.ring.keys)
    requires Selected(state, env.key, to, amount, changeKey, ins, outs) && forall i :: 0 <= i < |ins| ==> ins[i].Jwt?
    modifies sender.ring`keys, forge
    ensures r.NotSigned? || r.Answered?
    ensures old(sender.CanUnlockAll(TokensOf(ins), now)) ==> r.Answered?
    ensures r.Answered? ==> (r.v == Pass <==> Carried(state, env, old(forge.spentTokens), to, amount, ins))
    ensures r != Answered(Pass) ==> forge.spentTokens == old(forge.spentTokens) && forge.outbox == old(forge.outbox)
    ensures r == Answered(Pass) ==>
      && ins != []
      && forge.spentTokens == old(forge.spentTokens) + (set h | h in TransferPlanFor(env, clock, ins, outs).hashes)
      && forge.outbox == old(forge.outbox) + TransferPlanFor(env, clock, ins, outs).outputs
      && Delivered(old(forge.outbox), forge.outbox, env.key, to, amount, changeKey, WireSum(ins) - amount)
  {
    PlanOfSelected(env, clock, forge.spentTokens, forge.outbox, state, to, amount, changeKey, ins, outs, sender.main.publicKey);
    r := Submit(sender, forge, env, clock, ins, outs, now);
  }

  /**
   * Pocket.transfer against a forge: derive a change key, build, witness, send, and the forge's own handler.
   * The forge accepts exactly when there is a recipient, a positive amount, funds enough, and every selected
   * input is still spendable; then it marks exactly the inputs spent and sends exactly the recipient's token
   * and the change, worth together what the inputs were. In every other case it is left as it was.
   */
  method Transfer(state: State, sender: Sender, forge: Forge.FungibleForge, env: Env, clock: Clock,
                  to: string, amount: int, now: nat)
    returns (r: Sent, ins: seq<Wire>, outs: seq<PayOut>)
    requires env.key == forge.key && IssuerOK(state, forge.key) && GenuineTokens(state.tokens)
    requires HonestKeys(sender.owner, sender.ring.derive, sender.ring.keys)
    modifies sender.ring`keys, sender.ring`nextIndex, forge
    ensures r.NotBuilt? <==> forge.key !in state.tokenIndex
    ensures !r.NotBuilt? ==>
      && (forall i :: 0 <= i < |ins| ==> ins[i].Jwt?)
      && Selected(state, forge.key, to, amount,
                  sender.ring.derive(sender.ring.mnemonic, old(sender.ring.nextIndex)).publicKey, ins, outs)
      && (old(sender.CanUnlockAll(TokensOf(ins), now)) ==> r.Answered?)
      && (r.Answered? ==> (r.v == Pass <==> Carried(state, env, old(forge.spentTokens), to, amount, ins)))
    ensures r != Answered(Pass) ==> forge.spentTokens == old(forge.spentTokens) && forge.outbox == old(forge.outbox)
    ensures r == Answered(Pass) ==>
      Delivered(old(forge.outbox), forge.outbox, forge.key, to, amount,
                sender.ring.derive(sender.ring.mnemonic, old(sender.ring.nextIndex)).publicKey, WireSum(ins) - amount)
    ensures r == Answered(Pass) ==>
      && ins != []
      && forge.spentTokens == old(forge.spentTokens) + (set h | h in TransferPlanFor(env, clock, ins, outs).hashes)
      && forge.outbox == old(forge.outbox) + TransferPlanFor(env, clock, ins, outs).outputs
  {
    var changeKey := ChangeKey(sender, now);
    var error;
    error, ins, outs := BuildTransfer(state, forge.key, to, amount, changeKey);
    if error.Some? { return NotBuilt(error.value), [], []; }
    SelectedAreHeld(state, forge.key, to, amount, changeKey, ins, outs);
    r := SendSelected(state, sender, forge, env, clock, to, amount, changeKey, ins, outs, now);
  }

  // ----- when all that is held may be spent -----

  /** The wallet can spend whatever it holds of the issuer. */
  ghost predicate AllSpendable(env: Env, spent: set<Hash>, s: State) {
    forall t :: t in Held(s.tokens, env.key) ==> Spendable(env, spent, t)
  }

  /** Then any transfer within its funds to somebody is carried out. */
  lemma SpendableFundsCarry(s: State, env: Env, spent: set<Hash>, to: string, amount: int, changeKey: string,
                            ins: seq<Wire>, outs: seq<PayOut>)
    requires IssuerOK(s, env.key) && GenuineTokens(s.tokens) && AllSpendable(env, spent, s)
    requires Selected(s, env.key, to, amount, changeKey, ins, outs)
    requires to != "" && 0 < amount <= Funds(Held(s.tokens, env.key))
    ensures forall i :: 0 <= i < |ins| ==> ins[i].Jwt?
    ensures Carried(s, env, spent, to, amount, ins)
  {
    SelectedAreHeld(s, env.key, to, amount, changeKey, ins, outs);
  }
}
