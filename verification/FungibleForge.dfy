/** The fungible forge's handlers as they run one at a time, over its mutable state. */
module FungibleForge {
  import opened Prelude
  import opened Tokens
  import opened ForgeRules

  datatype Saved = Saved(spentTokens: set<Hash>, circulatingSupply: int)

  class FungibleForge {
    const key: string
    const totalSupply: int
    var spentTokens: set<Hash>
    var circulatingSupply: int
    var storage: Saved
    var outbox: seq<Payload>   // tokens sent out, in order; each goes out as Issue(key, payload)

    constructor (key: string, totalSupply: int, storage: Saved)
      ensures this.key == key && this.totalSupply == totalSupply && this.storage == storage
      ensures spentTokens == storage.spentTokens && circulatingSupply == storage.circulatingSupply && outbox == []
    {
      this.key, this.totalSupply, this.storage := key, totalSupply, storage;
      this.spentTokens, this.circulatingSupply, this.outbox := storage.spentTokens, storage.circulatingSupply, [];
    }

    method ValidateTXInputs(env: Env, tx: Tx) returns (v: Verdict)
      ensures v == Validate(env, tx, spentTokens)
    {
      if tx.ins.None? { return Reject(InsRequired); }
      var inputs := tx.ins.value;
      var seenInputHashes := {};
      var i := 0;
      while i < |inputs|
        invariant 0 <= i <= |inputs|
        invariant Validate(env, tx, spentTokens) == ValidateFrom(env, tx, spentTokens, i, seenInputHashes)
      {
        v := CheckInput(env, tx, spentTokens, seenInputHashes, inputs[i]);
        if v != Pass { return; }
        seenInputHashes := seenInputHashes + {HashOfWire(inputs[i])};
        i := i + 1;
      }
      return Pass;
    }

    method ValidateFungibleTransfer(inputs: seq<Token>, outs: seq<Out>) returns (error: Option<Error>)
      ensures error.None? <==> FungibleGood(inputs, outs)
      ensures error.None? ==>
        && inputs != [] && (forall i, j :: 0 <= i < j < |inputs| ==> inputs[i].claimedHash != inputs[j].claimedHash)
        && (forall i :: 0 <= i < |inputs| ==> inputs[i].payload.amount.Some? && inputs[i].payload.amount.value > 0)
        && (forall i :: 0 <= i < |outs| ==> outs[i].amount.Some? && outs[i].amount.value > 0 && outs[i].to != "")
      ensures error == Some(NoInputs) <==> inputs == []
      ensures error == Some(DuplicateInput) ==>
        exists i, j :: 0 <= i < j < |inputs| && inputs[i].claimedHash == inputs[j].claimedHash
      ensures error == Some(InputAmount) ==>
        exists i :: 0 <= i < |inputs| && (inputs[i].payload.amount.None? || inputs[i].payload.amount.value <= 0)
      ensures error == Some(OutputAmount) ==>
        exists i :: 0 <= i < |outs| && (outs[i].amount.None? || outs[i].amount.value <= 0)
      ensures error == Some(OutputTo) ==> exists i :: 0 <= i < |outs| && outs[i].to == ""
      ensures error == Some(Insufficient) ==> OutputTotal(outs) > InputTotal(inputs)
      ensures error.Some? ==> error.value in {NoInputs, DuplicateInput, InputAmount, OutputAmount, OutputTo, Insufficient}
    {
      if inputs == [] { return Some(NoInputs); }
      var seen := {};
      var i := 0;
      while i < |inputs|
        invariant 0 <= i <= |inputs|
        invariant seen == set k | 0 <= k < i :: inputs[k].claimedHash
        invariant ClaimsDistinct(inputs[..i])
      {
        if inputs[i].claimedHash in seen {
          assert exists k :: 0 <= k < i && inputs[k].claimedHash == inputs[i].claimedHash;
          return Some(DuplicateInput);
        }
        assert forall k :: 0 <= k < i ==> inputs[k].claimedHash in seen;
        seen := seen + {inputs[i].claimedHash};
        i := i + 1;
      }
      var inputTotal := 0;
      i := 0;
      while i < |inputs|
        invariant 0 <= i <= |inputs|
        invariant forall k :: 0 <= k < i ==> Positive(inputs[k].payload.amount)
        invariant inputTotal == InputTotal(inputs[..i])
      {
        if !Positive(inputs[i].payload.amount) { return Some(InputAmount); }
        inputTotal := inputTotal + inputs[i].payload.amount.value;
        assert inputs[..i + 1][..i] == inputs[..i];
        i := i + 1;
      }
      assert inputs[..i] == inputs;
      var outputTotal := 0;
      var j := 0;
      while j < |outs|
        invariant 0 <= j <= |outs|
        invariant OutputsGood(outs[..j])
        invariant outputTotal == OutputTotal(outs[..j])
      {
        if !Positive(outs[j].amount) { return Some(OutputAmount); }
        if outs[j].to == "" { return Some(OutputTo); }
        outputTotal := outputTotal + outs[j].amount.value;
        assert outs[..j + 1][..j] == outs[..j];
        j := j + 1;
      }
      assert outs[..j] == outs;
      if outputTotal > inputTotal { return Some(Insufficient); }
      return None;
    }

    /** The tokens to release: one per recipient, in order, and the change if the inputs exceed the outputs. */
    method PrepareFungibleTransfer(clock: Clock, inputs: seq<Token>, outs: seq<Out>, sender: string)
      returns (recipientTokens: seq<Payload>, changeToken: Option<Payload>)
      requires inputs != []
      ensures recipientTokens + Listed(changeToken) == Outputs(key, clock, inputs, outs, sender)
      ensures |recipientTokens| == |outs|
      ensures changeToken.Some? <==> InputTotal(inputs) > OutputTotal(outs)
      ensures PaysOut(recipientTokens + Listed(changeToken), key, inputs, outs, sender)
    {
      var baseToken := inputs[0].payload;
      recipientTokens := [];
      var i := 0;
      while i < |outs|
        invariant 0 <= i <= |outs|
        invariant recipientTokens == RecipientPayloads(key, clock, outs[..i], baseToken)
      {
        RecipientPayloadsSnoc(key, clock, outs, baseToken, i);
        recipientTokens := recipientTokens + [OutPayload(key, clock(i), outs[i], baseToken)];
        i := i + 1;
      }
      assert outs[..i] == outs;
      changeToken := PrepareChange(clock(|outs|), inputs, outs, sender);
      OutputsPay(key, clock, inputs, outs, sender);
    }

    method PrepareChange(iat: nat, inputs: seq<Token>, outs: seq<Out>, sender: string) returns (changeToken: Option<Payload>)
      requires inputs != []
      ensures changeToken == ChangeOf(key, iat, inputs, outs, sender)
    {
      var inputTotal, outputTotal := 0, 0;
      var i := 0;
      while i < |inputs|
        invariant 0 <= i <= |inputs| && inputTotal == InputTotal(inputs[..i])
      {
        if inputs[i].payload.amount.Some? { inputTotal := inputTotal + inputs[i].payload.amount.value; }
        assert inputs[..i + 1][..i] == inputs[..i];
        i := i + 1;
      }
      var j := 0;
      while j < |outs|
        invariant 0 <= j <= |outs| && outputTotal == OutputTotal(outs[..j])
      {
        if outs[j].amount.Some? { outputTotal := outputTotal + outs[j].amount.value; }
        assert outs[..j + 1][..j] == outs[..j];
        j := j + 1;
      }
      assert inputs[..i] == inputs && outs[..j] == outs;
      changeToken := None;
      if inputTotal > outputTotal {
        changeToken := Some(ChangePayload(key, iat, inputTotal - outputTotal, sender, inputs[0].payload));
      }
    }

    method PublishSpentToken(tokenHash: Hash)
      modifies this`spentTokens, this`storage
      ensures spentTokens == old(spentTokens) + {tokenHash}
      ensures storage == Saved(spentTokens, circulatingSupply)
    {
      spentTokens := spentTokens + {tokenHash};
      storage := Saved(spentTokens, circulatingSupply);
    }

    method PublishAll(hashes: seq<Hash>)
      modifies this`spentTokens, this`storage
      ensures spentTokens == old(spentTokens) + (set h | h in hashes)
      ensures hashes != [] ==> storage == Saved(spentTokens, circulatingSupply)
    {
      var i := 0;
      while i < |hashes|
        invariant 0 <= i <= |hashes|
        invariant spentTokens == old(spentTokens) + (set k | 0 <= k < i :: hashes[k])
        invariant i > 0 ==> storage == Saved(spentTokens, circulatingSupply)
      {
        PublishSpentToken(hashes[i]);
        i := i + 1;
      }
    }

    method SendAll(recipientTokens: seq<Payload>, changeToken: Option<Payload>)
      modifies this`outbox
      ensures outbox == old(outbox) + (recipientTokens + Listed(changeToken))
    {
      var i := 0;
      while i < |recipientTokens|
        invariant 0 <= i <= |recipientTokens|
        invariant outbox == old(outbox) + recipientTokens[..i]
      {
        outbox := outbox + [recipientTokens[i]];
        i := i + 1;
      }
      if changeToken.Some? {
        outbox := outbox + [changeToken.value];
      }
    }

    /** The part of a transfer after its checks: the tokens are built, the inputs marked, the tokens sent. */
    method Release(clock: Clock, inputs: seq<Token>, outs: seq<Out>, sender: string)
      requires inputs != []
      modifies this`spentTokens, this`storage, this`outbox
      ensures spentTokens == old(spentTokens) + (set h | h in HashesOf(inputs))
      ensures storage == Saved(spentTokens, circulatingSupply)
      ensures outbox == old(outbox) + Outputs(key, clock, inputs, outs, sender)
    {
      var recipientTokens, changeToken := PrepareFungibleTransfer(clock, inputs, outs, sender);
      PublishAll(HashesOf(inputs));
      SendAll(recipientTokens, changeToken);
    }

    /**
     * A transfer, run to completion under the lock: refused without any change, or its inputs are durably
     * spent and exactly its outputs sent: token i is locked to recipient i and carries the amount asked for,
     * and what is over goes back to the sender.
     */
    method TransferToken(env: Env, clock: Clock, tx: Tx, sender: string) returns (v: Verdict)
      requires env.key == key
      modifies this
      ensures circulatingSupply == old(circulatingSupply)
      ensures v == Pass <==> PlanOf(env, clock, old(spentTokens), Transfer(tx, sender)).Some?
      ensures v != Pass ==> spentTokens == old(spentTokens) && storage == old(storage) && outbox == old(outbox)
      ensures v == Pass ==>
        var plan := PlanOf(env, clock, old(spentTokens), Transfer(tx, sender)).value;
        && spentTokens == old(spentTokens) + (set h | h in plan.hashes)
        && storage == Saved(spentTokens, circulatingSupply)
        && outbox == old(outbox) + plan.outputs
      ensures v == Pass ==>
        && AllRestored(tx) && tx.ins.value != []
        && old(outbox) <= outbox
        && PaysOut(outbox[|old(outbox)|..], key, TokensOf(tx.ins.value), tx.outs, sender)
        && spentTokens == old(spentTokens)
             + (set i | 0 <= i < |tx.ins.value| :: Digest(tx.ins.value[i].token.payload))
        && forall i :: 0 <= i < |tx.outs| ==>
             && tx.outs[i].to != "" && tx.outs[i].amount.Some? && tx.outs[i].amount.value > 0
             && outbox[|old(outbox)| + i].lock == Some(tx.outs[i].to)
             && outbox[|old(outbox)| + i].amount == tx.outs[i].amount
    {
      v := ValidateTXInputs(env, tx);
      if v != Pass { return; }
      PassedInputsRestore(env, tx, spentTokens);
      var inputs := TokensOf(tx.ins.value);
      var error := ValidateFungibleTransfer(inputs, tx.outs);
      if error.Some? { return Reject(error.value); }
      AcceptedMeans(env, clock, spentTokens, tx, sender, outbox);
      Release(clock, inputs, tx.outs, sender);
      return Pass;
    }

    method HandleBurn(env: Env, clock: Clock, token: Option<Wire>) returns (v: Verdict)
      modifies this`spentTokens, this`storage
      ensures v == Pass <==> PlanOf(env, clock, old(spentTokens), Burn(token)).Some?
      ensures v != Pass ==> spentTokens == old(spentTokens) && storage == old(storage)
      ensures v == Pass ==>
        && token.Some? && token.value.Jwt?
        && spentTokens == old(spentTokens) + {Digest(token.value.token.payload)}
        && storage == Saved(spentTokens, circulatingSupply)
        && token.value.token.payload.iss != "" && Digest(token.value.token.payload) !in old(spentTokens)
        && token.value.token.signature
             == Signed(token.value.token.payload.iss, OverHash(Digest(token.value.token.payload)))
    {
      v := CheckBurn(spentTokens, token);
      BurnMeans(spentTokens, token);
      if v != Pass { return; }
      PublishSpentToken(token.value.token.claimedHash);
    }

    /** Minting: a positive amount within the supply cap, counted in memory only, then released. */
    method ForgeToken(clock: Clock, to: string, amount: Option<int>) returns (v: Verdict)
      modifies this`circulatingSupply, this`outbox
      ensures v == Pass <==>
        to != "" && Positive(amount) && (totalSupply > 0 ==> old(circulatingSupply) + amount.value <= totalSupply)
      ensures v != Pass ==> circulatingSupply == old(circulatingSupply) && outbox == old(outbox)
      ensures v == Pass ==>
        && circulatingSupply == old(circulatingSupply) + amount.value
        && |outbox| == |old(outbox)| + 1 && outbox[..|old(outbox)|] == old(outbox)
        && CoinFor(outbox[|old(outbox)|], key, to, amount.value, None, EmptyPayload)
        && outbox[|old(outbox)|].lock == Some(to) && outbox[|old(outbox)|].iat == clock(0)
      ensures v == Reject(SupplyLimit) ==>
        amount.Some? && totalSupply > 0 && old(circulatingSupply) + amount.value > totalSupply
      ensures v == Reject(MissingParameters) <==> amount.None? || amount.value == 0 || to == ""
    {
      if amount.None? || amount.value == 0 || to == "" { return Reject(MissingParameters); }
      if amount.value <= 0 { return Reject(InputAmount); }
      if totalSupply > 0 && circulatingSupply + amount.value > totalSupply { return Reject(SupplyLimit); }
      circulatingSupply := circulatingSupply + amount.value;
      outbox := outbox + [OutPayload(key, clock(0), Out(to, amount, None, None), EmptyPayload)];
      return Pass;
    }
  }

  /** What an accepted transfer sends on top of before, and what it marks, token by token. */
  lemma AcceptedMeans(env: Env, clock: Clock, spent: set<Hash>, tx: Tx, sender: string, before: seq<Payload>)
    requires PlanOf(env, clock, spent, Transfer(tx, sender)).Some?
    ensures AllRestored(tx) && tx.ins.value != []
    ensures var plan := PlanOf(env, clock, spent, Transfer(tx, sender)).value;
            && before <= before + plan.outputs
            && PaysOut((before + plan.outputs)[|before|..], env.key, TokensOf(tx.ins.value), tx.outs, sender)
            && (set h | h in plan.hashes) == (set i | 0 <= i < |tx.ins.value| :: Digest(tx.ins.value[i].token.payload))
            && forall i :: 0 <= i < |tx.outs| ==>
                 && tx.outs[i].to != "" && tx.outs[i].amount.Some? && tx.outs[i].amount.value > 0
                 && (before + plan.outputs)[|before| + i].lock == Some(tx.outs[i].to)
                 && (before + plan.outputs)[|before| + i].amount == tx.outs[i].amount
  {
    TransferPlanMeans(env, clock, spent, tx, sender);
    var ps := PlanOf(env, clock, spent, Transfer(tx, sender)).value.outputs;
    assert (before + ps)[|before|..] == ps;
    assert forall i :: 0 <= i < |ps| ==> (before + ps)[|before| + i] == ps[i];
  }

  const EmptyPayload := Payload("", 0, None, None, None, None, None, None, None, "")
}
