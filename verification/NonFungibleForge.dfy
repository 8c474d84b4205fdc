/** The non-fungible forge: minting with sequential ids, and transfers that commit recipient by recipient. */
module NonFungibleForge {
  import opened Prelude
  import opened Tokens
  import opened ForgeRules
  import Decimal

  // ----- one recipient -----

  /** The id or the recipient is missing or falsy. */
  predicate RecipientMissing(out: Out) {
    out.tokenID.None? || out.tokenID == Some(IdNum(0)) || out.tokenID == Some(IdText("")) || out.to == ""
  }

  predicate Matches(t: Token, id: TokenId) {
    t.payload.tokenID.Some? && t.payload.tokenID.value.Text() == id.Text()
  }

  /** The first input not consumed yet with the asked id, or |inputs| when there is none. */
  function FindInput(inputs: seq<Token>, consumed: set<nat>, id: TokenId, from: nat): (i: nat)
    requires from <= |inputs|
    ensures from <= i <= |inputs|
    ensures i < |inputs| ==> i !in consumed && Matches(inputs[i], id)
    ensures forall k :: from <= k < i ==> k in consumed || !Matches(inputs[k], id)
    decreases |inputs| - from
  {
    if from == |inputs| then from
    else if from !in consumed && Matches(inputs[from], id) then from
    else FindInput(inputs, consumed, id, from + 1)
  }

  datatype Choice = Refuse(e: Error) | Use(i: nat)

  function Choose(inputs: seq<Token>, consumed: set<nat>, out: Out): (c: Choice)
    ensures c.Use? ==> c.i < |inputs| && c.i !in consumed && out.tokenID.Some? && Matches(inputs[c.i], out.tokenID.value)
  {
    if RecipientMissing(out) then Refuse(MissingParameters)
    else
      var i := FindInput(inputs, consumed, out.tokenID.value, 0);
      if i == |inputs| then Refuse(TokenNotFound) else Use(i)
  }

  /** A recipient is served exactly when it is complete and some unconsumed input has its id. */
  lemma ChooseMeans(inputs: seq<Token>, consumed: set<nat>, out: Out)
    ensures Choose(inputs, consumed, out).Use?
            <==> !RecipientMissing(out)
                 && exists i :: 0 <= i < |inputs| && i !in consumed && Matches(inputs[i], out.tokenID.value)
  {
  }

  /** A refusal says which: something asked for is missing or falsy, or no input not consumed yet has that id. */
  lemma RefusalMeans(inputs: seq<Token>, consumed: set<nat>, out: Out)
    ensures var missing := out.to == "" || out.tokenID.None? || out.tokenID == Some(IdText("")) || out.tokenID == Some(IdNum(0));
            && (missing <==> Choose(inputs, consumed, out) == Refuse(MissingParameters))
            && (!missing ==>
                  (Choose(inputs, consumed, out) == Refuse(TokenNotFound) <==>
                     forall i :: 0 <= i < |inputs| && i !in consumed && inputs[i].payload.tokenID.Some? ==>
                       inputs[i].payload.tokenID.value.Text() != out.tokenID.value.Text()))
    ensures Choose(inputs, consumed, out).Use? ==>
              var i := Choose(inputs, consumed, out).i;
              && i < |inputs| && i !in consumed && inputs[i].payload.tokenID.Some? && out.tokenID.Some?
              && inputs[i].payload.tokenID.value.Text() == out.tokenID.value.Text()
              && forall k :: 0 <= k < i && k !in consumed && inputs[k].payload.tokenID.Some? ==>
                   inputs[k].payload.tokenID.value.Text() != out.tokenID.value.Text()
  {
    ChooseMeans(inputs, consumed, out);
    if !RecipientMissing(out) {
      var i := FindInput(inputs, consumed, out.tokenID.value, 0);
      if i < |inputs| { assert Matches(inputs[i], out.tokenID.value); }
    }
  }

  /** A text id is read as a number; text that is no number leaves no id. */
  function Renumber(id: Option<TokenId>): Option<TokenId> {
    match id
    case Some(IdText(s)) => if s != "" && Decimal.DigitRun(s) == |s| then Some(IdNum(Decimal.Value(s))) else None
    case _ => id
  }

  function Reissue(key: string, iat: nat, t: Token, to: string): Payload {
    Payload(key, iat, None, None, None, TruthyNum(t.payload.timeLock), TruthyText(Some(to)),
            Renumber(t.payload.tokenID), TruthyText(t.payload.dataUri), "")
  }

  function MintPayload(key: string, iat: nat, id: nat, to: string): Payload {
    Payload(key, iat, None, None, None, None, TruthyText(Some(to)), Some(IdNum(id)), None, "")
  }

  /** An access token of the forge for `to`, with no amount, expiry or HTLC. */
  ghost predicate TatFor(p: Payload, key: string, to: string, timeLock: Option<nat>) {
    && p.iss == key && p.lock == (if to == "" then None else Some(to))
    && p.timeLock == (if timeLock == Some(0) then None else timeLock)
    && p.amount.None? && p.exp.None? && p.htlc.None? && p.setID == ""
  }

  /** That fixes everything but when it was issued, its id and its data. */
  lemma TatIsFixed(p: Payload, key: string, to: string, timeLock: Option<nat>)
    requires TatFor(p, key, to, timeLock) && to != "" && timeLock != Some(0)
    ensures p == Payload(key, p.iat, None, None, None, timeLock, Some(to), p.tokenID, p.dataUri, "")
  {
  }

  /** The reissued token is the recipient's; it keeps time lock, data and a numeric id, and the id of text that is digits. */
  lemma ReissueMeans(key: string, iat: nat, t: Token, to: string)
    ensures var p := Reissue(key, iat, t, to);
            && TatFor(p, key, to, t.payload.timeLock) && p.iat == iat
            && p.dataUri == (if t.payload.dataUri == Some("") then None else t.payload.dataUri)
            && (t.payload.tokenID.None? ==> p.tokenID.None?)
            && (t.payload.tokenID.Some? && t.payload.tokenID.value.IdNum? ==> p.tokenID == t.payload.tokenID)
    ensures forall n: nat :: t.payload.tokenID == Some(IdText(Decimal.Text(n))) ==> Reissue(key, iat, t, to).tokenID == Some(IdNum(n))
  {
    forall n: nat | t.payload.tokenID == Some(IdText(Decimal.Text(n)))
      ensures Reissue(key, iat, t, to).tokenID == Some(IdNum(n))
    {
      Decimal.ValueOfText(n);
      Decimal.DigitRunOf(Decimal.Text(n), "");
      assert Decimal.Text(n) + "" == Decimal.Text(n);
    }
  }

  /** A new token is the recipient's, with the id it was minted under. */
  lemma MintMeans(key: string, iat: nat, id: nat, to: string)
    ensures var p := MintPayload(key, iat, id, to);
            TatFor(p, key, to, None) && p.tokenID == Some(IdNum(id)) && p.iat == iat && p.dataUri.None?
  {
  }

  // ----- the whole loop: which inputs are consumed, in order, and the error that stops it -----

  function SetOf(used: seq<nat>): set<nat> { set k | k in used }

  datatype Served = Served(used: seq<nat>, error: Option<Error>)

  function ServeRecipients(inputs: seq<Token>, outs: seq<Out>, used: seq<nat>): (r: Served)
    requires |used| <= |outs|
    ensures used <= r.used && |r.used| <= |outs|
    ensures r.error.None? <==> |r.used| == |outs|
    decreases |outs| - |used|
  {
    if |used| == |outs| then Served(used, None)
    else
      match Choose(inputs, SetOf(used), outs[|used|])
      case Refuse(e) => Served(used, Some(e))
      case Use(i) => ServeRecipients(inputs, outs, used + [i])
  }

  ghost predicate GoodUse(inputs: seq<Token>, outs: seq<Out>, used: seq<nat>) {
    && |used| <= |outs| && Distinct(used)
    && forall k :: 0 <= k < |used| ==>
         used[k] < |inputs| && outs[k].tokenID.Some? && Matches(inputs[used[k]], outs[k].tokenID.value)
  }

  /** Each recipient served takes one input of its own with the asked id: none is used twice in a request. */
  lemma {:induction false} ServedUseIsGood(inputs: seq<Token>, outs: seq<Out>, used: seq<nat>)
    requires GoodUse(inputs, outs, used)
    ensures GoodUse(inputs, outs, ServeRecipients(inputs, outs, used).used)
    decreases |outs| - |used|
  {
    if |used| < |outs| {
      var c := Choose(inputs, SetOf(used), outs[|used|]);
      if c.Use? {
        ServedUseIsGood(inputs, outs, used + [c.i]);
      }
    }
  }

  /** The loop stops at the first recipient that is refused, for the reason reported. */
  lemma {:induction false} ServingStops(inputs: seq<Token>, outs: seq<Out>, used: seq<nat>)
    requires |used| <= |outs|
    ensures var r := ServeRecipients(inputs, outs, used);
            r.error.Some? ==> |r.used| < |outs| && Choose(inputs, SetOf(r.used), outs[|r.used|]) == Refuse(r.error.value)
    decreases |outs| - |used|
  {
    if |used| < |outs| {
      var c := Choose(inputs, SetOf(used), outs[|used|]);
      if c.Use? { ServingStops(inputs, outs, used + [c.i]); }
    }
  }

  /** Inputs with pairwise different ids. */
  ghost predicate IdsDistinct(inputs: seq<Token>) {
    forall i, j :: 0 <= i < j < |inputs| && inputs[i].payload.tokenID.Some? && inputs[j].payload.tokenID.Some? ==>
      inputs[i].payload.tokenID.value.Text() != inputs[j].payload.tokenID.value.Text()
  }

  ghost predicate Findable(inputs: seq<Token>, out: Out) {
    !RecipientMissing(out) && exists i :: 0 <= i < |inputs| && Matches(inputs[i], out.tokenID.value)
  }

  ghost predicate TextsDistinct(outs: seq<Out>, n: nat)
    requires n <= |outs| && forall k :: 0 <= k < n ==> outs[k].tokenID.Some?
  {
    forall k, m :: 0 <= k < m < n ==> outs[k].tokenID.value.Text() != outs[m].tokenID.value.Text()
  }

  ghost predicate Servable(inputs: seq<Token>, outs: seq<Out>) {
    (forall k :: 0 <= k < |outs| ==> Findable(inputs, outs[k])) && TextsDistinct(outs, |outs|)
  }

  lemma {:induction false} ServableServed(inputs: seq<Token>, outs: seq<Out>, used: seq<nat>)
    requires IdsDistinct(inputs) && GoodUse(inputs, outs, used)
    requires forall k :: 0 <= k < |used| ==> Findable(inputs, outs[k])
    requires TextsDistinct(outs, |used|)
    ensures ServeRecipients(inputs, outs, used).error.None? <==> Servable(inputs, outs)
    decreases |outs| - |used|
  {
    var n := |used|;
    if n < |outs| {
      var taken := SetOf(used);
      var c := Choose(inputs, taken, outs[n]);
      ChooseMeans(inputs, taken, outs[n]);
      if c.Use? {
        forall k | 0 <= k < n ensures outs[k].tokenID.value.Text() != outs[n].tokenID.value.Text() {
          assert used[k] in taken;
        }
        ServableServed(inputs, outs, used + [c.i]);
      } else {
        RefusedNotServable(inputs, outs, used);
      }
    }
  }

  lemma RefusedNotServable(inputs: seq<Token>, outs: seq<Out>, used: seq<nat>)
    requires IdsDistinct(inputs) && GoodUse(inputs, outs, used) && |used| < |outs|
    requires Choose(inputs, SetOf(used), outs[|used|]).Refuse?
    ensures !Servable(inputs, outs)
  {
    var n := |used|;
    ChooseMeans(inputs, SetOf(used), outs[n]);
    if !RecipientMissing(outs[n]) {
      forall i | 0 <= i < |inputs| && Matches(inputs[i], outs[n].tokenID.value)
        ensures exists k :: 0 <= k < n && used[k] == i && outs[k].tokenID.value.Text() == outs[n].tokenID.value.Text()
      {
        assert i in SetOf(used);
        var k :| 0 <= k < n && used[k] == i;
        assert Matches(inputs[used[k]], outs[k].tokenID.value);
      }
    }
  }

  /** With distinct input ids, a request is served in full exactly when its ids are given, present and not repeated. */
  lemma ServedInFull(inputs: seq<Token>, outs: seq<Out>)
    requires IdsDistinct(inputs)
    ensures ServeRecipients(inputs, outs, []).error.None? <==> Servable(inputs, outs)
  {
    ServableServed(inputs, outs, []);
  }

  /** The id 0, the first one minted, can only be asked for as text: as a number it is falsy. */
  lemma NumericZeroRefused(inputs: seq<Token>, consumed: set<nat>, to: string)
    ensures Choose(inputs, consumed, Out(to, None, Some(IdNum(0)), None)) == Refuse(MissingParameters)
    ensures IdNum(0).Text() == IdText("0").Text()
    ensures to != "" && (exists i :: 0 <= i < |inputs| && i !in consumed && Matches(inputs[i], IdNum(0))) ==>
              Choose(inputs, consumed, Out(to, None, Some(IdText("0")), None)).Use?
  {
    assert Decimal.Text(0) == "0";
    ChooseMeans(inputs, consumed, Out(to, None, Some(IdText("0")), None));
    assert forall i :: 0 <= i < |inputs| && Matches(inputs[i], IdNum(0)) ==> Matches(inputs[i], IdText("0"));
  }

  /** The tokens sent for the recipients served so far, and the hashes marked for them. */
  ghost function Reissued(key: string, clock: Clock, inputs: seq<Token>, outs: seq<Out>, used: seq<nat>): seq<Payload>
    requires GoodUse(inputs, outs, used)
    decreases |used|
  {
    if used == [] then []
    else
      var n := |used| - 1;
      Reissued(key, clock, inputs, outs, used[..n]) + [Reissue(key, clock(n), inputs[used[n]], outs[n].to)]
  }

  ghost function UsedHashes(inputs: seq<Token>, outs: seq<Out>, used: seq<nat>): set<Hash>
    requires GoodUse(inputs, outs, used)
  {
    set k | 0 <= k < |used| :: Digest(inputs[used[k]].payload)
  }

  /** p passes the access token t on to its new holder. */
  ghost predicate Passes(p: Payload, key: string, to: string, t: Token) {
    TatFor(p, key, to, t.payload.timeLock)
    && (t.payload.tokenID.Some? && t.payload.tokenID.value.IdNum? ==> p.tokenID == t.payload.tokenID)
  }

  lemma PassedOn(p: Payload, key: string, to: string, t: Token, n: nat)
    requires Passes(p, key, to, t) && t.payload.tokenID == Some(IdNum(n)) && to != ""
    ensures p.iss == key && p.lock == Some(to) && p.tokenID == Some(IdNum(n))
  {
  }

  /** Token k sent is recipient k's, reissued from the input chosen for it. */
  lemma {:induction false} ReissuedMeans(key: string, clock: Clock, inputs: seq<Token>, outs: seq<Out>, used: seq<nat>)
    requires GoodUse(inputs, outs, used)
    ensures |Reissued(key, clock, inputs, outs, used)| == |used|
    ensures forall k :: 0 <= k < |used| ==> Passes(Reissued(key, clock, inputs, outs, used)[k], key, outs[k].to, inputs[used[k]])
    decreases |used|
  {
    if used != [] {
      var n := |used| - 1;
      GoodInit(inputs, outs, used, n);
      ReissuedMeans(key, clock, inputs, outs, used[..n]);
      ReissueMeans(key, clock(n), inputs[used[n]], outs[n].to);
      assert forall k :: 0 <= k < n ==> used[..n][k] == used[k];
    }
  }

  lemma UseOneMore(key: string, clock: Clock, inputs: seq<Token>, outs: seq<Out>, used: seq<nat>, i: nat)
    requires GoodUse(inputs, outs, used) && |used| < |outs| && i !in SetOf(used)
    requires i < |inputs| && outs[|used|].tokenID.Some? && Matches(inputs[i], outs[|used|].tokenID.value)
    ensures GoodUse(inputs, outs, used + [i])
    ensures Reissued(key, clock, inputs, outs, used + [i])
            == Reissued(key, clock, inputs, outs, used) + [Reissue(key, clock(|used|), inputs[i], outs[|used|].to)]
    ensures UsedHashes(inputs, outs, used + [i]) == UsedHashes(inputs, outs, used) + {Digest(inputs[i].payload)}
  {
    GoodOneMore(inputs, outs, used, i);
    assert (used + [i])[..|used|] == used;
    HashesOneMore(inputs, used, i);
  }

  lemma GoodOneMore(inputs: seq<Token>, outs: seq<Out>, used: seq<nat>, i: nat)
    requires GoodUse(inputs, outs, used) && |used| < |outs| && i !in SetOf(used)
    requires i < |inputs| && outs[|used|].tokenID.Some? && Matches(inputs[i], outs[|used|].tokenID.value)
    ensures GoodUse(inputs, outs, used + [i])
  {
    assert forall k :: 0 <= k < |used| ==> used[k] in SetOf(used);
  }

  lemma GoodInit(inputs: seq<Token>, outs: seq<Out>, used: seq<nat>, n: nat)
    requires GoodUse(inputs, outs, used) && n <= |used|
    ensures GoodUse(inputs, outs, used[..n])
  {
  }

  lemma HashesOneMore(inputs: seq<Token>, used: seq<nat>, i: nat)
    requires i < |inputs| && forall k :: 0 <= k < |used| ==> used[k] < |inputs|
    ensures var more := used + [i];
            (set k | 0 <= k < |more| :: Digest(inputs[more[k]].payload))
            == (set k | 0 <= k < |used| :: Digest(inputs[used[k]].payload)) + {Digest(inputs[i].payload)}
  {
    var more := used + [i];
    assert more[|used|] == i;
    forall k | 0 <= k < |used| ensures Digest(inputs[used[k]].payload) in set k | 0 <= k < |more| :: Digest(inputs[more[k]].payload) {
      assert more[k] == used[k];
    }
  }

  // ----- the handlers, one at a time -----

  datatype Saved = Saved(spentTokens: set<Hash>, lastAssetId: nat, circulatingSupply: int)

  class NonFungibleForge {
    const key: string
    const totalSupply: int
    var spentTokens: set<Hash>
    var lastAssetId: nat
    var circulatingSupply: int
    var storage: Saved
    var outbox: seq<Payload>

    constructor (key: string, totalSupply: int, storage: Saved)
      ensures this.key == key && this.totalSupply == totalSupply && this.storage == storage && outbox == []
      ensures Saved(spentTokens, lastAssetId, circulatingSupply) == storage
    {
      this.key, this.totalSupply, this.storage, this.outbox := key, totalSupply, storage, [];
      this.spentTokens, this.lastAssetId := storage.spentTokens, storage.lastAssetId;
      this.circulatingSupply := storage.circulatingSupply;
    }

    /** The id is taken and the counter advanced at once; both are saved before the token goes out. */
    method ForgeToken(iat: nat, to: string) returns (v: Verdict)
      modifies this
      ensures spentTokens == old(spentTokens)
      ensures v == Pass <==> to != "" && (totalSupply > 0 ==> old(circulatingSupply) + 1 <= totalSupply)
      ensures v != Pass ==>
        lastAssetId == old(lastAssetId) && storage == old(storage) && outbox == old(outbox) && circulatingSupply == old(circulatingSupply)
      ensures v == Pass ==>
        && lastAssetId == old(lastAssetId) + 1 && circulatingSupply == old(circulatingSupply) + 1
        && storage == Saved(spentTokens, lastAssetId, circulatingSupply)
        && |outbox| == |old(outbox)| + 1 && outbox[..|old(outbox)|] == old(outbox)
        && TatFor(outbox[|old(outbox)|], key, to, None)
        && outbox[|old(outbox)|].lock == Some(to) && outbox[|old(outbox)|].tokenID == Some(IdNum(old(lastAssetId)))
        && outbox[|old(outbox)|].iat == iat
      ensures v == Reject(MissingParameters) <==> to == ""
      ensures v != Pass && to != "" ==> v == Reject(SupplyLimit)
    {
      MintMeans(key, iat, lastAssetId, to);
      if to == "" { return Reject(MissingParameters); }
      if totalSupply > 0 && circulatingSupply + 1 > totalSupply { return Reject(SupplyLimit); }
      var tokenID := lastAssetId;
      lastAssetId := lastAssetId + 1;
      circulatingSupply := circulatingSupply + 1;
      SaveState();
      outbox := outbox + [MintPayload(key, iat, tokenID, to)];
      return Pass;
    }

    method SaveState()
      modifies this`storage
      ensures storage == Saved(spentTokens, lastAssetId, circulatingSupply)
    {
      storage := Saved(spentTokens, lastAssetId, circulatingSupply);
    }

    /** One recipient: the input is marked and the state saved (twice) before the new token goes out. */
    method ServeOne(iat: nat, token: Token, to: string)
      modifies this`spentTokens, this`storage, this`outbox
      ensures spentTokens == old(spentTokens) + {Digest(token.payload)}
      ensures storage == Saved(spentTokens, lastAssetId, circulatingSupply)
      ensures outbox == old(outbox) + [Reissue(key, iat, token, to)]
    {
      var newToken := Reissue(key, iat, token, to);
      spentTokens := spentTokens + {Digest(token.payload)};
      SaveState();
      SaveState();
      outbox := outbox + [newToken];
    }

    /** The state after the recipients in used have been served from spent-set s and outbox o. */
    ghost predicate ServedSoFar(s: set<Hash>, o: seq<Payload>, clock: Clock, inputs: seq<Token>, outs: seq<Out>, used: seq<nat>)
      reads this
      requires GoodUse(inputs, outs, used)
    {
      && spentTokens == s + UsedHashes(inputs, outs, used)
      && outbox == o + Reissued(key, clock, inputs, outs, used)
      && (used != [] ==> storage == Saved(spentTokens, lastAssetId, circulatingSupply))
    }

    /** The recipient after those already served. */
    method ServeNext(clock: Clock, inputs: seq<Token>, outs: seq<Out>, used: seq<nat>, ghost s: set<Hash>, ghost o: seq<Payload>)
      returns (c: Choice)
      requires GoodUse(inputs, outs, used) && |used| < |outs|
      requires ServedSoFar(s, o, clock, inputs, outs, used)
      modifies this`spentTokens, this`storage, this`outbox
      ensures c == Choose(inputs, SetOf(used), outs[|used|])
      ensures c.Refuse? ==> ServedSoFar(s, o, clock, inputs, outs, used)
      ensures c.Use? ==> GoodUse(inputs, outs, used + [c.i]) && ServedSoFar(s, o, clock, inputs, outs, used + [c.i])
    {
      c := Choose(inputs, SetOf(used), outs[|used|]);
      if c.Use? {
        UseOneMore(key, clock, inputs, outs, used, c.i);
        ServeOne(clock(|used|), inputs[c.i], outs[|used|].to);
      }
    }

    /**
     * The recipient loop: inputs already consumed stay consumed when a later recipient fails, and every
     * output sent has its input durably spent.
     */
    method HandleNonFungibleTransfer(clock: Clock, inputs: seq<Token>, outs: seq<Out>) returns (v: Verdict)
      modifies this`spentTokens, this`storage, this`outbox
      ensures inputs == [] || outs == [] ==>
        v == Reject(MissingParameters) && spentTokens == old(spentTokens) && storage == old(storage) && outbox == old(outbox)
      ensures inputs != [] && outs != [] ==>
        var r := ServeRecipients(inputs, outs, []);
        && GoodUse(inputs, outs, r.used)
        && v == (if r.error.None? then Pass else Reject(r.error.value))
        && ServedSoFar(old(spentTokens), old(outbox), clock, inputs, outs, r.used)
      ensures inputs != [] && outs != [] ==>
        var used := ServeRecipients(inputs, outs, []).used;
        && |outbox| == |old(outbox)| + |used| && outbox[..|old(outbox)|] == old(outbox)
        && (forall k :: 0 <= k < |used| ==>
              used[k] < |inputs| && Passes(outbox[|old(outbox)| + k], key, outs[k].to, inputs[used[k]]))
        && spentTokens == old(spentTokens) + (set k | 0 <= k < |used| && used[k] < |inputs| :: Digest(inputs[used[k]].payload))
    {
      if inputs == [] || outs == [] { return Reject(MissingParameters); }
      var used, error := RecipientLoop(clock, inputs, outs);
      ReissuedMeans(key, clock, inputs, outs, used);
      v := if error.None? then Pass else Reject(error.value);
    }

    method RecipientLoop(clock: Clock, inputs: seq<Token>, outs: seq<Out>) returns (used: seq<nat>, error: Option<Error>)
      modifies this`spentTokens, this`storage, this`outbox
      ensures Served(used, error) == ServeRecipients(inputs, outs, [])
      ensures GoodUse(inputs, outs, used)
      ensures ServedSoFar(old(spentTokens), old(outbox), clock, inputs, outs, used)
    {
      used := [];
      error := None;
      ghost var s, o := spentTokens, outbox;
      while |used| < |outs| && error.None?
        invariant |used| <= |outs| && GoodUse(inputs, outs, used)
        invariant ServeRecipients(inputs, outs, []) ==
                  if error.Some? then Served(used, error) else ServeRecipients(inputs, outs, used)
        invariant ServedSoFar(s, o, clock, inputs, outs, used)
        decreases |outs| - |used|, error.None?
      {
        var c := ServeNext(clock, inputs, outs, used, s, o);
        if c.Refuse? {
          error := Some(c.e);
        } else {
          used := used + [c.i];
        }
      }
    }
  }
}
