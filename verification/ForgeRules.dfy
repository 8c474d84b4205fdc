/**
 * What a forge checks and produces for one request, as functions of the request, the clock and the
 * in-memory spent-set: input validation, fungible transfer validation, and preparation of outputs.
 */
module ForgeRules {
  import opened Prelude
  import opened Tokens

  datatype Out = Out(to: string, amount: Option<int>, tokenID: Option<TokenId>, timeLock: Option<nat>)

  /** An entry of witnessData: missing or empty, text that is not hex, or the bytes of a signature. */
  datatype Witness = Absent | NotHex | Bytes(s: Signature)

  datatype Tx = Tx(ins: Option<seq<Wire>>, outs: seq<Out>, witnessData: seq<Witness>)

  /** One clock reading per request, the forge's key, its configuration, and the HTLCs it would refund now. */
  datatype Env = Env(now: nat, key: string, allowLegacyWitness: bool, refundable: set<string>)

  datatype Error =
    | InsRequired | DuplicateInput | HashMismatch | BadSignature | IssuerMismatch | AlreadySpent | Expired
    | WitnessNotFound | WitnessInvalid | TimeLocked | HtlcRefused
    | NoInputs | InputAmount | OutputAmount | OutputTo | Insufficient
    | ParseError | TokenRequired | RestoreFailed | MissingParameters | SupplyLimit | TokenNotFound

  /** Pass, an error response, or an exception out of the handler. */
  datatype Verdict = Pass | Reject(e: Error) | Throw

  function RoutesOf(outs: seq<Out>): seq<Route> {
    seq(|outs|, i requires 0 <= i < |outs| => Route(outs[i].to, outs[i].amount, outs[i].tokenID))
  }

  // ----- validateTXInputs -----

  /** The first position at which an input stands. */
  function IndexOfWire(ins: seq<Wire>, w: Wire): (i: nat)
    requires w in ins
    ensures i < |ins| && ins[i] == w && w !in ins[..i]
  {
    if ins[0] == w then 0 else 1 + IndexOfWire(ins[1..], w)
  }

  function WitnessAt(tx: Tx, w: Wire): Witness
    requires tx.ins.Some? && w in tx.ins.value
  {
    var i := IndexOfWire(tx.ins.value, w);
    if i < |tx.witnessData| then tx.witnessData[i] else Absent
  }

  predicate WitnessValid(env: Env, tx: Tx, h: Hash, lock: string, s: Signature) {
    || s == Signed(lock, OverSpend(h, RoutesOf(tx.outs)))
    || (env.allowLegacyWitness && s == Signed(lock, OverHashBytes(h)))
  }

  function CheckLock(env: Env, tx: Tx, w: Wire, p: Payload): Verdict
    requires tx.ins.Some? && w in tx.ins.value
  {
    match TruthyText(p.lock)
    case None => Pass
    case Some(lock) =>
      match WitnessAt(tx, w)
      case Absent => Reject(WitnessNotFound)
      case NotHex => Throw
      case Bytes(s) => if WitnessValid(env, tx, Digest(p), lock, s) then Pass else Reject(WitnessInvalid)
  }

  function CheckHtlc(env: Env, p: Payload): Verdict {
    match TruthyText(p.htlc)
    case None => Pass
    case Some(h) => if h in env.refundable then Pass else Reject(HtlcRefused)
  }

  /** The checks on one input, in the order the loop body makes them. */
  function CheckInput(env: Env, tx: Tx, spent: set<Hash>, seen: set<Hash>, w: Wire): Verdict
    requires tx.ins.Some? && w in tx.ins.value
  {
    match w
    case Malformed(_) => Throw
    case Jwt(restored) =>
      var t := Rehash(restored);
      if t.claimedHash in seen then Reject(DuplicateInput)
      else if !VerifyTokenHash(t) then Reject(HashMismatch)
      else if !VerifyTokenSignature(t) then Reject(BadSignature)
      else if t.payload.iss != env.key then Reject(IssuerMismatch)
      else if t.claimedHash in spent then Reject(AlreadySpent)
      else if IsExpired(t.payload, env.now) then Reject(Expired)
      else if CheckLock(env, tx, w, t.payload) != Pass then CheckLock(env, tx, w, t.payload)
      else if IsTimeLocked(t.payload, env.now) then Reject(TimeLocked)
      else CheckHtlc(env, t.payload)
  }

  function HashOfWire(w: Wire): Hash
    requires w.Jwt?
  {
    Digest(w.token.payload)
  }

  /** The rest of the loop from input i on, with the hashes seen so far. */
  function ValidateFrom(env: Env, tx: Tx, spent: set<Hash>, i: nat, seen: set<Hash>): (v: Verdict)
    requires tx.ins.Some? && i <= |tx.ins.value|
    decreases |tx.ins.value| - i
  {
    if i == |tx.ins.value| then Pass
    else
      var w := tx.ins.value[i];
      var v := CheckInput(env, tx, spent, seen, w);
      if v != Pass then v else ValidateFrom(env, tx, spent, i + 1, seen + {HashOfWire(w)})
  }

  function Validate(env: Env, tx: Tx, spent: set<Hash>): Verdict {
    if tx.ins.None? then Reject(InsRequired) else ValidateFrom(env, tx, spent, 0, {})
  }

  // ----- what acceptance means -----

  /** The witness is a signature by the lock's own key: over this input and every output, or, where allowed, over the input alone. */
  ghost predicate SignedBy(w: Witness, lock: string, h: Hash, outs: seq<Out>, legacy: bool) {
    && w.Bytes? && w.s.Signed? && w.s.key == lock
    && match w.s.message
       case OverSpend(g, routes) =>
         && g == h && |routes| == |outs|
         && forall j :: 0 <= j < |outs| ==>
              routes[j].to == outs[j].to && routes[j].amount == outs[j].amount && routes[j].tokenID == outs[j].tokenID
       case OverHashBytes(g) => legacy && g == h
       case OverHash(_) => false
  }

  /** Input i on its own: issued by this forge, unspent, unexpired, unlocked by the witness at its own position. */
  ghost predicate InputGood(env: Env, tx: Tx, spent: set<Hash>, i: nat)
    requires tx.ins.Some? && i < |tx.ins.value|
  {
    var w := tx.ins.value[i];
    w.Jwt? &&
    var p := w.token.payload;
    && env.key != "" && p.iss == env.key && w.token.signature == Signed(env.key, OverHash(Digest(p)))
    && Digest(p) !in spent
    && (p.exp.Some? && p.exp.value != 0 ==> env.now < p.exp.value)
    && (p.timeLock.Some? && p.timeLock.value != 0 ==> env.now >= p.timeLock.value)
    && (p.htlc.Some? && p.htlc.value != "" ==> p.htlc.value in env.refundable)
    && (p.lock.Some? && p.lock.value != "" ==>
          i < |tx.witnessData| && SignedBy(tx.witnessData[i], p.lock.value, Digest(p), tx.outs, env.allowLegacyWitness))
  }

  ghost predicate DistinctInputs(ins: seq<Wire>) {
    forall i, j :: 0 <= i < j < |ins| && ins[i].Jwt? && ins[j].Jwt? ==> HashOfWire(ins[i]) != HashOfWire(ins[j])
  }

  ghost function HashesUpTo(ins: seq<Wire>, n: nat): set<Hash>
    requires n <= |ins| && forall i :: 0 <= i < n ==> ins[i].Jwt?
  {
    set i | 0 <= i < n :: HashOfWire(ins[i])
  }

  /** An input not seen before stands first at its own position, so indexOf finds its own witness. */
  lemma FreshInputFindsItself(ins: seq<Wire>, i: nat)
    requires i < |ins| && ins[i].Jwt? && forall k :: 0 <= k < i ==> ins[k].Jwt?
    requires HashOfWire(ins[i]) !in HashesUpTo(ins, i)
    ensures IndexOfWire(ins, ins[i]) == i
  {
    var j := IndexOfWire(ins, ins[i]);
    assert forall k :: 0 <= k < i ==> HashOfWire(ins[k]) in HashesUpTo(ins, i);
    assert forall k :: 0 <= k < j ==> ins[..j][k] == ins[k];
  }

  /** What the signature check accepts, field by field. */
  lemma WitnessMeans(env: Env, tx: Tx, h: Hash, lock: string, sig: Signature)
    ensures WitnessValid(env, tx, h, lock, sig) <==> SignedBy(Bytes(sig), lock, h, tx.outs, env.allowLegacyWitness)
  {
    if SignedBy(Bytes(sig), lock, h, tx.outs, env.allowLegacyWitness) && sig.message.OverSpend? {
      assert sig.message.routes == RoutesOf(tx.outs);
    }
  }

  /** Input k is a token different from all before it. */
  ghost predicate NewAt(ins: seq<Wire>, k: nat)
    requires k < |ins|
  {
    ins[k].Jwt? && forall j :: 0 <= j < k ==> ins[j].Jwt? && HashOfWire(ins[j]) != HashOfWire(ins[k])
  }

  /** One round of the loop passes exactly when its input is new and good on its own. */
  lemma CheckInputMeans(env: Env, tx: Tx, spent: set<Hash>, i: nat)
    requires tx.ins.Some? && i < |tx.ins.value| && forall k :: 0 <= k < i ==> tx.ins.value[k].Jwt?
    ensures var ins := tx.ins.value;
            CheckInput(env, tx, spent, HashesUpTo(ins, i), ins[i]) == Pass <==> InputGood(env, tx, spent, i) && NewAt(ins, i)
  {
    var ins := tx.ins.value;
    if ins[i].Jwt? {
      var seen := HashesUpTo(ins, i);
      assert HashOfWire(ins[i]) in seen <==> exists j :: 0 <= j < i && HashOfWire(ins[j]) == HashOfWire(ins[i]);
      if HashOfWire(ins[i]) !in seen {
        FreshInputFindsItself(ins, i);
        LockMeans(env, tx, i);
      }
    }
  }

  /** The lock check of an input that finds its own witness. */
  lemma LockMeans(env: Env, tx: Tx, i: nat)
    requires tx.ins.Some? && i < |tx.ins.value| && IndexOfWire(tx.ins.value, tx.ins.value[i]) == i && tx.ins.value[i].Jwt?
    ensures var p := tx.ins.value[i].token.payload;
            CheckLock(env, tx, tx.ins.value[i], p) == Pass <==>
              (p.lock.Some? && p.lock.value != "" ==>
                 i < |tx.witnessData| && SignedBy(tx.witnessData[i], p.lock.value, Digest(p), tx.outs, env.allowLegacyWitness))
  {
    var p := tx.ins.value[i].token.payload;
    if p.lock.Some? && i < |tx.witnessData| && tx.witnessData[i].Bytes? {
      WitnessMeans(env, tx, Digest(p), p.lock.value, tx.witnessData[i].s);
    }
  }

  ghost predicate GoodFrom(env: Env, tx: Tx, spent: set<Hash>, i: nat)
    requires tx.ins.Some?
  {
    forall k :: i <= k < |tx.ins.value| ==> InputGood(env, tx, spent, k) && NewAt(tx.ins.value, k)
  }

  lemma {:induction false} ValidateFromMeans(env: Env, tx: Tx, spent: set<Hash>, i: nat)
    requires tx.ins.Some? && i <= |tx.ins.value| && forall k :: 0 <= k < i ==> tx.ins.value[k].Jwt?
    ensures ValidateFrom(env, tx, spent, i, HashesUpTo(tx.ins.value, i)) == Pass <==> GoodFrom(env, tx, spent, i)
    decreases |tx.ins.value| - i
  {
    var ins := tx.ins.value;
    if i < |ins| {
      CheckInputMeans(env, tx, spent, i);
      if CheckInput(env, tx, spent, HashesUpTo(ins, i), ins[i]) == Pass {
        assert HashesUpTo(ins, i + 1) == HashesUpTo(ins, i) + {HashOfWire(ins[i])};
        ValidateFromMeans(env, tx, spent, i + 1);
      }
    }
  }

  /** Validation passes exactly when inputs are given, are pairwise distinct tokens, and each is good on its own. */
  lemma ValidateMeans(env: Env, tx: Tx, spent: set<Hash>)
    ensures Validate(env, tx, spent) == Pass
            <==> tx.ins.Some? && DistinctInputs(tx.ins.value)
                 && forall i :: 0 <= i < |tx.ins.value| ==> InputGood(env, tx, spent, i)
  {
    if tx.ins.Some? {
      var ins := tx.ins.value;
      assert HashesUpTo(ins, 0) == {};
      ValidateFromMeans(env, tx, spent, 0);
      AllNew(ins);
      assert GoodFrom(env, tx, spent, 0) <==>
             (forall k :: 0 <= k < |ins| ==> InputGood(env, tx, spent, k)) && forall k :: 0 <= k < |ins| ==> NewAt(ins, k);
      if forall i :: 0 <= i < |ins| ==> InputGood(env, tx, spent, i) {
        forall k | 0 <= k < |ins| ensures ins[k].Jwt? { assert InputGood(env, tx, spent, k); }
      }
    }
  }

  lemma AllNew(ins: seq<Wire>)
    ensures (forall k :: 0 <= k < |ins| ==> NewAt(ins, k)) <==> DistinctInputs(ins) && forall k :: 0 <= k < |ins| ==> ins[k].Jwt?
  {
    if forall k :: 0 <= k < |ins| ==> NewAt(ins, k) {
      forall k | 0 <= k < |ins| ensures ins[k].Jwt? { assert NewAt(ins, k); }
      forall i, j | 0 <= i < j < |ins| ensures HashOfWire(ins[i]) != HashOfWire(ins[j]) {
        assert NewAt(ins, j);
      }
    }
  }

  /** A condition of input i that the verdict stands for. */
  ghost predicate Explains(v: Verdict, env: Env, tx: Tx, spent: set<Hash>, i: nat)
    requires tx.ins.Some? && i < |tx.ins.value|
  {
    var w := tx.ins.value[i];
    if w.Malformed? then v == Throw
    else
      var p := w.token.payload;
      var locked := p.lock.Some? && p.lock.value != "";
      match v
      case Pass => false
      case Throw => locked && i < |tx.witnessData| && tx.witnessData[i] == NotHex
      case Reject(e) =>
        match e
        case DuplicateInput => exists j :: 0 <= j < i && tx.ins.value[j].Jwt? && tx.ins.value[j].token.payload == p
        case BadSignature => p.iss == "" || w.token.signature != Signed(p.iss, OverHash(Digest(p)))
        case IssuerMismatch => p.iss != env.key
        case AlreadySpent => Digest(p) in spent
        case Expired => p.exp.Some? && p.exp.value != 0 && env.now >= p.exp.value
        case WitnessNotFound => locked && (i >= |tx.witnessData| || tx.witnessData[i] == Absent)
        case WitnessInvalid =>
          locked && i < |tx.witnessData| && tx.witnessData[i].Bytes?
          && !SignedBy(tx.witnessData[i], p.lock.value, Digest(p), tx.outs, env.allowLegacyWitness)
        case TimeLocked => p.timeLock.Some? && p.timeLock.value != 0 && env.now < p.timeLock.value
        case HtlcRefused => p.htlc.Some? && p.htlc.value != "" && p.htlc.value !in env.refundable
        case _ => false
  }

  lemma FailedCheckExplained(env: Env, tx: Tx, spent: set<Hash>, i: nat)
    requires tx.ins.Some? && i < |tx.ins.value| && forall k :: 0 <= k < i ==> tx.ins.value[k].Jwt?
    requires CheckInput(env, tx, spent, HashesUpTo(tx.ins.value, i), tx.ins.value[i]) != Pass
    ensures Explains(CheckInput(env, tx, spent, HashesUpTo(tx.ins.value, i), tx.ins.value[i]), env, tx, spent, i)
  {
    var ins := tx.ins.value;
    if ins[i].Jwt? {
      var p := ins[i].token.payload;
      if HashOfWire(ins[i]) in HashesUpTo(ins, i) {
        var j :| 0 <= j < i && HashOfWire(ins[j]) == HashOfWire(ins[i]);
      } else {
        FreshInputFindsItself(ins, i);
        if p.lock.Some? && i < |tx.witnessData| && tx.witnessData[i].Bytes? {
          WitnessMeans(env, tx, Digest(p), p.lock.value, tx.witnessData[i].s);
        }
      }
    }
  }

  /** A refusal names what is wrong with the first input that is not good: earlier ones are. */
  lemma {:induction false} RefusalFrom(env: Env, tx: Tx, spent: set<Hash>, i: nat) returns (k: nat)
    requires tx.ins.Some? && i <= |tx.ins.value| && forall j :: 0 <= j < i ==> tx.ins.value[j].Jwt?
    requires ValidateFrom(env, tx, spent, i, HashesUpTo(tx.ins.value, i)) != Pass
    ensures i <= k < |tx.ins.value| && forall j :: i <= j < k ==> InputGood(env, tx, spent, j) && NewAt(tx.ins.value, j)
    ensures Explains(ValidateFrom(env, tx, spent, i, HashesUpTo(tx.ins.value, i)), env, tx, spent, k)
    decreases |tx.ins.value| - i
  {
    var ins := tx.ins.value;
    CheckInputMeans(env, tx, spent, i);
    if CheckInput(env, tx, spent, HashesUpTo(ins, i), ins[i]) == Pass {
      assert HashesUpTo(ins, i + 1) == HashesUpTo(ins, i) + {HashOfWire(ins[i])};
      k := RefusalFrom(env, tx, spent, i + 1);
    } else {
      FailedCheckExplained(env, tx, spent, i);
      k := i;
    }
  }

  /** Validation that does not pass says why: no inputs given, or a condition the first bad input really fails. */
  lemma RefusalExplained(env: Env, tx: Tx, spent: set<Hash>) returns (i: nat)
    requires Validate(env, tx, spent) != Pass
    ensures tx.ins.None? ==> Validate(env, tx, spent) == Reject(InsRequired)
    ensures tx.ins.Some? ==>
      && i < |tx.ins.value| && (forall j :: 0 <= j < i ==> InputGood(env, tx, spent, j) && NewAt(tx.ins.value, j))
      && Explains(Validate(env, tx, spent), env, tx, spent, i)
  {
    i := 0;
    if tx.ins.Some? {
      assert HashesUpTo(tx.ins.value, 0) == {};
      i := RefusalFrom(env, tx, spent, 0);
    }
  }

  /**
   * A locked token moves only by its lock's own key: the witness at its position is a signature by that key over
   * the token and, output by output, the recipient, amount and token id, or, with the legacy switch on, over the
   * token alone. Any other witness is refused.
   */
  lemma LockNeedsItsKey(env: Env, tx: Tx, spent: set<Hash>, i: nat, lock: string)
    requires Validate(env, tx, spent) == Pass
    requires tx.ins.Some? && i < |tx.ins.value| && tx.ins.value[i].Jwt?
    requires lock != "" && tx.ins.value[i].token.payload.lock == Some(lock)
    ensures i < |tx.witnessData| && tx.witnessData[i].Bytes?
    ensures tx.witnessData[i].s.Signed? && tx.witnessData[i].s.key == lock
    ensures var m := tx.witnessData[i].s.message;
            var h := Digest(tx.ins.value[i].token.payload);
            || (env.allowLegacyWitness && m == OverHashBytes(h))
            || (&& m.OverSpend? && m.h == h && |m.routes| == |tx.outs|
                && forall j :: 0 <= j < |tx.outs| ==>
                     && m.routes[j].to == tx.outs[j].to && m.routes[j].amount == tx.outs[j].amount
                     && m.routes[j].tokenID == tx.outs[j].tokenID)
  {
    ValidateMeans(env, tx, spent);
    assert InputGood(env, tx, spent, i);
  }

  /** With the legacy switch off, one witness for one locked token commits to one list of outputs. */
  lemma WitnessBindsOutputs(env: Env, tx: Tx, spent: set<Hash>, i: nat, env': Env, tx': Tx, spent': set<Hash>, i': nat)
    requires !env.allowLegacyWitness && !env'.allowLegacyWitness
    requires Validate(env, tx, spent) == Pass && Validate(env', tx', spent') == Pass
    requires tx.ins.Some? && i < |tx.ins.value| && tx.ins.value[i].Jwt?
    requires tx'.ins.Some? && i' < |tx'.ins.value| && tx'.ins.value[i'].Jwt?
    requires tx.ins.value[i].token.payload == tx'.ins.value[i'].token.payload
    requires tx.ins.value[i].token.payload.lock.Some? && tx.ins.value[i].token.payload.lock.value != ""
    requires i < |tx.witnessData| && i' < |tx'.witnessData| && tx.witnessData[i] == tx'.witnessData[i']
    ensures |tx.outs| == |tx'.outs|
    ensures forall j :: 0 <= j < |tx.outs| ==>
              && tx.outs[j].to == tx'.outs[j].to && tx.outs[j].amount == tx'.outs[j].amount
              && tx.outs[j].tokenID == tx'.outs[j].tokenID
  {
    var lock := tx.ins.value[i].token.payload.lock.value;
    LockNeedsItsKey(env, tx, spent, i, lock);
    LockNeedsItsKey(env', tx', spent', i', lock);
  }

  /** What the header claims about the hash plays no part: it is recomputed before it is compared. */
  lemma ClaimedHashIgnored(env: Env, tx: Tx, spent: set<Hash>, seen: set<Hash>, w: Wire)
    requires tx.ins.Some? && w in tx.ins.value
    ensures CheckInput(env, tx, spent, seen, w) != Reject(HashMismatch)
  {
  }

  // ----- validateFungibleTransfer -----

  predicate AllRestored(tx: Tx) {
    tx.ins.Some? && forall i :: 0 <= i < |tx.ins.value| ==> tx.ins.value[i].Jwt?
  }

  function TokensOf(ins: seq<Wire>): (ts: seq<Token>)
    requires forall i :: 0 <= i < |ins| ==> ins[i].Jwt?
    ensures |ts| == |ins| && forall i :: 0 <= i < |ins| ==> ts[i] == ins[i].token
  {
    seq(|ins|, i requires 0 <= i < |ins| => ins[i].token)
  }

  predicate Positive(a: Option<int>) { a.Some? && a.value > 0 }

  function InputTotal(ts: seq<Token>): int {
    if ts == [] then 0 else InputTotal(ts[..|ts| - 1]) + (if ts[|ts| - 1].payload.amount.Some? then ts[|ts| - 1].payload.amount.value else 0)
  }

  function OutputTotal(outs: seq<Out>): int {
    if outs == [] then 0 else OutputTotal(outs[..|outs| - 1]) + (if outs[|outs| - 1].amount.Some? then outs[|outs| - 1].amount.value else 0)
  }

  ghost predicate ClaimsDistinct(ts: seq<Token>) {
    forall i, j :: 0 <= i < j < |ts| ==> ts[i].claimedHash != ts[j].claimedHash
  }

  ghost predicate OutputsGood(outs: seq<Out>) {
    forall i :: 0 <= i < |outs| ==> Positive(outs[i].amount) && outs[i].to != ""
  }

  /** The condition validateFungibleTransfer decides. */
  ghost predicate FungibleGood(ts: seq<Token>, outs: seq<Out>) {
    && ts != [] && ClaimsDistinct(ts)
    && (forall i :: 0 <= i < |ts| ==> Positive(ts[i].payload.amount))
    && OutputsGood(outs)
    && OutputTotal(outs) <= InputTotal(ts)
  }

  // ----- prepareFungibleTransfer -----

  /** createPayload for an output: falsy locks are dropped, the first input lends its data_uri. */
  function OutPayload(key: string, iat: nat, out: Out, base: Payload): Payload {
    Payload(key, iat, None, out.amount, None, TruthyNum(out.timeLock), TruthyText(Some(out.to)), None, TruthyText(base.dataUri), "")
  }

  function ChangePayload(key: string, iat: nat, amount: int, sender: string, base: Payload): Payload {
    Payload(key, iat, None, Some(amount), None, TruthyNum(base.timeLock), TruthyText(Some(sender)), None, TruthyText(base.dataUri), "")
  }

  /** iat is read once per token built: clock(k) is the k-th reading. */
  type Clock = nat -> nat

  function RecipientPayloads(key: string, clock: Clock, outs: seq<Out>, base: Payload): (ps: seq<Payload>)
    ensures |ps| == |outs| && forall i :: 0 <= i < |outs| ==> ps[i] == OutPayload(key, clock(i), outs[i], base)
  {
    seq(|outs|, i requires 0 <= i < |outs| => OutPayload(key, clock(i), outs[i], base))
  }

  lemma RecipientPayloadsSnoc(key: string, clock: Clock, outs: seq<Out>, base: Payload, i: nat)
    requires i < |outs|
    ensures RecipientPayloads(key, clock, outs[..i + 1], base)
            == RecipientPayloads(key, clock, outs[..i], base) + [OutPayload(key, clock(i), outs[i], base)]
  {
  }

  function ChangeOf(key: string, iat: nat, ts: seq<Token>, outs: seq<Out>, sender: string): Option<Payload>
    requires ts != []
  {
    var change := InputTotal(ts) - OutputTotal(outs);
    if change > 0 then Some(ChangePayload(key, iat, change, sender, ts[0].payload)) else None
  }

  function Listed(p: Option<Payload>): seq<Payload> { if p.Some? then [p.value] else [] }

  /** All tokens a transfer releases, recipients first, change last. */
  function Outputs(key: string, clock: Clock, ts: seq<Token>, outs: seq<Out>, sender: string): seq<Payload>
    requires ts != []
  {
    RecipientPayloads(key, clock, outs, ts[0].payload) + Listed(ChangeOf(key, clock(|outs|), ts, outs, sender))
  }

  function PayloadsOf(ts: seq<Token>): (ps: seq<Payload>)
    ensures |ps| == |ts| && forall i :: 0 <= i < |ts| ==> ps[i] == ts[i].payload
  {
    seq(|ts|, i requires 0 <= i < |ts| => ts[i].payload)
  }

  lemma {:induction false} InputTotalIs(ts: seq<Token>)
    requires forall i :: 0 <= i < |ts| ==> Positive(ts[i].payload.amount)
    ensures InputTotal(ts) == Total(PayloadsOf(ts))
  {
    if ts != [] {
      var init := ts[..|ts| - 1];
      InputTotalIs(init);
      assert PayloadsOf(ts) == PayloadsOf(init) + [ts[|ts| - 1].payload];
      TotalSnoc(PayloadsOf(init), ts[|ts| - 1].payload);
    }
  }

  lemma {:induction false} OutputTotalIs(key: string, clock: Clock, outs: seq<Out>, base: Payload)
    requires OutputsGood(outs)
    ensures OutputTotal(outs) == Total(RecipientPayloads(key, clock, outs, base))
  {
    if outs != [] {
      var n := |outs| - 1;
      OutputTotalIs(key, clock, outs[..n], base);
      var ps := RecipientPayloads(key, clock, outs, base);
      assert ps == RecipientPayloads(key, clock, outs[..n], base) + [ps[n]];
      TotalSnoc(RecipientPayloads(key, clock, outs[..n], base), ps[n]);
    }
  }

  lemma RecipientsPositive(key: string, clock: Clock, outs: seq<Out>, base: Payload)
    requires OutputsGood(outs)
    ensures forall p :: p in RecipientPayloads(key, clock, outs, base) ==> Positive(p.amount) && p.iss == key
  {
  }

  lemma ChangeCovers(key: string, iat: nat, ts: seq<Token>, outs: seq<Out>, sender: string)
    requires ts != [] && OutputTotal(outs) <= InputTotal(ts)
    ensures var change := Listed(ChangeOf(key, iat, ts, outs, sender));
            && Total(change) == InputTotal(ts) - OutputTotal(outs)
            && (forall p :: p in change ==> Positive(p.amount) && p.iss == key)
            && |change| == if OutputTotal(outs) < InputTotal(ts) then 1 else 0
  {
    var change := ChangeOf(key, iat, ts, outs, sender);
    if change.Some? {
      assert Listed(change)[1..] == [];
    }
  }

  lemma {:induction false} TotalConcat(a: seq<Payload>, b: seq<Payload>)
    ensures Total(a + b) == Total(a) + Total(b)
  {
    if a == [] {
      assert a + b == b;
    } else {
      assert (a + b)[1..] == a[1..] + b;
      TotalConcat(a[1..], b);
    }
  }

  /**
   * Conservation: a transfer that passes validation releases tokens of positive amounts, the recipients'
   * as requested and the change whatever is over, whose total is exactly that of its inputs.
   */
  lemma TransferConserves(key: string, clock: Clock, ts: seq<Token>, outs: seq<Out>, sender: string)
    requires FungibleGood(ts, outs)
    ensures Total(Outputs(key, clock, ts, outs, sender)) == Total(PayloadsOf(ts))
    ensures forall p :: p in Outputs(key, clock, ts, outs, sender) ==> Positive(p.amount) && p.iss == key
    ensures |Outputs(key, clock, ts, outs, sender)| == |outs| + if OutputTotal(outs) < InputTotal(ts) then 1 else 0
  {
    var base := ts[0].payload;
    InputTotalIs(ts);
    OutputTotalIs(key, clock, outs, base);
    RecipientsPositive(key, clock, outs, base);
    ChangeCovers(key, clock(|outs|), ts, outs, sender);
    TotalConcat(RecipientPayloads(key, clock, outs, base), Listed(ChangeOf(key, clock(|outs|), ts, outs, sender)));
  }

  // ----- a whole section: what a transfer or burn marks and releases, given the spent-set it starts from -----

  datatype Request =
    | Unparsable
    | Transfer(tx: Tx, sender: string)
    | Burn(token: Option<Wire>)

  /** hashes are marked spent, then outputs are released in order. */
  datatype Plan = Plan(hashes: seq<Hash>, outputs: seq<Payload>)

  function HashesOf(ts: seq<Token>): (hs: seq<Hash>)
    ensures |hs| == |ts| && forall i :: 0 <= i < |ts| ==> hs[i] == Digest(ts[i].payload)
  {
    seq(|ts|, i requires 0 <= i < |ts| => Digest(ts[i].payload))
  }

  /** handleBurn: here the header's hash is compared, and the issuer is not. */
  function CheckBurn(spent: set<Hash>, token: Option<Wire>): Verdict {
    match token
    case None => Reject(TokenRequired)
    case Some(Malformed(_)) => Reject(RestoreFailed)
    case Some(Jwt(t)) =>
      if !VerifyTokenHash(t) then Reject(HashMismatch)
      else if !VerifyTokenSignature(t) then Reject(BadSignature)
      else if t.claimedHash in spent then Reject(AlreadySpent)
      else Pass
  }

  /** A burn passes exactly for a restored token that states its own hash, is signed by its issuer and is not spent. */
  lemma BurnMeans(spent: set<Hash>, token: Option<Wire>)
    ensures CheckBurn(spent, token) == Pass <==>
      && token.Some? && token.value.Jwt?
      && var t := token.value.token;
         && t.claimedHash == Digest(t.payload) && t.claimedHash !in spent
         && t.payload.iss != "" && t.signature == Signed(t.payload.iss, OverHash(t.claimedHash))
    ensures token.None? <==> CheckBurn(spent, token) == Reject(TokenRequired)
    ensures token.Some? && token.value.Malformed? <==> CheckBurn(spent, token) == Reject(RestoreFailed)
    ensures CheckBurn(spent, token) == Reject(AlreadySpent) ==> token.value.token.claimedHash in spent
    ensures CheckBurn(spent, token) == Reject(HashMismatch) ==> token.value.token.claimedHash != Digest(token.value.token.payload)
    ensures CheckBurn(spent, token) == Reject(BadSignature) ==>
              var t := token.value.token; t.payload.iss == "" || t.signature != Signed(t.payload.iss, OverHash(t.claimedHash))
  {
  }

  // ----- what a transfer releases, field by field -----

  /** A fungible token of the forge for `to`, with no expiry, HTLC or id; base lends its data_uri. */
  ghost predicate CoinFor(p: Payload, key: string, to: string, amount: int, timeLock: Option<nat>, base: Payload) {
    && p.iss == key && p.amount == Some(amount)
    && p.lock == (if to == "" then None else Some(to))
    && p.timeLock == (if timeLock == Some(0) then None else timeLock)
    && p.dataUri == (if base.dataUri == Some("") then None else base.dataUri)
    && p.exp.None? && p.htlc.None? && p.tokenID.None? && p.setID == ""
  }

  /** That fixes everything but when it was issued. */
  lemma CoinIsFixed(p: Payload, key: string, to: string, amount: int, timeLock: Option<nat>, base: Payload)
    requires CoinFor(p, key, to, amount, timeLock, base) && to != "" && timeLock != Some(0) && base.dataUri != Some("")
    ensures p == Payload(key, p.iat, None, Some(amount), None, timeLock, Some(to), None, base.dataUri, "")
  {
  }

  /** Each recipient gets a token of its own, in order; what is over goes back to the sender, last. */
  ghost predicate PaysOut(ps: seq<Payload>, key: string, ins: seq<Token>, outs: seq<Out>, sender: string)
    requires ins != []
  {
    var over := InputTotal(ins) - OutputTotal(outs);
    && |ps| == |outs| + (if over > 0 then 1 else 0)
    && (forall i :: 0 <= i < |outs| && outs[i].amount.Some? ==>
          CoinFor(ps[i], key, outs[i].to, outs[i].amount.value, outs[i].timeLock, ins[0].payload))
    && (over > 0 ==> CoinFor(ps[|outs|], key, sender, over, ins[0].payload.timeLock, ins[0].payload))
  }

  lemma OutputsPay(key: string, clock: Clock, ts: seq<Token>, outs: seq<Out>, sender: string)
    requires ts != []
    ensures PaysOut(Outputs(key, clock, ts, outs, sender), key, ts, outs, sender)
  {
  }

  /** The plan of a transfer whose inputs have passed validateTXInputs. */
  ghost function TransferPlan(env: Env, clock: Clock, tx: Tx, sender: string): Option<Plan>
    requires AllRestored(tx)
  {
    var ts := TokensOf(tx.ins.value);
    if FungibleGood(ts, tx.outs) then Some(Plan(HashesOf(ts), Outputs(env.key, clock, ts, tx.outs, sender))) else None
  }

  lemma PassedInputsRestore(env: Env, tx: Tx, spent: set<Hash>)
    requires Validate(env, tx, spent) == Pass
    ensures AllRestored(tx)
  {
    ValidateMeans(env, tx, spent);
    forall i | 0 <= i < |tx.ins.value| ensures tx.ins.value[i].Jwt? {
      assert InputGood(env, tx, spent, i);
    }
  }

  ghost function PlanOf(env: Env, clock: Clock, spent: set<Hash>, req: Request): Option<Plan> {
    match req
    case Unparsable => None
    case Burn(token) =>
      if CheckBurn(spent, token) == Pass then Some(Plan([token.value.token.claimedHash], [])) else None
    case Transfer(tx, sender) =>
      if Validate(env, tx, spent) == Pass && AllRestored(tx) then TransferPlan(env, clock, tx, sender) else None
  }

  /** A plan consumes distinct hashes that were unspent. */
  lemma PlanConsumesUnspent(env: Env, clock: Clock, spent: set<Hash>, req: Request)
    requires PlanOf(env, clock, spent, req).Some?
    ensures var plan := PlanOf(env, clock, spent, req).value;
            plan.hashes != [] && Distinct(plan.hashes) && forall h :: h in plan.hashes ==> h !in spent && h.Digest?
  {
    if req.Transfer? {
      var tx := req.tx;
      ValidateMeans(env, tx, spent);
      PassedInputsRestore(env, tx, spent);
      var hashes := HashesOf(TokensOf(tx.ins.value));
      forall i | 0 <= i < |hashes| ensures hashes[i] !in spent {
        assert InputGood(env, tx, spent, i);
      }
    }
  }

  /** A transfer's plan consumes tokens this forge signed, and releases exactly their value. */
  lemma TransferPlanSound(env: Env, clock: Clock, spent: set<Hash>, tx: Tx, sender: string)
    requires PlanOf(env, clock, spent, Transfer(tx, sender)).Some?
    ensures AllRestored(tx)
    ensures var plan := PlanOf(env, clock, spent, Transfer(tx, sender)).value;
            var ts := TokensOf(tx.ins.value);
            && plan.hashes == HashesOf(ts)
            && (forall i :: 0 <= i < |ts| ==> ts[i].signature == Signed(env.key, OverHash(plan.hashes[i])))
            && Total(plan.outputs) == Total(PayloadsOf(ts))
  {
    ValidateMeans(env, tx, spent);
    PassedInputsRestore(env, tx, spent);
    var ts := TokensOf(tx.ins.value);
    TransferConserves(env.key, clock, ts, tx.outs, sender);
    forall i | 0 <= i < |ts| ensures ts[i].signature == Signed(env.key, OverHash(HashesOf(ts)[i])) {
      assert InputGood(env, tx, spent, i);
    }
  }

  /** An accepted transfer marks its inputs' hashes and releases what PaysOut says. */
  lemma TransferPlanMeans(env: Env, clock: Clock, spent: set<Hash>, tx: Tx, sender: string)
    requires PlanOf(env, clock, spent, Transfer(tx, sender)).Some?
    ensures AllRestored(tx) && tx.ins.value != []
    ensures var plan := PlanOf(env, clock, spent, Transfer(tx, sender)).value;
            && PaysOut(plan.outputs, env.key, TokensOf(tx.ins.value), tx.outs, sender)
            && |plan.hashes| == |tx.ins.value|
            && forall i :: 0 <= i < |tx.ins.value| ==> plan.hashes[i] == Digest(tx.ins.value[i].token.payload)
    ensures forall i :: 0 <= i < |tx.outs| ==> tx.outs[i].amount.Some? && tx.outs[i].amount.value > 0 && tx.outs[i].to != ""
  {
    PassedInputsRestore(env, tx, spent);
    OutputsPay(env.key, clock, TokensOf(tx.ins.value), tx.outs, sender);
  }

  // ----- what clients can know -----

  /** A signature of the forge over a token hash is known to clients only through a released token. */
  predicate KnownWire(key: string, released: set<Payload>, w: Wire) {
    w.Jwt? && w.token.signature.Signed? && w.token.signature.key == key && w.token.signature.message.OverHash? ==>
      w.token.signature.message.h.Digest? && w.token.signature.message.h.payload in released
  }

  ghost predicate Known(key: string, released: set<Payload>, req: Request) {
    match req
    case Unparsable => true
    case Transfer(tx, _) => tx.ins.Some? ==> forall w :: w in tx.ins.value ==> KnownWire(key, released, w)
    case Burn(t) => t.Some? ==> KnownWire(key, released, t.value)
  }

  lemma KnownMonotone(key: string, r: set<Payload>, r': set<Payload>, req: Request)
    requires Known(key, r, req) && r <= r'
    ensures Known(key, r', req)
  {
  }

  /** What passing CheckInput says about a known input: a released token, not spent, not seen. */
  lemma CheckedInput(key: string, env: Env, tx: Tx, released: set<Payload>, spent: set<Hash>, seen: set<Hash>, w: Wire)
    requires tx.ins.Some? && w in tx.ins.value && env.key == key && KnownWire(key, released, w)
    requires CheckInput(env, tx, spent, seen, w) == Pass
    ensures w.Jwt? && w.token.payload in released
    ensures HashOfWire(w) !in spent && HashOfWire(w) !in seen
  {
  }
}
