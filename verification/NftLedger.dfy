/**
 * The non-fungible forge with sequential ids as a concurrent, crash-prone ledger, and the identity
 * theorem: over every run at most one live token carries any given id, and no id is ever issued twice.
 */
module NftLedger {
  import opened Prelude
  import opened Tokens
  import opened ForgeRules
  import opened NonFungibleForge

  /** A transfer holding the lock. index is the recipient being served, used the inputs already consumed. */
  datatype Stage =
    | Checks(at: nat, seen: set<Hash>)
    | Loop(index: nat, used: set<nat>)
    | FirstSave(index: nat, used: set<nat>, input: Token, output: Payload, write: nat)   // publishSpentToken awaits
    | SecondSave(index: nat, used: set<nat>, input: Token, output: Payload, write: nat)  // _saveState awaits
    | BurnCheck
    | BurnSave(write: nat)

  datatype Serving = Serving(req: Request, env: Env, clock: Clock, stage: Stage)

  datatype Image = Image(spent: set<Hash>, lastId: nat)

  datatype Write = Write(id: nat, image: Image)

  /** A mint in flight: its token, and the save it waits for once issued. */
  datatype Mint = Mint(payload: Payload, write: Option<nat>)

  /** memory, pending writes, the last one landed; mints by the id they took; history of released tokens and issued ids. */
  datatype Forge = Forge(
    queue: seq<Request>, holder: Option<Serving>,
    mem: Image, pending: seq<Write>, nextId: nat, acked: set<nat>, disk: Image,
    mints: map<nat, Mint>,
    released: set<Payload>, issued: seq<nat>)

  const Empty := Forge([], None, Image({}, 0), [], 0, {}, Image({}, 0), map[], {}, [])

  datatype Event =
    | Arrive(req: Request)
    | Start(env: Env, clock: Clock)
    | CheckOne
    | BeginLoop
    | Serve                  // next recipient: refuse, or mark the input and issue the first save
    | SaveAgain
    | Send
    | End                    // all recipients served
    | CheckBurnToken
    | EndBurn
    | Fail
    | MintTake(iat: nat, to: string)   // id read and counter advanced, no await between
    | MintSave(id: nat)
    | MintSend(id: nat)
    | MintFail(id: nat)
    | Save | Land | Lose
    | Crash

  function Stored(f: Forge, image: Image): Forge {
    f.(mem := image, pending := f.pending + [Write(f.nextId, image)], nextId := f.nextId + 1)
  }

  function AtStage(f: Forge, stage: Stage): Forge
    requires f.holder.Some?
  {
    f.(holder := Some(f.holder.value.(stage := stage)))
  }

  predicate Holds(f: Forge) { f.holder.Some? }

  predicate RestoredTx(req: Request) { req.Transfer? && AllRestored(req.tx) }

  ghost predicate Possible(key: string, f: Forge, e: Event) {
    match e
    case Arrive(req) => Known(key, f.released, req)
    case Start(env, clock) => f.holder.None? && f.queue != [] && env.key == key
    case CheckOne =>
      && Holds(f) && f.holder.value.stage.Checks? && f.holder.value.req.Transfer? && f.holder.value.req.tx.ins.Some?
      && f.holder.value.stage.at < |f.holder.value.req.tx.ins.value|
    case BeginLoop =>
      && Holds(f) && f.holder.value.stage.Checks? && RestoredTx(f.holder.value.req)
      && f.holder.value.stage.at == |f.holder.value.req.tx.ins.value|
    case Serve =>
      && Holds(f) && f.holder.value.stage.Loop? && RestoredTx(f.holder.value.req)
      && f.holder.value.stage.index < |f.holder.value.req.tx.outs|
    case SaveAgain => Holds(f) && f.holder.value.stage.FirstSave? && f.holder.value.stage.write in f.acked
    case Send => Holds(f) && f.holder.value.stage.SecondSave? && f.holder.value.stage.write in f.acked
    case End =>
      && Holds(f) && f.holder.value.stage.Loop? && RestoredTx(f.holder.value.req)
      && f.holder.value.stage.index == |f.holder.value.req.tx.outs|
    case CheckBurnToken => Holds(f) && f.holder.value.stage.BurnCheck? && f.holder.value.req.Burn?
    case EndBurn => Holds(f) && f.holder.value.stage.BurnSave? && f.holder.value.stage.write in f.acked
    case Fail => Holds(f)
    case MintTake(iat, to) => to != ""
    case MintSave(id) => id in f.mints && f.mints[id].write.None?
    case MintSend(id) => id in f.mints && f.mints[id].write.Some? && f.mints[id].write.value in f.acked
    case MintFail(id) => id in f.mints
    case Save => true
    case Land => f.pending != []
    case Lose => f.pending != []
    case Crash => true
  }

  ghost function Step(key: string, f: Forge, e: Event): Forge
    requires Possible(key, f, e)
  {
    match e
    case Arrive(req) => f.(queue := f.queue + [req])
    case Start(env, clock) =>
      var req := f.queue[0];
      f.(queue := f.queue[1..],
         holder := Some(Serving(req, env, clock, if req.Burn? then BurnCheck else Checks(0, {}))))
    case CheckOne =>
      var t := f.holder.value;
      var w := t.req.tx.ins.value[t.stage.at];
      if CheckInput(t.env, t.req.tx, f.mem.spent, t.stage.seen, w) == Pass then
        AtStage(f, Checks(t.stage.at + 1, t.stage.seen + {HashOfWire(w)}))
      else f.(holder := None)
    case BeginLoop =>
      var tx := f.holder.value.req.tx;
      if tx.ins.value == [] || tx.outs == [] then f.(holder := None) else AtStage(f, Loop(0, {}))
    case Serve => (
      var t := f.holder.value;
      var inputs := TokensOf(t.req.tx.ins.value);
      var out := t.req.tx.outs[t.stage.index];
      match Choose(inputs, t.stage.used, out)
      case Refuse(_) => f.(holder := None)
      case Use(i) =>
        var output := Reissue(t.env.key, t.clock(t.stage.index), inputs[i], out.to);
        AtStage(Stored(f, f.mem.(spent := f.mem.spent + {Digest(inputs[i].payload)})),
                FirstSave(t.stage.index, t.stage.used + {i}, inputs[i], output, f.nextId)))
    case SaveAgain =>
      var s := f.holder.value.stage;
      AtStage(Stored(f, f.mem), SecondSave(s.index, s.used, s.input, s.output, f.nextId))
    case Send =>
      var s := f.holder.value.stage;
      AtStage(f.(released := f.released + {s.output}), Loop(s.index + 1, s.used))
    case End => f.(holder := None)
    case CheckBurnToken =>
      var token := f.holder.value.req.token;
      if CheckBurn(f.mem.spent, token) == Pass then
        AtStage(Stored(f, f.mem.(spent := f.mem.spent + {token.value.token.claimedHash})), BurnSave(f.nextId))
      else f.(holder := None)
    case EndBurn => f.(holder := None)
    case Fail => f.(holder := None)
    case MintTake(iat, to) =>
      var id := f.mem.lastId;
      f.(mem := f.mem.(lastId := id + 1), mints := f.mints[id := Mint(MintPayload(key, iat, id, to), None)])
    case MintSave(id) => Stored(f, f.mem).(mints := f.mints[id := f.mints[id].(write := Some(f.nextId))])
    case MintSend(id) =>
      f.(mints := f.mints - {id}, released := f.released + {f.mints[id].payload}, issued := f.issued + [id])
    case MintFail(id) => f.(mints := f.mints - {id})
    case Save => Stored(f, f.mem)
    case Land => f.(disk := f.pending[0].image, acked := f.acked + {f.pending[0].id}, pending := f.pending[1..])
    case Lose => f.(pending := f.pending[1..])
    case Crash => Forge([], None, f.disk, [], f.nextId, {}, f.disk, map[], f.released, f.issued)
  }

  // ----- invariants -----

  predicate NumberedBy(p: Payload, id: nat) { p.tokenID == Some(IdNum(id)) }

  /** Released tokens a restarted forge would accept. */
  ghost predicate IsLive(f: Forge, p: Payload) { p in f.released && Digest(p) !in f.disk.spent }

  ghost predicate Below(a: Image, b: Image) { a.spent <= b.spent && a.lastId <= b.lastId }

  ghost predicate StorageGrows(f: Forge) {
    && Below(f.disk, f.mem)
    && (forall i :: 0 <= i < |f.pending| ==> Below(f.disk, f.pending[i].image) && Below(f.pending[i].image, f.mem))
    && (forall i, j :: 0 <= i < j < |f.pending| ==> Below(f.pending[i].image, f.pending[j].image))
    && (forall i :: 0 <= i < |f.pending| ==> f.pending[i].id < f.nextId && f.pending[i].id !in f.acked)
    && (forall i, j :: 0 <= i < j < |f.pending| ==> f.pending[i].id != f.pending[j].id)
    && (forall id :: id in f.acked ==> id < f.nextId)
  }

  /** Write w, once acknowledged, leaves h durable; until then every pending write of that number contains it. */
  ghost predicate Carries(f: Forge, w: nat, h: Hash) {
    && w < f.nextId
    && (w in f.acked ==> h in f.disk.spent)
    && forall i :: 0 <= i < |f.pending| && f.pending[i].id == w ==> h in f.pending[i].image.spent
  }

  /** The same for the id counter. */
  ghost predicate CarriesId(f: Forge, w: nat, id: nat) {
    && w < f.nextId
    && (w in f.acked ==> id < f.disk.lastId)
    && forall i :: 0 <= i < |f.pending| && f.pending[i].id == w ==> id < f.pending[i].image.lastId
  }

  ghost predicate Numbered(key: string, f: Forge) {
    forall p :: p in f.released ==> p.iss == key && exists id: nat :: id < f.disk.lastId && id in f.issued && NumberedBy(p, id)
  }

  ghost predicate LiveUnique(f: Forge) {
    forall p, q :: IsLive(f, p) && IsLive(f, q) && p.tokenID == q.tokenID ==> p == q
  }

  /** Mints in flight hold ids nobody else has: not yet issued, distinct as keys, below the memory counter. */
  ghost predicate MintsFresh(key: string, f: Forge) {
    forall id :: id in f.mints ==>
      && id < f.mem.lastId && id !in f.issued
      && NumberedBy(f.mints[id].payload, id) && f.mints[id].payload.iss == key
      && (f.mints[id].write.Some? ==> CarriesId(f, f.mints[id].write.value, id))
  }

  ghost predicate IssuedOnce(f: Forge) {
    Distinct(f.issued) && forall id :: id in f.issued ==> id < f.disk.lastId
  }

  /** Inputs that passed the checks and are not consumed yet are live and unspent in memory. */
  ghost predicate Untouched(f: Forge, inputs: seq<Token>, used: set<nat>) {
    && (forall i, j :: 0 <= i < j < |inputs| ==> Digest(inputs[i].payload) != Digest(inputs[j].payload))
    && (forall i :: 0 <= i < |inputs| ==> inputs[i].payload in f.released)
    && (forall i :: 0 <= i < |inputs| && i !in used ==> Digest(inputs[i].payload) !in f.mem.spent)
  }

  ghost predicate ServingInv(key: string, f: Forge, t: Serving, used: set<nat>) {
    t.env.key == key && RestoredTx(t.req) && Untouched(f, TokensOf(t.req.tx.ins.value), used)
  }

  /** A pending output: reissued from a released input whose mark the write carries. */
  ghost predicate OutputInv(key: string, f: Forge, input: Token, output: Payload, write: nat) {
    && input.payload in f.released && Carries(f, write, Digest(input.payload))
    && output.iss == key && output.tokenID == input.payload.tokenID
    // once the mark is durable no live token has that id
    && (Digest(input.payload) in f.disk.spent ==> forall q :: IsLive(f, q) ==> q.tokenID != output.tokenID)
  }

  /** The inputs checked so far: distinct released tokens, unspent in memory. */
  ghost predicate ChecksInv(f: Forge, ins: seq<Wire>, at: nat, seen: set<Hash>) {
    && at <= |ins| && (forall k :: 0 <= k < at ==> ins[k].Jwt?)
    && seen == HashesUpTo(ins, at)
    && (forall k :: 0 <= k < at ==> ins[k].token.payload in f.released && HashOfWire(ins[k]) !in f.mem.spent)
    && (forall i, j :: 0 <= i < j < at ==> HashOfWire(ins[i]) != HashOfWire(ins[j]))
  }

  ghost predicate HolderOk(key: string, f: Forge) {
    f.holder.Some? ==>
      var t := f.holder.value;
      && t.env.key == key && Known(key, f.released, t.req)
      && match t.stage
         case Checks(at, seen) =>
           !t.req.Burn? && (t.req.Transfer? && t.req.tx.ins.Some? ==> ChecksInv(f, t.req.tx.ins.value, at, seen))
         case Loop(index, used) => ServingInv(key, f, t, used)
         case FirstSave(index, used, input, output, write) =>
           ServingInv(key, f, t, used) && OutputInv(key, f, input, output, write)
         case SecondSave(index, used, input, output, write) =>
           ServingInv(key, f, t, used) && OutputInv(key, f, input, output, write) && Digest(input.payload) in f.disk.spent
         case BurnCheck => t.req.Burn?
         case BurnSave(write) => t.req.Burn?
  }

  ghost predicate QueueOk(key: string, f: Forge) {
    forall i :: 0 <= i < |f.queue| ==> Known(key, f.released, f.queue[i])
  }

  ghost predicate Inv(key: string, f: Forge) {
    && StorageGrows(f) && Numbered(key, f) && LiveUnique(f) && MintsFresh(key, f) && IssuedOnce(f)
    && HolderOk(key, f) && QueueOk(key, f)
  }
}
