/**
 * The fungible forge as a concurrent, crash-prone ledger. Transfers and burns queue for the spend lock
 * (PromiseLock shows the promise chain is such a queue) and run one await at a time; mints run beside
 * them; storage writes land later, in order, or fail; the process may crash at any point and reload.
 */
module FungibleLedger {
  import opened Prelude
  import opened Tokens
  import opened ForgeRules

  /** Where the lock holder stands. writes maps each hash already marked to the write that must land. */
  datatype Phase =
    | Checking(i: nat, seen: set<Hash>)
    | CheckingBurn
    | Marking(plan: Plan, unmarked: set<Hash>, writes: map<Hash, nat>)
    | Sending(plan: Plan, sent: nat)

  datatype Section = Section(req: Request, env: Env, clock: Clock, phase: Phase)

  datatype Write = Write(id: nat, spent: set<Hash>)

  /** How a section ended: refused, broken off by an exception (after so many sends), or completed. */
  datatype Fate = Refused | Broken(marked: bool, sent: nat) | Completed

  datatype Done = Done(req: Request, env: Env, clock: Clock, fate: Fate)

  /**
   * queue, holder: the lock. spent: memory. pending, nextId, acked, disk: storage. minting: mints not yet sent.
   * released, minted, consumed: history of the whole ledger. boot*, mintedSince, arrived, done: history since the last start.
   */
  datatype World = World(
    queue: seq<Request>, holder: Option<Section>,
    spent: set<Hash>,
    pending: seq<Write>, nextId: nat, acked: set<nat>, disk: set<Hash>,
    minting: multiset<Payload>,
    released: set<Payload>, minted: nat, consumed: seq<Hash>,
    bootSpent: set<Hash>, bootReleased: set<Payload>, mintedSince: set<Payload>,
    arrived: seq<Request>, done: seq<Done>)

  const Initial := World([], None, {}, [], 0, {}, {}, multiset{}, {}, 0, [], {}, {}, {}, [], [])

  datatype Action =
    | Arrive(req: Request)
    | Start(env: Env, clock: Clock)
    | CheckNext               // one round of the input-validation loop
    | Decide                  // the loop is over: validate totals, sign outputs, or refuse
    | MarkOne(h: Hash)        // publishSpentToken up to its await
    | Commit                  // Promise.all over the saves has resolved
    | SendOne
    | Finish
    | Fail                    // an exception at any await of the section
    | Save                    // any other save of the state
    | Land | Lose             // the oldest write lands, or fails
    | MintBegin(p: Payload) | MintSend(p: Payload) | MintFail(p: Payload)
    | Crash

  // ----- steps -----

  ghost function HashSet(plan: Plan): set<Hash> { set h | h in plan.hashes }

  function Release(w: World, fate: Fate): World
    requires w.holder.Some?
  {
    var s := w.holder.value;
    w.(holder := None, done := w.done + [Done(s.req, s.env, s.clock, fate)])
  }

  ghost predicate Enabled(key: string, w: World, a: Action) {
    match a
    case Arrive(req) => Known(key, w.released, req)
    case Start(env, clock) => w.holder.None? && w.queue != [] && env.key == key
    case CheckNext =>
      && w.holder.Some? && w.holder.value.phase.Checking? && w.holder.value.req.Transfer?
      && w.holder.value.req.tx.ins.Some? && w.holder.value.phase.i < |w.holder.value.req.tx.ins.value|
    case Decide =>
      && w.holder.Some?
      && (w.holder.value.phase.CheckingBurn? ==> w.holder.value.req.Burn?)
      && (w.holder.value.phase.CheckingBurn? || w.holder.value.phase.Checking?)
      && (w.holder.value.phase.Checking? && w.holder.value.req.Transfer? && w.holder.value.req.tx.ins.Some? ==>
            w.holder.value.phase.i == |w.holder.value.req.tx.ins.value|)
    case MarkOne(h) => w.holder.Some? && w.holder.value.phase.Marking? && h in w.holder.value.phase.unmarked
    case Commit =>
      && w.holder.Some? && w.holder.value.phase.Marking? && w.holder.value.phase.unmarked == {}
      && w.holder.value.phase.writes.Values <= w.acked
    case SendOne =>
      && w.holder.Some? && w.holder.value.phase.Sending?
      && w.holder.value.phase.sent < |w.holder.value.phase.plan.outputs|
    case Finish =>
      && w.holder.Some? && w.holder.value.phase.Sending?
      && w.holder.value.phase.sent == |w.holder.value.phase.plan.outputs|
    // all marks are made before any save can report back, so a failed save finds nothing unmarked
    case Fail => w.holder.Some? && (w.holder.value.phase.Marking? ==>
                   w.holder.value.phase.unmarked == {} || w.holder.value.phase.writes == map[])
    case Save => true
    case Land => w.pending != []
    case Lose => w.pending != []
    case MintBegin(p) => p.iss == key && Positive(p.amount)
    case MintSend(p) => p in w.minting
    case MintFail(p) => p in w.minting
    case Crash => true
  }

  /** Outcome of Decide: None refuses. */
  ghost function Decision(w: World): Option<Plan>
    requires w.holder.Some? && (w.holder.value.phase.CheckingBurn? ==> w.holder.value.req.Burn?)
  {
    var s := w.holder.value;
    if s.phase.CheckingBurn? then
      if CheckBurn(w.spent, s.req.token) == Pass then Some(Plan([s.req.token.value.token.claimedHash], [])) else None
    else if s.req.Transfer? && AllRestored(s.req.tx) then TransferPlan(s.env, s.clock, s.req.tx, s.req.sender)
    else None
  }

  ghost function Next(key: string, w: World, a: Action): World
    requires Enabled(key, w, a)
  {
    match a
    case Arrive(req) => w.(queue := w.queue + [req], arrived := w.arrived + [req])
    case Start(env, clock) =>
      var req := w.queue[0];
      w.(queue := w.queue[1..],
         holder := Some(Section(req, env, clock, if req.Burn? then CheckingBurn else Checking(0, {}))))
    case CheckNext =>
      var s := w.holder.value;
      var input := s.req.tx.ins.value[s.phase.i];
      if CheckInput(s.env, s.req.tx, w.spent, s.phase.seen, input) == Pass then
        w.(holder := Some(s.(phase := Checking(s.phase.i + 1, s.phase.seen + {HashOfWire(input)}))))
      else Release(w, Refused)
    case Decide => (
      match Decision(w)
      case None => Release(w, Refused)
      case Some(plan) => w.(holder := Some(w.holder.value.(phase := Marking(plan, HashSet(plan), map[])))))
    case MarkOne(h) =>
      var s := w.holder.value;
      var marked := w.spent + {h};
      w.(spent := marked, pending := w.pending + [Write(w.nextId, marked)], nextId := w.nextId + 1,
         holder := Some(s.(phase := s.phase.(unmarked := s.phase.unmarked - {h}, writes := s.phase.writes[h := w.nextId]))))
    case Commit =>
      var s := w.holder.value;
      w.(holder := Some(s.(phase := Sending(s.phase.plan, 0))), consumed := w.consumed + s.phase.plan.hashes)
    case SendOne =>
      var s := w.holder.value;
      w.(released := w.released + {s.phase.plan.outputs[s.phase.sent]},
         holder := Some(s.(phase := s.phase.(sent := s.phase.sent + 1))))
    case Finish => Release(w, Completed)
    case Fail => (
      match w.holder.value.phase
      case Marking(_, unmarked, _) => Release(w, Broken(unmarked == {}, 0))
      case Sending(_, sent) => Release(w, Broken(true, sent))
      case _ => Release(w, Broken(false, 0)))
    case Save => w.(pending := w.pending + [Write(w.nextId, w.spent)], nextId := w.nextId + 1)
    case Land => w.(disk := w.pending[0].spent, acked := w.acked + {w.pending[0].id}, pending := w.pending[1..])
    case Lose => w.(pending := w.pending[1..])
    case MintBegin(p) => w.(minting := w.minting + multiset{p})
    case MintSend(p) =>
      w.(minting := w.minting - multiset{p}, released := w.released + {p}, minted := w.minted + Amount(p),
         mintedSince := w.mintedSince + {p})
    case MintFail(p) => w.(minting := w.minting - multiset{p})
    case Crash =>
      World([], None, w.disk, [], w.nextId, {}, w.disk, multiset{}, w.released, w.minted, w.consumed,
            w.disk, w.released, {}, [], [])
  }

  // ----- value at stake -----

  /** Released tokens that the durable spent-set would still accept after a restart. */
  ghost function Live(w: World): set<Payload> { set p | p in w.released && Digest(p) !in w.disk }

  ghost function PayloadSet(hs: set<Hash>): set<Payload> { set h | h in hs && h.Digest? :: h.payload }

  /** Tokens the holder is consuming. */
  ghost function Consuming(w: World): set<Payload> {
    if w.holder.None? then {}
    else
      match w.holder.value.phase
      case Checking(_, seen) => PayloadSet(seen)
      case CheckingBurn => {}
      case Marking(plan, _, _) => PayloadSet(HashSet(plan))
      case Sending(plan, _) => PayloadSet(HashSet(plan))
  }

  /** Value the holder may still release in their place. */
  ghost function Owed(w: World): nat {
    if w.holder.None? then 0
    else
      match w.holder.value.phase
      case Checking(_, seen) => Value(PayloadSet(seen))
      case CheckingBurn => 0
      case Marking(plan, _, _) => Total(plan.outputs)
      case Sending(plan, sent) => if sent <= |plan.outputs| then Total(plan.outputs[sent..]) else 0
  }

  // ----- invariants -----

  /** Disk, then the pending writes oldest first, then memory: each spent-set contains the one before. */
  ghost predicate StorageInv(w: World) {
    && w.disk <= w.spent
    && (forall i :: 0 <= i < |w.pending| ==> w.disk <= w.pending[i].spent <= w.spent)
    && (forall i, j :: 0 <= i < j < |w.pending| ==> w.pending[i].spent <= w.pending[j].spent)
    && (forall i :: 0 <= i < |w.pending| ==> w.pending[i].id < w.nextId && w.pending[i].id !in w.acked)
    && (forall i, j :: 0 <= i < j < |w.pending| ==> w.pending[i].id != w.pending[j].id)
    && (forall id :: id in w.acked ==> id < w.nextId)
  }

  ghost predicate CheckingInv(w: World, s: Section) {
    && s.phase.Checking? && !s.req.Burn?
    && (s.req.Unparsable? ==> s.phase.seen == {})
    && (s.req.Transfer? ==>
          if s.req.tx.ins.None? then s.phase.seen == {}
          else
            var ins := s.req.tx.ins.value;
            && s.phase.i <= |ins|
            && (forall k :: 0 <= k < s.phase.i ==> ins[k].Jwt?)
            && s.phase.seen == HashesUpTo(ins, s.phase.i)
            && (forall h :: h in s.phase.seen ==> h !in w.spent && h.Digest? && h.payload in w.released)
            && Validate(s.env, s.req.tx, w.spent) == ValidateFrom(s.env, s.req.tx, w.spent, s.phase.i, s.phase.seen))
  }

  /** The spent-set as it was when the holder took the lock. */
  ghost function SpentAtStart(w: World): set<Hash> {
    if w.holder.Some? && (w.holder.value.phase.Marking? || w.holder.value.phase.Sending?) then
      w.spent - HashSet(w.holder.value.phase.plan)
    else w.spent
  }

  ghost predicate MarkingInv(w: World, s: Section) {
    && s.phase.Marking?
    && PlanOf(s.env, s.clock, SpentAtStart(w), s.req) == Some(s.phase.plan)
    && s.phase.unmarked <= HashSet(s.phase.plan)
    && s.phase.writes.Keys == HashSet(s.phase.plan) - s.phase.unmarked
    && s.phase.writes.Keys <= w.spent
    && (forall h :: h in s.phase.unmarked ==> h !in w.spent)
    && (forall h :: h in s.phase.writes ==>
          && s.phase.writes[h] < w.nextId
          && (s.phase.writes[h] in w.acked ==> h in w.disk)
          && forall i :: 0 <= i < |w.pending| && w.pending[i].id == s.phase.writes[h] ==> h in w.pending[i].spent)
    && (forall h :: h in s.phase.plan.hashes ==> h !in w.consumed)
  }

  ghost predicate SendingInv(w: World, s: Section) {
    && s.phase.Sending?
    && PlanOf(s.env, s.clock, SpentAtStart(w), s.req) == Some(s.phase.plan)
    && s.phase.sent <= |s.phase.plan.outputs|
    && HashSet(s.phase.plan) <= w.disk
  }

  ghost predicate HolderInv(key: string, w: World) {
    w.holder.Some? ==>
      var s := w.holder.value;
      && s.env.key == key && Known(key, w.released, s.req)
      && match s.phase
         case Checking(_, _) => CheckingInv(w, s)
         case CheckingBurn => s.req.Burn?
         case Marking(_, _, _) => MarkingInv(w, s)
         case Sending(_, _) => SendingInv(w, s)
  }

  ghost predicate QueueKnown(key: string, w: World) {
    forall i :: 0 <= i < |w.queue| ==> Known(key, w.released, w.queue[i])
  }

  /** Hashes consumed by successful sections, ever: no repetition, all durable. */
  ghost predicate ConsumedInv(w: World) {
    Distinct(w.consumed) && forall h :: h in w.consumed ==> h in w.disk
  }

  /** Live value is covered by what was minted, even after the holder has released all it still may. */
  ghost predicate ValueInv(w: World) {
    && Value(Live(w)) <= w.minted
    && Value(Live(w) - Consuming(w)) + Owed(w) <= w.minted
  }

  ghost predicate Inv(key: string, w: World) {
    && StorageInv(w) && HolderInv(key, w) && QueueKnown(key, w) && ConsumedInv(w) && ValueInv(w)
  }
}
