/**
 * The fungible ledger behind the promise chain itself: a transfer or burn begins when the chain lets its callback
 * begin, whatever the ledger is doing, and settles its call when its section ends. The chain is shown to let only
 * one section in at a time, in arrival order, so every such run is a run of the ledger.
 */
module LockedLedger {
  import opened Prelude
  import opened Tokens
  import opened ForgeRules
  import opened FungibleLedger
  import FungibleSafety
  import FungibleSerial
  import Lock = PromiseLock

  /** running is the number of the call whose section the ledger holds. */
  datatype Forge = Forge(chain: Lock.Chain, running: nat, world: World)

  const Fresh := Forge(Lock.Initial, 0, FungibleLedger.Initial)

  datatype Move =
    | Arrives(req: Request)                          // runExclusive is called
    | Begins(i: nat, env: Env, clock: Clock)         // the callback of call i begins
    | Advances(i: nat)                               // the chain hands the settled call i on
    | Acts(a: Action)                                // a step of the section that runs, or beside it
    | Crashes

  /** A callback begins when the chain allows it; nothing is asked of the ledger. */
  ghost predicate Possible(key: string, f: Forge, m: Move) {
    match m
    case Arrives(req) => Lock.Enabled(f.chain, Lock.Call) && Enabled(key, f.world, Arrive(req))
    case Begins(i, env, clock) => Lock.Enabled(f.chain, Lock.Begin(i)) && env.key == key
    case Advances(i) => Lock.Enabled(f.chain, Lock.Advance(i))
    case Acts(a) => !a.Arrive? && !a.Start? && !a.Crash? && Enabled(key, f.world, a)
    case Crashes => true
  }

  /** The callback of call i takes over: its own request, whatever else was going on. */
  function Takeover(w: World, i: nat, env: Env, clock: Clock): World {
    if i < |w.arrived| then
      w.(queue := w.arrived[i + 1..],
         holder := Some(Section(w.arrived[i], env, clock, if w.arrived[i].Burn? then CheckingBurn else Checking(0, {}))))
    else w
  }

  /** A call settles when its section ends: rejected by an exception, resolved otherwise. */
  ghost function Settled(f: Forge, w: World): Lock.Chain {
    var ended := f.world.holder.Some? && w.holder.None? && |w.done| > 0;
    var settle := Lock.Finish(f.running, ended && !w.done[|w.done| - 1].fate.Broken?);
    if ended && Lock.Enabled(f.chain, settle) then Lock.Next(f.chain, settle) else f.chain
  }

  ghost function After(key: string, f: Forge, m: Move): Forge
    requires Possible(key, f, m)
  {
    match m
    case Arrives(req) => f.(chain := Lock.Next(f.chain, Lock.Call), world := Next(key, f.world, Arrive(req)))
    case Begins(i, env, clock) => Forge(Lock.Next(f.chain, Lock.Begin(i)), i, Takeover(f.world, i, env, clock))
    case Advances(i) => f.(chain := Lock.Next(f.chain, Lock.Advance(i)))
    case Acts(a) =>
      var w := Next(key, f.world, a);
      f.(chain := Settled(f, w), world := w)
    case Crashes => Forge(Lock.Initial, 0, Next(key, f.world, Crash))
  }

  // ----- chain and ledger stay in step -----

  /** The first |done| calls are over; the next one runs exactly when the ledger has a holder. */
  ghost predicate InStep(f: Forge) {
    var w := f.world;
    var front := |w.done|;
    && Lock.Inv(f.chain, front)
    && |f.chain.results| == |w.arrived|
    && (w.holder.Some? <==> front < |f.chain.results| && f.chain.started[front])
    && (w.holder.Some? ==> f.running == front)
    && w.arrived == FungibleSerial.Requests(w.done) + FungibleSerial.Holding(w) + w.queue
  }

  /** When the chain lets a callback begin, the ledger is free and that callback's request is first in line. */
  lemma ChainGuards(key: string, f: Forge, i: nat, env: Env, clock: Clock)
    requires InStep(f) && Possible(key, f, Begins(i, env, clock))
    ensures i == |f.world.done| && f.world.holder.None? && f.world.queue != []
    ensures Enabled(key, f.world, Start(env, clock))
    ensures Takeover(f.world, i, env, clock) == Next(key, f.world, Start(env, clock))
  {
    var w := f.world;
    Lock.ChainRefinesQueue(f.chain, Lock.Begin(i), |w.done|);
    assert |w.arrived| == |w.done| + |w.queue|;
    assert w.arrived[i] == w.queue[0];
    assert w.arrived[i + 1..] == w.queue[1..];
  }

  lemma BeginsInStep(key: string, f: Forge, i: nat, env: Env, clock: Clock)
    requires InStep(f) && Possible(key, f, Begins(i, env, clock))
    ensures InStep(After(key, f, Begins(i, env, clock)))
  {
    ChainGuards(key, f, i, env, clock);
    Lock.ChainRefinesQueue(f.chain, Lock.Begin(i), |f.world.done|);
    FungibleSerial.FirstQueued(FungibleSerial.Requests(f.world.done), f.world.queue);
  }

  lemma ArrivesInStep(key: string, f: Forge, req: Request)
    requires InStep(f) && Possible(key, f, Arrives(req))
    ensures InStep(After(key, f, Arrives(req)))
  {
    var w := f.world;
    Lock.ChainRefinesQueue(f.chain, Lock.Call, |w.done|);
    FungibleSerial.LastArrived(FungibleSerial.Requests(w.done), FungibleSerial.Holding(w), w.queue, req);
  }

  /** An action of the ledger keeps its section, or ends it. */
  lemma ActionEnds(key: string, w: World, a: Action)
    requires Enabled(key, w, a) && !a.Arrive? && !a.Start? && !a.Crash?
    ensures var w' := Next(key, w, a);
            && w'.arrived == w.arrived && w'.queue == w.queue
            && (w.holder.None? ==> w'.holder.None? && w'.done == w.done)
            && (w.holder.Some? && w'.holder.Some? ==> w'.done == w.done && w'.holder.value.req == w.holder.value.req)
            && (w.holder.Some? && w'.holder.None? ==>
                  |w'.done| == |w.done| + 1 && w'.done[..|w.done|] == w.done && w'.done[|w.done|].req == w.holder.value.req)
  {
  }

  lemma ActsInStep(key: string, f: Forge, a: Action)
    requires InStep(f) && Possible(key, f, Acts(a))
    ensures InStep(After(key, f, Acts(a)))
  {
    var w, w' := f.world, Next(key, f.world, a);
    ActionEnds(key, w, a);
    if w.holder.Some? && w'.holder.None? {
      var last := w'.done[|w.done|];
      assert w'.done == w.done + [last];
      EndInStep(f, w', last);
    } else {
      assert FungibleSerial.Holding(w') == FungibleSerial.Holding(w);
    }
  }

  /** A section that ends settles its own call, the first one not over. */
  lemma EndInStep(f: Forge, w': World, last: Done)
    requires InStep(f) && f.world.holder.Some? && w'.holder.None?
    requires w'.done == f.world.done + [last] && last.req == f.world.holder.value.req
    requires w'.arrived == f.world.arrived && w'.queue == f.world.queue
    ensures InStep(f.(chain := Settled(f, w'), world := w'))
  {
    var settle := Lock.Finish(f.running, !last.fate.Broken?);
    Lock.ChainRefinesQueue(f.chain, settle, |f.world.done|);
    FungibleSerial.ServedAreArrived(f.world.done, last, f.world.queue);
  }

  lemma AdvancesInStep(key: string, f: Forge, i: nat)
    requires InStep(f) && Possible(key, f, Advances(i))
    ensures InStep(After(key, f, Advances(i)))
  {
    Lock.ChainRefinesQueue(f.chain, Lock.Advance(i), |f.world.done|);
  }

  lemma MoveInStep(key: string, f: Forge, m: Move)
    requires InStep(f) && Possible(key, f, m)
    ensures InStep(After(key, f, m))
  {
    match m
    case Arrives(req) => ArrivesInStep(key, f, req);
    case Begins(i, env, clock) => BeginsInStep(key, f, i, env, clock);
    case Advances(i) => AdvancesInStep(key, f, i);
    case Acts(a) => ActsInStep(key, f, a);
    case Crashes => assert FungibleSerial.Requests([]) == [];
  }

  // ----- runs -----

  ghost predicate IsRun(key: string, fs: seq<Forge>, ms: seq<Move>) {
    && |fs| == |ms| + 1 && fs[0] == Fresh
    && forall k :: 0 <= k < |ms| ==> Possible(key, fs[k], ms[k]) && fs[k + 1] == After(key, fs[k], ms[k])
  }

  /** The ledger's action in a move; None for a step of the chain alone. */
  ghost function Projected(m: Move): Option<Action> {
    match m
    case Arrives(req) => Some(Arrive(req))
    case Begins(_, env, clock) => Some(Start(env, clock))
    case Advances(_) => None
    case Acts(a) => Some(a)
    case Crashes => Some(Crash)
  }

  lemma MoveProjects(key: string, f: Forge, m: Move)
    requires InStep(f) && Possible(key, f, m)
    ensures match Projected(m)
            case None => After(key, f, m).world == f.world
            case Some(a) => Enabled(key, f.world, a) && After(key, f, m).world == Next(key, f.world, a)
  {
    if m.Begins? {
      ChainGuards(key, f, m.i, m.env, m.clock);
    }
  }

  lemma ExtendRun(key: string, ws: seq<World>, acts: seq<Action>, a: Action)
    requires FungibleSafety.IsRun(key, ws, acts) && Enabled(key, ws[|acts|], a)
    ensures FungibleSafety.IsRun(key, ws + [Next(key, ws[|acts|], a)], acts + [a])
  {
    var w := Next(key, ws[|acts|], a);
    var vs, bs := ws + [w], acts + [a];
    forall k | 0 <= k < |bs| ensures Enabled(key, vs[k], bs[k]) && vs[k + 1] == Next(key, vs[k], bs[k]) {
      if k < |acts| { assert vs[k] == ws[k] && vs[k + 1] == ws[k + 1] && bs[k] == acts[k]; }
    }
  }

  /** Nothing but the chain holds a section back: it may crash at any point, and within a section all the ledger allows may happen. */
  lemma Unhindered(key: string, f: Forge, a: Action, i: nat, env: Env, clock: Clock)
    ensures Possible(key, f, Crashes)
    ensures Enabled(key, f.world, a) && !a.Arrive? && !a.Start? && !a.Crash? ==> Possible(key, f, Acts(a))
    ensures env.key == key && Lock.Enabled(f.chain, Lock.Begin(i)) ==> Possible(key, f, Begins(i, env, clock))
  {
  }

  /** A run behind the chain goes on by any move that is possible. */
  lemma GoOn(key: string, fs: seq<Forge>, ms: seq<Move>, m: Move)
    requires IsRun(key, fs, ms) && Possible(key, fs[|ms|], m)
    ensures IsRun(key, fs + [After(key, fs[|ms|], m)], ms + [m]) && IsRun(key, [Fresh], [])
  {
    var gs, ns := fs + [After(key, fs[|ms|], m)], ms + [m];
    forall k | 0 <= k < |ns| ensures Possible(key, gs[k], ns[k]) && gs[k + 1] == After(key, gs[k], ns[k]) {
      if k < |ms| { assert gs[k] == fs[k] && gs[k + 1] == fs[k + 1] && ns[k] == ms[k]; }
    }
  }

  /** Every run behind the promise chain is a run of the ledger, and chain and ledger end in step. */
  lemma {:induction false} RunProjects(key: string, fs: seq<Forge>, ms: seq<Move>)
    returns (ws: seq<World>, acts: seq<Action>)
    requires IsRun(key, fs, ms)
    ensures FungibleSafety.IsRun(key, ws, acts) && ws[|acts|] == fs[|ms|].world
    ensures InStep(fs[|ms|])
    decreases |ms|
  {
    if ms == [] {
      ws, acts := [FungibleLedger.Initial], [];
      assert FungibleSerial.Requests([]) == [];
    } else {
      var n := |ms| - 1;
      ws, acts := RunProjects(key, fs[..n + 1], ms[..n]);
      assert Possible(key, fs[n], ms[n]) && fs[n + 1] == After(key, fs[n], ms[n]);
      MoveInStep(key, fs[n], ms[n]);
      MoveProjects(key, fs[n], ms[n]);
      if Projected(ms[n]).Some? {
        var a := Projected(ms[n]).value;
        ExtendRun(key, ws, acts, a);
        ws, acts := ws + [Next(key, ws[|acts|], a)], acts + [a];
      }
    }
  }

  /**
   * Behind the promise chain, with callbacks beginning whenever the chain allows: when no section runs, the
   * requests of this life were served in arrival order, each with the verdict it would get alone, and the
   * spent-set and the released tokens are those of serving them one by one.
   */
  lemma LockedSerialEquivalence(key: string, fs: seq<Forge>, ms: seq<Move>)
    requires IsRun(key, fs, ms) && fs[|ms|].world.holder.None?
    ensures var w := fs[|ms|].world;
            var served := FungibleSerial.ServeAll(w.bootSpent, w.done);
            && w.arrived == FungibleSerial.Requests(w.done) + w.queue
            && FungibleSerial.VerdictsAgree(w.bootSpent, w.done)
            && w.spent == served.0
            && w.released == w.bootReleased + w.mintedSince + served.1
  {
    var ws, acts := RunProjects(key, fs, ms);
    FungibleSerial.SerialEquivalence(key, ws, acts);
  }

  /** And live value never exceeds what was minted, nor is a hash consumed twice. */
  lemma LockedSafety(key: string, fs: seq<Forge>, ms: seq<Move>)
    requires IsRun(key, fs, ms)
    ensures Value(Live(fs[|ms|].world)) <= fs[|ms|].world.minted && Distinct(fs[|ms|].world.consumed)
  {
    var ws, acts := RunProjects(key, fs, ms);
    FungibleSafety.ValueNeverExceedsMinted(key, ws, acts);
    FungibleSafety.ConsumedOnce(key, ws, acts);
  }
}
