/**
 * The lock makes the interleaved ledger equivalent to serving transfers and burns one at a time in the
 * order they arrived: same verdicts, same spent-set, same released tokens.
 */
module FungibleSerial {
  import opened Prelude
  import opened Tokens
  import opened ForgeRules
  import opened FungibleLedger
  import opened FungibleSafety

  ghost function FirstOutputs(plan: Plan, n: nat): set<Payload> {
    set i | 0 <= i < n && i < |plan.outputs| :: plan.outputs[i]
  }

  /**
   * A section served alone from the spent-set it finds: refused when it has no plan, else all its hashes
   * are marked and all its outputs sent, unless an exception broke it off part-way.
   */
  ghost function Serve(spent: set<Hash>, d: Done): (set<Hash>, set<Payload>) {
    match PlanOf(d.env, d.clock, spent, d.req)
    case None => (spent, {})
    case Some(plan) =>
      match d.fate
      case Broken(marked, sent) => (if marked then spent + HashSet(plan) else spent, FirstOutputs(plan, sent))
      case _ => (spent + HashSet(plan), FirstOutputs(plan, |plan.outputs|))
  }

  /** Serving sections one after the other: the spent-set reached and everything released. */
  ghost function ServeAll(boot: set<Hash>, ds: seq<Done>): (set<Hash>, set<Payload>)
    decreases |ds|
  {
    if ds == [] then (boot, {})
    else
      var before := ServeAll(boot, ds[..|ds| - 1]);
      var last := Serve(before.0, ds[|ds| - 1]);
      (last.0, before.1 + last.1)
  }

  /** Each recorded verdict is the one the serial order gives. */
  ghost predicate VerdictsAgree(boot: set<Hash>, ds: seq<Done>) {
    forall k :: 0 <= k < |ds| ==>
      var plan := PlanOf(ds[k].env, ds[k].clock, ServeAll(boot, ds[..k]).0, ds[k].req);
      && (ds[k].fate.Refused? ==> plan.None?)
      && (ds[k].fate.Completed? ==> plan.Some?)
  }

  function Requests(ds: seq<Done>): (rs: seq<Request>)
    ensures |rs| == |ds| && forall i :: 0 <= i < |ds| ==> rs[i] == ds[i].req
  {
    seq(|ds|, i requires 0 <= i < |ds| => ds[i].req)
  }

  /** What the holder has marked and sent so far. */
  ghost function Marked(w: World): set<Hash> {
    if w.holder.None? then {}
    else
      match w.holder.value.phase
      case Marking(plan, unmarked, _) => HashSet(plan) - unmarked
      case Sending(plan, _) => HashSet(plan)
      case _ => {}
  }

  ghost function Sent(w: World): set<Payload> {
    if w.holder.Some? && w.holder.value.phase.Sending? then FirstOutputs(w.holder.value.phase.plan, w.holder.value.phase.sent) else {}
  }

  ghost function Holding(w: World): seq<Request> {
    if w.holder.None? then [] else [w.holder.value.req]
  }

  ghost predicate SerialInv(w: World) {
    var served := ServeAll(w.bootSpent, w.done);
    && w.spent == served.0 + Marked(w)
    && SpentAtStart(w) == served.0
    && w.released == w.bootReleased + w.mintedSince + served.1 + Sent(w)
    && w.arrived == Requests(w.done) + Holding(w) + w.queue
    && VerdictsAgree(w.bootSpent, w.done)
  }

  lemma ServeAllSnoc(boot: set<Hash>, ds: seq<Done>, d: Done)
    ensures ServeAll(boot, ds + [d]).0 == Serve(ServeAll(boot, ds).0, d).0
    ensures ServeAll(boot, ds + [d]).1 == ServeAll(boot, ds).1 + Serve(ServeAll(boot, ds).0, d).1
  {
    assert (ds + [d])[..|ds|] == ds;
  }

  lemma VerdictsSnoc(boot: set<Hash>, ds: seq<Done>, d: Done)
    requires VerdictsAgree(boot, ds)
    requires d.fate.Refused? ==> PlanOf(d.env, d.clock, ServeAll(boot, ds).0, d.req).None?
    requires d.fate.Completed? ==> PlanOf(d.env, d.clock, ServeAll(boot, ds).0, d.req).Some?
    ensures VerdictsAgree(boot, ds + [d])
  {
    var all := ds + [d];
    forall k | 0 <= k < |all|
      ensures var plan := PlanOf(all[k].env, all[k].clock, ServeAll(boot, all[..k]).0, all[k].req);
              && (all[k].fate.Refused? ==> plan.None?)
              && (all[k].fate.Completed? ==> plan.Some?)
    {
      if k < |ds| {
        assert all[..k] == ds[..k] && all[k] == ds[k];
      } else {
        assert all[..k] == ds;
      }
    }
  }

  /** Ending a section adds exactly what serving it alone would have done. */
  lemma ReleaseSerial(w: World, fate: Fate)
    requires SerialInv(w) && w.holder.Some?
    requires var s := w.holder.value;
             var d := Done(s.req, s.env, s.clock, fate);
             var before := ServeAll(w.bootSpent, w.done);
             && Serve(before.0, d) == (w.spent, Sent(w))
             && (fate.Refused? ==> PlanOf(s.env, s.clock, before.0, s.req).None?)
             && (fate.Completed? ==> PlanOf(s.env, s.clock, before.0, s.req).Some?)
    ensures SerialInv(Release(w, fate))
  {
    var s := w.holder.value;
    var d := Done(s.req, s.env, s.clock, fate);
    var w' := Release(w, fate);
    assert w'.done == w.done + [d] && w'.bootSpent == w.bootSpent;
    ServeAllSnoc(w.bootSpent, w.done, d);
    VerdictsSnoc(w.bootSpent, w.done, d);
    ServedAreArrived(w.done, d, w.queue);
    assert Holding(w) == [d.req] && Holding(w') == [];
    assert Marked(w') == {} && Sent(w') == {};
  }

  lemma ServedAreArrived(ds: seq<Done>, d: Done, queue: seq<Request>)
    ensures Requests(ds) + [d.req] + queue == Requests(ds + [d]) + [] + queue
  {
    assert Requests(ds + [d]) == Requests(ds) + [d.req];
  }

  lemma CheckNextSerial(key: string, w: World)
    requires Inv(key, w) && SerialInv(w) && Enabled(key, w, CheckNext)
    ensures SerialInv(Next(key, w, CheckNext))
  {
    var s := w.holder.value;
    var input := s.req.tx.ins.value[s.phase.i];
    if CheckInput(s.env, s.req.tx, w.spent, s.phase.seen, input) != Pass {
      FailedCheckHasNoPlan(key, w);
      ReleaseSerial(w, Refused);
    } else {
      CheckedOn(key, w);
    }
  }

  lemma FailedCheckHasNoPlan(key: string, w: World)
    requires HolderInv(key, w) && Enabled(key, w, CheckNext)
    requires var s := w.holder.value;
             CheckInput(s.env, s.req.tx, w.spent, s.phase.seen, s.req.tx.ins.value[s.phase.i]) != Pass
    ensures PlanOf(w.holder.value.env, w.holder.value.clock, w.spent, w.holder.value.req).None?
  {
    var s := w.holder.value;
    assert Validate(s.env, s.req.tx, w.spent) != Pass;
  }

  lemma CheckedOn(key: string, w: World)
    requires SerialInv(w) && Enabled(key, w, CheckNext) && w.holder.value.phase.Checking?
    requires Next(key, w, CheckNext).holder.Some?
    ensures SerialInv(Next(key, w, CheckNext))
  {
    var w' := Next(key, w, CheckNext);
    assert Marked(w') == {} == Marked(w) && Sent(w') == {} == Sent(w) && Holding(w') == Holding(w);
    assert SpentAtStart(w') == SpentAtStart(w);
  }

  lemma DecideSerial(key: string, w: World)
    requires Inv(key, w) && SerialInv(w) && Enabled(key, w, Decide)
    ensures SerialInv(Next(key, w, Decide))
  {
    var s := w.holder.value;
    DecisionIsPlan(key, w);
    if Decision(w).None? {
      ReleaseSerial(w, Refused);
    } else {
      var w' := Next(key, w, Decide);
      PlanConsumesUnspent(s.env, s.clock, w.spent, s.req);
      assert HashSet(Decision(w).value) !! w.spent;
      assert SpentAtStart(w') == w.spent;
      assert Marked(w') == {};
    }
  }

  lemma EndSending(key: string, w: World, fate: Fate)
    requires Inv(key, w) && SerialInv(w) && w.holder.Some? && w.holder.value.phase.Sending?
    requires var phase := w.holder.value.phase;
             fate == Broken(true, phase.sent) || (fate == Completed && phase.sent == |phase.plan.outputs|)
    ensures SerialInv(Release(w, fate))
  {
    ReleaseSerial(w, fate);
  }

  lemma FailMarking(key: string, w: World)
    requires Inv(key, w) && SerialInv(w) && w.holder.Some? && w.holder.value.phase.Marking?
    requires w.holder.value.phase.unmarked == {} || w.holder.value.phase.writes == map[]
    ensures SerialInv(Release(w, Broken(w.holder.value.phase.unmarked == {}, 0)))
  {
    var s := w.holder.value;
    var marked := s.phase.unmarked == {};
    var before := SpentAtStart(w);
    ServeBroken(before, Done(s.req, s.env, s.clock, Broken(marked, 0)), s.phase.plan, marked);
    if !marked {
      assert s.phase.writes.Keys == {};
      assert Marked(w) == {};
    }
    assert w.spent == if marked then before + HashSet(s.phase.plan) else before;
    ReleaseSerial(w, Broken(marked, 0));
  }

  lemma ServeBroken(before: set<Hash>, d: Done, plan: Plan, marked: bool)
    requires PlanOf(d.env, d.clock, before, d.req) == Some(plan) && d.fate == Broken(marked, 0)
    ensures Serve(before, d) == (if marked then before + HashSet(plan) else before, {})
  {
    assert FirstOutputs(plan, 0) == {};
  }

  lemma FailChecking(key: string, w: World)
    requires Inv(key, w) && SerialInv(w) && w.holder.Some?
    requires w.holder.value.phase.Checking? || w.holder.value.phase.CheckingBurn?
    ensures SerialInv(Release(w, Broken(false, 0)))
  {
    var s := w.holder.value;
    var plan := PlanOf(s.env, s.clock, w.spent, s.req);
    assert plan.Some? ==> FirstOutputs(plan.value, 0) == {};
    ReleaseSerial(w, Broken(false, 0));
  }

  lemma FirstOutputsNext(plan: Plan, k: nat)
    requires k < |plan.outputs|
    ensures FirstOutputs(plan, k + 1) == FirstOutputs(plan, k) + {plan.outputs[k]}
  {
  }

  lemma SendSerial(key: string, w: World)
    requires Inv(key, w) && SerialInv(w) && Enabled(key, w, SendOne)
    ensures SerialInv(Next(key, w, SendOne))
  {
    var s := w.holder.value;
    var plan, k := s.phase.plan, s.phase.sent;
    FirstOutputsNext(plan, k);
    assert SpentAtStart(Next(key, w, SendOne)) == SpentAtStart(w);
  }

  lemma MarkSerial(key: string, w: World, h: Hash)
    requires Inv(key, w) && SerialInv(w) && Enabled(key, w, MarkOne(h))
    ensures SerialInv(Next(key, w, MarkOne(h)))
  {
    var w' := Next(key, w, MarkOne(h));
    assert h in HashSet(w.holder.value.phase.plan);
    assert SpentAtStart(w') == SpentAtStart(w);
    assert Marked(w') == Marked(w) + {h};
  }

  lemma CommitSerial(key: string, w: World)
    requires Inv(key, w) && SerialInv(w) && Enabled(key, w, Commit)
    ensures SerialInv(Next(key, w, Commit))
  {
    var w' := Next(key, w, Commit);
    assert FirstOutputs(w.holder.value.phase.plan, 0) == {};
    assert Marked(w') == Marked(w) && Sent(w') == {} && SpentAtStart(w') == SpentAtStart(w);
  }

  lemma ArriveSerial(key: string, w: World, req: Request)
    requires SerialInv(w) && Enabled(key, w, Arrive(req))
    ensures SerialInv(Next(key, w, Arrive(req)))
  {
    LastArrived(Requests(w.done), Holding(w), w.queue, req);
  }

  lemma LastArrived(a: seq<Request>, b: seq<Request>, c: seq<Request>, req: Request)
    ensures a + b + c + [req] == a + b + (c + [req])
  {
  }

  lemma StartSerial(key: string, w: World, env: Env, clock: Clock)
    requires SerialInv(w) && Enabled(key, w, Start(env, clock))
    ensures SerialInv(Next(key, w, Start(env, clock)))
  {
    var w' := Next(key, w, Start(env, clock));
    FirstQueued(Requests(w.done), w.queue);
    assert Holding(w) == [] && Holding(w') == [w.queue[0]];
    assert Marked(w') == {} && Sent(w') == {};
  }

  lemma FirstQueued(a: seq<Request>, queue: seq<Request>)
    requires queue != []
    ensures a + [] + queue == a + [queue[0]] + queue[1..]
  {
  }

  lemma BesideSerial(key: string, w: World, a: Action)
    requires SerialInv(w) && Enabled(key, w, a)
    requires a.Save? || a.Land? || a.Lose? || a.MintBegin? || a.MintSend? || a.MintFail?
    ensures SerialInv(Next(key, w, a))
  {
    var w' := Next(key, w, a);
    assert w'.holder == w.holder && w'.spent == w.spent && w'.done == w.done && w'.bootSpent == w.bootSpent;
    assert Marked(w') == Marked(w) && Sent(w') == Sent(w) && SpentAtStart(w') == SpentAtStart(w) && Holding(w') == Holding(w);
  }

  lemma CrashSerial(key: string, w: World)
    ensures SerialInv(Next(key, w, Crash))
  {
    assert Requests([]) == [];
  }

  lemma StepSerial(key: string, w: World, a: Action)
    requires Inv(key, w) && SerialInv(w) && Enabled(key, w, a)
    ensures SerialInv(Next(key, w, a))
  {
    match a
    case Arrive(req) => ArriveSerial(key, w, req);
    case Start(env, clock) => StartSerial(key, w, env, clock);
    case CheckNext => CheckNextSerial(key, w);
    case Decide => DecideSerial(key, w);
    case MarkOne(h) => MarkSerial(key, w, h);
    case Commit => CommitSerial(key, w);
    case SendOne => SendSerial(key, w);
    case Finish => EndSending(key, w, Completed);
    case Fail => FailSerial(key, w);
    case Crash => CrashSerial(key, w);
    case _ => BesideSerial(key, w, a);
  }

  lemma FailSerial(key: string, w: World)
    requires Inv(key, w) && SerialInv(w) && Enabled(key, w, Fail)
    ensures SerialInv(Next(key, w, Fail))
  {
    if w.holder.value.phase.Marking? {
      FailMarking(key, w);
    } else if w.holder.value.phase.Sending? {
      EndSending(key, w, Broken(true, w.holder.value.phase.sent));
    } else {
      FailChecking(key, w);
    }
  }

  lemma {:induction false} RunSerial(key: string, ws: seq<World>, acts: seq<Action>)
    requires IsRun(key, ws, acts)
    ensures SerialInv(ws[|acts|])
    decreases |acts|
  {
    if acts == [] {
      assert Requests([]) == [];
    } else {
      var n := |acts| - 1;
      RunSerial(key, ws[..n + 1], acts[..n]);
      RunKeeps(key, ws[..n + 1], acts[..n]);
      assert Enabled(key, ws[n], acts[n]) && ws[n + 1] == Next(key, ws[n], acts[n]);
      StepSerial(key, ws[n], acts[n]);
    }
  }

  lemma IdleSerial(w: World)
    requires SerialInv(w) && w.holder.None?
    ensures var served := ServeAll(w.bootSpent, w.done);
            && w.arrived == Requests(w.done) + w.queue
            && VerdictsAgree(w.bootSpent, w.done)
            && w.spent == served.0
            && w.released == w.bootReleased + w.mintedSince + served.1
  {
    NothingAdded(ServeAll(w.bootSpent, w.done).0);
    NothingAdded(w.bootReleased + w.mintedSince + ServeAll(w.bootSpent, w.done).1);
    NothingBetween(Requests(w.done), w.queue);
  }

  lemma NothingAdded<T>(s: set<T>)
    ensures s + {} == s
  {
  }

  lemma NothingBetween<T>(a: seq<T>, b: seq<T>)
    ensures a + [] + b == a + b
  {
  }

  /**
   * Whenever the lock is free, the requests of this life were served in arrival order, each got the verdict it
   * would get alone, and the spent-set and the released tokens (mints apart) are those of serving them one by one.
   */
  lemma SerialEquivalence(key: string, ws: seq<World>, acts: seq<Action>)
    requires IsRun(key, ws, acts) && ws[|acts|].holder.None?
    ensures var w := ws[|acts|];
            var served := ServeAll(w.bootSpent, w.done);
            && w.arrived == Requests(w.done) + w.queue
            && VerdictsAgree(w.bootSpent, w.done)
            && w.spent == served.0
            && w.released == w.bootReleased + w.mintedSince + served.1
  {
    RunSerial(key, ws, acts);
    IdleSerial(ws[|acts|]);
  }
}
