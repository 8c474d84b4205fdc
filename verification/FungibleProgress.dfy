/**
 * The lock never leaves a good request stranded: whoever is first in line and would be accepted can be carried
 * through to the end, whatever writes are still under way.
 */
module FungibleProgress {
  import opened Prelude
  import opened Tokens
  import opened ForgeRules
  import opened FungibleLedger
  import FungibleSafety

  /** The actions lead from w to w'. */
  ghost predicate Leads(key: string, w: World, acts: seq<Action>, w': World)
    decreases |acts|
  {
    if acts == [] then w == w' else Enabled(key, w, acts[0]) && Leads(key, Next(key, w, acts[0]), acts[1..], w')
  }

  lemma {:induction false} LeadsOn(key: string, u: World, a: seq<Action>, v: World, b: seq<Action>, w: World)
    requires Leads(key, u, a, v) && Leads(key, v, b, w)
    ensures Leads(key, u, a + b, w)
    decreases |a|
  {
    if a == [] {
      assert a + b == b;
    } else {
      assert (a + b)[0] == a[0] && (a + b)[1..] == a[1..] + b;
      LeadsOn(key, Next(key, u, a[0]), a[1..], v, b, w);
    }
  }

  lemma OneStep(key: string, w: World, a: Action)
    requires Enabled(key, w, a)
    ensures Leads(key, w, [a], Next(key, w, a))
  {
    assert [a][1..] == [];
  }

  /** w with its section in another phase. */
  function InPhase(w: World, phase: Phase): World
    requires w.holder.Some?
  {
    w.(holder := Some(w.holder.value.(phase := phase)))
  }

  // ----- checking -----

  lemma {:induction false} CheckAll(key: string, w: World) returns (acts: seq<Action>, seen: set<Hash>)
    requires w.holder.Some? && w.holder.value.phase.Checking? && w.holder.value.req.Transfer?
    requires var s := w.holder.value;
             s.req.tx.ins.Some? && s.phase.i <= |s.req.tx.ins.value|
             && ValidateFrom(s.env, s.req.tx, w.spent, s.phase.i, s.phase.seen) == Pass
    ensures Leads(key, w, acts, InPhase(w, Checking(|w.holder.value.req.tx.ins.value|, seen)))
    decreases |w.holder.value.req.tx.ins.value| - w.holder.value.phase.i
  {
    var s := w.holder.value;
    var ins := s.req.tx.ins.value;
    if s.phase.i == |ins| {
      acts, seen := [], s.phase.seen;
    } else {
      var next := Next(key, w, CheckNext);
      var rest;
      rest, seen := CheckAll(key, next);
      OneStep(key, w, CheckNext);
      LeadsOn(key, w, [CheckNext], next, rest, InPhase(w, Checking(|ins|, seen)));
      acts := [CheckNext] + rest;
    }
  }

  // ----- marking, and the writes it waits for -----

  /** w and w' differ in the spent-set, in storage and in the section's phase only. */
  ghost predicate SameBut(w: World, w': World) {
    w' == w.(holder := w'.holder, spent := w'.spent, pending := w'.pending, nextId := w'.nextId, acked := w'.acked, disk := w'.disk)
  }

  /** The section is marking that plan's hashes, and every write it waits for has landed or is under way. */
  ghost predicate MarkingOf(w: World, s: Section, plan: Plan, unmarked: set<Hash>) {
    && w.holder.Some? && w.holder.value.phase.Marking? && w.holder.value.phase.plan == plan
    && w.holder.value == s.(phase := w.holder.value.phase) && w.holder.value.phase.unmarked == unmarked
    && forall h :: h in w.holder.value.phase.writes ==> Underway(w, w.holder.value.phase.writes[h])
  }

  ghost predicate Underway(w: World, id: nat) { id in w.acked || exists i :: 0 <= i < |w.pending| && w.pending[i].id == id }

  /** The last write under way, or else what landed last, holds the whole spent-set. */
  ghost predicate LastIsWhole(w: World) {
    if w.pending == [] then w.disk == w.spent else w.pending[|w.pending| - 1].spent == w.spent
  }

  lemma MarkStep(key: string, w: World, s: Section, plan: Plan, unmarked: set<Hash>, h: Hash)
    requires MarkingOf(w, s, plan, unmarked) && h in unmarked
    ensures Enabled(key, w, MarkOne(h))
    ensures var w' := Next(key, w, MarkOne(h));
            && SameBut(w, w') && w'.spent == w.spent + {h} && LastIsWhole(w')
            && MarkingOf(w', s, plan, unmarked - {h})
  {
    var w' := Next(key, w, MarkOne(h));
    forall g | g in w'.holder.value.phase.writes ensures Underway(w', w'.holder.value.phase.writes[g]) {
      if g == h {
        assert w'.pending[|w.pending|].id == w.nextId;
      } else {
        var id := w.holder.value.phase.writes[g];
        assert Underway(w, id);
        if id !in w.acked {
          var i :| 0 <= i < |w.pending| && w.pending[i].id == id;
          assert w'.pending[i] == w.pending[i];
        }
      }
    }
  }

  lemma {:induction false} MarkAll(key: string, w: World, s: Section, plan: Plan, unmarked: set<Hash>)
    returns (acts: seq<Action>, w': World)
    requires MarkingOf(w, s, plan, unmarked) && (unmarked == {} ==> LastIsWhole(w))
    ensures Leads(key, w, acts, w') && SameBut(w, w')
    ensures w'.spent == w.spent + unmarked && LastIsWhole(w') && MarkingOf(w', s, plan, {})
    decreases unmarked
  {
    if unmarked == {} {
      acts, w' := [], w;
    } else {
      var h :| h in unmarked;
      MarkStep(key, w, s, plan, unmarked, h);
      var next := Next(key, w, MarkOne(h));
      var rest;
      rest, w' := MarkAll(key, next, s, plan, unmarked - {h});
      OneStep(key, w, MarkOne(h));
      LeadsOn(key, w, [MarkOne(h)], next, rest, w');
      acts := [MarkOne(h)] + rest;
    }
  }

  lemma LandStep(key: string, w: World, s: Section, plan: Plan)
    requires MarkingOf(w, s, plan, {}) && LastIsWhole(w) && w.pending != []
    ensures Enabled(key, w, Land)
    ensures var w' := Next(key, w, Land);
            && SameBut(w, w') && w'.spent == w.spent && LastIsWhole(w') && MarkingOf(w', s, plan, {})
  {
    var w' := Next(key, w, Land);
    forall g | g in w'.holder.value.phase.writes ensures Underway(w', w'.holder.value.phase.writes[g]) {
      var id := w.holder.value.phase.writes[g];
      assert Underway(w, id);
      if id !in w'.acked {
        var i :| 0 <= i < |w.pending| && w.pending[i].id == id;
        assert w'.pending[i - 1] == w.pending[i];
      }
    }
  }

  /** All writes land. */
  lemma {:induction false} LandAll(key: string, w: World, s: Section, plan: Plan) returns (acts: seq<Action>, w': World)
    requires MarkingOf(w, s, plan, {}) && LastIsWhole(w)
    ensures Leads(key, w, acts, w') && SameBut(w, w')
    ensures w'.spent == w.spent && w'.disk == w.spent && w'.pending == [] && MarkingOf(w', s, plan, {})
    decreases |w.pending|
  {
    if w.pending == [] {
      acts, w' := [], w;
    } else {
      LandStep(key, w, s, plan);
      var next := Next(key, w, Land);
      var rest;
      rest, w' := LandAll(key, next, s, plan);
      OneStep(key, w, Land);
      LeadsOn(key, w, [Land], next, rest, w');
      acts := [Land] + rest;
    }
  }

  lemma CommitStep(key: string, w: World, s: Section, plan: Plan)
    requires MarkingOf(w, s, plan, {}) && w.pending == []
    ensures Enabled(key, w, Commit)
    ensures Next(key, w, Commit) == InPhase(w, Sending(plan, 0)).(consumed := w.consumed + plan.hashes)
  {
    var writes := w.holder.value.phase.writes;
    forall id | id in writes.Values ensures id in w.acked {
      var h :| h in writes && writes[h] == id;
      assert Underway(w, writes[h]);
    }
  }

  // ----- sending -----

  lemma {:induction false} SendAll(key: string, w: World, plan: Plan) returns (acts: seq<Action>)
    requires w.holder.Some? && w.holder.value.phase.Sending? && w.holder.value.phase.plan == plan
    requires w.holder.value.phase.sent <= |plan.outputs|
    ensures Leads(key, w, acts,
                  InPhase(w, Sending(plan, |plan.outputs|))
                    .(released := w.released + set i | w.holder.value.phase.sent <= i < |plan.outputs| :: plan.outputs[i]))
    decreases |plan.outputs| - w.holder.value.phase.sent
  {
    var sent := w.holder.value.phase.sent;
    var left := set i | sent <= i < |plan.outputs| :: plan.outputs[i];
    if sent == |plan.outputs| {
      acts := [];
      assert left == {} && w.released + left == w.released;
    } else {
      var next := Next(key, w, SendOne);
      var rest := SendAll(key, next, plan);
      var tail := set i | sent + 1 <= i < |plan.outputs| :: plan.outputs[i];
      assert left == {plan.outputs[sent]} + tail;
      assert next.released + tail == w.released + left;
      OneStep(key, w, SendOne);
      LeadsOn(key, w, [SendOne], next, rest, InPhase(w, Sending(plan, |plan.outputs|)).(released := w.released + left));
      acts := [SendOne] + rest;
    }
  }

  // ----- the whole section -----

  /** From a plan decided on to the end of the section. */
  lemma CarryOut(key: string, w: World, s: Section, plan: Plan) returns (acts: seq<Action>, w': World)
    requires MarkingOf(w, s, plan, HashSet(plan)) && plan.hashes != []
    ensures Leads(key, w, acts, w')
    ensures w'.holder.None? && w'.done == w.done + [Done(s.req, s.env, s.clock, Completed)] && w'.queue == w.queue
    ensures w'.spent == w.spent + HashSet(plan) == w'.disk
    ensures w'.released == w.released + set p | p in plan.outputs
    ensures w'.consumed == w.consumed + plan.hashes && w'.minted == w.minted && w'.arrived == w.arrived
  {
    assert plan.hashes[0] in HashSet(plan);
    var marks, marked := MarkAll(key, w, s, plan, HashSet(plan));
    var lands, landed := LandAll(key, marked, s, plan);
    LeadsOn(key, w, marks, marked, lands, landed);
    CommitStep(key, landed, s, plan);
    var committed := Next(key, landed, Commit);
    OneStep(key, landed, Commit);
    LeadsOn(key, w, marks + lands, landed, [Commit], committed);
    var sends := SendAll(key, committed, plan);
    var all := set i | 0 <= i < |plan.outputs| :: plan.outputs[i];
    var sent := InPhase(committed, Sending(plan, |plan.outputs|)).(released := committed.released + all);
    LeadsOn(key, w, marks + lands + [Commit], committed, sends, sent);
    OneStep(key, sent, Finish);
    w' := Next(key, sent, Finish);
    acts := marks + lands + [Commit] + sends + [Finish];
    LeadsOn(key, w, marks + lands + [Commit] + sends, sent, [Finish], w');
    assert all == set p | p in plan.outputs;
  }

  /** What the first in line would be decided on, once checked. */
  lemma Decided(key: string, w: World, env: Env, clock: Clock) returns (acts: seq<Action>, w': World)
    requires w.holder.None? && w.queue != [] && env.key == key
    requires PlanOf(env, clock, w.spent, w.queue[0]).Some?
    ensures var plan := PlanOf(env, clock, w.spent, w.queue[0]).value;
            var s := Section(w.queue[0], env, clock, Marking(plan, HashSet(plan), map[]));
            && Leads(key, w, acts, w')
            && w' == w.(queue := w.queue[1..], holder := Some(s))
  {
    var req := w.queue[0];
    var plan := PlanOf(env, clock, w.spent, req).value;
    var started := Next(key, w, Start(env, clock));
    OneStep(key, w, Start(env, clock));
    var checks: seq<Action>, checked := [], started;
    if req.Transfer? {
      var seen;
      checks, seen := CheckAll(key, started);
      checked := InPhase(started, Checking(|req.tx.ins.value|, seen));
    }
    LeadsOn(key, w, [Start(env, clock)], started, checks, checked);
    OneStep(key, checked, Decide);
    assert Decision(checked) == Some(plan);
    w' := Next(key, checked, Decide);
    acts := [Start(env, clock)] + checks + [Decide];
    LeadsOn(key, w, [Start(env, clock)] + checks, checked, [Decide], w');
  }

  /**
   * Whenever the lock is free and the first in line would be accepted on its own, there is a way through: its hashes
   * become durably spent, all its outputs are sent, its section completes, and the lock is free again.
   */
  lemma AcceptedCanComplete(key: string, w: World, env: Env, clock: Clock) returns (acts: seq<Action>, w': World)
    requires w.holder.None? && w.queue != [] && env.key == key
    requires PlanOf(env, clock, w.spent, w.queue[0]).Some?
    ensures var plan := PlanOf(env, clock, w.spent, w.queue[0]).value;
            && Leads(key, w, acts, w')
            && w'.holder.None? && w'.queue == w.queue[1..]
            && w'.done == w.done + [Done(w.queue[0], env, clock, Completed)]
            && w'.spent == w.spent + (set h | h in plan.hashes) == w'.disk
            && w'.released == w.released + (set p | p in plan.outputs)
            && w'.consumed == w.consumed + plan.hashes && w'.minted == w.minted
  {
    var plan := PlanOf(env, clock, w.spent, w.queue[0]).value;
    PlanConsumesUnspent(env, clock, w.spent, w.queue[0]);
    var first, decided := Decided(key, w, env, clock);
    var rest;
    rest, w' := CarryOut(key, decided, decided.holder.value, plan);
    LeadsOn(key, w, first, decided, rest, w');
    acts := first + rest;
  }

  /** A mint in flight goes out as it was made, or is dropped without a trace. */
  lemma MintGoesOut(key: string, w: World, p: Payload)
    requires p.iss == key && p.amount.Some? && p.amount.value > 0
    ensures Leads(key, w, [MintBegin(p), MintSend(p)],
                  w.(released := w.released + {p}, minted := w.minted + p.amount.value, mintedSince := w.mintedSince + {p}))
    ensures Leads(key, w, [MintBegin(p), MintFail(p)], w)
  {
    var begun := Next(key, w, MintBegin(p));
    assert begun.minting - multiset{p} == w.minting;
    OneStep(key, w, MintBegin(p));
    OneStep(key, begun, MintSend(p));
    OneStep(key, begun, MintFail(p));
    LeadsOn(key, w, [MintBegin(p)], begun, [MintSend(p)], Next(key, begun, MintSend(p)));
    LeadsOn(key, w, [MintBegin(p)], begun, [MintFail(p)], Next(key, begun, MintFail(p)));
    assert [MintBegin(p)] + [MintSend(p)] == [MintBegin(p), MintSend(p)];
    assert [MintBegin(p)] + [MintFail(p)] == [MintBegin(p), MintFail(p)];
  }

  /** The model leaves nothing bad out: other saves, failing writes, and an exception once all marks are made or none is. */
  lemma FaultsPossible(key: string, w: World)
    ensures Enabled(key, w, Save) && (w.pending != [] ==> Enabled(key, w, Lose) && Enabled(key, w, Land))
    ensures w.holder.Some? && !w.holder.value.phase.Marking? ==> Enabled(key, w, Fail)
    ensures w.holder.Some? && w.holder.value.phase.Marking? && w.holder.value.phase.unmarked == {} ==> Enabled(key, w, Fail)
    ensures w.holder.Some? && w.holder.value.phase.Marking? && w.holder.value.phase.writes == map[] ==> Enabled(key, w, Fail)
  {
  }

  // ----- what is released is the forge's own -----

  predicate OwnCoin(key: string, p: Payload) { p.iss == key && p.amount.Some? && p.amount.value > 0 }

  /** Tokens released, in flight, and planned by the section are the forge's, of positive amounts. */
  ghost predicate AllOwn(key: string, w: World) {
    && (forall p :: p in w.released ==> OwnCoin(key, p))
    && (forall p :: p in w.minting ==> OwnCoin(key, p))
    && (w.holder.Some? ==>
          match w.holder.value.phase
          case Marking(plan, _, _) => forall p :: p in plan.outputs ==> OwnCoin(key, p)
          case Sending(plan, _) => forall p :: p in plan.outputs ==> OwnCoin(key, p)
          case _ => true)
  }

  lemma DecidedOwn(key: string, w: World)
    requires AllOwn(key, w) && w.holder.Some? && w.holder.value.env.key == key && Enabled(key, w, Decide)
    ensures AllOwn(key, Next(key, w, Decide))
  {
    var s := w.holder.value;
    if s.phase.Checking? && s.req.Transfer? && AllRestored(s.req.tx) && Decision(w).Some? {
      TransferConserves(key, s.clock, TokensOf(s.req.tx.ins.value), s.req.tx.outs, s.req.sender);
    }
  }

  lemma SectionOwn(key: string, w: World, a: Action)
    requires AllOwn(key, w) && Enabled(key, w, a) && (a.MarkOne? || a.Commit? || a.SendOne? || a.CheckNext?)
    ensures AllOwn(key, Next(key, w, a))
  {
    var w' := Next(key, w, a);
    assert w'.minting == w.minting;
  }

  lemma MintOwn(key: string, w: World, a: Action)
    requires AllOwn(key, w) && Enabled(key, w, a) && (a.MintBegin? || a.MintSend? || a.MintFail?)
    ensures AllOwn(key, Next(key, w, a))
  {
    var w' := Next(key, w, a);
    assert w'.holder == w.holder;
    assert forall p :: p in w'.minting ==> p in w.minting || (a.MintBegin? && p == a.p);
  }

  lemma StepOwn(key: string, w: World, a: Action)
    requires AllOwn(key, w) && Enabled(key, w, a) && (w.holder.Some? ==> w.holder.value.env.key == key)
    ensures AllOwn(key, Next(key, w, a))
  {
    match a
    case Decide => DecidedOwn(key, w);
    case MarkOne(_) => SectionOwn(key, w, a);
    case Commit => SectionOwn(key, w, a);
    case SendOne => SectionOwn(key, w, a);
    case CheckNext => SectionOwn(key, w, a);
    case MintBegin(_) => MintOwn(key, w, a);
    case MintSend(_) => MintOwn(key, w, a);
    case MintFail(_) => MintOwn(key, w, a);
    case _ => assert Next(key, w, a).released == w.released;
  }

  /** Over every run, each token ever released names this forge as its issuer and a positive amount. */
  lemma {:induction false} ReleasedAreOwn(key: string, ws: seq<World>, acts: seq<Action>)
    requires FungibleSafety.IsRun(key, ws, acts)
    ensures AllOwn(key, ws[|acts|])
    ensures forall p :: p in ws[|acts|].released ==> p.iss == key && p.amount.Some? && p.amount.value > 0
    decreases |acts|
  {
    if acts != [] {
      var n := |acts| - 1;
      ReleasedAreOwn(key, ws[..n + 1], acts[..n]);
      FungibleSafety.RunKeeps(key, ws[..n + 1], acts[..n]);
      assert Enabled(key, ws[n], acts[n]) && ws[n + 1] == Next(key, ws[n], acts[n]);
      StepOwn(key, ws[n], acts[n]);
    }
  }

  /** A restart finds the spent-set as it last landed; what was under way is gone, what was released or consumed is not. */
  lemma CrashKeepsDisk(key: string, w: World)
    ensures Enabled(key, w, Crash)
    ensures var w' := Next(key, w, Crash);
            && w'.spent == w.disk && w'.disk == w.disk && w'.pending == [] && w'.holder.None? && w'.queue == []
            && w'.minting == multiset{} && w'.released == w.released && w'.minted == w.minted && w'.consumed == w.consumed
  {
  }
}
