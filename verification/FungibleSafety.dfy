/** Safety of the fungible ledger over every run: conservation of value and single consumption. */
module FungibleSafety {
  import opened Prelude
  import opened Tokens
  import opened ForgeRules
  import opened FungibleLedger

  // ----- small facts -----

  lemma AllKnownMonotone(key: string, w: World, w': World)
    requires w.released <= w'.released && w.queue == w'.queue
    requires QueueKnown(key, w)
    ensures QueueKnown(key, w')
  {
    forall i | 0 <= i < |w.queue| ensures Known(key, w'.released, w.queue[i]) {
      KnownMonotone(key, w.released, w'.released, w.queue[i]);
    }
  }

  lemma PayloadSetAdd(hs: set<Hash>, p: Payload)
    ensures PayloadSet(hs + {Digest(p)}) == PayloadSet(hs) + {p}
  {
    forall q ensures q in PayloadSet(hs + {Digest(p)}) <==> q in PayloadSet(hs) + {p} {
      assert q in PayloadSet(hs) <==> Digest(q) in hs;
      assert q in PayloadSet(hs + {Digest(p)}) <==> Digest(q) in hs + {Digest(p)};
    }
  }

  // ----- steps of the holder -----

  lemma ReleaseKeeps(key: string, w: World, fate: Fate)
    requires Inv(key, w) && w.holder.Some?
    ensures Inv(key, Release(w, fate))
  {
    var w' := Release(w, fate);
    assert Live(w') == Live(w);
    assert Live(w') - {} == Live(w');
  }

  /** Moving a live token from the live set into the holder's hands changes no total. */
  lemma TakeLive(live: set<Payload>, seen: set<Hash>, p: Payload)
    requires p in live && Digest(p) !in seen
    ensures Value(live - PayloadSet(seen + {Digest(p)})) + Value(PayloadSet(seen + {Digest(p)}))
            == Value(live - PayloadSet(seen)) + Value(PayloadSet(seen))
  {
    var taken := PayloadSet(seen);
    PayloadSetAdd(seen, p);
    assert p !in taken;
    ValueAdd(taken, p);
    ValueRemove(live - taken, p);
    assert live - taken - {p} == live - (taken + {p});
  }

  lemma CheckNextKeeps(key: string, w: World)
    requires Inv(key, w) && Enabled(key, w, CheckNext)
    ensures Inv(key, Next(key, w, CheckNext))
  {
    var s := w.holder.value;
    var input := s.req.tx.ins.value[s.phase.i];
    if CheckInput(s.env, s.req.tx, w.spent, s.phase.seen, input) == Pass {
      CheckPassed(key, w);
    } else {
      ReleaseKeeps(key, w, Refused);
    }
  }

  lemma CheckPassedHolder(key: string, w: World)
    requires HolderInv(key, w) && Enabled(key, w, CheckNext)
    requires var s := w.holder.value;
             CheckInput(s.env, s.req.tx, w.spent, s.phase.seen, s.req.tx.ins.value[s.phase.i]) == Pass
    ensures var s := w.holder.value;
            var input := s.req.tx.ins.value[s.phase.i];
            && CheckingInv(Next(key, w, CheckNext), Next(key, w, CheckNext).holder.value)
            && input.Jwt? && input.token.payload in w.released
            && HashOfWire(input) !in w.spent && HashOfWire(input) !in s.phase.seen
  {
    var s := w.holder.value;
    var ins := s.req.tx.ins.value;
    var input := ins[s.phase.i];
    assert KnownWire(key, w.released, input);
    CheckedInput(key, s.env, s.req.tx, w.released, w.spent, s.phase.seen, input);
    assert HashesUpTo(ins, s.phase.i + 1) == HashesUpTo(ins, s.phase.i) + {HashOfWire(input)};
  }

  lemma CheckPassed(key: string, w: World)
    requires Inv(key, w) && Enabled(key, w, CheckNext)
    requires var s := w.holder.value;
             CheckInput(s.env, s.req.tx, w.spent, s.phase.seen, s.req.tx.ins.value[s.phase.i]) == Pass
    ensures Inv(key, Next(key, w, CheckNext))
  {
    var s := w.holder.value;
    var input := s.req.tx.ins.value[s.phase.i];
    var w' := Next(key, w, CheckNext);
    CheckPassedHolder(key, w);
    assert Live(w') == Live(w);
    TakeLive(Live(w), s.phase.seen, input.token.payload);
  }

  lemma HashesCover(tx: Tx)
    requires AllRestored(tx)
    ensures HashesUpTo(tx.ins.value, |tx.ins.value|) == set h | h in HashesOf(TokensOf(tx.ins.value))
  {
    var ins := tx.ins.value;
    var hs := HashesOf(TokensOf(ins));
    forall i | 0 <= i < |ins| ensures hs[i] == HashOfWire(ins[i]) && hs[i] in HashesUpTo(ins, |ins|) && hs[i] in hs { }
  }

  /** The listed payloads of distinct digests are distinct, and make up the payload set. */
  lemma PlanValue(ts: seq<Token>)
    requires Distinct(HashesOf(ts))
    ensures Total(PayloadsOf(ts)) == Value(PayloadSet(set h | h in HashesOf(ts)))
  {
    var hs, ps := HashesOf(ts), PayloadsOf(ts);
    forall i, j | 0 <= i < j < |ps| ensures ps[i] != ps[j] {
      assert hs[i] != hs[j];
    }
    TotalIsValue(ps);
    forall p ensures p in ToSet(ps) <==> p in PayloadSet(set h | h in hs) {
      if p in ps {
        var i :| 0 <= i < |ps| && ps[i] == p;
        assert hs[i] == Digest(p);
      }
      if Digest(p) in hs {
        var i :| 0 <= i < |hs| && hs[i] == Digest(p);
        assert ps[i] == p;
      }
    }
    assert ToSet(ps) == PayloadSet(set h | h in hs);
  }

  /** At the end of the checks the decision is the plan the whole section has for the memory it started from. */
  lemma DecisionIsPlan(key: string, w: World)
    requires Inv(key, w) && Enabled(key, w, Decide)
    ensures Decision(w) == PlanOf(w.holder.value.env, w.holder.value.clock, w.spent, w.holder.value.req)
  {
    var s := w.holder.value;
    if s.req.Transfer? {
      if s.req.tx.ins.Some? {
        assert Validate(s.env, s.req.tx, w.spent) == Pass;
        PassedInputsRestore(s.env, s.req.tx, w.spent);
      }
    }
  }

  /** The plan is to be marked: nothing of it is marked yet. */
  lemma DecideHolder(key: string, w: World)
    requires HolderInv(key, w) && ConsumedInv(w) && StorageInv(w) && Enabled(key, w, Decide) && Decision(w).Some?
    requires Decision(w) == PlanOf(w.holder.value.env, w.holder.value.clock, w.spent, w.holder.value.req)
    ensures HolderInv(key, Next(key, w, Decide))
  {
    var s := w.holder.value;
    var plan := Decision(w).value;
    var w' := Next(key, w, Decide);
    PlanConsumesUnspent(s.env, s.clock, w.spent, s.req);
    assert HashSet(plan) !! w.spent;
    assert SpentAtStart(w') == w.spent;
  }

  /** A transfer's plan consumes exactly its inputs and releases exactly their value. */
  lemma PlanOfInputs(env: Env, clock: Clock, spent: set<Hash>, tx: Tx, sender: string, plan: Plan)
    requires PlanOf(env, clock, spent, Transfer(tx, sender)) == Some(plan) && AllRestored(tx)
    ensures HashSet(plan) == HashesUpTo(tx.ins.value, |tx.ins.value|)
    ensures Total(plan.outputs) == Value(PayloadSet(HashSet(plan)))
  {
    TransferPlanSound(env, clock, spent, tx, sender);
    PlanConsumesUnspent(env, clock, spent, Transfer(tx, sender));
    HashesCover(tx);
    PlanValue(TokensOf(tx.ins.value));
  }

  lemma PlanOfChecked(key: string, w: World, plan: Plan)
    requires HolderInv(key, w) && Enabled(key, w, Decide) && Decision(w) == Some(plan) && w.holder.value.req.Transfer?
    requires PlanOf(w.holder.value.env, w.holder.value.clock, w.spent, w.holder.value.req) == Some(plan)
    ensures w.holder.value.phase.Checking? && HashSet(plan) == w.holder.value.phase.seen
    ensures Total(plan.outputs) == Value(PayloadSet(HashSet(plan)))
  {
    var s := w.holder.value;
    PlanOfInputs(s.env, s.clock, w.spent, s.req.tx, s.req.sender, plan);
  }

  /** Inputs for outputs of the same value, or a burnt token for nothing. */
  lemma DecideValue(key: string, w: World)
    requires ValueInv(w) && HolderInv(key, w) && Enabled(key, w, Decide) && Decision(w).Some?
    requires Decision(w) == PlanOf(w.holder.value.env, w.holder.value.clock, w.spent, w.holder.value.req)
    ensures ValueInv(Next(key, w, Decide))
  {
    var plan := Decision(w).value;
    if w.holder.value.req.Transfer? {
      PlanOfChecked(key, w, plan);
    } else {
      assert Total(plan.outputs) == 0;
    }
    SamePhaseValue(w, Marking(plan, HashSet(plan), map[]));
  }

  /** A phase that consumes at least as much and owes no more keeps the value covered. */
  lemma SamePhaseValue(w: World, phase: Phase)
    requires ValueInv(w) && w.holder.Some? && phase.Marking?
    requires var consumed := PayloadSet(HashSet(phase.plan));
             || (Consuming(w) == consumed && Total(phase.plan.outputs) == Owed(w))
             || Total(phase.plan.outputs) == 0
    ensures ValueInv(w.(holder := Some(w.holder.value.(phase := phase))))
  {
    var w' := w.(holder := Some(w.holder.value.(phase := phase)));
    assert Live(w') == Live(w);
    ValueMonotone(Live(w) - PayloadSet(HashSet(phase.plan)), Live(w));
  }

  lemma DecideKeeps(key: string, w: World)
    requires Inv(key, w) && Enabled(key, w, Decide)
    ensures Inv(key, Next(key, w, Decide))
  {
    DecisionIsPlan(key, w);
    if Decision(w).None? {
      ReleaseKeeps(key, w, Refused);
    } else {
      DecideHolder(key, w);
      DecideValue(key, w);
    }
  }

  lemma MarkStorage(key: string, w: World, h: Hash)
    requires StorageInv(w) && Enabled(key, w, MarkOne(h))
    ensures StorageInv(Next(key, w, MarkOne(h)))
  {
    var w' := Next(key, w, MarkOne(h));
    assert w'.pending[..|w.pending|] == w.pending;
  }

  lemma MarkHolder(key: string, w: World, h: Hash)
    requires StorageInv(w) && Enabled(key, w, MarkOne(h)) && MarkingInv(w, w.holder.value)
    ensures MarkingInv(Next(key, w, MarkOne(h)), Next(key, w, MarkOne(h)).holder.value)
  {
    var w' := Next(key, w, MarkOne(h));
    assert h in HashSet(w.holder.value.phase.plan);
    assert SpentAtStart(w') == SpentAtStart(w);
    assert w'.pending[..|w.pending|] == w.pending;
  }

  lemma MarkKeeps(key: string, w: World, h: Hash)
    requires Inv(key, w) && Enabled(key, w, MarkOne(h))
    ensures Inv(key, Next(key, w, MarkOne(h)))
  {
    var w' := Next(key, w, MarkOne(h));
    MarkStorage(key, w, h);
    MarkHolder(key, w, h);
    assert Live(w') == Live(w);
  }

  lemma CommitKeeps(key: string, w: World)
    requires Inv(key, w) && Enabled(key, w, Commit)
    ensures Inv(key, Next(key, w, Commit))
  {
    var w' := Next(key, w, Commit);
    var s := w.holder.value;
    var plan := s.phase.plan;
    PlanConsumesUnspent(s.env, s.clock, SpentAtStart(w), s.req);
    forall h | h in plan.hashes ensures h in w.disk {
      assert h in s.phase.writes;
      assert s.phase.writes[h] in s.phase.writes.Values;
    }
    assert SpentAtStart(w') == SpentAtStart(w);
    assert Live(w') == Live(w);
    assert plan.outputs[0..] == plan.outputs;
    DistinctAppend(w.consumed, plan.hashes);
  }

  lemma DistinctAppend(a: seq<Hash>, b: seq<Hash>)
    requires Distinct(a) && Distinct(b) && forall h :: h in b ==> h !in a
    ensures Distinct(a + b)
  {
    var c := a + b;
    forall i, j | 0 <= i < j < |c| ensures c[i] != c[j] {
      if i < |a| <= j {
        assert c[j] in b;
      }
    }
  }

  /** One more released token raises live value by at most its amount. */
  lemma LiveGrows(w: World, w': World, p: Payload)
    requires w'.released == w.released + {p} && w'.disk == w.disk
    ensures Value(Live(w')) <= Value(Live(w)) + Amount(p)
    ensures forall c: set<Payload> :: Value(Live(w') - c) <= Value(Live(w) - c) + Amount(p)
  {
    forall c: set<Payload> ensures Value(Live(w') - c) <= Value(Live(w) - c) + Amount(p) {
      ValueAdd(Live(w) - c, p);
      ValueMonotone(Live(w') - c, Live(w) - c + {p});
    }
    assert Live(w') - {} == Live(w') && Live(w) - {} == Live(w);
  }

  lemma SendKeeps(key: string, w: World)
    requires Inv(key, w) && Enabled(key, w, SendOne)
    ensures Inv(key, Next(key, w, SendOne))
  {
    var w' := Next(key, w, SendOne);
    var s := w.holder.value;
    var plan := s.phase.plan;
    var q := plan.outputs[s.phase.sent];
    var rest := plan.outputs[s.phase.sent..];
    assert rest[0] == q && rest[1..] == plan.outputs[s.phase.sent + 1..];
    assert Consuming(w) !! Live(w);
    assert Live(w) - Consuming(w) == Live(w);
    LiveGrows(w, w', q);
    assert Live(w') - Consuming(w') == Live(w') - Consuming(w);
    AllKnownMonotone(key, w, w');
    KnownMonotone(key, w.released, w'.released, s.req);
  }

  // ----- steps beside the holder -----

  lemma StartKeeps(key: string, w: World, env: Env, clock: Clock)
    requires Inv(key, w) && Enabled(key, w, Start(env, clock))
    ensures Inv(key, Next(key, w, Start(env, clock)))
  {
    var w' := Next(key, w, Start(env, clock));
    var req := w.queue[0];
    assert Live(w') == Live(w);
    assert Known(key, w.released, w.queue[0]);
    assert PayloadSet({}) == {};
    assert Live(w') - {} == Live(w');
    if req.Transfer? && req.tx.ins.Some? {
      assert HashesUpTo(req.tx.ins.value, 0) == {};
    }
    forall i | 0 <= i < |w'.queue| ensures Known(key, w'.released, w'.queue[i]) {
      assert w'.queue[i] == w.queue[i + 1];
    }
  }

  lemma LandStorage(key: string, w: World)
    requires StorageInv(w) && Enabled(key, w, Land)
    ensures StorageInv(Next(key, w, Land)) && w.disk <= Next(key, w, Land).disk
  {
    var w' := Next(key, w, Land);
    assert forall i :: 0 <= i < |w'.pending| ==> w'.pending[i] == w.pending[i + 1];
  }

  lemma LandHolder(key: string, w: World)
    requires StorageInv(w) && HolderInv(key, w) && Enabled(key, w, Land)
    ensures HolderInv(key, Next(key, w, Land))
  {
    var w' := Next(key, w, Land);
    assert forall i :: 0 <= i < |w'.pending| ==> w'.pending[i] == w.pending[i + 1];
    assert w.disk <= w.pending[0].spent;
    if w.holder.Some? {
      assert SpentAtStart(w') == SpentAtStart(w);
    }
  }

  lemma LandKeeps(key: string, w: World)
    requires Inv(key, w) && Enabled(key, w, Land)
    ensures Inv(key, Next(key, w, Land))
  {
    var w' := Next(key, w, Land);
    LandStorage(key, w);
    LandHolder(key, w);
    ValueMonotone(Live(w'), Live(w));
    assert Consuming(w') == Consuming(w);
    ValueMonotone(Live(w') - Consuming(w), Live(w) - Consuming(w));
  }

  lemma SaveLoseStorage(key: string, w: World, a: Action)
    requires StorageInv(w) && Enabled(key, w, a) && (a.Save? || a.Lose?)
    ensures StorageInv(Next(key, w, a))
  {
    var w' := Next(key, w, a);
    assert a.Lose? ==> forall i :: 0 <= i < |w'.pending| ==> w'.pending[i] == w.pending[i + 1];
    assert a.Save? ==> w'.pending[..|w.pending|] == w.pending;
  }

  lemma SaveLoseHolder(key: string, w: World, a: Action)
    requires StorageInv(w) && HolderInv(key, w) && Enabled(key, w, a) && (a.Save? || a.Lose?)
    ensures HolderInv(key, Next(key, w, a))
  {
    var w' := Next(key, w, a);
    if w.holder.Some? {
      assert SpentAtStart(w') == SpentAtStart(w);
      if a.Lose? {
        assert forall i :: 0 <= i < |w'.pending| ==> w'.pending[i] == w.pending[i + 1];
      } else {
        assert w'.pending[..|w.pending|] == w.pending;
      }
    }
  }

  lemma StorageKeeps(key: string, w: World, a: Action)
    requires Inv(key, w) && Enabled(key, w, a) && (a.Save? || a.Lose?)
    ensures Inv(key, Next(key, w, a))
  {
    var w' := Next(key, w, a);
    SaveLoseStorage(key, w, a);
    SaveLoseHolder(key, w, a);
    assert Live(w') == Live(w);
    assert Consuming(w') == Consuming(w);
  }

  lemma MintHolder(key: string, w: World, a: Action)
    requires HolderInv(key, w) && Enabled(key, w, a) && (a.MintBegin? || a.MintSend? || a.MintFail?)
    ensures HolderInv(key, Next(key, w, a))
  {
    var w' := Next(key, w, a);
    if w.holder.Some? {
      KnownMonotone(key, w.released, w'.released, w.holder.value.req);
      assert SpentAtStart(w') == SpentAtStart(w);
    }
  }

  lemma MintValue(key: string, w: World, a: Action)
    requires ValueInv(w) && Enabled(key, w, a) && (a.MintBegin? || a.MintSend? || a.MintFail?)
    ensures ValueInv(Next(key, w, a))
  {
    var w' := Next(key, w, a);
    assert Consuming(w') == Consuming(w) && Owed(w') == Owed(w);
    if a.MintSend? {
      LiveGrows(w, w', a.p);
    } else {
      assert Live(w') == Live(w);
    }
  }

  lemma MintKeeps(key: string, w: World, a: Action)
    requires Inv(key, w) && Enabled(key, w, a) && (a.MintBegin? || a.MintSend? || a.MintFail?)
    ensures Inv(key, Next(key, w, a))
  {
    AllKnownMonotone(key, w, Next(key, w, a));
    MintHolder(key, w, a);
    MintValue(key, w, a);
  }

  lemma CrashKeeps(key: string, w: World)
    requires Inv(key, w)
    ensures Inv(key, Next(key, w, Crash))
  {
    var w' := Next(key, w, Crash);
    assert Live(w') == Live(w) && Live(w') - {} == Live(w');
  }

  lemma ArriveKeeps(key: string, w: World, req: Request)
    requires Inv(key, w) && Enabled(key, w, Arrive(req))
    ensures Inv(key, Next(key, w, Arrive(req)))
  {
    var w' := Next(key, w, Arrive(req));
    ArriveHolder(key, w, req);
    assert Live(w') == Live(w) && Consuming(w') == Consuming(w);
  }

  lemma ArriveHolder(key: string, w: World, req: Request)
    requires HolderInv(key, w) && Enabled(key, w, Arrive(req))
    ensures HolderInv(key, Next(key, w, Arrive(req)))
  {
    var w' := Next(key, w, Arrive(req));
    if w.holder.Some? {
      assert SpentAtStart(w') == SpentAtStart(w);
    }
  }

  lemma StepKeeps(key: string, w: World, a: Action)
    requires Inv(key, w) && Enabled(key, w, a)
    ensures Inv(key, Next(key, w, a))
  {
    match a
    case Arrive(req) => ArriveKeeps(key, w, req);
    case Start(env, clock) => StartKeeps(key, w, env, clock);
    case CheckNext => CheckNextKeeps(key, w);
    case Decide => DecideKeeps(key, w);
    case MarkOne(h) => MarkKeeps(key, w, h);
    case Commit => CommitKeeps(key, w);
    case SendOne => SendKeeps(key, w);
    case Finish => ReleaseKeeps(key, w, Completed);
    case Fail => ReleaseKeeps(key, w, Next(key, w, a).done[|w.done|].fate);
    case Land => LandKeeps(key, w);
    case Save => StorageKeeps(key, w, a);
    case Lose => StorageKeeps(key, w, a);
    case Crash => CrashKeeps(key, w);
    case _ => MintKeeps(key, w, a);
  }

  // ----- whole runs -----

  ghost predicate IsRun(key: string, ws: seq<World>, acts: seq<Action>) {
    && |ws| == |acts| + 1 && ws[0] == Initial
    && forall k :: 0 <= k < |acts| ==> Enabled(key, ws[k], acts[k]) && ws[k + 1] == Next(key, ws[k], acts[k])
  }

  lemma {:induction false} RunKeeps(key: string, ws: seq<World>, acts: seq<Action>)
    requires IsRun(key, ws, acts)
    ensures Inv(key, ws[|acts|])
    decreases |acts|
  {
    if acts == [] {
      assert Live(Initial) == {};
    } else {
      var n := |acts| - 1;
      RunKeeps(key, ws[..n + 1], acts[..n]);
      assert Enabled(key, ws[n], acts[n]) && ws[n + 1] == Next(key, ws[n], acts[n]);
      StepKeeps(key, ws[n], acts[n]);
    }
  }

  /**
   * Over every run, with mints, transfers and burns interleaved at every await, writes landing late or
   * failing, and crashes anywhere: the released tokens that would be accepted after a restart are never
   * worth more than what was minted; not even together with what the lock holder may still send.
   */
  lemma ValueNeverExceedsMinted(key: string, ws: seq<World>, acts: seq<Action>)
    requires IsRun(key, ws, acts)
    ensures Value(Live(ws[|acts|])) <= ws[|acts|].minted
    ensures Value(Live(ws[|acts|]) - Consuming(ws[|acts|])) + Owed(ws[|acts|]) <= ws[|acts|].minted
  {
    RunKeeps(key, ws, acts);
  }

  /** No token hash is consumed by two successful transfers or burns, even across restarts; and consumption is durable. */
  lemma ConsumedOnce(key: string, ws: seq<World>, acts: seq<Action>)
    requires IsRun(key, ws, acts)
    ensures Distinct(ws[|acts|].consumed)
    ensures forall h :: h in ws[|acts|].consumed ==> h in ws[|acts|].disk && h in ws[|acts|].spent
  {
    RunKeeps(key, ws, acts);
  }

  /** Nothing is sent for a plan until every hash it consumes is durable. */
  lemma DurableBeforeSending(key: string, ws: seq<World>, acts: seq<Action>)
    requires IsRun(key, ws, acts) && Enabled(key, ws[|acts|], SendOne)
    ensures HashSet(ws[|acts|].holder.value.phase.plan) <= ws[|acts|].disk
  {
    RunKeeps(key, ws, acts);
  }
}
