/** What one completed transfer does to live value, counted over sets of token hashes. */
module LiveValue {
  import opened Prelude
  import opened Tokens
  import opened ForgeRules
  import FungibleLedger
  import FungibleSafety

  /** Released tokens that the spent-set would still accept. */
  ghost function Live(released: set<Payload>, spent: set<Hash>): set<Payload> {
    set p | p in released && Digest(p) !in spent
  }

  ghost predicate AllPositive(ps: seq<Payload>) { forall p :: p in ps ==> Positive(p.amount) }

  /** A payload listed twice counts once: the total exceeds the value as soon as there is a repetition. */
  lemma {:induction false} RepetitionLoses(ps: seq<Payload>)
    requires AllPositive(ps) && !Distinct(ps)
    ensures Value(ToSet(ps)) < Total(ps)
  {
    var rest := ps[1..];
    assert ToSet(ps) == ToSet(rest) + {ps[0]};
    ValueAdd(ToSet(rest), ps[0]);
    TotalIsValue(rest);
    DistinctCons(ps);
    if ps[0] !in rest {
      RepetitionLoses(rest);
    }
  }

  lemma DistinctCons(ps: seq<Payload>)
    requires ps != []
    ensures Distinct(ps) <==> ps[0] !in ps[1..] && Distinct(ps[1..])
  {
    var rest := ps[1..];
    assert forall i :: 0 <= i < |rest| ==> rest[i] == ps[i + 1];
    if ps[0] !in rest && Distinct(rest) {
      forall i, j | 0 <= i < j < |ps| ensures ps[i] != ps[j] {
        assert ps[j] == rest[j - 1];
        if i > 0 { assert ps[i] == rest[i - 1]; }
      }
    }
  }

  lemma StrictSubsetLoses(s: set<Payload>, t: set<Payload>, p: Payload)
    requires s <= t && p in t && p !in s && Positive(p.amount)
    ensures Value(s) < Value(t)
  {
    ValueRemove(t, p);
    ValueMonotone(s, t - {p});
  }

  /** An output is new when no released token and no spent hash is equal to it. */
  ghost predicate Fresh(released: set<Payload>, spent: set<Hash>, p: Payload) {
    p !in released && Digest(p) !in spent
  }

  ghost predicate AllFresh(released: set<Payload>, spent: set<Hash>, outputs: seq<Payload>) {
    Distinct(outputs) && forall p :: p in outputs ==> Fresh(released, spent, p)
  }

  /** Only fresh outputs add value. */
  lemma FreshValue(released: set<Payload>, spent: set<Hash>, outputs: seq<Payload>)
    requires AllPositive(outputs)
    ensures var gained := set p | p in outputs && Fresh(released, spent, p);
            Value(gained) <= Total(outputs) && (Value(gained) == Total(outputs) <==> AllFresh(released, spent, outputs))
  {
    var gained := set p | p in outputs && Fresh(released, spent, p);
    ValueMonotone(gained, ToSet(outputs));
    TotalIsValue(outputs);
    if AllFresh(released, spent, outputs) {
      assert gained == ToSet(outputs);
    } else if Distinct(outputs) {
      var p :| p in outputs && !Fresh(released, spent, p);
      StrictSubsetLoses(gained, ToSet(outputs), p);
    } else {
      RepetitionLoses(outputs);
    }
  }

  /** Sets only: inputs leave the live set, fresh outputs join it. */
  lemma LiveAfter(released: set<Payload>, spent: set<Hash>, ins: set<Payload>, hashes: set<Hash>, outputs: seq<Payload>)
    requires ins <= Live(released, spent)
    requires forall p :: p in ins <==> Digest(p) in hashes
    ensures var gained := set p | p in outputs && Fresh(released, spent, p);
            && gained !! Live(released, spent)
            && Live(released + ToSet(outputs), spent + hashes) == (Live(released, spent) - ins) + gained
  {
    var gained := set p | p in outputs && Fresh(released, spent, p);
    var before := Live(released, spent);
    var after := Live(released + ToSet(outputs), spent + hashes);
    forall p ensures p in after <==> p in before - ins + gained {
    }
  }

  lemma InputsAreLive(env: Env, clock: Clock, spent: set<Hash>, released: set<Payload>, tx: Tx, sender: string)
    requires PlanOf(env, clock, spent, Transfer(tx, sender)).Some? && Known(env.key, released, Transfer(tx, sender))
    ensures AllRestored(tx) && Distinct(HashesOf(TokensOf(tx.ins.value)))
    ensures ToSet(PayloadsOf(TokensOf(tx.ins.value))) <= Live(released, spent)
  {
    PassedInputsRestore(env, tx, spent);
    ValidateMeans(env, tx, spent);
    var ins := tx.ins.value;
    forall i | 0 <= i < |ins| ensures ins[i].token.payload in Live(released, spent) {
      assert InputGood(env, tx, spent, i);
      assert KnownWire(env.key, released, ins[i]);
    }
  }

  /**
   * A completed transfer never raises live value, and leaves it exactly as it was if and only if its outputs
   * are pairwise different and new (equal payloads have one hash, so they would be one token).
   */
  lemma TransferLiveValue(env: Env, clock: Clock, spent: set<Hash>, released: set<Payload>, tx: Tx, sender: string)
    requires PlanOf(env, clock, spent, Transfer(tx, sender)).Some? && Known(env.key, released, Transfer(tx, sender))
    ensures var plan := PlanOf(env, clock, spent, Transfer(tx, sender)).value;
            var before := Value(Live(released, spent));
            var after := Value(Live(released + ToSet(plan.outputs), spent + FungibleLedger.HashSet(plan)));
            after <= before && (after == before <==> AllFresh(released, spent, plan.outputs))
  {
    var plan := PlanOf(env, clock, spent, Transfer(tx, sender)).value;
    InputsAreLive(env, clock, spent, released, tx, sender);
    TransferPlanSound(env, clock, spent, tx, sender);
    var ts := TokensOf(tx.ins.value);
    TransferConserves(env.key, clock, ts, tx.outs, sender);
    FungibleSafety.PlanValue(ts);
    var hashes := FungibleLedger.HashSet(plan);
    assert hashes == set h | h in HashesOf(ts);
    var ins := FungibleLedger.PayloadSet(hashes);
    SamePayloads(ts);
    ValueBalance(released, spent, ins, hashes, plan.outputs);
  }

  lemma SamePayloads(ts: seq<Token>)
    ensures FungibleLedger.PayloadSet(set h | h in HashesOf(ts)) == ToSet(PayloadsOf(ts))
  {
    var hs, ps := HashesOf(ts), PayloadsOf(ts);
    forall p ensures Digest(p) in hs <==> p in ps {
      if Digest(p) in hs {
        var i :| 0 <= i < |hs| && hs[i] == Digest(p);
        assert ps[i] == p;
      }
      if p in ps {
        var i :| 0 <= i < |ps| && ps[i] == p;
        assert hs[i] == Digest(p);
      }
    }
  }

  lemma ValueBalance(released: set<Payload>, spent: set<Hash>, ins: set<Payload>, hashes: set<Hash>, outputs: seq<Payload>)
    requires ins <= Live(released, spent) && ins == FungibleLedger.PayloadSet(hashes)
    requires AllPositive(outputs) && Total(outputs) == Value(ins)
    ensures var before := Value(Live(released, spent));
            var after := Value(Live(released + ToSet(outputs), spent + hashes));
            after <= before && (after == before <==> AllFresh(released, spent, outputs))
  {
    assert forall p :: p in ins <==> Digest(p) in hashes;
    LiveAfter(released, spent, ins, hashes, outputs);
    FreshValue(released, spent, outputs);
    var before := Live(released, spent);
    var gained := set p | p in outputs && Fresh(released, spent, p);
    ValueDisjoint(before - ins, ins);
    assert before - ins + ins == before;
    ValueDisjoint(before - ins, gained);
  }
}
