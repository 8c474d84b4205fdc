/**
 * The non-fungible ledger can always move on: a transfer whose inputs are good is carried through exactly as the
 * handler serves it, recipient by recipient, and a mint goes out, whatever writes are still under way.
 */
module NftProgress {
  import opened Prelude
  import opened Tokens
  import opened ForgeRules
  import opened NonFungibleForge
  import opened NftLedger

  /** The events lead from f to g. */
  ghost predicate Leads(key: string, f: Forge, es: seq<Event>, g: Forge)
    decreases |es|
  {
    if es == [] then f == g else Possible(key, f, es[0]) && Leads(key, Step(key, f, es[0]), es[1..], g)
  }

  lemma {:induction false} LeadsOn(key: string, f: Forge, a: seq<Event>, g: Forge, b: seq<Event>, h: Forge)
    requires Leads(key, f, a, g) && Leads(key, g, b, h)
    ensures Leads(key, f, a + b, h)
    decreases |a|
  {
    if a == [] {
      assert a + b == b;
    } else {
      assert (a + b)[0] == a[0] && (a + b)[1..] == a[1..] + b;
      LeadsOn(key, Step(key, f, a[0]), a[1..], g, b, h);
    }
  }

  /** One event more at the end. */
  lemma ThenOne(key: string, f: Forge, a: seq<Event>, g: Forge, e: Event)
    requires Leads(key, f, a, g) && Possible(key, g, e)
    ensures Leads(key, f, a + [e], Step(key, g, e))
  {
    assert [e][1..] == [];
    LeadsOn(key, f, a, g, [e], Step(key, g, e));
  }

  // ----- writes land -----

  /** What was written last is what memory holds. */
  ghost predicate LastIsWhole(f: Forge) {
    if f.pending == [] then f.disk == f.mem else f.pending[|f.pending| - 1].image == f.mem
  }

  /** Everything under way lands: storage holds what memory does, every write is acknowledged, nothing else changes. */
  lemma {:induction false} LandAll(key: string, f: Forge) returns (es: seq<Event>, g: Forge)
    requires LastIsWhole(f)
    ensures Leads(key, f, es, g)
    ensures g == f.(pending := [], disk := f.mem, acked := g.acked) && f.acked <= g.acked
    ensures forall i :: 0 <= i < |f.pending| ==> f.pending[i].id in g.acked
    decreases |f.pending|
  {
    if f.pending == [] {
      es, g := [], f;
    } else {
      var next := Step(key, f, Land);
      var rest;
      rest, g := LandAll(key, next);
      forall i | 0 <= i < |f.pending| ensures f.pending[i].id in g.acked {
        if i > 0 { assert next.pending[i - 1] == f.pending[i]; }
      }
      es := [Land] + rest;
      assert es[1..] == rest;
    }
  }

  /** A save issued now lands, behind those before it. */
  lemma StoredLands(key: string, f: Forge, image: Image) returns (es: seq<Event>, g: Forge)
    ensures Leads(key, Stored(f, image), es, g) && f.nextId in g.acked
    ensures g == f.(mem := image, disk := image, pending := [], nextId := f.nextId + 1, acked := g.acked)
  {
    es, g := LandAll(key, Stored(f, image));
    assert Stored(f, image).pending[|f.pending|].id == f.nextId;
  }

  // ----- mints -----

  /** A mint that took its id, about to be saved. */
  function SavingMint(f: Forge, id: nat, p: Payload): Forge {
    f.(mem := f.mem.(lastId := id + 1), mints := f.mints[id := Mint(p, Some(f.nextId))])
  }

  lemma MintSaved(key: string, f: Forge, iat: nat, to: string) returns (es: seq<Event>, g: Forge)
    requires to != ""
    ensures var saving := SavingMint(f, f.mem.lastId, MintPayload(key, iat, f.mem.lastId, to));
            g == Stored(saving, saving.mem) && Leads(key, f, es, g)
  {
    var id := f.mem.lastId;
    var taken := Step(key, f, MintTake(iat, to));
    assert Leads(key, f, [], f);
    ThenOne(key, f, [], f, MintTake(iat, to));
    ThenOne(key, f, [] + [MintTake(iat, to)], taken, MintSave(id));
    es, g := [] + [MintTake(iat, to)] + [MintSave(id)], Step(key, taken, MintSave(id));
    var saving := SavingMint(f, id, MintPayload(key, iat, id, to));
    assert taken.mints[id := Mint(MintPayload(key, iat, id, to), Some(f.nextId))] == saving.mints;
  }

  /** A mint takes the next id and goes out as it was made, its id by then on disk. */
  lemma MintCanComplete(key: string, f: Forge, iat: nat, to: string) returns (es: seq<Event>, g: Forge)
    requires to != "" && f.mem.lastId !in f.mints
    ensures Leads(key, f, es, g)
    ensures var id := f.mem.lastId;
            && g.mem.lastId == g.disk.lastId == id + 1 && g.issued == f.issued + [id] && g.holder == f.holder
            && g.mints == f.mints && g.released == f.released + {MintPayload(key, iat, id, to)}
  {
    var id := f.mem.lastId;
    var saving := SavingMint(f, id, MintPayload(key, iat, id, to));
    var first, saved := MintSaved(key, f, iat, to);
    var lands, landed := StoredLands(key, saving, saving.mem);
    LeadsOn(key, f, first, saved, lands, landed);
    ThenOne(key, f, first + lands, landed, MintSend(id));
    es, g := first + lands + [MintSend(id)], Step(key, landed, MintSend(id));
    assert g.mints == f.mints;
  }

  // ----- a transfer -----

  ghost predicate ServingAt(f: Forge, tx: Tx, env: Env, clock: Clock, used: seq<nat>) {
    && f.holder.Some? && f.holder.value.env == env && f.holder.value.clock == clock
    && f.holder.value.req.Transfer? && f.holder.value.req.tx == tx && AllRestored(tx)
    && f.holder.value.stage == Loop(|used|, SetOf(used))
  }

  /** What serving one recipient leaves: its token sent, its input marked in memory and on disk. */
  ghost predicate ServedOne(f: Forge, g: Forge, input: Token, output: Payload) {
    && g.released == f.released + {output} && g.mem == f.mem.(spent := f.mem.spent + {Digest(input.payload)})
    && g.disk == g.mem && g.queue == f.queue && g.mints == f.mints && g.issued == f.issued
  }

  lemma ServeOne(key: string, f: Forge, tx: Tx, env: Env, clock: Clock, used: seq<nat>, i: nat) returns (es: seq<Event>, g: Forge)
    requires ServingAt(f, tx, env, clock, used) && |used| < |tx.outs|
    requires Choose(TokensOf(tx.ins.value), SetOf(used), tx.outs[|used|]) == Use(i)
    ensures Leads(key, f, es, g) && ServingAt(g, tx, env, clock, used + [i])
    ensures ServedOne(f, g, TokensOf(tx.ins.value)[i], Reissue(env.key, clock(|used|), TokensOf(tx.ins.value)[i], tx.outs[|used|].to))
  {
    var input := TokensOf(tx.ins.value)[i];
    var output := Reissue(env.key, clock(|used|), input, tx.outs[|used|].to);
    var taken := SetOf(used) + {i};
    assert SetOf(used + [i]) == taken by { SetOfSnoc(used, i); }
    var image := f.mem.(spent := f.mem.spent + {Digest(input.payload)});
    var first := AtStage(f, FirstSave(|used|, taken, input, output, f.nextId));
    assert Step(key, f, Serve) == Stored(first, image);
    assert Leads(key, f, [], f);
    ThenOne(key, f, [], f, Serve);
    var lands, marked := StoredLands(key, first, image);
    LeadsOn(key, f, [] + [Serve], Stored(first, image), lands, marked);
    var second := AtStage(marked, SecondSave(|used|, taken, input, output, marked.nextId));
    assert Step(key, marked, SaveAgain) == Stored(second, marked.mem);
    ThenOne(key, f, [] + [Serve] + lands, marked, SaveAgain);
    var again, saved := StoredLands(key, second, marked.mem);
    LeadsOn(key, f, [] + [Serve] + lands + [SaveAgain], Stored(second, marked.mem), again, saved);
    ThenOne(key, f, [] + [Serve] + lands + [SaveAgain] + again, saved, Send);
    es := [] + [Serve] + lands + [SaveAgain] + again + [Send];
    g := Step(key, saved, Send);
  }

  lemma SetOfSnoc(used: seq<nat>, i: nat)
    ensures SetOf(used + [i]) == SetOf(used) + {i}
  {
    assert (used + [i])[|used|] == i;
    forall k | k in SetOf(used) ensures k in SetOf(used + [i]) { }
  }

  /** Tokens sent to, and hashes marked for, the recipients from n on. */
  ghost function SentFrom(key: string, clock: Clock, inputs: seq<Token>, outs: seq<Out>, used: seq<nat>, n: nat): set<Payload>
    requires |used| <= |outs|
  {
    set k | n <= k < |used| && used[k] < |inputs| :: Reissue(key, clock(k), inputs[used[k]], outs[k].to)
  }

  ghost function MarkedFrom(inputs: seq<Token>, used: seq<nat>, n: nat): set<Hash> {
    set k | n <= k < |used| && used[k] < |inputs| :: Digest(inputs[used[k]].payload)
  }

  lemma FromNext(key: string, clock: Clock, inputs: seq<Token>, outs: seq<Out>, used: seq<nat>, n: nat)
    requires n < |used| <= |outs| && used[n] < |inputs|
    ensures SentFrom(key, clock, inputs, outs, used, n)
            == {Reissue(key, clock(n), inputs[used[n]], outs[n].to)} + SentFrom(key, clock, inputs, outs, used, n + 1)
    ensures MarkedFrom(inputs, used, n) == {Digest(inputs[used[n]].payload)} + MarkedFrom(inputs, used, n + 1)
  {
  }

  /** The section is over, and from recipient n on exactly those in used were served. */
  ghost predicate ServedFrom(f: Forge, g: Forge, key: string, clock: Clock, inputs: seq<Token>, outs: seq<Out>, used: seq<nat>, n: nat)
    requires |used| <= |outs|
  {
    && g.holder.None? && g.queue == f.queue && g.mints == f.mints && g.issued == f.issued
    && g.released == f.released + SentFrom(key, clock, inputs, outs, used, n)
    && g.mem == f.mem.(spent := f.mem.spent + MarkedFrom(inputs, used, n))
    && (|used| > n ==> g.disk == g.mem)
  }

  lemma NoneLeft(f: Forge, key: string, clock: Clock, inputs: seq<Token>, outs: seq<Out>, used: seq<nat>)
    requires |used| <= |outs|
    ensures ServedFrom(f, f.(holder := None), key, clock, inputs, outs, used, |used|)
  {
    assert SentFrom(key, clock, inputs, outs, used, |used|) == {};
    assert MarkedFrom(inputs, used, |used|) == {};
    assert f.released + {} == f.released && f.mem.spent + {} == f.mem.spent;
  }

  lemma OneMoreServed(f: Forge, next: Forge, g: Forge, key: string, clock: Clock, inputs: seq<Token>, outs: seq<Out>,
                      used: seq<nat>, n: nat)
    requires n < |used| <= |outs| && used[n] < |inputs|
    requires ServedOne(f, next, inputs[used[n]], Reissue(key, clock(n), inputs[used[n]], outs[n].to))
    requires ServedFrom(next, g, key, clock, inputs, outs, used, n + 1) && (|used| == n + 1 ==> g.disk == next.disk)
    ensures ServedFrom(f, g, key, clock, inputs, outs, used, n)
  {
    FromNext(key, clock, inputs, outs, used, n);
    if |used| == n + 1 { assert MarkedFrom(inputs, used, n + 1) == {}; }
  }

  /** From the recipient after those served to the end of the section. */
  lemma {:induction false} ServeRest(key: string, f: Forge, tx: Tx, env: Env, clock: Clock, used: seq<nat>)
    returns (es: seq<Event>, g: Forge)
    requires ServingAt(f, tx, env, clock, used) && |used| <= |tx.outs|
    ensures Leads(key, f, es, g)
    ensures var inputs, r := TokensOf(tx.ins.value), ServeRecipients(TokensOf(tx.ins.value), tx.outs, used);
            ServedFrom(f, g, env.key, clock, inputs, tx.outs, r.used, |used|) && (|r.used| == |used| ==> g.disk == f.disk)
    decreases |tx.outs| - |used|
  {
    var inputs := TokensOf(tx.ins.value);
    NoneLeft(f, env.key, clock, inputs, tx.outs, used);
    assert Leads(key, f, [], f);
    if |used| == |tx.outs| {
      ThenOne(key, f, [], f, End);
      es, g := [] + [End], Step(key, f, End);
    } else {
      match Choose(inputs, SetOf(used), tx.outs[|used|])
      case Refuse(_) =>
        ThenOne(key, f, [], f, Serve);
        es, g := [] + [Serve], Step(key, f, Serve);
      case Use(i) =>
        var first, next := ServeOne(key, f, tx, env, clock, used, i);
        var rest;
        rest, g := ServeRest(key, next, tx, env, clock, used + [i]);
        LeadsOn(key, f, first, next, rest, g);
        es := first + rest;
        var all := ServeRecipients(inputs, tx.outs, used + [i]).used;
        assert all[|used|] == (used + [i])[|used|] == i;
        OneMoreServed(f, next, g, env.key, clock, inputs, tx.outs, all, |used|);
    }
  }

  lemma {:induction false} CheckAll(key: string, f: Forge) returns (es: seq<Event>, seen: set<Hash>)
    requires f.holder.Some? && f.holder.value.stage.Checks? && f.holder.value.req.Transfer?
    requires var t := f.holder.value;
             t.req.tx.ins.Some? && t.stage.at <= |t.req.tx.ins.value|
             && ValidateFrom(t.env, t.req.tx, f.mem.spent, t.stage.at, t.stage.seen) == Pass
    ensures Leads(key, f, es, AtStage(f, Checks(|f.holder.value.req.tx.ins.value|, seen)))
    decreases |f.holder.value.req.tx.ins.value| - f.holder.value.stage.at
  {
    var t := f.holder.value;
    if t.stage.at == |t.req.tx.ins.value| {
      es, seen := [], t.stage.seen;
    } else {
      var next := Step(key, f, CheckOne);
      var rest;
      rest, seen := CheckAll(key, next);
      es := [CheckOne] + rest;
      assert es[1..] == rest;
    }
  }

  /** The first in line, its inputs checked, enters the recipient loop. */
  lemma EnterLoop(key: string, f: Forge, env: Env, clock: Clock) returns (es: seq<Event>, g: Forge)
    requires f.holder.None? && f.queue != [] && env.key == key && f.queue[0].Transfer?
    requires Validate(env, f.queue[0].tx, f.mem.spent) == Pass
    requires f.queue[0].tx.ins.value != [] && f.queue[0].tx.outs != []
    ensures Leads(key, f, es, g) && ServingAt(g, f.queue[0].tx, env, clock, [])
    ensures g == f.(queue := f.queue[1..], holder := g.holder)
  {
    var tx := f.queue[0].tx;
    PassedInputsRestore(env, tx, f.mem.spent);
    assert Leads(key, f, [], f);
    ThenOne(key, f, [], f, Start(env, clock));
    var started := Step(key, f, Start(env, clock));
    var checks, seen := CheckAll(key, started);
    var checked := AtStage(started, Checks(|tx.ins.value|, seen));
    LeadsOn(key, f, [] + [Start(env, clock)], started, checks, checked);
    ThenOne(key, f, [] + [Start(env, clock)] + checks, checked, BeginLoop);
    es, g := [] + [Start(env, clock)] + checks + [BeginLoop], Step(key, checked, BeginLoop);
    var none: seq<nat> := [];
    assert SetOf(none) == {};
  }

  /**
   * Whenever the lock is free and the first in line is a transfer whose inputs pass, there is a way through its whole
   * section, and it does what the handler does: the same recipients are served, with the same tokens, and the inputs
   * chosen for them end up spent, in memory and on disk.
   */
  lemma TransferCanComplete(key: string, f: Forge, env: Env, clock: Clock) returns (es: seq<Event>, g: Forge)
    requires f.holder.None? && f.queue != [] && env.key == key && f.queue[0].Transfer?
    requires Validate(env, f.queue[0].tx, f.mem.spent) == Pass
    requires f.queue[0].tx.ins.value != [] && f.queue[0].tx.outs != []
    ensures AllRestored(f.queue[0].tx)
    ensures Leads(key, f, es, g) && g.holder.None? && g.queue == f.queue[1..]
    ensures var inputs, outs := TokensOf(f.queue[0].tx.ins.value), f.queue[0].tx.outs;
            var used := ServeRecipients(inputs, outs, []).used;
            && g.released == f.released + SentFrom(key, clock, inputs, outs, used, 0)
            && g.mem.spent == f.mem.spent + MarkedFrom(inputs, used, 0)
            && (used != [] ==> g.disk == g.mem)
  {
    var first, entered := EnterLoop(key, f, env, clock);
    var rest;
    rest, g := ServeRest(key, entered, f.queue[0].tx, env, clock, []);
    LeadsOn(key, f, first, entered, rest, g);
    es := first + rest;
  }

  /** A section without inputs or recipients ends at once; one with them ends only when all recipients were served. */
  lemma SectionEnds(key: string, f: Forge)
    requires f.holder.Some? && f.holder.value.req.Transfer? && AllRestored(f.holder.value.req.tx)
    ensures var tx := f.holder.value.req.tx;
            && (Possible(key, f, BeginLoop) && (tx.ins.value == [] || tx.outs == []) ==> Step(key, f, BeginLoop) == f.(holder := None))
            && (Possible(key, f, End) ==> f.holder.value.stage.index == |tx.outs|)
  {
  }

  /** A burn that passes its checks can be carried through: its hash ends up spent, in memory and on disk, and only then. */
  lemma BurnCanComplete(key: string, f: Forge, env: Env, clock: Clock) returns (es: seq<Event>, g: Forge)
    requires f.holder.None? && f.queue != [] && env.key == key && f.queue[0].Burn?
    requires CheckBurn(f.mem.spent, f.queue[0].token) == Pass
    ensures Leads(key, f, es, g) && g.holder.None? && g.queue == f.queue[1..] && g.released == f.released
    ensures g.mem == f.mem.(spent := f.mem.spent + {f.queue[0].token.value.token.claimedHash}) && g.disk == g.mem
  {
    var image := f.mem.(spent := f.mem.spent + {f.queue[0].token.value.token.claimedHash});
    assert Leads(key, f, [], f);
    ThenOne(key, f, [], f, Start(env, clock));
    var started := Step(key, f, Start(env, clock));
    var saving := AtStage(started, BurnSave(started.nextId));
    assert Step(key, started, CheckBurnToken) == Stored(saving, image);
    ThenOne(key, f, [] + [Start(env, clock)], started, CheckBurnToken);
    var lands, landed := StoredLands(key, saving, image);
    LeadsOn(key, f, [] + [Start(env, clock)] + [CheckBurnToken], Stored(saving, image), lands, landed);
    ThenOne(key, f, [] + [Start(env, clock)] + [CheckBurnToken] + lands, landed, EndBurn);
    es, g := [] + [Start(env, clock)] + [CheckBurnToken] + lands + [EndBurn], Step(key, landed, EndBurn);
  }

  /** The model leaves nothing bad out: saves by others, failing writes, exceptions in a section and in a mint. */
  lemma FaultsPossible(key: string, f: Forge, id: nat)
    ensures Possible(key, f, Save) && (f.pending != [] ==> Possible(key, f, Lose) && Possible(key, f, Land))
    ensures f.holder.Some? ==> Possible(key, f, Fail) && Step(key, f, Fail) == f.(holder := None)
    ensures id in f.mints ==> Possible(key, f, MintFail(id)) && Step(key, f, MintFail(id)) == f.(mints := f.mints - {id})
  {
  }
}
