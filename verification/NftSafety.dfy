/** Identity safety of the non-fungible ledger over every run. */
module NftSafety {
  import opened Prelude
  import opened Tokens
  import opened ForgeRules
  import opened NonFungibleForge
  import opened NftLedger

  lemma QueueOkMonotone(key: string, f: Forge, f': Forge)
    requires QueueOk(key, f) && f.released <= f'.released && f'.queue == f.queue
    ensures QueueOk(key, f')
  {
    forall i | 0 <= i < |f.queue| ensures Known(key, f'.released, f.queue[i]) {
      KnownMonotone(key, f.released, f'.released, f.queue[i]);
    }
  }

  /** A released token's id is one that was issued. */
  lemma IdOf(key: string, f: Forge, p: Payload) returns (id: nat)
    requires Numbered(key, f) && p in f.released
    ensures id < f.disk.lastId && id in f.issued && NumberedBy(p, id) && p.iss == key
  {
    id :| id < f.disk.lastId && id in f.issued && NumberedBy(p, id);
  }

  /** Giving up the lock, by refusal, exception or completion, disturbs nothing. */
  lemma DropHolder(key: string, f: Forge)
    requires Inv(key, f)
    ensures Inv(key, f.(holder := None))
  {
  }

  /** The holder stands as before when memory's spent-set, what is live and what writes carry do. */
  lemma HolderStays(key: string, f: Forge, f': Forge)
    requires HolderOk(key, f) && f'.holder == f.holder && f'.released == f.released
    requires f'.mem.spent == f.mem.spent && f'.disk == f.disk
    requires forall w, h :: Carries(f, w, h) ==> Carries(f', w, h)
    ensures HolderOk(key, f')
  {
    assert forall p :: IsLive(f', p) <==> IsLive(f, p);
    if f.holder.Some? {
      var t := f.holder.value;
      match t.stage
      case FirstSave(_, _, input, output, write) => OutputStays(key, f, f', input, output, write);
      case SecondSave(_, _, input, output, write) => OutputStays(key, f, f', input, output, write);
      case _ =>
    }
  }

  lemma OutputStays(key: string, f: Forge, f': Forge, input: Token, output: Payload, write: nat)
    requires OutputInv(key, f, input, output, write) && f'.released == f.released && f'.disk == f.disk
    requires Carries(f, write, Digest(input.payload)) ==> Carries(f', write, Digest(input.payload))
    ensures OutputInv(key, f', input, output, write)
  {
    assert forall p :: IsLive(f', p) <==> IsLive(f, p);
  }

  /** Mints in flight stay fresh when what writes carry does. */
  lemma MintsStay(key: string, f: Forge, f': Forge)
    requires MintsFresh(key, f) && f'.issued == f.issued && f.mem.lastId <= f'.mem.lastId
    requires forall id :: id in f'.mints ==> id in f.mints && f'.mints[id] == f.mints[id]
    requires forall w, id :: CarriesId(f, w, id) ==> CarriesId(f', w, id)
    ensures MintsFresh(key, f')
  {
  }

  lemma ReleasedStays(key: string, f: Forge, f': Forge)
    requires Numbered(key, f) && LiveUnique(f) && QueueOk(key, f)
    requires f'.released == f.released && f'.disk == f.disk && f'.issued == f.issued && f'.queue == f.queue
    ensures Numbered(key, f') && LiveUnique(f') && QueueOk(key, f')
  {
    assert forall p :: IsLive(f', p) <==> IsLive(f, p);
  }

  lemma ChecksAdvance(f: Forge, ins: seq<Wire>, at: nat, seen: set<Hash>)
    requires at < |ins| && ChecksInv(f, ins, at, seen)
    requires ins[at].Jwt? && ins[at].token.payload in f.released
    requires HashOfWire(ins[at]) !in f.mem.spent && HashOfWire(ins[at]) !in seen
    ensures ChecksInv(f, ins, at + 1, seen + {HashOfWire(ins[at])})
  {
    assert HashesUpTo(ins, at + 1) == HashesUpTo(ins, at) + {HashOfWire(ins[at])};
    assert forall k :: 0 <= k < at ==> HashOfWire(ins[k]) in seen;
  }

  lemma CheckOnePassed(key: string, f: Forge)
    requires HolderOk(key, f) && Possible(key, f, CheckOne)
    requires var t := f.holder.value;
             CheckInput(t.env, t.req.tx, f.mem.spent, t.stage.seen, t.req.tx.ins.value[t.stage.at]) == Pass
    ensures HolderOk(key, Step(key, f, CheckOne))
  {
    var t := f.holder.value;
    var ins := t.req.tx.ins.value;
    var w := ins[t.stage.at];
    assert KnownWire(key, f.released, w);
    CheckedInput(key, t.env, t.req.tx, f.released, f.mem.spent, t.stage.seen, w);
    ChecksAdvance(f, ins, t.stage.at, t.stage.seen);
  }

  /** Only the holder moved on. */
  lemma HolderMoves(key: string, f: Forge, f': Forge)
    requires Inv(key, f) && f' == f.(holder := f'.holder) && HolderOk(key, f')
    ensures Inv(key, f')
  {
    assert StorageGrows(f') && IssuedOnce(f');
    ReleasedStays(key, f, f');
    assert forall w, id :: CarriesId(f, w, id) ==> CarriesId(f', w, id);
    MintsStay(key, f, f');
  }

  lemma CheckOneKeeps(key: string, f: Forge)
    requires Inv(key, f) && Possible(key, f, CheckOne)
    ensures Inv(key, Step(key, f, CheckOne))
  {
    var t := f.holder.value;
    var f' := Step(key, f, CheckOne);
    if CheckInput(t.env, t.req.tx, f.mem.spent, t.stage.seen, t.req.tx.ins.value[t.stage.at]) == Pass {
      CheckOnePassed(key, f);
    }
    HolderMoves(key, f, f');
  }

  lemma BeginLoopKeeps(key: string, f: Forge)
    requires Inv(key, f) && Possible(key, f, BeginLoop)
    ensures Inv(key, Step(key, f, BeginLoop))
  {
    var tx := f.holder.value.req.tx;
    if tx.ins.value == [] || tx.outs == [] {
      DropHolder(key, f);
    } else {
      var ins := tx.ins.value;
      var inputs := TokensOf(ins);
      forall i, j | 0 <= i < j < |inputs| ensures Digest(inputs[i].payload) != Digest(inputs[j].payload) {
        assert HashOfWire(ins[i]) != HashOfWire(ins[j]);
      }
      assert Untouched(f, inputs, {});
    }
  }

  /** Issuing a save of an image that memory has grown to keeps the storage chain growing. */
  lemma StoredGrows(f: Forge, image: Image)
    requires StorageGrows(f) && Below(f.mem, image)
    ensures StorageGrows(Stored(f, image))
    ensures forall h :: h in image.spent ==> Carries(Stored(f, image), f.nextId, h)
    ensures forall id: nat :: id < image.lastId ==> CarriesId(Stored(f, image), f.nextId, id)
    ensures forall w, h :: Carries(f, w, h) ==> Carries(Stored(f, image), w, h)
    ensures forall w, id :: CarriesId(f, w, id) ==> CarriesId(Stored(f, image), w, id)
  {
    assert Stored(f, image).pending[..|f.pending|] == f.pending;
  }

  /** Serving a recipient marks one input that was untouched and leaves the others so. */
  lemma ServeHolder(key: string, f: Forge)
    requires StorageGrows(f) && Numbered(key, f) && HolderOk(key, f) && Possible(key, f, Serve)
    requires var t := f.holder.value;
             Choose(TokensOf(t.req.tx.ins.value), t.stage.used, t.req.tx.outs[t.stage.index]).Use?
    ensures HolderOk(key, Step(key, f, Serve))
  {
    var t := f.holder.value;
    var inputs := TokensOf(t.req.tx.ins.value);
    var c := Choose(inputs, t.stage.used, t.req.tx.outs[t.stage.index]);
    var input := inputs[c.i];
    var image := f.mem.(spent := f.mem.spent + {Digest(input.payload)});
    StoredGrows(f, image);
    var f' := Step(key, f, Serve);
    assert f'.disk == f.disk && f'.released == f.released;
    assert Untouched(f', inputs, t.stage.used + {c.i});
    assert Carries(f', f.nextId, Digest(input.payload)) by {
      assert Carries(Stored(f, image), f.nextId, Digest(input.payload));
    }
    assert Digest(input.payload) !in f.disk.spent;
  }

  lemma ServeKeeps(key: string, f: Forge)
    requires Inv(key, f) && Possible(key, f, Serve)
    ensures Inv(key, Step(key, f, Serve))
  {
    var t := f.holder.value;
    var inputs := TokensOf(t.req.tx.ins.value);
    var c := Choose(inputs, t.stage.used, t.req.tx.outs[t.stage.index]);
    if c.Refuse? {
      DropHolder(key, f);
    } else {
      ServeHolder(key, f);
      ServeStored(key, f, Step(key, f, Serve), f.mem.(spent := f.mem.spent + {Digest(inputs[c.i].payload)}));
    }
  }

  /** Storing an image that memory has grown to keeps everything but the holder. */
  lemma ServeStored(key: string, f: Forge, f': Forge, image: Image)
    requires StorageGrows(f) && MintsFresh(key, f) && Below(f.mem, image)
    requires Numbered(key, f) && LiveUnique(f) && IssuedOnce(f) && QueueOk(key, f)
    requires f' == Stored(f, image).(holder := f'.holder)
    ensures StorageGrows(f') && MintsFresh(key, f')
    ensures Numbered(key, f') && LiveUnique(f') && IssuedOnce(f') && QueueOk(key, f')
  {
    StoredGrows(f, image);
    MintsStored(key, f, f', image);
    ReleasedStays(key, f, f');
  }

  lemma MintsStored(key: string, f: Forge, f': Forge, image: Image)
    requires StorageGrows(f) && MintsFresh(key, f) && Below(f.mem, image)
    requires f'.pending == Stored(f, image).pending && f'.nextId == f.nextId + 1 && f'.mem == image
    requires f'.disk == f.disk && f'.acked == f.acked && f'.mints == f.mints && f'.issued == f.issued
    ensures MintsFresh(key, f')
  {
    StoredGrows(f, image);
    forall id | id in f'.mints && f'.mints[id].write.Some? ensures CarriesId(f', f'.mints[id].write.value, id) {
      assert CarriesId(Stored(f, image), f.mints[id].write.value, id);
    }
  }

  lemma SaveAgainKeeps(key: string, f: Forge)
    requires Inv(key, f) && Possible(key, f, SaveAgain)
    ensures Inv(key, Step(key, f, SaveAgain))
  {
    var s := f.holder.value.stage;
    StoredGrows(f, f.mem);
    var f' := Step(key, f, SaveAgain);
    assert forall p :: IsLive(f', p) <==> IsLive(f, p);
    var h := Digest(s.input.payload);
    assert h in f.disk.spent;
    assert Carries(f', f.nextId, h) by { assert Carries(Stored(f, f.mem), f.nextId, h); }
    MintsStored(key, f, f', f.mem);
  }

  /** The output takes over the id of an input whose mark is durable: no live token has it. */
  lemma SendReleases(key: string, f: Forge)
    requires Numbered(key, f) && LiveUnique(f) && HolderOk(key, f) && Possible(key, f, Send)
    ensures Numbered(key, Step(key, f, Send)) && LiveUnique(Step(key, f, Send))
  {
    var s := f.holder.value.stage;
    var f' := Step(key, f, Send);
    var id := IdOf(key, f, s.input.payload);
    assert NumberedBy(s.output, id);
    forall p | p in f'.released ensures p.iss == key && exists n: nat :: n < f'.disk.lastId && n in f'.issued && NumberedBy(p, n) {
      if p == s.output { assert NumberedBy(p, id); } else { var n := IdOf(key, f, p); }
    }
    forall p, q | IsLive(f', p) && IsLive(f', q) && p.tokenID == q.tokenID ensures p == q {
      assert p != s.output ==> IsLive(f, p);
      assert q != s.output ==> IsLive(f, q);
    }
  }

  lemma SendKeeps(key: string, f: Forge)
    requires Inv(key, f) && Possible(key, f, Send)
    ensures Inv(key, Step(key, f, Send))
  {
    var t := f.holder.value;
    var f' := Step(key, f, Send);
    SendReleases(key, f);
    QueueOkMonotone(key, f, f');
    KnownMonotone(key, f.released, f'.released, t.req);
    assert Untouched(f', TokensOf(t.req.tx.ins.value), t.stage.used);
  }

  lemma BurnKeeps(key: string, f: Forge)
    requires Inv(key, f) && Possible(key, f, CheckBurnToken)
    ensures Inv(key, Step(key, f, CheckBurnToken))
  {
    var token := f.holder.value.req.token;
    if CheckBurn(f.mem.spent, token) == Pass {
      var image := f.mem.(spent := f.mem.spent + {token.value.token.claimedHash});
      StoredGrows(f, image);
      var f' := Step(key, f, CheckBurnToken);
      assert forall p :: IsLive(f', p) <==> IsLive(f, p);
      MintsStored(key, f, f', image);
    } else {
      DropHolder(key, f);
    }
  }

  lemma StartKeeps(key: string, f: Forge, env: Env, clock: Clock)
    requires Inv(key, f) && Possible(key, f, Start(env, clock))
    ensures Inv(key, Step(key, f, Start(env, clock)))
  {
    var f' := Step(key, f, Start(env, clock));
    var req := f.queue[0];
    assert Known(key, f.released, f.queue[0]);
    if req.Transfer? && req.tx.ins.Some? {
      assert HashesUpTo(req.tx.ins.value, 0) == {};
    }
    forall i | 0 <= i < |f'.queue| ensures Known(key, f'.released, f'.queue[i]) {
      assert f'.queue[i] == f.queue[i + 1];
    }
    assert forall p :: IsLive(f', p) <==> IsLive(f, p);
  }

  /** When the mark of the pending output's input becomes durable, the last live token of its id is gone. */
  lemma OutputLands(key: string, f: Forge, f': Forge, input: Token, output: Payload, write: nat)
    requires Inv(key, f) && f.pending != [] && f' == Step(key, f, Land)
    requires OutputInv(key, f, input, output, write)
    ensures OutputInv(key, f', input, output, write)
  {
    var h := Digest(input.payload);
    assert f.disk.spent <= f'.disk.spent by { assert Below(f.disk, f.pending[0].image); }
    assert forall i :: 0 <= i < |f'.pending| ==> f'.pending[i] == f.pending[i + 1];
    if h in f'.disk.spent {
      forall q | IsLive(f', q) ensures q.tokenID != output.tokenID {
        assert IsLive(f, q);
        if h !in f.disk.spent { assert IsLive(f, input.payload); }
      }
    }
  }

  lemma LandGrows(key: string, f: Forge)
    requires StorageGrows(f) && Possible(key, f, Land)
    ensures var f' := Step(key, f, Land);
            && StorageGrows(f') && Below(f.disk, f'.disk)
            && (forall w, h :: Carries(f, w, h) ==> Carries(f', w, h))
            && forall w, id :: CarriesId(f, w, id) ==> CarriesId(f', w, id)
  {
    var f' := Step(key, f, Land);
    assert forall i :: 0 <= i < |f'.pending| ==> f'.pending[i] == f.pending[i + 1];
  }

  lemma LandReleased(key: string, f: Forge, f': Forge)
    requires Numbered(key, f) && LiveUnique(f) && Below(f.disk, f'.disk)
    requires f'.released == f.released && f'.issued == f.issued
    ensures Numbered(key, f') && LiveUnique(f')
  {
    assert forall p :: IsLive(f', p) ==> IsLive(f, p);
    forall p | p in f'.released ensures p.iss == key && exists n: nat :: n < f'.disk.lastId && n in f'.issued && NumberedBy(p, n) {
      var n := IdOf(key, f, p);
    }
  }

  lemma LandKeeps(key: string, f: Forge)
    requires Inv(key, f) && Possible(key, f, Land)
    ensures Inv(key, Step(key, f, Land))
  {
    var f' := Step(key, f, Land);
    LandGrows(key, f);
    LandReleased(key, f, f');
    MintsStay(key, f, f');
    LandHolder(key, f);
  }

  lemma LandHolder(key: string, f: Forge)
    requires Inv(key, f) && Possible(key, f, Land)
    ensures HolderOk(key, Step(key, f, Land))
  {
    var f' := Step(key, f, Land);
    LandGrows(key, f);
    if f.holder.Some? {
      match f.holder.value.stage
      case FirstSave(_, _, input, output, write) => OutputLands(key, f, f', input, output, write);
      case SecondSave(_, _, input, output, write) => OutputLands(key, f, f', input, output, write);
      case _ =>
    }
  }

  lemma SaveKeeps(key: string, f: Forge)
    requires Inv(key, f)
    ensures Inv(key, Step(key, f, Save))
  {
    var f' := Step(key, f, Save);
    StoredGrows(f, f.mem);
    MintsStored(key, f, f', f.mem);
    HolderStays(key, f, f');
    ReleasedStays(key, f, f');
  }

  lemma LoseGrows(key: string, f: Forge)
    requires StorageGrows(f) && Possible(key, f, Lose)
    ensures var f' := Step(key, f, Lose);
            && StorageGrows(f')
            && (forall w, h :: Carries(f, w, h) ==> Carries(f', w, h))
            && forall w, id :: CarriesId(f, w, id) ==> CarriesId(f', w, id)
  {
    var f' := Step(key, f, Lose);
    assert forall i :: 0 <= i < |f'.pending| ==> f'.pending[i] == f.pending[i + 1];
  }

  lemma LoseKeeps(key: string, f: Forge)
    requires Inv(key, f) && Possible(key, f, Lose)
    ensures Inv(key, Step(key, f, Lose))
  {
    var f' := Step(key, f, Lose);
    LoseGrows(key, f);
    MintsStay(key, f, f');
    HolderStays(key, f, f');
    ReleasedStays(key, f, f');
  }

  lemma MintTakeKeeps(key: string, f: Forge, iat: nat, to: string)
    requires Inv(key, f) && Possible(key, f, MintTake(iat, to))
    ensures Inv(key, Step(key, f, MintTake(iat, to)))
  {
    var f' := Step(key, f, MintTake(iat, to));
    assert forall w, h :: Carries(f, w, h) ==> Carries(f', w, h);
    forall id | id in f'.mints && f'.mints[id].write.Some? ensures CarriesId(f', f'.mints[id].write.value, id) {
      assert CarriesId(f, f.mints[id].write.value, id);
    }
    HolderStays(key, f, f');
    ReleasedStays(key, f, f');
  }

  lemma MintSaveKeeps(key: string, f: Forge, id: nat)
    requires Inv(key, f) && Possible(key, f, MintSave(id))
    ensures Inv(key, Step(key, f, MintSave(id)))
  {
    var f' := Step(key, f, MintSave(id));
    StoredGrows(f, f.mem);
    assert forall w, h :: Carries(Stored(f, f.mem), w, h) ==> Carries(f', w, h);
    MintSaved(key, f, id);
    HolderStays(key, f, f');
    ReleasedStays(key, f, f');
  }

  lemma MintSaved(key: string, f: Forge, id: nat)
    requires StorageGrows(f) && MintsFresh(key, f) && Possible(key, f, MintSave(id))
    ensures MintsFresh(key, Step(key, f, MintSave(id)))
  {
    var f' := Step(key, f, MintSave(id));
    StoredGrows(f, f.mem);
    forall n | n in f'.mints && f'.mints[n].write.Some? ensures CarriesId(f', f'.mints[n].write.value, n) {
      if n == id {
        assert CarriesId(Stored(f, f.mem), f.nextId, id);
      } else {
        assert CarriesId(Stored(f, f.mem), f.mints[n].write.value, n);
      }
    }
  }

  /** A minted token's id was never released before. */
  lemma MintSendReleases(key: string, f: Forge, id: nat)
    requires Numbered(key, f) && LiveUnique(f) && MintsFresh(key, f) && Possible(key, f, MintSend(id))
    ensures Numbered(key, Step(key, f, MintSend(id))) && LiveUnique(Step(key, f, MintSend(id)))
    ensures forall q :: q in f.released ==> q.tokenID != f.mints[id].payload.tokenID
  {
    var f' := Step(key, f, MintSend(id));
    var p := f.mints[id].payload;
    assert CarriesId(f, f.mints[id].write.value, id);
    assert id < f.disk.lastId && NumberedBy(p, id) && id in f'.issued;
    forall q | q in f'.released ensures q.iss == key && exists n: nat :: n < f'.disk.lastId && n in f'.issued && NumberedBy(q, n) {
      if q != p { var n := IdOf(key, f, q); }
    }
    forall q | q in f.released ensures q.tokenID != p.tokenID {
      var n := IdOf(key, f, q);
    }
    forall a, b | IsLive(f', a) && IsLive(f', b) && a.tokenID == b.tokenID ensures a == b {
      assert a != p ==> IsLive(f, a);
      assert b != p ==> IsLive(f, b);
    }
  }

  lemma MintSendHolder(key: string, f: Forge, id: nat)
    requires HolderOk(key, f) && Possible(key, f, MintSend(id))
    requires forall q :: q in f.released ==> q.tokenID != f.mints[id].payload.tokenID
    ensures HolderOk(key, Step(key, f, MintSend(id)))
  {
    var f' := Step(key, f, MintSend(id));
    if f.holder.Some? {
      var t := f.holder.value;
      KnownMonotone(key, f.released, f'.released, t.req);
      match t.stage
      case FirstSave(_, _, input, output, write) => MintSendOutput(key, f, id, input, output, write);
      case SecondSave(_, _, input, output, write) => MintSendOutput(key, f, id, input, output, write);
      case _ =>
    }
  }

  lemma MintSendOutput(key: string, f: Forge, id: nat, input: Token, output: Payload, write: nat)
    requires OutputInv(key, f, input, output, write) && Possible(key, f, MintSend(id))
    requires forall q :: q in f.released ==> q.tokenID != f.mints[id].payload.tokenID
    ensures OutputInv(key, Step(key, f, MintSend(id)), input, output, write)
  {
    var f' := Step(key, f, MintSend(id));
    var p := f.mints[id].payload;
    assert Carries(f', write, Digest(input.payload));
    forall q | IsLive(f', q) && Digest(input.payload) in f'.disk.spent ensures q.tokenID != output.tokenID {
      assert q != p ==> IsLive(f, q);
      assert input.payload.tokenID != p.tokenID;
    }
  }

  lemma MintSendKeeps(key: string, f: Forge, id: nat)
    requires Inv(key, f) && Possible(key, f, MintSend(id))
    ensures Inv(key, Step(key, f, MintSend(id)))
  {
    var f' := Step(key, f, MintSend(id));
    MintSendReleases(key, f, id);
    MintSendHolder(key, f, id);
    MintSendMints(key, f, id);
    QueueOkMonotone(key, f, f');
  }

  lemma MintSendMints(key: string, f: Forge, id: nat)
    requires MintsFresh(key, f) && IssuedOnce(f) && Possible(key, f, MintSend(id))
    ensures MintsFresh(key, Step(key, f, MintSend(id))) && IssuedOnce(Step(key, f, MintSend(id)))
  {
    var f' := Step(key, f, MintSend(id));
    assert CarriesId(f, f.mints[id].write.value, id);
    assert Distinct(f'.issued);
    forall n | n in f'.mints && f'.mints[n].write.Some? ensures CarriesId(f', f'.mints[n].write.value, n) {
      assert CarriesId(f, f.mints[n].write.value, n);
    }
  }

  lemma MintFailKeeps(key: string, f: Forge, id: nat)
    requires Inv(key, f) && Possible(key, f, MintFail(id))
    ensures Inv(key, Step(key, f, MintFail(id)))
  {
    var f' := Step(key, f, MintFail(id));
    assert forall w, h :: Carries(f, w, h) ==> Carries(f', w, h);
    assert forall w, n :: CarriesId(f, w, n) ==> CarriesId(f', w, n);
    MintsStay(key, f, f');
    HolderStays(key, f, f');
    ReleasedStays(key, f, f');
  }

  lemma CrashKeeps(key: string, f: Forge)
    requires Inv(key, f)
    ensures Inv(key, Step(key, f, Crash))
  {
    var f' := Step(key, f, Crash);
    assert forall p :: IsLive(f', p) <==> IsLive(f, p);
    forall p | p in f'.released ensures p.iss == key && exists n: nat :: n < f'.disk.lastId && n in f'.issued && NumberedBy(p, n) {
      var n := IdOf(key, f, p);
    }
  }

  lemma ArriveKeeps(key: string, f: Forge, req: Request)
    requires Inv(key, f) && Possible(key, f, Arrive(req))
    ensures Inv(key, Step(key, f, Arrive(req)))
  {
    var f' := Step(key, f, Arrive(req));
    assert forall p :: IsLive(f', p) <==> IsLive(f, p);
  }

  lemma MintStepKeeps(key: string, f: Forge, e: Event)
    requires Inv(key, f) && Possible(key, f, e) && (e.MintTake? || e.MintSave? || e.MintSend? || e.MintFail?)
    ensures Inv(key, Step(key, f, e))
  {
    match e
    case MintTake(iat, to) => MintTakeKeeps(key, f, iat, to);
    case MintSave(id) => MintSaveKeeps(key, f, id);
    case MintSend(id) => MintSendKeeps(key, f, id);
    case MintFail(id) => MintFailKeeps(key, f, id);
  }

  lemma StorageStepKeeps(key: string, f: Forge, e: Event)
    requires Inv(key, f) && Possible(key, f, e) && (e.Land? || e.Save? || e.Lose? || e.Crash?)
    ensures Inv(key, Step(key, f, e))
  {
    match e
    case Land => LandKeeps(key, f);
    case Save => SaveKeeps(key, f);
    case Lose => LoseKeeps(key, f);
    case Crash => CrashKeeps(key, f);
  }

  lemma ServingStepKeeps(key: string, f: Forge, e: Event)
    requires Inv(key, f) && Possible(key, f, e)
    requires e.CheckOne? || e.BeginLoop? || e.Serve? || e.SaveAgain? || e.Send? || e.CheckBurnToken?
    ensures Inv(key, Step(key, f, e))
  {
    match e
    case CheckOne => CheckOneKeeps(key, f);
    case BeginLoop => BeginLoopKeeps(key, f);
    case Serve => ServeKeeps(key, f);
    case SaveAgain => SaveAgainKeeps(key, f);
    case Send => SendKeeps(key, f);
    case CheckBurnToken => BurnKeeps(key, f);
  }

  lemma StepKeeps(key: string, f: Forge, e: Event)
    requires Inv(key, f) && Possible(key, f, e)
    ensures Inv(key, Step(key, f, e))
  {
    if e.MintTake? || e.MintSave? || e.MintSend? || e.MintFail? {
      MintStepKeeps(key, f, e);
    } else if e.Land? || e.Save? || e.Lose? || e.Crash? {
      StorageStepKeeps(key, f, e);
    } else if e.Arrive? {
      ArriveKeeps(key, f, e.req);
    } else if e.Start? {
      StartKeeps(key, f, e.env, e.clock);
    } else if e.End? || e.EndBurn? || e.Fail? {
      DropHolder(key, f);
    } else {
      ServingStepKeeps(key, f, e);
    }
  }

  ghost predicate IsRun(key: string, fs: seq<Forge>, es: seq<Event>) {
    && |fs| == |es| + 1 && fs[0] == Empty
    && forall k :: 0 <= k < |es| ==> Possible(key, fs[k], es[k]) && fs[k + 1] == Step(key, fs[k], es[k])
  }

  lemma {:induction false} RunKeeps(key: string, fs: seq<Forge>, es: seq<Event>)
    requires IsRun(key, fs, es)
    ensures Inv(key, fs[|es|])
    decreases |es|
  {
    if es != [] {
      var n := |es| - 1;
      RunKeeps(key, fs[..n + 1], es[..n]);
      assert Possible(key, fs[n], es[n]) && fs[n + 1] == Step(key, fs[n], es[n]);
      StepKeeps(key, fs[n], es[n]);
    }
  }

  /**
   * Over every run, with overlapping mints, transfers that fail half-way through their recipients, repeated ids,
   * failed writes and crashes: two live tokens never share an id, and every live token carries an issued id.
   */
  lemma OneLiveTokenPerId(key: string, fs: seq<Forge>, es: seq<Event>, p: Payload, q: Payload)
    requires IsRun(key, fs, es)
    requires IsLive(fs[|es|], p) && IsLive(fs[|es|], q) && p.tokenID == q.tokenID
    ensures p == q && exists id: nat :: id in fs[|es|].issued && NumberedBy(p, id)
  {
    RunKeeps(key, fs, es);
    var id := IdOf(key, fs[|es|], p);
  }

  /** An id released once is never given to another mint, and no restart can bring the counter back to it. */
  lemma IdsNeverReissued(key: string, fs: seq<Forge>, es: seq<Event>)
    requires IsRun(key, fs, es)
    ensures var f := fs[|es|];
            && Distinct(f.issued)
            && (forall id :: id in f.issued ==> id < f.disk.lastId <= f.mem.lastId)
            && (forall id :: id in f.mints ==> id !in f.issued)
  {
    RunKeeps(key, fs, es);
  }

  /** A restart finds spent-set and id counter as they last landed; mints and saves under way are gone, releases are not. */
  lemma CrashKeepsDisk(key: string, f: Forge)
    ensures Possible(key, f, Crash)
    ensures var f' := Step(key, f, Crash);
            && f'.mem == f.disk && f'.disk == f.disk && f'.pending == [] && f'.holder.None? && f'.queue == []
            && f'.mints == map[] && f'.released == f.released && f'.issued == f.issued
  {
  }

  /** A recipient that is served is sent, in the end, a token of its own for the input with the id it asked for, now marked. */
  lemma ServedIsPassedOn(key: string, f: Forge)
    requires Inv(key, f) && Possible(key, f, Serve) && Step(key, f, Serve).holder.Some?
    ensures var t, s := f.holder.value, Step(key, f, Serve).holder.value.stage;
            var out := t.req.tx.outs[t.stage.index];
            && s.FirstSave? && s.index == t.stage.index
            && s.input in TokensOf(t.req.tx.ins.value) && s.input.payload.tokenID.Some? && out.tokenID.Some?
            && s.input.payload.tokenID.value.Text() == out.tokenID.value.Text()
            && Passes(s.output, key, out.to, s.input)
            && Step(key, f, Serve).mem.spent == f.mem.spent + {Digest(s.input.payload)}
  {
    var t := f.holder.value;
    var inputs := TokensOf(t.req.tx.ins.value);
    var out := t.req.tx.outs[t.stage.index];
    var c := Choose(inputs, t.stage.used, out);
    RefusalMeans(inputs, t.stage.used, out);
    ReissueMeans(t.env.key, t.clock(t.stage.index), inputs[c.i], out.to);
  }

  /** What is sent is that token, once the mark has landed twice over. */
  lemma SentAsServed(key: string, f: Forge)
    requires Inv(key, f) && Possible(key, f, Send)
    ensures var s := f.holder.value.stage;
            && Step(key, f, Send).released == f.released + {s.output}
            && s.write in f.acked && Digest(s.input.payload) in f.disk.spent
  {
  }

  /** A mint takes the next id for the recipient it names, and is sent as it was made. */
  lemma MintedFor(key: string, f: Forge, iat: nat, to: string)
    requires Possible(key, f, MintTake(iat, to))
    ensures var f' := Step(key, f, MintTake(iat, to));
            var p := f'.mints[f.mem.lastId].payload;
            && TatFor(p, key, to, None) && p.lock == Some(to) && p.tokenID == Some(IdNum(f.mem.lastId))
            && f'.mem.lastId == f.mem.lastId + 1
  {
    MintMeans(key, iat, f.mem.lastId, to);
  }

  lemma MintSentAsMade(key: string, f: Forge, id: nat)
    requires Inv(key, f) && Possible(key, f, MintSend(id))
    ensures var f' := Step(key, f, MintSend(id));
            f'.released == f.released + {f.mints[id].payload} && f'.issued == f.issued + [id] && id < f'.disk.lastId
  {
    assert CarriesId(f, f.mints[id].write.value, id);
  }

  /** A run goes on by any event that is possible. */
  lemma ExtendRun(key: string, fs: seq<Forge>, es: seq<Event>, e: Event)
    requires IsRun(key, fs, es) && Possible(key, fs[|es|], e)
    ensures IsRun(key, fs + [Step(key, fs[|es|], e)], es + [e]) && IsRun(key, [Empty], [])
  {
    var gs, ds := fs + [Step(key, fs[|es|], e)], es + [e];
    forall k | 0 <= k < |ds| ensures Possible(key, gs[k], ds[k]) && gs[k + 1] == Step(key, gs[k], ds[k]) {
      if k < |es| { assert gs[k] == fs[k] && gs[k + 1] == fs[k + 1] && ds[k] == es[k]; }
    }
  }
}
