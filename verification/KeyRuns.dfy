/**
 * Runs of the wallet's key operations: derivations that overlap (each takes its index before its first
 * await and files its key at its end), additions, removals, recoveries, restores, saves that land or never
 * do, and restarts from the last save that landed. An index counts as handed out when the derivation that
 * took it returns.
 */
module KeyRuns {
  import opened Prelude
  import opened JsMap
  import opened KeyPaths
  import opened KeyRules
  import opened PocketKeys

  /** A derivation under way; stale once the wallet was restored after it began. */
  datatype Pending = Pending(index: nat, key: SingleUseKey, stale: bool)

  datatype Saved = Saved(mnemonic: string, keys: Keys, next: nat)

  /** handed: indexes handed out since the last restore. */
  datatype Wallet = Wallet(mnemonic: string, keys: Keys, next: nat, pending: seq<Pending>, saved: Saved, handed: seq<nat>)

  /** An operation changes memory; the save that ends it lands as a step of its own, or, failing, not at all. */
  datatype Action =
    | Begin(now: nat)
    | Finish(k: nat)
    | Add(pubkey: string, key: SingleUseKey)
    | Drop(pubkey: string)
    | Look(pubkey: string, now: nat)
    | Restore(snapshot: Snapshot)
    | SaveLands
    | Restart

  function Start(mnemonic: string): Wallet { Wallet(mnemonic, [], 0, [], Saved(mnemonic, [], 0), []) }

  function Without(ps: seq<Pending>, k: nat): seq<Pending>
    requires k < |ps|
  {
    ps[..k] + ps[k + 1..]
  }

  predicate Enabled(w: Wallet, a: Action) { a.Finish? ==> a.k < |w.pending| }

  function Staled(ps: seq<Pending>): (r: seq<Pending>)
    ensures |r| == |ps| && forall i :: 0 <= i < |ps| ==> r[i] == ps[i].(stale := true)
  {
    seq(|ps|, i requires 0 <= i < |ps| => ps[i].(stale := true))
  }

  function WithKey(w: Wallet, pubkey: string, key: SingleUseKey): Wallet {
    var keys := Added(w.keys, pubkey, key);
    w.(keys := keys, next := Raised(w.next, keys))
  }

  function Step(derive: Derivation, w: Wallet, a: Action): Wallet
    requires Enabled(w, a)
  {
    match a
    case Begin(now) =>
      w.(next := w.next + 1, pending := w.pending + [Pending(w.next, DerivedKey(derive, w.mnemonic, w.next, now), false)])
    case Finish(k) =>
      var p := w.pending[k];
      WithKey(w, p.key.publicKey, p.key)
        .(pending := Without(w.pending, k), handed := if p.stale then w.handed else w.handed + [p.index])
    case Add(pubkey, key) => WithKey(w, pubkey, key)
    case Drop(pubkey) => w.(keys := Remove(w.keys, pubkey))
    case Look(pubkey, now) =>
      w.(keys := AfterRecovery(w.keys, pubkey, Recover(derive, w.mnemonic, w.keys, w.next, pubkey, now)))
    case Restore(snapshot) =>
      w.(mnemonic := snapshot.mnemonic, keys := MergedAll(w.keys, snapshot.singleUseKeys),
         next := RestoredNext(w.keys, snapshot.singleUseKeys, snapshot.nextIndex),
         pending := Staled(w.pending), handed := [])
    case SaveLands => w.(saved := Saved(w.mnemonic, w.keys, w.next))
    case Restart =>
      Wallet(w.saved.mnemonic, w.saved.keys, Raised(w.saved.next, w.saved.keys), [], w.saved, w.handed)
  }

  ghost predicate IsRun(derive: Derivation, ws: seq<Wallet>, acts: seq<Action>) {
    && |ws| == |acts| + 1 && (exists mnemonic :: ws[0] == Start(mnemonic))
    && forall k :: 0 <= k < |acts| ==> Enabled(ws[k], acts[k]) && ws[k + 1] == Step(derive, ws[k], acts[k])
  }

  // ----- the steps are what the wallet's methods do -----

  /** The key ring holds what the run's wallet holds in memory. */
  ghost predicate Holds(ring: KeyRing, w: Wallet)
    reads ring
  {
    ring.mnemonic == w.mnemonic && ring.keys == w.keys && ring.nextIndex == w.next
  }

  /** Each operation of the wallet, performed by its method, leaves the key ring as the step says. */
  method Perform(ring: KeyRing, w: Wallet, a: Action)
    requires Holds(ring, w) && Enabled(w, a) && Keyed(w.keys)
    modifies ring
    ensures Holds(ring, Step(ring.derive, w, a))
  {
    match a {
      case Begin(now) => var _, _ := ring.BeginDerive(now);
      case Finish(k) => ring.AddSingleUseKey(w.pending[k].key.publicKey, w.pending[k].key);
      case Add(pubkey, key) => ring.AddSingleUseKey(pubkey, key);
      case Drop(pubkey) => ring.RemoveSingleUseKey(pubkey);
      case Look(pubkey, now) => var _ := ring.FindOrRecover(pubkey, now);
      case Restore(snapshot) => ring.RestoreKeyMaterial(snapshot);
      case Restart => ring.Load(w.saved.mnemonic, w.saved.keys, Some(w.saved.next));
      case SaveLands =>
    }
  }

  // ----- entries are keyed -----

  ghost predicate KeyedInv(w: Wallet) { Keyed(w.keys) && Keyed(w.saved.keys) }

  lemma AddedKeyed(keys: Keys, pubkey: string, key: SingleUseKey)
    requires Keyed(keys)
    ensures Keyed(Added(keys, pubkey, key))
  {
    GetFinds(keys, pubkey);
  }

  lemma KeyedStep(derive: Derivation, w: Wallet, a: Action)
    requires KeyedInv(w) && Enabled(w, a)
    ensures KeyedInv(Step(derive, w, a))
  {
    match a
    case Finish(k) => AddedKeyed(w.keys, w.pending[k].key.publicKey, w.pending[k].key);
    case Add(pubkey, key) => AddedKeyed(w.keys, pubkey, key);
    case Drop(pubkey) => RemoveKeyed(w.keys, pubkey);
    case Look(pubkey, now) => RecoveryKeyed(derive, w.mnemonic, w.keys, w.next, pubkey, now);
    case Restore(snapshot) => MergedBelow(w.keys, snapshot.singleUseKeys);
    case _ =>
  }

  lemma {:induction false} RunKeyed(derive: Derivation, ws: seq<Wallet>, acts: seq<Action>)
    requires IsRun(derive, ws, acts)
    ensures KeyedInv(ws[|acts|])
    decreases |acts|
  {
    if acts != [] {
      var n := |acts| - 1;
      RunKeyed(derive, ws[..n + 1], acts[..n]);
      assert Enabled(ws[n], acts[n]) && ws[n + 1] == Step(derive, ws[n], acts[n]);
      KeyedStep(derive, ws[n], acts[n]);
    }
  }

  // ----- no index twice -----

  /** Index n was taken by a derivation begun since the last restore and not yet returned. */
  ghost predicate Takes(ps: seq<Pending>, n: nat) { exists i :: 0 <= i < |ps| && !ps[i].stale && ps[i].index == n }

  ghost predicate PendingDistinct(ps: seq<Pending>) {
    forall i, j :: 0 <= i < j < |ps| && !ps[i].stale && !ps[j].stale ==> ps[i].index != ps[j].index
  }

  /** Indexes handed out and indexes taken, all different, all below the counter. */
  ghost predicate HandedInv(pending: seq<Pending>, handed: seq<nat>, next: nat) {
    && Distinct(handed) && PendingDistinct(pending)
    && (forall n :: n in handed ==> n < next && !Takes(pending, n))
    && (forall i :: 0 <= i < |pending| && !pending[i].stale ==> pending[i].index < next)
  }

  ghost predicate Inv(w: Wallet) { HandedInv(w.pending, w.handed, w.next) }

  lemma TakeNext(pending: seq<Pending>, handed: seq<nat>, next: nat, p: Pending)
    requires HandedInv(pending, handed, next) && p.index == next
    ensures HandedInv(pending + [p], handed, next + 1)
  {
    var ps := pending + [p];
    forall n | n in handed ensures !Takes(ps, n) {
      assert !Takes(pending, n);
    }
  }

  lemma WithoutTakes(pending: seq<Pending>, k: nat)
    requires k < |pending| && PendingDistinct(pending)
    ensures PendingDistinct(Without(pending, k))
    ensures forall n :: Takes(Without(pending, k), n) ==> Takes(pending, n)
    ensures !pending[k].stale ==> Takes(pending, pending[k].index) && !Takes(Without(pending, k), pending[k].index)
    ensures forall i :: 0 <= i < |Without(pending, k)| ==> Without(pending, k)[i] in pending
  {
    var ps := Without(pending, k);
    assert forall i :: 0 <= i < |ps| ==> ps[i] == pending[if i < k then i else i + 1];
  }

  /** Handing out a taken index moves it from one list to the other. */
  lemma HandOut(pending: seq<Pending>, handed: seq<nat>, next: nat, next': nat, k: nat)
    requires HandedInv(pending, handed, next) && k < |pending| && next <= next'
    ensures HandedInv(Without(pending, k), if pending[k].stale then handed else handed + [pending[k].index], next')
  {
    WithoutTakes(pending, k);
  }

  lemma NothingTaken(pending: seq<Pending>, next: nat)
    ensures HandedInv(Staled(pending), [], next)
  {
  }

  lemma HigherCounter(pending: seq<Pending>, handed: seq<nat>, next: nat, next': nat)
    requires HandedInv(pending, handed, next) && next <= next'
    ensures HandedInv(pending, handed, next')
  {
  }

  /** The counter a restart would find is above every index handed out. */
  ghost predicate DiskCovers(w: Wallet) {
    forall n :: n in w.handed ==> n < Raised(w.saved.next, w.saved.keys)
  }

  /** A restart keeps what was handed out below the counter exactly when the last save that landed covers it. */
  lemma RestartKeeps(derive: Derivation, w: Wallet)
    requires Inv(w)
    ensures Inv(Step(derive, w, Restart)) <==> DiskCovers(w)
  {
    assert forall n :: !Takes([], n);
  }

  lemma StepKeeps(derive: Derivation, w: Wallet, a: Action)
    requires Inv(w) && Enabled(w, a) && (a.Restart? ==> DiskCovers(w))
    ensures Inv(Step(derive, w, a))
  {
    match a
    case Begin(now) => TakeNext(w.pending, w.handed, w.next, Pending(w.next, DerivedKey(derive, w.mnemonic, w.next, now), false));
    case Finish(k) =>
      var keys := Added(w.keys, w.pending[k].key.publicKey, w.pending[k].key);
      RaisedIsAbove(w.next, keys);
      HandOut(w.pending, w.handed, w.next, Raised(w.next, keys), k);
    case Add(pubkey, key) =>
      var keys := Added(w.keys, pubkey, key);
      RaisedIsAbove(w.next, keys);
      HigherCounter(w.pending, w.handed, w.next, Raised(w.next, keys));
    case Restore(snapshot) => NothingTaken(w.pending, Step(derive, w, a).next);
    case Restart => RestartKeeps(derive, w);
    case _ =>
  }

  /** Every restart finds a counter above what was handed out. */
  ghost predicate RestartsCovered(ws: seq<Wallet>, acts: seq<Action>)
    requires |ws| == |acts| + 1
  {
    forall k :: 0 <= k < |acts| && acts[k].Restart? ==> DiskCovers(ws[k])
  }

  /**
   * Between restores no index is handed out twice, through overlapping derivations, key deletions,
   * recoveries, failing saves, and restarts that find a counter above what was handed out; and the next
   * index to be taken is above them all.
   */
  lemma {:induction false} NoIndexTwice(derive: Derivation, ws: seq<Wallet>, acts: seq<Action>)
    requires IsRun(derive, ws, acts) && RestartsCovered(ws, acts)
    ensures Inv(ws[|acts|])
    ensures Distinct(ws[|acts|].handed) && forall n :: n in ws[|acts|].handed ==> n < ws[|acts|].next
    decreases |acts|
  {
    if acts != [] {
      var n := |acts| - 1;
      NoIndexTwice(derive, ws[..n + 1], acts[..n]);
      assert Enabled(ws[n], acts[n]) && ws[n + 1] == Step(derive, ws[n], acts[n]);
      StepKeeps(derive, ws[n], acts[n]);
    }
  }

  /** Each derivation's last save lands before anything else happens. */
  predicate FinishesSaved(acts: seq<Action>) {
    forall k :: 0 <= k < |acts| - 1 && acts[k].Finish? ==> acts[k + 1].SaveLands?
  }

  /** For instance: one derivation, its save, and a restart. */
  lemma SavedRestart(derive: Derivation, mnemonic: string)
    ensures var begun := Step(derive, Start(mnemonic), Begin(1));
            var done := Step(derive, begun, Finish(0));
            var saved := Step(derive, done, SaveLands);
            && FinishesSaved([Begin(1), Finish(0), SaveLands, Restart])
            && IsRun(derive, [Start(mnemonic), begun, done, saved, Step(derive, saved, Restart)],
                     [Begin(1), Finish(0), SaveLands, Restart])
            && Step(derive, saved, Restart).handed == [0] && Step(derive, saved, Restart).next == 1
  {
    var acts := [Begin(1), Finish(0), SaveLands, Restart];
    var begun := Step(derive, Start(mnemonic), acts[0]);
    var done := Step(derive, begun, acts[1]);
    assert begun.pending == [Pending(0, DerivedKey(derive, mnemonic, 0, 1), false)];
    OneKeyRaises(done.keys, 1, DerivedKey(derive, mnemonic, 0, 1));
    var saved := Step(derive, done, acts[2]);
    OneKeyRaises(saved.keys, 1, DerivedKey(derive, mnemonic, 0, 1));
    assert [Start(mnemonic), begun, done, saved, Step(derive, saved, acts[3])][0] == Start(mnemonic);
  }

  lemma OneKeyRaises(keys: Keys, next: nat, key: SingleUseKey)
    requires key.index == Some(0) && Truthy(key.path) && keys == [Pair(key.publicKey, key)] && next == 1
    ensures Raised(next, keys) == 1
  {
    assert HighestKnown(keys[..0]) == -1;
  }

  lemma CoverStep(derive: Derivation, w: Wallet, a: Action)
    requires Inv(w) && Enabled(w, a)
    requires a.SaveLands? || (DiskCovers(w) && !a.Finish?)
    ensures DiskCovers(Step(derive, w, a))
  {
    if a.SaveLands? { RaisedIsAbove(w.next, w.keys); }
  }

  /** When every derivation's save lands, every restart is covered. */
  lemma {:induction false} SavedFinishesCover(derive: Derivation, ws: seq<Wallet>, acts: seq<Action>)
    requires IsRun(derive, ws, acts) && FinishesSaved(acts)
    ensures RestartsCovered(ws, acts)
    ensures acts == [] || !acts[|acts| - 1].Finish? ==> DiskCovers(ws[|acts|])
    decreases |acts|
  {
    if acts != [] {
      var n := |acts| - 1;
      SavedFinishesCover(derive, ws[..n + 1], acts[..n]);
      assert forall k :: 0 <= k < n ==> acts[..n][k] == acts[k] && ws[..n + 1][k] == ws[k];
      NoIndexTwice(derive, ws[..n + 1], acts[..n]);
      assert Enabled(ws[n], acts[n]) && ws[n + 1] == Step(derive, ws[n], acts[n]);
      if n > 0 && acts[n - 1].Finish? {
        assert acts[n].SaveLands?;
      }
      if !acts[n].Finish? { CoverStep(derive, ws[n], acts[n]); }
    }
  }

  /** Between restores and restarts the counter never goes down. */
  lemma CounterNeverDrops(derive: Derivation, w: Wallet, a: Action)
    requires Enabled(w, a) && !a.Restore? && !a.Restart?
    ensures w.next <= Step(derive, w, a).next
  {
    if a.Finish? {
      RaisedIsAbove(w.next, Added(w.keys, w.pending[a.k].key.publicKey, w.pending[a.k].key));
    } else if a.Add? {
      RaisedIsAbove(w.next, Added(w.keys, a.pubkey, a.key));
    }
  }

  // ----- the counter above every held index -----

  ghost predicate StaysBelow(derive: Derivation, w: Wallet, a: Action) {
    a.Look? ==> !HitsAbove(derive, w.mnemonic, w.keys, w.next, a.pubkey)
  }

  /** One step keeps the counter above every held index exactly unless a recovery scan hits at or beyond it. */
  lemma CounterStep(derive: Derivation, w: Wallet, a: Action)
    requires KeyedInv(w) && Enabled(w, a) && CounterAbove(w.keys, w.next)
    ensures CounterAbove(Step(derive, w, a).keys, Step(derive, w, a).next) <==> StaysBelow(derive, w, a)
  {
    var w' := Step(derive, w, a);
    match a
    case Finish(k) => RaisedIsAbove(w.next, w'.keys);
    case Add(_, _) => RaisedIsAbove(w.next, w'.keys);
    case Drop(pubkey) =>
      RemoveKeyed(w.keys, pubkey);
      CounterAboveAll(w.keys, w.next);
      CounterAboveAll(w'.keys, w.next);
    case Look(pubkey, now) => RecoverKeepsCounter(derive, w.mnemonic, w.keys, w.next, pubkey, now);
    case Restore(snapshot) => RestoredIsAbove(w.keys, snapshot.singleUseKeys, snapshot.nextIndex);
    case Restart => RaisedIsAbove(w.saved.next, w.saved.keys);
    case _ =>
  }

  /** In every reachable state the counter is above every held index, as long as no recovery scan hits at or beyond it. */
  lemma {:induction false} CounterAboveHeld(derive: Derivation, ws: seq<Wallet>, acts: seq<Action>)
    requires IsRun(derive, ws, acts)
    requires forall k :: 0 <= k < |acts| ==> StaysBelow(derive, ws[k], acts[k])
    ensures CounterAbove(ws[|acts|].keys, ws[|acts|].next)
    decreases |acts|
  {
    if acts != [] {
      var n := |acts| - 1;
      CounterAboveHeld(derive, ws[..n + 1], acts[..n]);
      RunKeyed(derive, ws[..n + 1], acts[..n]);
      assert Enabled(ws[n], acts[n]) && ws[n + 1] == Step(derive, ws[n], acts[n]);
      CounterStep(derive, ws[n], acts[n]);
    }
  }

  // ----- a wallet that only files keys it derived -----

  predicate OwnAction(a: Action) { !a.Add? && !a.Restore? }

  /** A normal key of known index, filed under its own public key, the one derived at that index. */
  ghost predicate OwnKey(derive: Derivation, mnemonic: string, p: Pair<string, SingleUseKey>) {
    && KnownIndex(p.value).Some? && p.key == derive(mnemonic, KnownIndex(p.value).value).publicKey
    && p.value.publicKey == p.key && Normal(p.value)
  }

  ghost predicate OwnDerived(derive: Derivation, mnemonic: string, keys: Keys) {
    forall p :: p in keys ==> OwnKey(derive, mnemonic, p)
  }

  ghost predicate OwnPending(derive: Derivation, mnemonic: string, ps: seq<Pending>) {
    forall p :: p in ps ==>
      p.key.publicKey == derive(mnemonic, p.index).publicKey
      && p.key.index == Some(p.index) && Truthy(p.key.path)
  }

  ghost predicate OwnWallet(derive: Derivation, mnemonic: string, w: Wallet) {
    && w.mnemonic == w.saved.mnemonic == mnemonic
    && OwnDerived(derive, mnemonic, w.keys) && OwnDerived(derive, mnemonic, w.saved.keys)
    && OwnPending(derive, mnemonic, w.pending)
  }

  lemma OwnIsIndexed(derive: Derivation, mnemonic: string, keys: Keys)
    requires Keyed(keys) && OwnDerived(derive, mnemonic, keys)
    ensures AllIndexed(keys) && Filed(keys) && AllNormal(keys)
  {
    forall i | 0 <= i < |keys| ensures OwnKey(derive, mnemonic, keys[i]) {
      assert keys[i] in keys;
    }
  }

  lemma OwnRecovered(derive: Derivation, mnemonic: string, keys: Keys, next: nat, pubkey: string, now: nat)
    requires Keyed(keys) && OwnDerived(derive, mnemonic, keys)
    ensures OwnDerived(derive, mnemonic, AfterRecovery(keys, pubkey, Recover(derive, mnemonic, keys, next, pubkey, now)))
  {
    var r := Recover(derive, mnemonic, keys, next, pubkey, now);
    if r.Found? {
      var existing := Get(keys, pubkey);
      GetFinds(keys, pubkey);
      if existing.Some? {
        assert OwnKey(derive, mnemonic, Pair(pubkey, existing.value));
      }
      assert OwnKey(derive, mnemonic, Pair(pubkey, r.key));
      PutKeyed(keys, pubkey, r.key);
    }
  }

  lemma OwnFinished(derive: Derivation, mnemonic: string, keys: Keys, p: Pending)
    requires OwnDerived(derive, mnemonic, keys)
    requires p.key.publicKey == derive(mnemonic, p.index).publicKey && p.key.index == Some(p.index) && Truthy(p.key.path)
    ensures OwnDerived(derive, mnemonic, Added(keys, p.key.publicKey, p.key))
  {
    assert Completed(p.key) == p.key;
    assert OwnKey(derive, mnemonic, Pair(p.key.publicKey, p.key));
  }

  lemma OwnStep(derive: Derivation, mnemonic: string, w: Wallet, a: Action)
    requires KeyedInv(w) && Enabled(w, a) && OwnAction(a) && OwnWallet(derive, mnemonic, w)
    ensures OwnWallet(derive, mnemonic, Step(derive, w, a))
  {
    match a
    case Finish(k) =>
      assert w.pending[k] in w.pending;
      OwnFinished(derive, mnemonic, w.keys, w.pending[k]);
      assert forall p :: p in Without(w.pending, k) ==> p in w.pending;
    case Drop(pubkey) => RemoveKeyed(w.keys, pubkey);
    case Look(pubkey, now) => OwnRecovered(derive, mnemonic, w.keys, w.next, pubkey, now);
    case _ =>
  }

  lemma {:induction false} OwnRun(derive: Derivation, ws: seq<Wallet>, acts: seq<Action>)
    requires IsRun(derive, ws, acts) && forall k :: 0 <= k < |acts| ==> OwnAction(acts[k])
    ensures OwnWallet(derive, ws[0].mnemonic, ws[|acts|])
    decreases |acts|
  {
    if acts != [] {
      var n := |acts| - 1;
      OwnRun(derive, ws[..n + 1], acts[..n]);
      RunKeyed(derive, ws[..n + 1], acts[..n]);
      assert Enabled(ws[n], acts[n]) && ws[n + 1] == Step(derive, ws[n], acts[n]);
      OwnStep(derive, ws[0].mnemonic, ws[n], acts[n]);
    }
  }

  /** With no foreign key filed and no restore, every entry is a normal key under its own name, in every reachable state. */
  lemma OwnWalletFiled(derive: Derivation, ws: seq<Wallet>, acts: seq<Action>)
    requires IsRun(derive, ws, acts) && forall k :: 0 <= k < |acts| ==> OwnAction(acts[k])
    ensures AllIndexed(ws[|acts|].keys) && Filed(ws[|acts|].keys) && AllNormal(ws[|acts|].keys)
  {
    RunKeyed(derive, ws, acts);
    OwnRun(derive, ws, acts);
    OwnIsIndexed(derive, ws[0].mnemonic, ws[|acts|].keys);
  }

  /** And the counter is at least the number of keys and above every held index. */
  lemma {:induction false} OwnWalletNeverOvertaken(derive: Derivation, ws: seq<Wallet>, acts: seq<Action>)
    requires IsRun(derive, ws, acts) && forall k :: 0 <= k < |acts| ==> OwnAction(acts[k])
    ensures CounterAbove(ws[|acts|].keys, ws[|acts|].next) && |ws[|acts|].keys| <= ws[|acts|].next
    decreases |acts|
  {
    if acts != [] {
      var n := |acts| - 1;
      var w := ws[n];
      OwnWalletNeverOvertaken(derive, ws[..n + 1], acts[..n]);
      OwnWalletFiled(derive, ws[..n + 1], acts[..n]);
      RunKeyed(derive, ws[..n + 1], acts[..n]);
      assert Enabled(ws[n], acts[n]) && ws[n + 1] == Step(derive, ws[n], acts[n]);
      if acts[n].Look? {
        IndexedNeverHitsAbove(derive, w.mnemonic, w.keys, w.next, acts[n].pubkey);
      }
      CounterStep(derive, w, acts[n]);
    }
    OwnWalletFiled(derive, ws, acts);
    IndexedNeverHitsAbove(derive, ws[0].mnemonic, ws[|acts|].keys, ws[|acts|].next, "");
  }
}
