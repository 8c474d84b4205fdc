/** Backup and restore: what a snapshot brings back into an empty wallet. */
module PocketBackup {
  import opened Prelude
  import opened JsMap
  import opened Tokens
  import opened WalletIndexes
  import opened PocketTokens
  import opened KeyPaths
  import opened KeyRules
  import opened PocketKeys
  import opened KeyRuns

  // ----- tokens and indexes -----

  lemma SlotsDetermine<V>(m: map<string, seq<V>>, m': map<string, seq<V>>, row: string -> seq<V>)
    requires forall issuer: string :: Slot(m, issuer, row(issuer)) && Slot(m', issuer, row(issuer))
    ensures m == m'
  {
    forall issuer: string ensures (issuer in m <==> issuer in m') && (issuer in m ==> m[issuer] == m'[issuer]) {
      assert Slot(m, issuer, row(issuer)) && Slot(m', issuer, row(issuer));
    }
  }

  lemma SlotMapsDetermine<V>(m: map<string, map<string, V>>, m': map<string, map<string, V>>, row: string -> map<string, V>)
    requires forall issuer: string :: SlotMap(m, issuer, row(issuer)) && SlotMap(m', issuer, row(issuer))
    ensures m == m'
  {
    forall issuer: string ensures (issuer in m <==> issuer in m') && (issuer in m ==> m[issuer] == m'[issuer]) {
      assert SlotMap(m, issuer, row(issuer)) && SlotMap(m', issuer, row(issuer));
    }
  }

  /** Wallets in agreement that hold the same tokens have the same indexes and balances. */
  lemma TokensDetermineState(s: State, s': State)
    requires StateOK(s) && StateOK(s') && s.tokens == s'.tokens
    ensures s == s'
  {
    forall issuer: string
      ensures Slot(s.tokenIndex, issuer, IndexOf(Held(s.tokens, issuer))) && Slot(s'.tokenIndex, issuer, IndexOf(Held(s.tokens, issuer)))
      ensures SlotMap(s.tatIndex, issuer, TatsOf(Held(s.tokens, issuer))) && SlotMap(s'.tatIndex, issuer, TatsOf(Held(s.tokens, issuer)))
      ensures SlotMap(s.balances, issuer, BalancesOf(Held(s.tokens, issuer))) && SlotMap(s'.balances, issuer, BalancesOf(Held(s.tokens, issuer)))
    {
      assert IssuerOK(s, issuer) && IssuerOK(s', issuer);
    }
    SlotsDetermine(s.tokenIndex, s'.tokenIndex, issuer => IndexOf(Held(s.tokens, issuer)));
    SlotMapsDetermine(s.tatIndex, s'.tatIndex, issuer => TatsOf(Held(s.tokens, issuer)));
    SlotMapsDetermine(s.balances, s'.balances, issuer => BalancesOf(Held(s.tokens, issuer)));
  }

  // ----- keys -----

  /** The keys without what a snapshot does not carry. */
  function Stripped(keys: Keys): (r: Keys)
    ensures |r| == |keys|
    ensures forall i :: 0 <= i < |keys| ==> r[i] == Pair(keys[i].key, keys[i].value.(relatedTxIds := None))
  {
    seq(|keys|, i requires 0 <= i < |keys| => Pair(keys[i].key, keys[i].value.(relatedTxIds := None)))
  }

  function Restored(keys: Keys): (r: Keys)
    ensures |r| == |keys|
    ensures forall i :: 0 <= i < |keys| ==> r[i] == Pair(keys[i].key, FromSnapshot(keys[i].value.(relatedTxIds := None)))
  {
    seq(|keys|, i requires 0 <= i < |keys| => Pair(keys[i].key, FromSnapshot(keys[i].value.(relatedTxIds := None))))
  }

  lemma FiledInit(keys: Keys, p: Pair<string, SingleUseKey>)
    requires Filed(keys + [p])
    ensures Filed(keys) && p.value.publicKey == p.key && forall i :: 0 <= i < |keys| ==> keys[i].key != p.key
  {
    var all := keys + [p];
    assert all[|keys|] == p && forall i :: 0 <= i < |keys| ==> all[i] == keys[i];
  }

  lemma ExportedSnoc(keys: Keys, p: Pair<string, SingleUseKey>)
    ensures Exported(keys + [p]) == Exported(keys) + [p.value.(relatedTxIds := None)]
    ensures Restored(keys + [p]) == Restored(keys) + [Pair(p.key, FromSnapshot(p.value.(relatedTxIds := None)))]
  {
  }

  lemma MergedAllSnoc(keys: Keys, ks: seq<SingleUseKey>, k: SingleUseKey)
    ensures MergedAll(keys, ks + [k]) == Merged(MergedAll(keys, ks), k)
  {
    assert (ks + [k])[..|ks|] == ks;
  }

  lemma {:induction false} RestoredIs(keys: Keys)
    requires Filed(keys)
    ensures MergedAll([], Exported(keys)) == Restored(keys)
  {
    if keys != [] {
      var init, p := keys[..|keys| - 1], keys[|keys| - 1];
      assert keys == init + [p];
      FiledInit(init, p);
      RestoredIs(init);
      ExportedSnoc(init, p);
      MergedAllSnoc([], Exported(init), p.value.(relatedTxIds := None));
      MergedNew(Restored(init), p.value.(relatedTxIds := None));
    }
  }

  /** A snapshot's key that is not held is filed last. */
  lemma MergedNew(keys: Keys, k: SingleUseKey)
    requires forall i :: 0 <= i < |keys| ==> keys[i].key != k.publicKey
    ensures Merged(keys, k) == keys + [Pair(k.publicKey, FromSnapshot(k))]
  {
    GetFinds(keys, k.publicKey);
    PutNew(keys, k.publicKey, FromSnapshot(k));
  }

  /** Whatever is restored into an empty wallet stands under its own public key. */
  lemma {:induction false} MergedUnderOwnName(ks: seq<SingleUseKey>)
    ensures Keyed(MergedAll([], ks))
    ensures forall p :: p in MergedAll([], ks) ==> p.key == p.value.publicKey
    ensures forall p :: p in MergedAll([], ks) ==> exists k :: k in ks && k.publicKey == p.key
    ensures forall k :: k in ks ==> Has(MergedAll([], ks), k.publicKey)
  {
    if ks != [] {
      var init, k := ks[..|ks| - 1], ks[|ks| - 1];
      MergedUnderOwnName(init);
      assert ks == init + [k];
      MergedOne(MergedAll([], init), k);
      assert forall j :: j in init ==> j in ks;
    }
  }

  lemma MergedOne(keys: Keys, k: SingleUseKey)
    requires Keyed(keys)
    ensures Keyed(Merged(keys, k))
    ensures forall p :: p in Merged(keys, k) ==> p in keys || (p.key == k.publicKey && p.value.publicKey == k.publicKey)
    ensures forall name :: Has(Merged(keys, k), name) <==> name == k.publicKey || Has(keys, name)
  {
    var existing := Get(keys, k.publicKey);
    var key := if existing.None? then FromSnapshot(k) else FromSnapshot(k).(relatedTxIds := existing.value.relatedTxIds);
    PutKeyed(keys, k.publicKey, key);
    forall name ensures Has(Merged(keys, k), name) <==> name == k.publicKey || Has(keys, name) {
      PutGet(keys, k.publicKey, key, name);
    }
  }

  /**
   * Restoring brings the keys back as they were, up to relatedTxIds, exactly when each is filed under its own
   * public key and is normal.
   */
  lemma KeysComeBack(keys: Keys)
    requires Keyed(keys)
    ensures MergedAll([], Exported(keys)) == Stripped(keys) <==> Filed(keys) && AllNormal(keys)
  {
    var s := Stripped(keys);
    if MergedAll([], Exported(keys)) == s {
      MergedUnderOwnName(Exported(keys));
      forall i | 0 <= i < |keys| ensures keys[i].value.publicKey == keys[i].key { assert s[i] in s; }
    }
    if Filed(keys) {
      RestoredIs(keys);
      NormalComesBack(keys);
    }
  }

  lemma NormalComesBack(keys: Keys)
    ensures Restored(keys) == Stripped(keys) <==> AllNormal(keys)
  {
    var r, s := Restored(keys), Stripped(keys);
    assert forall i :: 0 <= i < |keys| ==> (r[i] == s[i] <==> Normal(keys[i].value));
    if AllNormal(keys) {
      assert r == s;
    }
    if r == s {
      forall i | 0 <= i < |keys| ensures Normal(keys[i].value) { assert r[i] == s[i]; }
    }
  }

  // ----- the counter -----

  /** The public keys held; an entry filed under another name may repeat one. */
  ghost function PublicKeys(keys: Keys): set<string> { set p | p in keys :: p.value.publicKey }

  ghost function Names(keys: Keys): set<string> { set p | p in keys :: p.key }

  lemma {:induction false} KeyedCount(keys: Keys)
    requires Keyed(keys)
    ensures |Names(keys)| == |keys|
  {
    if keys != [] {
      var init, p := keys[..|keys| - 1], keys[|keys| - 1];
      assert keys == init + [p];
      assert forall i :: 0 <= i < |init| ==> init[i] == keys[i];
      KeyedCount(init);
      assert Names(keys) == Names(init) + {p.key};
      assert p.key !in Names(init);
    }
  }

  /** Restoring keeps one entry for each public key. */
  lemma RestoredCount(keys: Keys)
    ensures |MergedAll([], Exported(keys))| == |PublicKeys(keys)|
  {
    var ks := Exported(keys);
    var merged := MergedAll([], ks);
    MergedUnderOwnName(ks);
    KeyedCount(merged);
    forall name ensures name in Names(merged) <==> name in PublicKeys(keys) {
      if name in Names(merged) {
        var p :| p in merged && p.key == name;
        var k :| k in ks && k.publicKey == p.key;
        var i :| 0 <= i < |ks| && ks[i] == k;
        assert keys[i] in keys && keys[i].value.publicKey == name;
      }
      if name in PublicKeys(keys) {
        var p :| p in keys && p.value.publicKey == name;
        var i :| 0 <= i < |keys| && keys[i] == p;
        assert ks[i] in ks && ks[i].publicKey == name;
        GetFinds(merged, name);
        var j :| 0 <= j < |merged| && merged[j] == Pair(name, Get(merged, name).value);
        assert merged[j] in merged;
      }
    }
    assert Names(merged) == PublicKeys(keys);
  }

  lemma {:induction false} HighestOfExported(keys: Keys)
    ensures HighestOf(-1, Exported(keys)) == HighestKnown(keys)
  {
    if keys != [] {
      var n := |keys| - 1;
      HighestOfExported(keys[..n]);
      assert Exported(keys)[..n] == Exported(keys[..n]);
    }
  }

  /** The counter comes back exactly when it was at least the number of public keys and above every index. */
  lemma CounterComesBack(keys: Keys, next: nat)
    ensures RestoredNext([], Exported(keys), Some(next)) == next <==> |PublicKeys(keys)| <= next && CounterAbove(keys, next)
  {
    RestoredCount(keys);
    HighestOfExported(keys);
    HighestMeans(keys, next);
    var none: Keys := [];
    assert HighestKnown(none) == -1;
  }

  /** Filed under their own names, keys are as many as public keys. */
  lemma FiledCount(keys: Keys)
    requires Filed(keys)
    ensures |PublicKeys(keys)| == |keys|
  {
    KeyedCount(keys);
    forall name ensures name in Names(keys) <==> name in PublicKeys(keys) {
      if name in Names(keys) { var p :| p in keys && p.key == name; }
      if name in PublicKeys(keys) { var p :| p in keys && p.value.publicKey == name; }
    }
    assert Names(keys) == PublicKeys(keys);
  }

  /** The key ring of any wallet that files only keys it derived comes back whole: keys and counter. */
  lemma OwnWalletComesBack(derive: Derivation, ws: seq<Wallet>, acts: seq<Action>)
    requires IsRun(derive, ws, acts) && forall k :: 0 <= k < |acts| ==> OwnAction(acts[k])
    ensures var w := ws[|acts|];
            && MergedAll([], Exported(w.keys)) == Stripped(w.keys)
            && RestoredNext([], Exported(w.keys), Some(w.next)) == w.next
  {
    var w := ws[|acts|];
    OwnWalletNeverOvertaken(derive, ws, acts);
    OwnWalletFiled(derive, ws, acts);
    KeysComeBack(w.keys);
    CounterComesBack(w.keys, w.next);
    FiledCount(w.keys);
  }

  /** Keys the wallet files are normal, except one added with a negative index. */
  lemma FiledKeysAreNormal(derive: Derivation, mnemonic: string, index: nat, now: nat, k: SingleUseKey, existing: Option<SingleUseKey>)
    ensures Normal(DerivedKey(derive, mnemonic, index, now)) && Normal(AtScannedIndex(derive, mnemonic, existing, index, now))
    ensures Normal(FromSnapshot(k))
    ensures Normal(Completed(k)) <==> !(k.index.Some? && k.index.value < 0)
  {
    FromSnapshotKeepsIndex(k);
  }

  // ----- the whole backup -----

  /**
   * exportRecoverySnapshot, then restoreKeyMaterial and importTokens into an empty wallet: the same tokens,
   * indexes and balances; the same keys up to relatedTxIds exactly when each is filed under its own public key
   * and is normal; the same counter exactly when it covers the public keys and their indexes.
   */
  method BackupAndRestore(tokens: TokenStore, ring: KeyRing, tokens': TokenStore, ring': KeyRing)
    requires tokens != tokens' && ring != ring'
    requires tokens.Valid() && GenuineTokens(tokens.tokens) && Keyed(ring.keys)
    requires tokens'.Valid() && tokens'.tokens == map[]
    requires ring'.keys == [] && ring'.favorites == []
    modifies tokens', ring'
    ensures tokens'.S() == old(tokens.S())
    ensures ring'.mnemonic == ring.mnemonic && ring'.favorites == ring.favorites
    ensures ring'.keys == Stripped(ring.keys) <==> Filed(ring.keys) && AllNormal(ring.keys)
    ensures ring'.nextIndex == ring.nextIndex
            <==> |PublicKeys(ring.keys)| <= ring.nextIndex && CounterAbove(ring.keys, ring.nextIndex)
  {
    var list := tokens.ExportTokens();
    var snapshot := ring.ExportKeys();
    ring'.RestoreKeyMaterial(snapshot);
    var _, _, _ := tokens'.ImportTokens(list);
    TokensDetermineState(tokens'.S(), tokens.S());
    KeysComeBack(ring.keys);
    CounterComesBack(ring.keys, ring.nextIndex);
  }
}
