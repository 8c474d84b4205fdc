/** The wallet's single-use keys as its methods change them. */
module PocketKeys {
  import opened Prelude
  import opened JsMap
  import opened KeyPaths
  import opened KeyRules

  /** What a backup carries of the key material. */
  datatype Snapshot = Snapshot(mnemonic: string, singleUseKeys: seq<SingleUseKey>, nextIndex: Option<int>, favorites: seq<string>)

  /** The keys as a snapshot lists them: relatedTxIds is not exported. */
  function Exported(keys: Keys): (ks: seq<SingleUseKey>)
    ensures |ks| == |keys| && forall i :: 0 <= i < |keys| ==> ks[i] == keys[i].value.(relatedTxIds := None)
  {
    seq(|keys|, i requires 0 <= i < |keys| => keys[i].value.(relatedTxIds := None))
  }

  lemma {:induction false} PutSame<K, V>(m: seq<Pair<K, V>>, k: K, v: V)
    requires Get(m, k) == Some(v)
    ensures Put(m, k, v) == m
  {
    if m[0].key != k {
      PutSame(m[1..], k, v);
    }
  }

  /** Whatever is recovered is found under the name asked for; every other entry is as it was. */
  lemma RecoveryFiles(keys: Keys, pubkey: string, r: Recovery)
    ensures forall name: string ::
              Get(AfterRecovery(keys, pubkey, r), name) == if r.Found? && name == pubkey then Some(r.key) else Get(keys, name)
  {
    if r.Found? {
      forall name: string ensures Get(Put(keys, pubkey, r.key), name) == if name == pubkey then Some(r.key) else Get(keys, name) {
        PutGet(keys, pubkey, r.key, name);
      }
    }
  }

  class KeyRing {
    const derive: Derivation
    var mnemonic: string
    var keys: Keys
    var nextIndex: nat
    var favorites: seq<string>

    constructor (derive: Derivation, mnemonic: string)
      ensures this.derive == derive && this.mnemonic == mnemonic && keys == [] && nextIndex == 0 && favorites == []
    {
      this.derive, this.mnemonic, this.keys, this.nextIndex, this.favorites := derive, mnemonic, [], 0, [];
    }

    method GetHighestKnownIndex() returns (highest: int)
      ensures highest == HighestKnown(keys)
    {
      highest := -1;
      var i := 0;
      while i < |keys|
        invariant 0 <= i <= |keys| && highest == HighestKnown(keys[..i])
      {
        assert keys[..i + 1][..i] == keys[..i];
        HighestFloor(keys[..i]);
        var key := keys[i].value;
        if key.index.Some? && key.index.value >= 0 {
          highest := Max(highest, key.index.value);
        } else {
          var parsed := ParseIndex(key.path);
          if parsed.Some? { highest := Max(highest, parsed.value); }
        }
        i := i + 1;
      }
      assert keys[..i] == keys;
    }

    /** Whatever the wallet held before, the counter ends above every known index and at least at the number of keys. */
    method AddSingleUseKey(pubkey: string, key: SingleUseKey)
      modifies this`keys, this`nextIndex
      ensures keys == Added(old(keys), pubkey, key)
      ensures nextIndex == Raised(old(nextIndex), keys)
      ensures CounterAbove(keys, nextIndex) && |keys| <= nextIndex && old(nextIndex) <= nextIndex
      ensures Has(old(keys), pubkey) ==> keys == old(keys)
      ensures !Has(old(keys), pubkey) ==>
        && |keys| == |old(keys)| + 1 && keys[..|old(keys)|] == old(keys) && keys[|old(keys)|].key == pubkey
        && keys[|old(keys)|].value.publicKey == key.publicKey && keys[|old(keys)|].value.secretKey == key.secretKey
        && (key.index.Some? ==> keys[|old(keys)|].value.index == key.index)
    {
      CompletedMeans(key);
      var completed := key;
      if key.index.Some? && !Truthy(key.path) {
        completed := key.(path := Some(PathOf(key.index.value)));
      } else if key.index.None? {
        var parsed := ParseIndex(key.path);
        if parsed.Some? { completed := key.(index := Some(parsed.value)); }
      }
      if !Has(keys, pubkey) {
        GetFinds(keys, pubkey);
        PutNew(keys, pubkey, completed);
        keys := Put(keys, pubkey, completed);
      }
      var highest := GetHighestKnownIndex();
      var minNextIndex := Max(|keys|, highest + 1);
      RaisedIsAbove(nextIndex, keys);
      nextIndex := Max(nextIndex, minNextIndex);
    }

    method RemoveSingleUseKey(pubkey: string)
      modifies this`keys
      ensures keys == Remove(old(keys), pubkey)
      ensures Keyed(old(keys)) ==>
        forall name: string :: Get(keys, name) == if name == pubkey then None else Get(old(keys), name)
    {
      if Keyed(keys) {
        forall name: string ensures Get(Remove(keys, pubkey), name) == if name == pubkey then None else Get(keys, name) {
          RemoveGet(keys, pubkey, name);
        }
      }
      if Has(keys, pubkey) {
        keys := Remove(keys, pubkey);
      } else {
        RemoveAbsent(keys, pubkey);
      }
    }

    /** deriveSingleUseKey up to its first await: the index is taken at once, so overlapping calls take different ones. */
    method BeginDerive(now: nat) returns (index: nat, key: SingleUseKey)
      modifies this`nextIndex
      ensures index == old(nextIndex) && nextIndex == index + 1
      ensures key == DerivedKey(derive, mnemonic, index, now)
      ensures key.publicKey == derive(mnemonic, index).publicKey && key.secretKey == Some(derive(mnemonic, index).secretKey)
      ensures key.index == Some(index) && ParseIndex(key.path) == Some(index) && key.used == Some(false)
    {
      PathRoundTrip(nextIndex);
      index := nextIndex;
      nextIndex := nextIndex + 1;
      key := DerivedKey(derive, mnemonic, index, now);
    }

    method FindOrRecover(pubkey: string, now: nat) returns (r: Recovery)
      requires Keyed(keys)
      modifies this`keys
      ensures r == Recover(derive, mnemonic, old(keys), nextIndex, pubkey, now)
      ensures keys == AfterRecovery(old(keys), pubkey, r)
      ensures forall name: string :: Get(keys, name) == if r.Found? && name == pubkey then Some(r.key) else Get(old(keys), name)
    {
      RecoveryFiles(keys, pubkey, Recover(derive, mnemonic, keys, nextIndex, pubkey, now));
      var existing := Get(keys, pubkey);
      if existing.Some? && Truthy(existing.value.secretKey) {
        var completed := Completed(existing.value);
        if completed != existing.value {
          keys := Put(keys, pubkey, completed);
        } else {
          PutSame(keys, pubkey, completed);
        }
        return Found(completed);
      }
      if existing.Some? && existing.value.index.Some? {
        var index := existing.value.index.value;
        if index < 0 { return Threw; }
        if derive(mnemonic, index).publicKey == pubkey {
          var recovered := AtOwnIndex(derive, mnemonic, existing.value, now);
          keys := Put(keys, pubkey, recovered);
          return Found(recovered);
        }
      }
      var hit := Scan(pubkey, ScanBound(keys, nextIndex));
      if hit.None? { return Missing; }
      var recovered := AtScannedIndex(derive, mnemonic, existing, hit.value, now);
      keys := Put(keys, pubkey, recovered);
      return Found(recovered);
    }

    /** The scan over indexes below the bound. */
    method Scan(pubkey: string, maxIndexExclusive: nat) returns (hit: Option<nat>)
      ensures hit == FirstMatch(derive, mnemonic, pubkey, 0, maxIndexExclusive)
    {
      var idx := 0;
      while idx < maxIndexExclusive
        invariant 0 <= idx <= maxIndexExclusive
        invariant FirstMatch(derive, mnemonic, pubkey, 0, maxIndexExclusive)
                  == FirstMatch(derive, mnemonic, pubkey, idx, maxIndexExclusive)
      {
        if derive(mnemonic, idx).publicKey == pubkey { return Some(idx); }
        idx := idx + 1;
      }
      return None;
    }

    /** The key part of exportRecoverySnapshot. */
    method ExportKeys() returns (snapshot: Snapshot)
      ensures snapshot == Snapshot(mnemonic, Exported(keys), Some(nextIndex), favorites)
    {
      var exported: seq<SingleUseKey> := [];
      var i := 0;
      while i < |keys|
        invariant 0 <= i <= |keys| && exported == Exported(keys[..i])
      {
        exported := exported + [keys[i].value.(relatedTxIds := None)];
        i := i + 1;
      }
      assert keys[..i] == keys;
      return Snapshot(mnemonic, exported, Some(nextIndex), favorites);
    }

    /** The loop over the snapshot's keys: each is filed or merged, and the highest index kept track of. */
    method MergeKeys(ks: seq<SingleUseKey>, start: int) returns (highest: int)
      requires start == HighestKnown(keys)
      modifies this`keys
      ensures keys == MergedAll(old(keys), ks) && highest == HighestOf(start, ks)
    {
      highest := start;
      HighestFloor(keys);
      var i := 0;
      while i < |ks|
        invariant 0 <= i <= |ks|
        invariant keys == MergedAll(old(keys), ks[..i]) && highest == HighestOf(start, ks[..i])
      {
        assert ks[..i + 1][..i] == ks[..i];
        var known := KnownIndex(ks[i]);
        HighestOfFloor(start, ks[..i]);
        if known.Some? { highest := Max(highest, known.value); }
        keys := Merged(keys, ks[i]);
        i := i + 1;
      }
      assert ks[..i] == ks;
    }

    /** The counter is set from the snapshot and what is held; only the keys bound it from below. */
    method RestoreKeyMaterial(snapshot: Snapshot)
      requires Keyed(keys)
      modifies this
      ensures mnemonic == snapshot.mnemonic
      ensures keys == MergedAll(old(keys), snapshot.singleUseKeys)
      ensures nextIndex == RestoredNext(old(keys), snapshot.singleUseKeys, snapshot.nextIndex)
      ensures Keyed(keys) && CounterAbove(keys, nextIndex) && |keys| <= nextIndex
      ensures favorites == if snapshot.favorites == [] then old(favorites) else snapshot.favorites
    {
      mnemonic := snapshot.mnemonic;
      var highest := GetHighestKnownIndex();
      var ks := snapshot.singleUseKeys;
      MergedBelow(keys, ks);
      RestoredIsAbove(keys, ks, snapshot.nextIndex);
      highest := MergeKeys(ks, highest);
      var minNextIndex := Max(|keys|, highest + 1);
      nextIndex := Max(if snapshot.nextIndex.Some? then snapshot.nextIndex.value else 0, minNextIndex);
      if snapshot.favorites != [] { favorites := snapshot.favorites; }
    }

    /** Loading a saved state repairs a counter that is missing or too low. */
    method Load(savedMnemonic: string, savedKeys: Keys, savedNext: Option<int>)
      modifies this
      ensures mnemonic == savedMnemonic && keys == savedKeys
      ensures nextIndex == Raised(if savedNext.Some? && savedNext.value > 0 then savedNext.value else 0, keys)
      ensures CounterAbove(keys, nextIndex) && |keys| <= nextIndex
    {
      mnemonic, keys := savedMnemonic, savedKeys;
      var highest := GetHighestKnownIndex();
      HighestFloor(keys);
      var minNextIndex := Max(Max(|keys|, highest + 1), 0);
      RaisedIsAbove(if savedNext.Some? && savedNext.value > 0 then savedNext.value else 0, keys);
      nextIndex := if savedNext.None? then minNextIndex else Max(savedNext.value, minNextIndex);
    }
  }

  lemma {:induction false} RemoveAbsent<K, V>(m: seq<Pair<K, V>>, k: K)
    requires !Has(m, k)
    ensures Remove(m, k) == m
  {
    if m != [] {
      RemoveAbsent(m[1..], k);
    }
  }

  lemma {:induction false} HighestOfFloor(start: int, ks: seq<SingleUseKey>)
    ensures HighestOf(start, ks) >= start
  {
    if ks != [] {
      HighestOfFloor(start, ks[..|ks| - 1]);
    }
  }
}
