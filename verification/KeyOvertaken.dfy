/** Key rings in which what the wallet's operations promise fails, each by a short run. */
module KeyOvertaken {
  import opened Prelude
  import opened JsMap
  import opened KeyPaths
  import opened KeyRules
  import opened PocketKeys
  import opened KeyRuns

  /** Any derivation whose first two keys differ. */
  ghost predicate TwoKeys(derive: Derivation, mnemonic: string) {
    derive(mnemonic, 0).publicKey != derive(mnemonic, 1).publicKey
  }

  /** A key filed without index or path, under a name that is neither of the first two derived keys. */
  function Unindexed(pubkey: string): SingleUseKey { SingleUseKey(pubkey, Some("s"), None, None, 1, None, None) }

  function AfterAdd(derive: Derivation, mnemonic: string, pubkey: string): Wallet {
    Step(derive, Start(mnemonic), Add(pubkey, Unindexed(pubkey)))
  }

  function AfterFirst(derive: Derivation, mnemonic: string, pubkey: string): Wallet {
    Step(derive, AfterAdd(derive, mnemonic, pubkey), Look(derive(mnemonic, 0).publicKey, 1))
  }

  function AfterSecond(derive: Derivation, mnemonic: string, pubkey: string): Wallet {
    Step(derive, AfterFirst(derive, mnemonic, pubkey), Look(derive(mnemonic, 1).publicKey, 1))
  }

  lemma AddedUnindexed(derive: Derivation, mnemonic: string, pubkey: string)
    ensures AfterAdd(derive, mnemonic, pubkey).keys == [Pair(pubkey, Unindexed(pubkey))]
    ensures AfterAdd(derive, mnemonic, pubkey).next == 1
  {
    var keys := AfterAdd(derive, mnemonic, pubkey).keys;
    assert keys == [Pair(pubkey, Unindexed(pubkey))];
    assert HighestKnown(keys[..0]) == -1;
  }

  lemma FirstRecovered(derive: Derivation, mnemonic: string, pubkey: string)
    requires pubkey != derive(mnemonic, 0).publicKey
    ensures var w := AfterFirst(derive, mnemonic, pubkey);
            && w.mnemonic == mnemonic && w.next == 1 && |w.keys| == 2
            && w.keys[0].key == pubkey && w.keys[1].key == derive(mnemonic, 0).publicKey
  {
    AddedUnindexed(derive, mnemonic, pubkey);
    var keys: Keys := [Pair(pubkey, Unindexed(pubkey))];
    var asked := derive(mnemonic, 0).publicKey;
    assert Get(keys, asked).None?;
    var r := Recover(derive, mnemonic, keys, 1, asked, 1);
    assert r.Found?;
    PutNew(keys, asked, r.key);
  }

  /**
   * The counter's documentation says it is always at least the number of keys and above their indexes. After
   * adding a key of unknown index and recovering the keys at 0 and then at 1, the counter is 1, three keys
   * are held, and one of them has index 1: the next derivation takes an index that is held.
   */
  lemma CounterOvertaken(derive: Derivation, mnemonic: string, pubkey: string)
    requires TwoKeys(derive, mnemonic)
    requires pubkey != derive(mnemonic, 0).publicKey && pubkey != derive(mnemonic, 1).publicKey
    ensures var w := AfterSecond(derive, mnemonic, pubkey);
            w.next == 1 && |w.keys| == 3 && !CounterAbove(w.keys, w.next) && KnownIndex(w.keys[2].value) == Some(w.next)
  {
    FirstRecovered(derive, mnemonic, pubkey);
    var w := AfterFirst(derive, mnemonic, pubkey);
    var asked := derive(mnemonic, 1).publicKey;
    GetFinds(w.keys, asked);
    assert Get(w.keys, asked).None?;
    assert FirstMatch(derive, mnemonic, asked, 0, 2) == Some(1);
    var r := Recover(derive, mnemonic, w.keys, 1, asked, 1);
    PutNew(w.keys, asked, r.key);
    var after := AfterSecond(derive, mnemonic, pubkey).keys;
    assert after == w.keys + [Pair(asked, r.key)];
    assert after[2].value == r.key && IndexOr(after[2].value, -1) == 1;
  }

  // ----- another key under the name asked for -----

  /** addSingleUseKey takes the name and the key apart. */
  function Misfiled(pubkey: string): SingleUseKey { SingleUseKey(pubkey, Some("s"), Some(0), None, 1, None, None) }

  /**
   * After a key is added under a name that is not its public key, recovery of that name returns that other
   * key, and a backup does not bring the entry back under its name.
   */
  lemma MisfiledKeyReturned(derive: Derivation, mnemonic: string, name: string, other: string, now: nat)
    requires name != other
    ensures var w := Step(derive, Start(mnemonic), Add(name, Misfiled(other)));
            var r := Recover(derive, mnemonic, w.keys, w.next, name, now);
            r.Found? && r.key.publicKey == other && !Filed(w.keys)
  {
    var w := Step(derive, Start(mnemonic), Add(name, Misfiled(other)));
    assert w.keys == [Pair(name, Completed(Misfiled(other)))];
    assert w.keys[0].value.publicKey == other;
  }

  // ----- a save that is lost -----

  function TakeOne(derive: Derivation, w: Wallet): Wallet {
    Step(derive, Step(derive, w, Begin(1)), Finish(|w.pending|))
  }

  /** An index handed out whose save never lands is handed out again after a restart. */
  lemma LostSaveRepeats(derive: Derivation, mnemonic: string)
    ensures var w := TakeOne(derive, Step(derive, TakeOne(derive, Start(mnemonic)), Restart));
            w.handed == [0, 0] && !Distinct(w.handed)
  {
    var once := TakeOne(derive, Start(mnemonic));
    assert once.handed == [0] && once.saved == Saved(mnemonic, [], 0);
    var none: Keys := [];
    assert HighestKnown(none) == -1 && Raised(0, none) == 0;
    var again := Step(derive, once, Restart);
    assert again.next == 0 && again.pending == [];
    assert TakeOne(derive, again).handed == [0, 0];
    assert [0, 0][0] == [0, 0][1];
  }
}
