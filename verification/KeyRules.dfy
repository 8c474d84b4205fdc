/** What the wallet's key operations do to its single-use keys and derivation counter. */
module KeyRules {
  import opened Prelude
  import opened JsMap
  import opened KeyPaths
  import Tokens

  datatype SingleUseKey = SingleUseKey(
    publicKey: string,
    secretKey: Option<string>,
    index: Option<int>,
    path: Option<string>,
    createdAt: nat,
    relatedTxIds: Option<seq<string>>,
    used: Option<bool>)

  datatype KeyPair = KeyPair(publicKey: string, secretKey: string)

  /** Deterministic derivation: the key pair of a mnemonic at an index. */
  type Derivation = (string, nat) -> KeyPair

  type Keys = seq<Pair<string, SingleUseKey>>

  function Max(a: int, b: int): int { if a >= b then a else b }

  function Truthy(s: Option<string>): bool { s.Some? && s.value != "" }

  /** The index a key is known to have been derived at. */
  function KnownIndex(k: SingleUseKey): Option<nat> {
    if k.index.Some? && k.index.value >= 0 then Some(k.index.value) else ParseIndex(k.path)
  }

  function IndexOr(k: SingleUseKey, absent: int): int {
    var known := KnownIndex(k);
    if known.Some? then known.value else absent
  }

  /** getHighestKnownSingleUseKeyIndex */
  function HighestKnown(keys: Keys): int {
    if keys == [] then -1 else Max(HighestKnown(keys[..|keys| - 1]), IndexOr(keys[|keys| - 1].value, -1))
  }

  /** Every held key's index is below the counter. */
  ghost predicate CounterAbove(keys: Keys, next: int) {
    forall i :: 0 <= i < |keys| ==> IndexOr(keys[i].value, -1) < next
  }

  lemma {:induction false} HighestMeans(keys: Keys, next: nat)
    ensures CounterAbove(keys, next) <==> HighestKnown(keys) < next
  {
    if keys != [] {
      var n := |keys| - 1;
      HighestMeans(keys[..n], next);
      assert forall i :: 0 <= i < n ==> keys[..n][i] == keys[i];
    }
  }

  /** That is: above the index it states or, when it states none, above the one its path tells. */
  lemma CounterAboveMeans(keys: Keys, next: nat)
    ensures CounterAbove(keys, next) <==>
            forall i :: 0 <= i < |keys| ==>
              var k := keys[i].value;
              if k.index.Some? && k.index.value >= 0 then k.index.value < next
              else ParseIndex(k.path).Some? ==> ParseIndex(k.path).value < next
  {
    if CounterAbove(keys, next) {
      forall i | 0 <= i < |keys|
        ensures var k := keys[i].value;
                if k.index.Some? && k.index.value >= 0 then k.index.value < next
                else ParseIndex(k.path).Some? ==> ParseIndex(k.path).value < next
      {
        assert IndexOr(keys[i].value, -1) < next;
      }
    }
  }

  lemma CounterAboveAll(keys: Keys, next: int)
    ensures CounterAbove(keys, next) <==> forall p :: p in keys ==> IndexOr(p.value, -1) < next
  {
    if forall p :: p in keys ==> IndexOr(p.value, -1) < next {
      forall i | 0 <= i < |keys| ensures IndexOr(keys[i].value, -1) < next { assert keys[i] in keys; }
    }
  }

  /** Index and path complete each other: as a key is stored, and as a held key is handed out. */
  function Completed(k: SingleUseKey): SingleUseKey {
    if k.index.Some? then
      if Truthy(k.path) then k else k.(path := Some(PathOf(k.index.value)))
    else
      var parsed := ParseIndex(k.path);
      if parsed.Some? then k.(index := Some(parsed.value)) else k
  }

  lemma CompletedKeepsIndex(k: SingleUseKey)
    ensures KnownIndex(Completed(k)) == KnownIndex(k)
  {
    if k.index.Some? && !Truthy(k.path) {
      PathRoundTrip(k.index.value);
      assert k.path == None || k.path == Some("");
    }
  }

  /** Only index and path are filled in, each from the other, and only where missing. */
  lemma CompletedMeans(k: SingleUseKey)
    ensures var c := Completed(k);
            && c.publicKey == k.publicKey && c.secretKey == k.secretKey && c.createdAt == k.createdAt
            && c.relatedTxIds == k.relatedTxIds && c.used == k.used
            && (k.index.Some? ==> c.index == k.index)
            && (k.path.Some? && k.path.value != "" ==> c.path == k.path)
            && (k.index.Some? && k.index.value >= 0 && (k.path.None? || k.path.value == "") ==>
                  c.path.Some? && ParseIndex(c.path) == Some(k.index.value))
            && (k.index.None? ==>
                  && c.path == k.path
                  && (if ParseIndex(k.path).Some? then c.index == Some(ParseIndex(k.path).value) else c.index.None?))
  {
    if k.index.Some? { PathRoundTrip(k.index.value); }
  }

  /** Index and path are both there, or neither tells an index. */
  predicate Normal(k: SingleUseKey) {
    if k.index.Some? then k.index.value >= 0 && Truthy(k.path) else ParseIndex(k.path).None?
  }

  ghost predicate AllNormal(keys: Keys) { forall i :: 0 <= i < |keys| ==> Normal(keys[i].value) }

  // ----- adding -----

  function Added(keys: Keys, pubkey: string, key: SingleUseKey): Keys {
    if Has(keys, pubkey) then keys else keys + [Pair(pubkey, Completed(key))]
  }

  /** The counter is raised to the number of keys and past the highest known index. */
  function Raised(next: nat, keys: Keys): nat {
    Max(next, Max(|keys|, HighestKnown(keys) + 1))
  }

  lemma RaisedIsAbove(next: nat, keys: Keys)
    ensures CounterAbove(keys, Raised(next, keys)) && |keys| <= Raised(next, keys) && next <= Raised(next, keys)
  {
    HighestMeans(keys, Raised(next, keys));
  }

  /** And no higher than it must be. */
  lemma RaisedIsLeast(next: nat, keys: Keys, n: nat)
    requires next <= n && |keys| <= n && CounterAbove(keys, n)
    ensures Raised(next, keys) <= n
  {
    HighestMeans(keys, n);
  }

  function DerivedKey(derive: Derivation, mnemonic: string, index: nat, now: nat): SingleUseKey {
    var pair := derive(mnemonic, index);
    SingleUseKey(pair.publicKey, Some(pair.secretKey), Some(index), Some(PathOf(index)), now, None, Some(false))
  }

  // ----- recovery -----

  datatype Recovery = Threw | Missing | Found(key: SingleUseKey)

  /** The first index in [from, end) whose derived key is the one asked for. */
  function FirstMatch(derive: Derivation, mnemonic: string, pubkey: string, from: nat, end: nat): (r: Option<nat>)
    ensures r.Some? ==>
      && from <= r.value < end && derive(mnemonic, r.value).publicKey == pubkey
      && forall j: nat :: from <= j < r.value ==> derive(mnemonic, j).publicKey != pubkey
    ensures r.None? ==> (forall j: nat :: from <= j < end ==> derive(mnemonic, j).publicKey != pubkey)
    decreases end - from
  {
    if from >= end then None
    else if derive(mnemonic, from).publicKey == pubkey then Some(from)
    else FirstMatch(derive, mnemonic, pubkey, from + 1, end)
  }

  /** Recovery by the index the held entry states. */
  function AtOwnIndex(derive: Derivation, mnemonic: string, existing: SingleUseKey, now: nat): SingleUseKey
    requires existing.index.Some? && existing.index.value >= 0
  {
    var pair := derive(mnemonic, existing.index.value);
    existing.(publicKey := pair.publicKey, secretKey := Some(pair.secretKey), path := Some(PathOf(existing.index.value)),
              createdAt := if existing.createdAt == 0 then now else existing.createdAt)
  }

  /** Recovery by scanning. */
  function AtScannedIndex(derive: Derivation, mnemonic: string, existing: Option<SingleUseKey>, i: nat, now: nat): SingleUseKey {
    var pair := derive(mnemonic, i);
    SingleUseKey(pair.publicKey, Some(pair.secretKey), Some(i), Some(PathOf(i)),
                 if existing.Some? && existing.value.createdAt != 0 then existing.value.createdAt else now,
                 if existing.Some? then existing.value.relatedTxIds else None,
                 if existing.Some? then existing.value.used else None)
  }

  function ScanBound(keys: Keys, next: nat): nat { Max(next, |keys|) }

  /** findOrRecoverSingleUseKeyByPubkey; a negative index cannot be derived and throws. */
  function Recover(derive: Derivation, mnemonic: string, keys: Keys, next: nat, pubkey: string, now: nat): Recovery {
    var existing := Get(keys, pubkey);
    if existing.Some? && Truthy(existing.value.secretKey) then Found(Completed(existing.value))
    else if existing.Some? && existing.value.index.Some? && existing.value.index.value < 0 then Threw
    else if existing.Some? && existing.value.index.Some?
            && derive(mnemonic, existing.value.index.value).publicKey == pubkey then
      Found(AtOwnIndex(derive, mnemonic, existing.value, now))
    else
      match FirstMatch(derive, mnemonic, pubkey, 0, ScanBound(keys, next))
      case None => Missing
      case Some(i) => Found(AtScannedIndex(derive, mnemonic, existing, i, now))
  }

  function AfterRecovery(keys: Keys, pubkey: string, r: Recovery): Keys {
    if r.Found? then Put(keys, pubkey, r.key) else keys
  }

  /** Each entry is the key it is filed under. */
  ghost predicate Filed(keys: Keys) {
    Keyed(keys) && forall i :: 0 <= i < |keys| ==> keys[i].value.publicKey == keys[i].key
  }

  /**
   * What is returned is the key asked for, exactly unless an entry with a secret stands under the name asked
   * for and is another key: that entry is returned as it is.
   */
  lemma RecoverMatches(derive: Derivation, mnemonic: string, keys: Keys, next: nat, pubkey: string, now: nat)
    requires Recover(derive, mnemonic, keys, next, pubkey, now).Found?
    ensures var existing := Get(keys, pubkey);
            Recover(derive, mnemonic, keys, next, pubkey, now).key.publicKey == pubkey
            <==> (existing.Some? && Truthy(existing.value.secretKey) ==> existing.value.publicKey == pubkey)
  {
    var _ := FirstMatch(derive, mnemonic, pubkey, 0, ScanBound(keys, next));
  }

  /** A recovered key signs for the name asked for: its secret is the held one, or the one derived at the index it states. */
  lemma RecoveredSecret(derive: Derivation, mnemonic: string, keys: Keys, next: nat, pubkey: string, now: nat)
    requires Recover(derive, mnemonic, keys, next, pubkey, now).Found?
    ensures var k, existing := Recover(derive, mnemonic, keys, next, pubkey, now).key, Get(keys, pubkey);
            if existing.Some? && existing.value.secretKey.Some? && existing.value.secretKey.value != "" then
              k == Completed(existing.value) && k.secretKey == existing.value.secretKey
            else
              && k.index.Some? && k.index.value >= 0 && ParseIndex(k.path) == Some(k.index.value)
              && derive(mnemonic, k.index.value) == KeyPair(pubkey, k.secretKey.value) && k.secretKey.Some?
              && (existing.Some? ==> k.used == existing.value.used && k.relatedTxIds == existing.value.relatedTxIds)
              && k.createdAt == if existing.Some? && existing.value.createdAt != 0 then existing.value.createdAt else now
  {
    var existing := Get(keys, pubkey);
    var k := Recover(derive, mnemonic, keys, next, pubkey, now).key;
    if !(existing.Some? && Truthy(existing.value.secretKey)) {
      PathRoundTrip(k.index.value);
    }
  }

  lemma RecoveryKeyed(derive: Derivation, mnemonic: string, keys: Keys, next: nat, pubkey: string, now: nat)
    requires Keyed(keys)
    ensures Keyed(AfterRecovery(keys, pubkey, Recover(derive, mnemonic, keys, next, pubkey, now)))
  {
    var r := Recover(derive, mnemonic, keys, next, pubkey, now);
    if r.Found? { PutKeyed(keys, pubkey, r.key); }
  }

  /** So it is the key asked for whenever every entry is the key it is filed under, and then that stays so. */
  lemma RecoverKeepsFiled(derive: Derivation, mnemonic: string, keys: Keys, next: nat, pubkey: string, now: nat)
    requires Filed(keys)
    ensures var r := Recover(derive, mnemonic, keys, next, pubkey, now);
            Filed(AfterRecovery(keys, pubkey, r)) && (r.Found? ==> r.key.publicKey == pubkey)
  {
    var r := Recover(derive, mnemonic, keys, next, pubkey, now);
    if r.Found? {
      RecoverMatches(derive, mnemonic, keys, next, pubkey, now);
      GetFinds(keys, pubkey);
      PutKeyed(keys, pubkey, r.key);
      var after := Put(keys, pubkey, r.key);
      forall i | 0 <= i < |after| ensures after[i].value.publicKey == after[i].key {
        assert after[i] in after;
        assert after[i] == Pair(pubkey, r.key) || after[i] in keys;
      }
    }
  }

  /** Recovery finds every key derived from the current mnemonic below the counter, held or not, unless it throws. */
  lemma RecoverFinds(derive: Derivation, mnemonic: string, keys: Keys, next: nat, index: nat, now: nat)
    requires index < next
    ensures var pubkey := derive(mnemonic, index).publicKey;
            var r := Recover(derive, mnemonic, keys, next, pubkey, now);
            && !r.Missing?
            && (r.Threw? <==>
                  var existing := Get(keys, pubkey);
                  existing.Some? && !Truthy(existing.value.secretKey) && existing.value.index.Some? && existing.value.index.value < 0)
  {
    var pubkey := derive(mnemonic, index).publicKey;
    var _ := FirstMatch(derive, mnemonic, pubkey, 0, ScanBound(keys, next));
  }

  /** The scan reaches past the counter and finds the key there: more keys are held than the counter counts. */
  ghost predicate HitsAbove(derive: Derivation, mnemonic: string, keys: Keys, next: nat, pubkey: string) {
    var existing := Get(keys, pubkey);
    && !(existing.Some? && Truthy(existing.value.secretKey))
    && !(existing.Some? && existing.value.index.Some?
         && (existing.value.index.value < 0 || derive(mnemonic, existing.value.index.value).publicKey == pubkey))
    && (forall j: nat :: j < next ==> derive(mnemonic, j).publicKey != pubkey)
    && exists i: nat :: next <= i < |keys| && derive(mnemonic, i).publicKey == pubkey
  }

  /** Recovery keeps the counter above every held index exactly when the scan does not hit beyond the counter. */
  lemma RecoverKeepsCounter(derive: Derivation, mnemonic: string, keys: Keys, next: nat, pubkey: string, now: nat)
    requires Keyed(keys) && CounterAbove(keys, next)
    ensures CounterAbove(AfterRecovery(keys, pubkey, Recover(derive, mnemonic, keys, next, pubkey, now)), next)
            <==> !HitsAbove(derive, mnemonic, keys, next, pubkey)
  {
    var r := Recover(derive, mnemonic, keys, next, pubkey, now);
    if r.Found? {
      RecoveredIndex(derive, mnemonic, keys, next, pubkey, now);
      CounterAfterPut(keys, next, pubkey, r.key);
    }
  }

  lemma RecoveredIndex(derive: Derivation, mnemonic: string, keys: Keys, next: nat, pubkey: string, now: nat)
    requires CounterAbove(keys, next) && Recover(derive, mnemonic, keys, next, pubkey, now).Found?
    ensures IndexOr(Recover(derive, mnemonic, keys, next, pubkey, now).key, -1) < next
            <==> !HitsAbove(derive, mnemonic, keys, next, pubkey)
  {
    var existing := Get(keys, pubkey);
    GetFinds(keys, pubkey);
    if existing.Some? {
      CompletedKeepsIndex(existing.value);
    }
  }

  lemma CounterAfterPut(keys: Keys, next: int, pubkey: string, key: SingleUseKey)
    requires Keyed(keys) && CounterAbove(keys, next)
    ensures CounterAbove(Put(keys, pubkey, key), next) <==> IndexOr(key, -1) < next
  {
    var after := Put(keys, pubkey, key);
    PutKeyed(keys, pubkey, key);
    PutGet(keys, pubkey, key, pubkey);
    GetFinds(after, pubkey);
    CounterAboveAll(keys, next);
    CounterAboveAll(after, next);
  }

  // ----- a wallet of its own derived keys never scans past the counter -----

  ghost predicate AllIndexed(keys: Keys) {
    && (forall i :: 0 <= i < |keys| ==> KnownIndex(keys[i].value).Some?)
    && forall i, j :: 0 <= i < j < |keys| ==> KnownIndex(keys[i].value) != KnownIndex(keys[j].value)
  }

  /** Distinct indexes below the counter: no more keys than the counter counts. */
  lemma {:induction false} NoMoreThanCounted(ns: seq<nat>, bound: nat)
    requires Distinct(ns) && forall i :: 0 <= i < |ns| ==> ns[i] < bound
    ensures |ns| <= bound
    decreases bound
  {
    if ns != [] {
      assert ns[0] < bound;
      var top := bound - 1;
      if top in ns {
        var k :| 0 <= k < |ns| && ns[k] == top;
        var others := ns[..k] + ns[k + 1..];
        assert forall i :: 0 <= i < |others| ==> others[i] == ns[if i < k then i else i + 1];
        NoMoreThanCounted(others, top);
      } else {
        NoMoreThanCounted(ns, top);
      }
    }
  }

  lemma IndexedNeverHitsAbove(derive: Derivation, mnemonic: string, keys: Keys, next: nat, pubkey: string)
    requires AllIndexed(keys) && CounterAbove(keys, next)
    ensures |keys| <= next && !HitsAbove(derive, mnemonic, keys, next, pubkey)
  {
    var ns: seq<nat> := seq(|keys|, i requires 0 <= i < |keys| => KnownIndex(keys[i].value).value);
    forall i | 0 <= i < |ns| ensures ns[i] < next { assert IndexOr(keys[i].value, -1) == ns[i]; }
    NoMoreThanCounted(ns, next);
  }

  // ----- restoring -----

  /** A snapshot's key with its index read and its path filled in. */
  function FromSnapshot(k: SingleUseKey): SingleUseKey {
    var known := KnownIndex(k);
    k.(index := if known.Some? then Some(known.value) else None,
       path := if known.Some? && !Truthy(k.path) then Some(PathOf(known.value)) else k.path)
  }

  lemma FromSnapshotKeepsIndex(k: SingleUseKey)
    ensures KnownIndex(FromSnapshot(k)) == KnownIndex(k)
  {
  }

  /** The snapshot's fields win; what it does not carry stays. */
  function Merged(keys: Keys, k: SingleUseKey): Keys {
    var existing := Get(keys, k.publicKey);
    var normalized := FromSnapshot(k);
    Put(keys, k.publicKey, if existing.None? then normalized else normalized.(relatedTxIds := existing.value.relatedTxIds))
  }

  /** Merging one snapshot key: its fields are found under its public key, what it does not carry stays, all else is as it was. */
  lemma MergedMeans(keys: Keys, k: SingleUseKey, name: string)
    ensures name != k.publicKey ==> Get(Merged(keys, k), name) == Get(keys, name)
    ensures var r, existing := Get(Merged(keys, k), k.publicKey), Get(keys, k.publicKey);
            && r.Some?
            && r.value.publicKey == k.publicKey && r.value.secretKey == k.secretKey
            && r.value.createdAt == k.createdAt && r.value.used == k.used
            && r.value.relatedTxIds == (if existing.Some? then existing.value.relatedTxIds else k.relatedTxIds)
            && r.value.index == (if k.index.Some? && k.index.value >= 0 then k.index
                                 else if ParseIndex(k.path).Some? then Some(ParseIndex(k.path).value) else None)
            && (k.path.Some? && k.path.value != "" ==> r.value.path == k.path)
            && (r.value.index.Some? && (k.path.None? || k.path.value == "") ==> ParseIndex(r.value.path) == Some(r.value.index.value))
  {
    var existing := Get(keys, k.publicKey);
    var normalized := FromSnapshot(k);
    var key := if existing.None? then normalized else normalized.(relatedTxIds := existing.value.relatedTxIds);
    PutGet(keys, k.publicKey, key, name);
    PutGet(keys, k.publicKey, key, k.publicKey);
    if KnownIndex(k).Some? { PathRoundTrip(KnownIndex(k).value); }
  }

  function MergedAll(keys: Keys, ks: seq<SingleUseKey>): Keys {
    if ks == [] then keys else Merged(MergedAll(keys, ks[..|ks| - 1]), ks[|ks| - 1])
  }

  function HighestOf(start: int, ks: seq<SingleUseKey>): int {
    if ks == [] then start else Max(HighestOf(start, ks[..|ks| - 1]), IndexOr(ks[|ks| - 1], -1))
  }

  /** The counter after a restore: it can be lower than it was. */
  function RestoredNext(keys: Keys, ks: seq<SingleUseKey>, next: Option<int>): nat {
    Max(if next.Some? then next.value else 0,
        Max(|MergedAll(keys, ks)|, HighestOf(HighestKnown(keys), ks) + 1))
  }

  lemma {:induction false} MergedBelow(keys: Keys, ks: seq<SingleUseKey>)
    requires Keyed(keys)
    ensures Keyed(MergedAll(keys, ks)) && HighestOf(HighestKnown(keys), ks) >= -1
    ensures CounterAbove(MergedAll(keys, ks), HighestOf(HighestKnown(keys), ks) + 1)
  {
    if ks == [] {
      HighestFloor(keys);
      HighestMeans(keys, HighestKnown(keys) + 1);
    } else {
      var n := |ks| - 1;
      MergedBelow(keys, ks[..n]);
      var before := MergedAll(keys, ks[..n]);
      var bound := HighestOf(HighestKnown(keys), ks) + 1;
      var stored := Get(MergedAll(keys, ks), ks[n].publicKey);
      FromSnapshotKeepsIndex(ks[n]);
      var existing := Get(before, ks[n].publicKey);
      var key := if existing.None? then FromSnapshot(ks[n]) else FromSnapshot(ks[n]).(relatedTxIds := existing.value.relatedTxIds);
      assert IndexOr(key, -1) == IndexOr(ks[n], -1);
      PutKeyed(before, ks[n].publicKey, key);
      CounterAfterPut(before, bound, ks[n].publicKey, key);
    }
  }

  lemma {:induction false} HighestFloor(keys: Keys)
    ensures HighestKnown(keys) >= -1
  {
    if keys != [] {
      HighestFloor(keys[..|keys| - 1]);
    }
  }

  lemma RestoredIsAbove(keys: Keys, ks: seq<SingleUseKey>, next: Option<int>)
    requires Keyed(keys)
    ensures CounterAbove(MergedAll(keys, ks), RestoredNext(keys, ks, next))
    ensures |MergedAll(keys, ks)| <= RestoredNext(keys, ks, next)
  {
    MergedBelow(keys, ks);
  }

  lemma {:induction false} HighestOfMeans(start: int, ks: seq<SingleUseKey>, n: nat)
    ensures HighestOf(start, ks) < n <==> start < n && forall i :: 0 <= i < |ks| ==> IndexOr(ks[i], -1) < n
  {
    if ks != [] {
      HighestOfMeans(start, ks[..|ks| - 1], n);
      assert forall i :: 0 <= i < |ks| - 1 ==> ks[..|ks| - 1][i] == ks[i];
    }
  }

  /** The restored counter is the least one that is at least the snapshot's and covers held and snapshot keys. */
  lemma RestoredIsLeast(keys: Keys, ks: seq<SingleUseKey>, next: Option<int>, n: nat)
    requires next.Some? ==> next.value <= n
    requires |MergedAll(keys, ks)| <= n && CounterAbove(keys, n)
    requires forall i :: 0 <= i < |ks| ==> IndexOr(ks[i], -1) < n
    ensures RestoredNext(keys, ks, next) <= n
    ensures next.Some? ==> next.value <= RestoredNext(keys, ks, next)
  {
    HighestMeans(keys, n);
    HighestOfMeans(HighestKnown(keys), ks, n);
  }
}
