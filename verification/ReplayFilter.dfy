/**
 * The replay filter of every NWPC node: a bounded LRU in front of a Bloom filter, saved with the
 * node's state and reloaded after a crash. An event once marked must never look new again.
 */
module ReplayFilter {
  import opened Prelude
  import opened DataHelpers
  import Json
  import Base64
  import opened Bloom
  import opened Numerals

  const LRU_SIZE := 1000

  /** Setting an entry of the recent cache, at most LRU_SIZE of them: the least recently set goes first. */
  function Touch(lru: seq<string>, id: string): seq<string> {
    var kept := Without(lru, id) + [id];
    if |kept| > LRU_SIZE then kept[1..] else kept
  }

  /** Setting an id makes it the latest; every other one stays, in order, except the oldest when there is no room. */
  lemma TouchMeans(lru: seq<string>, id: string)
    requires Distinct(lru) && |lru| <= 1000
    ensures var r := Touch(lru, id);
            && Distinct(r) && |r| <= 1000 && r[|r| - 1] == id
            && (id in lru || |lru| < 1000 ==> forall x :: x in r <==> x in lru || x == id)
            && (id !in lru && |lru| == 1000 ==> r == lru[1..] + [id])
  {
    WithoutMeans(lru, id);
  }

  lemma {:induction false} WithoutMeans(lru: seq<string>, id: string)
    requires Distinct(lru)
    ensures Distinct(Without(lru, id)) && id !in Without(lru, id)
    ensures forall x :: x in Without(lru, id) <==> x in lru && x != id
    ensures |Without(lru, id)| == if id in lru then |lru| - 1 else |lru|
    ensures id !in lru ==> Without(lru, id) == lru
  {
    if lru != [] {
      var rest := lru[1..];
      assert forall i :: 0 <= i < |rest| ==> rest[i] == lru[i + 1];
      WithoutMeans(rest, id);
      assert lru == [lru[0]] + rest;
      assert lru[0] !in rest;
      if lru[0] != id { DistinctFront(lru[0], Without(rest, id)); }
    }
  }

  lemma DistinctFront(x: string, s: seq<string>)
    requires Distinct(s) && x !in s
    ensures Distinct([x] + s)
  {
  }

  function Without(lru: seq<string>, id: string): seq<string> {
    if lru == [] then []
    else if lru[0] == id then Without(lru[1..], id)
    else [lru[0]] + Without(lru[1..], id)
  }

  // ----- the node's saved state -----

  function PutField(fs: seq<(string, Js)>, key: string, v: Js): seq<(string, Js)> {
    if fs == [] then [(key, v)]
    else if fs[0].0 == key then [(key, v)] + fs[1..]
    else [fs[0]] + PutField(fs[1..], key, v)
  }

  function DeleteField(fs: seq<(string, Js)>, key: string): seq<(string, Js)> {
    if fs == [] then []
    else if fs[0].0 == key then fs[1..]
    else [fs[0]] + DeleteField(fs[1..], key)
  }

  /** The filter's serialised form as an object, the one stored under processedEventBloom. */
  function BloomState(m: Image): Js {
    Obj([("metadata", Str(Json.Stringify(Metadata(m)))), ("bits", Str(Base64Bits(m)))])
  }

  function Base64Bits(m: Image): string { Base64.Encode(ToBytes(m.bytes)) }

  /** The text saveState writes for the state fs and a filter with image m. */
  function SavedText(fs: seq<(string, Js)>, m: Image): string {
    SerializeData(Obj(PutField(fs, "processedEventBloom", BloomState(m))))
  }

  /** JSON.stringify of a plain value; Sets and Maps have no own enumerable properties. */
  function PlainJson(v: Js): Json.Json
    decreases v, 1
  {
    match v
    case Null => Json.JNull
    case Bool(b) => Json.JBool(b)
    case Num(n) => Json.JNum(n)
    case Dec(text) => Json.JDec(text)
    case Str(s) => Json.JStr(s)
    case Arr(items) => Json.JArr(PlainItems(items))
    case Obj(fields) => Json.JObj(PlainFields(fields))
    case _ => Json.JObj([])
  }

  function PlainItems(xs: seq<Js>): seq<Json.Json>
    decreases xs, 0
  {
    if xs == [] then [] else [PlainJson(xs[0])] + PlainItems(xs[1..])
  }

  function PlainField(f: (string, Js)): (string, Json.Json)
    decreases f, 2
  {
    (f.0, PlainJson(f.1))
  }

  function PlainFields(fs: seq<(string, Js)>): seq<(string, Json.Json)>
    decreases fs, 0
  {
    if fs == [] then [] else [PlainField(fs[0])] + PlainFields(fs[1..])
  }

  /** Element by element and field by field; a Set or a Map leaves an empty object. */
  lemma {:induction false} PlainElements(xs: seq<Js>)
    ensures |PlainItems(xs)| == |xs| && forall i :: 0 <= i < |xs| ==> PlainItems(xs)[i] == PlainJson(xs[i])
  {
    if xs != [] {
      PlainElements(xs[1..]);
      assert forall i :: 1 <= i < |xs| ==> xs[i] == xs[1..][i - 1];
    }
  }

  lemma {:induction false} PlainMembers(fs: seq<(string, Js)>)
    ensures |PlainFields(fs)| == |fs| && forall i :: 0 <= i < |fs| ==> PlainFields(fs)[i] == (fs[i].0, PlainJson(fs[i].1))
  {
    if fs != [] {
      PlainMembers(fs[1..]);
      assert forall i :: 1 <= i < |fs| ==> fs[i] == fs[1..][i - 1];
    }
  }

  /** Without Sets and Maps the plain text of a value is its tagged text. */
  ghost predicate Collectionless(v: Js)
    decreases v
  {
    match v
    case Arr(items) => forall i :: 0 <= i < |items| ==> Collectionless(items[i])
    case Obj(fields) => forall i :: 0 <= i < |fields| ==> Collectionless(fields[i].1)
    case SetOf(_) => false
    case MapOf(_) => false
    case _ => true
  }

  lemma {:induction false} PlainIsTag(v: Js)
    requires Collectionless(v)
    ensures PlainJson(v) == Tag(v)
    decreases v
  {
    match v
    case Arr(items) =>
      PlainElements(items);
      TagItemsAt(items);
      forall i | 0 <= i < |items| ensures PlainJson(items[i]) == Tag(items[i]) { PlainIsTag(items[i]); }
      assert PlainItems(items) == TagItems(items);
    case Obj(fields) =>
      PlainMembers(fields);
      TagFieldsAt(fields);
      forall i | 0 <= i < |fields| ensures PlainJson(fields[i].1) == Tag(fields[i].1) { PlainIsTag(fields[i].1); }
      assert PlainFields(fields) == TagFields(fields);
    case _ =>
  }

  /** The filter image recovered from a loaded state object, if it holds one. */
  function LoadedImage(fs: seq<(string, Js)>): Option<Image> {
    match JsField(fs, "processedEventBloom")
    case None => None
    case Some(v) => ReadImage(Json.Stringify(PlainJson(v)))
  }

  // ----- saving and loading are inverse, all the way to the text -----

  lemma {:induction false} PutFieldThenGet(fs: seq<(string, Js)>, key: string, v: Js)
    ensures JsField(PutField(fs, key, v), key) == Some(v)
    ensures forall k :: k != key ==> JsField(PutField(fs, key, v), k) == JsField(fs, k)
  {
    if fs != [] {
      PutFieldThenGet(fs[1..], key, v);
      var r := PutField(fs, key, v);
      assert r[1..] == if fs[0].0 == key then fs[1..] else PutField(fs[1..], key, v);
    }
  }

  lemma {:induction false} DeleteFieldThenGet(fs: seq<(string, Js)>, key: string)
    ensures forall k :: k != key ==> JsField(DeleteField(fs, key), k) == JsField(fs, k)
    ensures (forall i, j :: 0 <= i < j < |fs| ==> fs[i].0 != fs[j].0) ==> JsField(DeleteField(fs, key), key) == None
  {
    if fs != [] {
      var rest := fs[1..];
      assert forall i :: 0 <= i < |rest| ==> rest[i] == fs[i + 1];
      DeleteFieldThenGet(rest, key);
      if fs[0].0 == key {
        if forall i, j :: 0 <= i < j < |fs| ==> fs[i].0 != fs[j].0 { AbsentField(rest, key); }
      } else {
        assert DeleteField(fs, key)[1..] == DeleteField(rest, key);
      }
    }
  }

  lemma {:induction false} AbsentField(fs: seq<(string, Js)>, key: string)
    requires forall i :: 0 <= i < |fs| ==> fs[i].0 != key
    ensures JsField(fs, key) == None
  {
    if fs != [] { AbsentField(fs[1..], key); }
  }

  lemma {:induction false} PutFieldShape(fs: seq<(string, Js)>, key: string, v: Js)
    requires Valid(Obj(fs)) && Valid(v)
    ensures Valid(Obj(PutField(fs, key, v)))
    ensures forall f :: f in PutField(fs, key, v) ==> f in fs || f == (key, v)
  {
    if fs != [] {
      assert forall i :: 1 <= i < |fs| ==> fs[i] == fs[1..][i - 1];
      assert Valid(Obj(fs[1..]));
      PutFieldShape(fs[1..], key, v);
      var r := PutField(fs, key, v);
      if fs[0].0 != key {
        var t := PutField(fs[1..], key, v);
        assert r == [fs[0]] + t;
        forall j | 0 <= j < |t| ensures t[j].0 != fs[0].0 && Valid(t[j].1) {
          assert t[j] in t;
          if t[j] in fs[1..] {
            var i :| 0 <= i < |fs[1..]| && fs[1..][i] == t[j];
            assert fs[i + 1] == t[j];
          }
        }
      }
    }
  }

  lemma PlainFieldsPair(f: (string, Js), g: (string, Js))
    ensures PlainFields([f, g]) == [PlainField(f), PlainField(g)]
  {
    var none: seq<(string, Js)> := [];
    assert [f, g][1..] == [g] && [g][1..] == none;
    assert PlainFields(none) == [];
    assert PlainFields([g]) == [PlainField(g)];
  }

  lemma BloomStateBack(m: Image)
    ensures PlainJson(BloomState(m)) == ImageJson(m)
    ensures Valid(BloomState(m)) && ClashFree(BloomState(m))
  {
    var fs := BloomState(m).fields;
    assert fs[1..] == [("bits", Str(Base64Bits(m)))];
    PlainFieldsPair(fs[0], fs[1]);
    assert fs == [fs[0], fs[1]];
    assert JsField(fs[1..], "__type") == None;
  }

  /** Whatever else the state holds, provided it survives serialisation, loading it restores the filter's image. */
  lemma SaveLoadRestoresImage(fs: seq<(string, Js)>, m: Image)
    requires Valid(Obj(fs)) && ClashFree(Obj(fs))
    ensures var saved := PutField(fs, "processedEventBloom", BloomState(m));
            && DeserializeData(SavedText(fs, m)) == Some(Obj(saved)) && LoadedImage(saved) == Some(m)
            && JsField(saved, "processedEventIds") == JsField(fs, "processedEventIds")
  {
    BloomStateBack(m);
    assert |"processedEventBloom"| != |"processedEventIds"|;
    StateRoundTrip(fs, "processedEventBloom", BloomState(m), "processedEventIds");
    ImageRoundTrip(m);
  }

  lemma StateRoundTrip(fs: seq<(string, Js)>, key: string, v: Js, other: string)
    requires key != other && key != "__type" && Valid(Obj(fs)) && Valid(v) && ClashFree(Obj(fs)) && ClashFree(v)
    ensures var saved := PutField(fs, key, v);
            && DeserializeData(SerializeData(Obj(saved))) == Some(Obj(saved))
            && JsField(saved, key) == Some(v) && JsField(saved, other) == JsField(fs, other)
  {
    PutFieldShape(fs, key, v);
    PutFieldThenGet(fs, key, v);
    PutFieldClashFree(fs, key, v);
    DataRoundTrip(Obj(PutField(fs, key, v)));
  }

  lemma PutFieldClashFree(fs: seq<(string, Js)>, key: string, v: Js)
    requires key != "__type" && Valid(Obj(fs)) && Valid(v) && ClashFree(Obj(fs)) && ClashFree(v)
    ensures ClashFree(Obj(PutField(fs, key, v)))
  {
    var saved := PutField(fs, key, v);
    PutFieldThenGet(fs, key, v);
    assert JsField(saved, "__type") == JsField(fs, "__type");
    PutMembersClashFree(fs, key, v);
  }

  lemma PutMembersClashFree(fs: seq<(string, Js)>, key: string, v: Js)
    requires Valid(Obj(fs)) && Valid(v) && ClashFree(Obj(fs)) && ClashFree(v)
    ensures forall i :: 0 <= i < |PutField(fs, key, v)| ==> ClashFree(PutField(fs, key, v)[i].1)
  {
    var saved := PutField(fs, key, v);
    PutFieldShape(fs, key, v);
    forall i | 0 <= i < |saved| ensures ClashFree(saved[i].1) {
      assert saved[i] in saved;
      if saved[i] in fs { MemberClashFree(fs, saved[i]); }
    }
  }

  lemma MemberClashFree(fs: seq<(string, Js)>, f: (string, Js))
    requires ClashFree(Obj(fs)) && f in fs
    ensures ClashFree(f.1)
  {
    var j :| 0 <= j < |fs| && fs[j] == f;
    assert ClashFree(fs[j].1);
  }

  /** What a migrated state holds: the filter's image, no id list, and every other field as it was. */
  ghost predicate Migrated(stored: seq<(string, Js)>, fs: seq<(string, Js)>, m: Image) {
    && LoadedImage(fs) == Some(m)
    && (forall k: string :: k != "processedEventBloom" && k != "processedEventIds" ==> JsField(fs, k) == JsField(stored, k))
    && ((forall i, j :: 0 <= i < j < |stored| ==> stored[i].0 != stored[j].0) ==> JsField(fs, "processedEventIds") == None)
  }

  lemma MigratedState(stored: seq<(string, Js)>, m: Image)
    ensures Migrated(stored, PutField(DeleteField(stored, "processedEventIds"), "processedEventBloom", BloomState(m)), m)
  {
    assert |"processedEventBloom"| != |"processedEventIds"|;
    FieldsReplaced(stored, "processedEventIds", "processedEventBloom", BloomState(m));
    StateReads(DeleteField(stored, "processedEventIds"), m);
  }

  lemma FieldsReplaced(stored: seq<(string, Js)>, gone: string, put: string, v: Js)
    requires gone != put
    ensures var fs := PutField(DeleteField(stored, gone), put, v);
            && (forall k: string :: k != put && k != gone ==> JsField(fs, k) == JsField(stored, k))
            && ((forall i, j :: 0 <= i < j < |stored| ==> stored[i].0 != stored[j].0) ==> JsField(fs, gone) == None)
  {
    DeleteFieldThenGet(stored, gone);
    PutFieldThenGet(DeleteField(stored, gone), put, v);
  }

  lemma StateReads(fs: seq<(string, Js)>, m: Image)
    ensures LoadedImage(PutField(fs, "processedEventBloom", BloomState(m))) == Some(m)
  {
    PutFieldThenGet(fs, "processedEventBloom", BloomState(m));
    BloomStateBack(m);
    ImageRoundTrip(m);
  }

  // ----- the node -----

  /** The error rate every node's filter is made for, one in a hundred. */
  const ERROR_RATE: Number := (OneHundredth(); Json.JDec("0.01"))

  class ReplayGuard {
    const mix: Mixer
    var lru: seq<string>
    var bloom: BloomFilter
    var storage: map<string, string>

    ghost predicate Valid()
      reads this, bloom
    {
      bloom.Valid() && bloom.mix == mix
    }

    /** isEventProcessed, as a function of the two caches. */
    ghost predicate Processed(id: string)
      reads this, bloom, bloom.bits
      requires Valid()
    {
      id in lru || Positions(mix, id, bloom.hashSeeds, bloom.size) <= bloom.Bits()
    }

    constructor (mix: Mixer, size: nat, expectedItems: nat, seeds: seq<nat>, storage: map<string, string>)
      requires size > 0
      ensures Valid() && lru == [] && bloom.Bits() == {} && this.storage == storage && this.mix == mix
      ensures fresh(bloom) && fresh(bloom.bits) && bloom.size == size && bloom.hashSeeds == seeds
    {
      this.mix := mix;
      this.lru := [];
      this.bloom := new BloomFilter(mix, size, expectedItems, ERROR_RATE, seeds);
      this.storage := storage;
    }

    method IsEventProcessed(id: string) returns (b: bool)
      requires Valid()
      ensures b == Processed(id)
    {
      if id in lru { return true; }
      b := bloom.Contains(id);
    }

    /** Marks one event; nothing marked before is forgotten, whatever the LRU evicts. */
    method MarkEventProcessed(id: string)
      requires Valid()
      modifies this`lru, bloom, bloom.bits
      ensures Valid() && Processed(id)
      ensures lru == Touch(old(lru), id)
      ensures bloom.Bits() == old(bloom.Bits()) + Positions(mix, id, bloom.hashSeeds, bloom.size)
    {
      lru := Touch(lru, id);
      bloom.Add(id);
    }

    method SaveState(key: string, fs: seq<(string, Js)>) returns (written: seq<(string, Js)>)
      requires Valid()
      modifies this`storage
      ensures Valid() && written == PutField(fs, "processedEventBloom", BloomState(bloom.ToImage()))
      ensures storage == old(storage)[(if key == "" then "nwpc-bbb-love" else key) := SavedText(fs, bloom.ToImage())]
      ensures bloom == old(bloom)
    {
      written := PutField(fs, "processedEventBloom", BloomState(bloom.ToImage()));
      storage := storage[(if key == "" then "nwpc-bbb-love" else key) := SerializeData(Obj(written))];
    }

    /** Adds the event ids of an old-format state to the filter. */
    method AddAllIds(ids: seq<Js>)
      requires Valid() && forall i :: 0 <= i < |ids| ==> ids[i].Str?
      modifies bloom, bloom.bits
      ensures Valid()
      ensures bloom.Bits() == old(bloom.Bits()) + IdPositions(mix, ids, bloom.hashSeeds, bloom.size)
    {
      var i := 0;
      while i < |ids|
        invariant 0 <= i <= |ids| && Valid()
        invariant bloom.Bits() == old(bloom.Bits()) + IdPositions(mix, ids[..i], bloom.hashSeeds, bloom.size)
        modifies bloom, bloom.bits
      {
        bloom.Add(ids[i].s);
        assert ids[..i + 1] == ids[..i] + [ids[i]];
        IdPositionsSnoc(mix, ids[..i], ids[i], bloom.hashSeeds, bloom.size);
        i := i + 1;
      }
      assert ids[..i] == ids;
    }

    /** An old-format state: its ids go into the filter, which is saved in their place and read back. */
    method Migrate(key: string, stored: seq<(string, Js)>) returns (fs: seq<(string, Js)>)
      requires Valid() && forall i :: 0 <= i < |OldIds(stored)| ==> OldIds(stored)[i].Str?
      modifies this`bloom, this`storage, bloom, bloom.bits
      ensures Valid()
      ensures bloom.hashSeeds == old(bloom.hashSeeds) && bloom.size == old(bloom.size)
      ensures bloom.Bits() == old(bloom.Bits()) + IdPositions(mix, OldIds(stored), bloom.hashSeeds, bloom.size)
      ensures Migrated(stored, fs, bloom.ToImage())
      ensures storage == old(storage)[(if key == "" then "nwpc-bbb-love" else key) := SerializeData(Obj(fs))]
    {
      AddAllIds(OldIds(stored));
      ghost var migrated := bloom.Bits();
      fs := DeleteField(stored, "processedEventIds");
      fs := SaveState(key, fs);
      MigratedState(stored, bloom.ToImage());
      var image := LoadedImage(fs).value;
      assert image == bloom.ToImage();
      bloom := new BloomFilter.FromImage(mix, image);
      assert bloom.Bits() == migrated;
    }

    /**
     * loadState: None when nothing is stored or the stored text cannot be read. An old-format state
     * (a processedEventIds array) is migrated, and then its own saved filter is not consulted.
     */
    method LoadState(key: string) returns (state: Option<seq<(string, Js)>>)
      requires Valid()
      modifies this`bloom, this`storage, bloom, bloom.bits
      ensures Valid()
      ensures state.None? ==> bloom == old(bloom) && bloom.Bits() == old(bloom.Bits()) && storage == old(storage)
      ensures Restorable(old(storage), key) && !OldFormat(old(storage), key) ==>
                && state == Some(StoredFields(old(storage), key)) && storage == old(storage)
                && bloom.ToImage() == LoadedImage(state.value).value
      ensures Stored(old(storage), key) && OldFormat(old(storage), key) ==>
                && state.Some? && Migrated(StoredFields(old(storage), key), state.value, bloom.ToImage())
                && storage == old(storage)[(if key == "" then "nwpc-bbb-love" else key) := SerializeData(Obj(state.value))]
                && JsField(state.value, "processedEventIds") == None
                && bloom.hashSeeds == old(bloom.hashSeeds) && bloom.size == old(bloom.size)
                && bloom.Bits() == old(bloom.Bits())
                     + IdPositions(mix, OldIds(StoredFields(old(storage), key)), bloom.hashSeeds, bloom.size)
    {
      if !Stored(storage, key) { return None; }
      var fs := StoredFields(storage, key);
      if OldFormat(storage, key) {
        ReadFieldsDistinct(storage[key]);
        fs := Migrate(key, fs);
        return Some(fs);
      }
      var ok := TakeOver(fs);
      return if ok then Some(fs) else None;
    }

    /** The saved filter becomes the node's, if there is one; false when it cannot be used. */
    method TakeOver(fs: seq<(string, Js)>) returns (ok: bool)
      requires Valid()
      modifies this`bloom
      ensures Valid() && (!ok ==> bloom == old(bloom))
      ensures LoadedImage(fs).Some? && LoadedImage(fs).value.Valid() ==> ok && bloom.ToImage() == LoadedImage(fs).value
    {
      if JsField(fs, "processedEventBloom").None? { return true; }
      var m := LoadedImage(fs);
      if m.None? || m.value.size == 0 || |m.value.bytes| != ByteCount(m.value.size) { return false; }
      bloom := new BloomFilter.FromImage(mix, m.value);
      return true;
    }

    /** Loading what a save of state fs with filter image m left under key: the filter is that image again. */
    method Reload(key: string, ghost fs: seq<(string, Js)>, ghost m: Image)
      requires Valid() && m.Valid() && key in storage && storage[key] == SavedText(fs, m)
      requires DataHelpers.Valid(Obj(fs)) && ClashFree(Obj(fs)) && JsField(fs, "processedEventIds") == None
      modifies this`bloom, this`storage, bloom, bloom.bits
      ensures Valid() && bloom.ToImage() == m
    {
      SavedIsRestorable(storage, key, fs, m);
      var _ := LoadState(key);
    }
  }

  /**
   * A crash and a fresh start: a new node over the surviving storage, whose last landed write of key
   * was a save of state fs with filter image m. Every event that filter knew is still processed.
   */
  method Restart(mix: Mixer, size: nat, expectedItems: nat, seeds: seq<nat>, storage: map<string, string>,
                 key: string, ghost fs: seq<(string, Js)>, ghost m: Image) returns (node: ReplayGuard)
    requires size > 0 && m.Valid()
    requires DataHelpers.Valid(Obj(fs)) && ClashFree(Obj(fs)) && JsField(fs, "processedEventIds") == None
    requires key in storage && storage[key] == SavedText(fs, m)
    ensures fresh(node) && node.Valid() && node.mix == mix && node.lru == []
    ensures node.bloom.ToImage() == m && node.bloom.Bits() == m.Bits()
    ensures forall id :: Positions(mix, id, m.seeds, m.size) <= m.Bits() ==> node.Processed(id)
  {
    node := new ReplayGuard(mix, size, expectedItems, seeds, storage);
    node.Reload(key, fs, m);
  }

  lemma SavedIsRestorable(storage: map<string, string>, key: string, fs: seq<(string, Js)>, m: Image)
    requires m.Valid() && DataHelpers.Valid(Obj(fs)) && ClashFree(Obj(fs))
    requires JsField(fs, "processedEventIds") == None
    requires key in storage && storage[key] == SavedText(fs, m)
    ensures Restorable(storage, key) && !OldFormat(storage, key)
    ensures LoadedImage(StoredFields(storage, key)) == Some(m)
  {
    SaveLoadRestoresImage(fs, m);
    StoredObject(storage, key, PutField(fs, "processedEventBloom", BloomState(m)), m);
  }

  lemma {:induction false} StoredObject(storage: map<string, string>, key: string, saved: seq<(string, Js)>, m: Image)
    requires key in storage && DeserializeData(storage[key]) == Some(Obj(saved))
    requires JsField(saved, "processedEventIds") == None && LoadedImage(saved) == Some(m) && m.Valid()
    ensures Restorable(storage, key) && !OldFormat(storage, key)
    ensures LoadedImage(StoredFields(storage, key)) == Some(m)
  {
  }

  // ----- what is in storage -----

  predicate Stored(storage: map<string, string>, key: string) {
    key in storage && DeserializeData(storage[key]).Some? && DeserializeData(storage[key]).value.Obj?
  }

  function StoredFields(storage: map<string, string>, key: string): seq<(string, Js)>
    requires Stored(storage, key)
  {
    DeserializeData(storage[key]).value.fields
  }

  predicate OldFormat(storage: map<string, string>, key: string) {
    Stored(storage, key) &&
    match JsField(StoredFields(storage, key), "processedEventIds")
    case Some(Arr(ids)) => forall i :: 0 <= i < |ids| ==> ids[i].Str?
    case _ => false
  }

  function OldIds(fs: seq<(string, Js)>): seq<Js> {
    match JsField(fs, "processedEventIds")
    case Some(Arr(ids)) => ids
    case _ => []
  }

  /** A state whose filter can be rebuilt. */
  ghost predicate Restorable(storage: map<string, string>, key: string) {
    && Stored(storage, key)
    && LoadedImage(StoredFields(storage, key)).Some?
    && LoadedImage(StoredFields(storage, key)).value.Valid()
  }

  ghost function IdPositions(mix: Mixer, ids: seq<Js>, seeds: seq<nat>, size: nat): set<nat>
    requires size > 0
  {
    set i, p | 0 <= i < |ids| && ids[i].Str? && p in Positions(mix, ids[i].s, seeds, size) :: p
  }

  lemma IdPositionsSnoc(mix: Mixer, ids: seq<Js>, id: Js, seeds: seq<nat>, size: nat)
    requires size > 0 && id.Str?
    ensures IdPositions(mix, ids + [id], seeds, size) == IdPositions(mix, ids, seeds, size) + Positions(mix, id.s, seeds, size)
  {
    var all := ids + [id];
    assert all[|ids|] == id;
    forall p | p in IdPositions(mix, ids, seeds, size) ensures p in IdPositions(mix, all, seeds, size) {
      var i :| 0 <= i < |ids| && ids[i].Str? && p in Positions(mix, ids[i].s, seeds, size);
      assert all[i] == ids[i];
    }
    forall p | p in Positions(mix, id.s, seeds, size) ensures p in IdPositions(mix, all, seeds, size) {
      assert all[|ids|].Str?;
    }
  }

  // ----- whole runs: marks, overlapping saves that land in order or fail, crashes -----

  /** Params of one filter; they never change while a node keeps its saved state. */
  datatype Params = Params(mix: Mixer, seeds: seq<nat>, size: nat)

  /** Memory (lru, bits), the images being written, oldest first, and the last one that landed. */
  datatype Node = Node(lru: seq<string>, bits: set<nat>, pending: seq<set<nat>>, disk: set<nat>)

  /** Save serialises the filter and issues the write; the oldest write lands or fails; Crash loses memory and reloads. */
  datatype Event = Mark(id: string) | Save | Land | Lose | Crash

  ghost function Marks(p: Params, id: string): set<nat>
    requires p.size > 0
  {
    Positions(p.mix, id, p.seeds, p.size)
  }

  ghost function Apply(p: Params, n: Node, e: Event): Node
    requires p.size > 0
  {
    match e
    case Mark(id) => n.(lru := Touch(n.lru, id), bits := n.bits + Marks(p, id))
    case Save => n.(pending := n.pending + [n.bits])
    case Land => if n.pending != [] then n.(pending := n.pending[1..], disk := n.pending[0]) else n
    case Lose => if n.pending != [] then n.(pending := n.pending[1..]) else n
    case Crash => n.(lru := [], bits := n.disk, pending := [])
  }

  ghost function Run(p: Params, n: Node, events: seq<Event>): Node
    requires p.size > 0
    decreases |events|
  {
    if events == [] then n else Apply(p, Run(p, n, events[..|events| - 1]), events[|events| - 1])
  }

  ghost predicate Knows(p: Params, n: Node, id: string)
    requires p.size > 0
  {
    id in n.lru || Marks(p, id) <= n.bits
  }

  /** Bookkeeping of one event over a run: whether it is marked in memory, in each image being written, on disk. */
  datatype Track = Track(live: bool, pending: seq<bool>, saved: bool)

  function Follow(id: string, t: Track, e: Event): Track {
    match e
    case Mark(other) => if other == id then t.(live := true) else t
    case Save => t.(pending := t.pending + [t.live])
    case Land => if t.pending != [] then t.(pending := t.pending[1..], saved := t.pending[0]) else t
    case Lose => if t.pending != [] then t.(pending := t.pending[1..]) else t
    case Crash => t.(live := t.saved, pending := [])
  }

  function FollowAll(id: string, events: seq<Event>): Track
    decreases |events|
  {
    if events == [] then Track(false, [], false)
    else Follow(id, FollowAll(id, events[..|events| - 1]), events[|events| - 1])
  }

  /** A mark is in the recent cache and in the filter at once. */
  lemma MarkIsKnown(p: Params, n: Node, id: string)
    requires p.size > 0
    ensures var n' := Apply(p, n, Mark(id));
            && id in n'.lru && (forall k :: 0 <= k < |p.seeds| ==> p.mix(id, p.seeds[k]) % p.size in n'.bits)
            && n.bits <= n'.bits && n'.disk == n.disk
  {
    var kept := Without(n.lru, id) + [id];
    assert kept[|kept| - 1] == id;
    assert Touch(n.lru, id)[|Touch(n.lru, id)| - 1] == id;
  }

  /** A crash keeps what is on disk, and nothing else. */
  lemma CrashKeepsDisk(p: Params, n: Node)
    requires p.size > 0
    ensures Apply(p, n, Crash) == Node([], n.disk, [], n.disk)
  {
  }

  /** Wherever the bookkeeping says the event is, its bits are. */
  ghost predicate Covers(m: Node, t: Track, marks: set<nat>) {
    && |m.pending| == |t.pending|
    && (t.live ==> marks <= m.bits) && (t.saved ==> marks <= m.disk)
    && forall i :: 0 <= i < |t.pending| && t.pending[i] ==> marks <= m.pending[i]
  }

  lemma {:induction false} RunCovers(p: Params, n: Node, id: string, events: seq<Event>)
    requires p.size > 0 && n.pending == []
    ensures Covers(Run(p, n, events), FollowAll(id, events), Marks(p, id))
    decreases |events|
  {
    if events != [] {
      RunCovers(p, n, id, events[..|events| - 1]);
    }
  }

  /**
   * No false negatives: an event marked in the current life, or marked before a save that landed last before
   * a crash, is reported processed, through any number of evictions, overlapping and failing saves, and crashes.
   */
  lemma NeverForgets(p: Params, n: Node, id: string, events: seq<Event>)
    requires p.size > 0 && n.pending == []
    requires FollowAll(id, events).live
    ensures Knows(p, Run(p, n, events), id)
    ensures forall k :: 0 <= k < |p.seeds| ==> p.mix(id, p.seeds[k]) % p.size in Run(p, n, events).bits
  {
    RunCovers(p, n, id, events);
  }

  /** Once on disk an event is in memory, in every image being written, and stays on disk. */
  predicate Kept(t: Track) { t.live && t.saved && forall i :: 0 <= i < |t.pending| ==> t.pending[i] }

  /** The images being written, oldest first: once one has the event, so do all later ones and memory. */
  predicate Rising(t: Track) {
    && (forall i, j :: 0 <= i < j < |t.pending| && t.pending[i] ==> t.pending[j])
    && (forall i :: 0 <= i < |t.pending| && t.pending[i] ==> t.live)
    && (t.saved ==> Kept(t))
  }

  lemma RisingStep(id: string, t: Track, e: Event)
    requires Rising(t)
    ensures Rising(Follow(id, t, e))
  {
  }

  lemma {:induction false} AlwaysRising(id: string, events: seq<Event>)
    ensures Rising(FollowAll(id, events))
    decreases |events|
  {
    if events != [] {
      AlwaysRising(id, events[..|events| - 1]);
      RisingStep(id, FollowAll(id, events[..|events| - 1]), events[|events| - 1]);
    }
  }

  /** Whatever landed with the event marked keeps it known for good, whatever saves fail or land afterwards. */
  lemma {:induction false} SavedStays(id: string, events: seq<Event>, more: seq<Event>)
    requires FollowAll(id, events).saved
    ensures FollowAll(id, events + more).saved
    decreases |more|
  {
    if more == [] {
      assert events + more == events;
    } else {
      var init := more[..|more| - 1];
      SavedStays(id, events, init);
      AlwaysRising(id, events + init);
      assert (events + more)[..|events + more| - 1] == events + init;
    }
  }

  /** The write behind k older ones is on disk once those have landed or failed and it lands. */
  lemma {:induction false} WriteLands(id: string, events: seq<Event>, older: seq<Event>)
    requires forall i :: 0 <= i < |older| ==> older[i].Land? || older[i].Lose?
    requires var t := FollowAll(id, events); |older| < |t.pending| && t.pending[|older|]
    ensures FollowAll(id, events + older + [Land]).saved
    decreases |older|
  {
    if older == [] {
      assert events + [] + [Land] == events + [Land];
      assert (events + [Land])[..|events|] == events;
    } else {
      var e := older[0];
      assert (events + [e])[..|events|] == events;
      assert FollowAll(id, events + [e]).pending == FollowAll(id, events).pending[1..];
      WriteLands(id, events + [e], older[1..]);
      assert events + [e] + older[1..] == events + older;
    }
  }

  lemma {:induction false} LiveStays(id: string, events: seq<Event>, more: seq<Event>)
    requires FollowAll(id, events).live && Crash !in more
    ensures FollowAll(id, events + more).live
    decreases |more|
  {
    if more == [] {
      assert events + more == events;
    } else {
      var init := more[..|more| - 1];
      LiveStays(id, events, init);
      assert (events + more)[..|events + more| - 1] == events + init;
    }
  }

  /**
   * A mark, then anything but a crash, then a save: once the writes issued before it have landed or failed and
   * it has landed, the event is known for good, whatever happens afterwards.
   */
  lemma SavedMarkSurvives(p: Params, n: Node, id: string, before: seq<Event>, between: seq<Event>, older: seq<Event>, after: seq<Event>)
    requires p.size > 0 && n.pending == [] && Crash !in between
    requires forall i :: 0 <= i < |older| ==> older[i].Land? || older[i].Lose?
    requires |older| == |FollowAll(id, before + [Mark(id)] + between).pending|
    ensures Knows(p, Run(p, n, before + [Mark(id)] + between + [Save] + older + [Land] + after), id)
  {
    var marked := before + [Mark(id)];
    assert marked[..|before|] == before;
    LiveStays(id, marked, between);
    var saving := marked + between + [Save];
    assert saving[..|saving| - 1] == marked + between;
    WriteLands(id, saving, older);
    var landed := saving + older + [Land];
    SavedStays(id, landed, after);
    AlwaysRising(id, landed + after);
    NeverForgets(p, n, id, landed + after);
  }
}
