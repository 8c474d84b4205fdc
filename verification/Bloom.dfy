/**
 * The Bloom filter: bits packed eight to a byte, OR-ed in place, and its serialised form
 * (JSON metadata beside base64 bits).
 */
module Bloom {
  import opened Prelude
  import opened Json
  import Utf8
  import Base64

  /** The 32-bit mixing of text and seed; any total function does. */
  type Mixer = (string, nat) -> nat

  // ----- bits in bytes -----

  function Mask(i: nat): bv8
    requires i < 8
  {
    (1 as bv8) << i
  }

  predicate BitOf(b: bv8, i: nat)
    requires i < 8
  {
    b & Mask(i) != 0
  }

  lemma MaskOf(b: bv8, i: nat, j: nat)
    requires i < 8 && j < 8
    ensures BitOf(b | Mask(i), j) <==> i == j || BitOf(b, j)
  {
    MaskTable(i);
    MaskTable(j);
  }

  lemma MaskTable(i: nat)
    requires i < 8
    ensures Mask(i) == if i == 0 then 1 else if i == 1 then 2 else if i == 2 then 4 else if i == 3 then 8
                       else if i == 4 then 16 else if i == 5 then 32 else if i == 6 then 64 else 128
  {
  }

  lemma OrBits(a: bv8, b: bv8, i: nat)
    requires i < 8
    ensures BitOf(a | b, i) <==> BitOf(a, i) || BitOf(b, i)
  {
    MaskTable(i);
  }

  predicate BitAt(bytes: seq<bv8>, p: nat)
    requires p / 8 < |bytes|
  {
    BitOf(bytes[p / 8], p % 8)
  }

  /** Number of bytes that hold size bits. */
  function ByteCount(size: nat): (n: nat)
    ensures size <= 8 * n < size + 8
  {
    (size + 7) / 8
  }

  ghost function BitSet(bytes: seq<bv8>, size: nat): set<nat>
    requires |bytes| == ByteCount(size)
  {
    set p: nat | p < size && BitAt(bytes, p)
  }

  function Position(mix: Mixer, item: string, seed: nat, size: nat): (p: nat)
    requires size > 0
    ensures p < size
  {
    mix(item, seed) % size
  }

  ghost function Positions(mix: Mixer, item: string, seeds: seq<nat>, size: nat): set<nat>
    requires size > 0
  {
    set i | 0 <= i < |seeds| :: mix(item, seeds[i]) % size
  }

  // ----- serialised form -----

  /** A number, integer or not. */
  type Number = j: Json | j.JNum? || j.JDec? witness JNum(0)

  /** Everything a serialised filter carries. */
  datatype Image = Image(size: nat, expectedItems: nat, falsePositiveRate: Number, itemsAdded: nat, seeds: seq<nat>, bytes: seq<bv8>) {
    ghost predicate Valid() { size > 0 && |bytes| == ByteCount(size) }

    ghost function Bits(): set<nat>
      requires Valid()
    {
      BitSet(bytes, size)
    }
  }

  function ToBytes(bits: seq<bv8>): (r: seq<Utf8.Byte>)
    ensures |r| == |bits|
  {
    if bits == [] then [] else [bits[0] as int] + ToBytes(bits[1..])
  }

  function FromBytes(bytes: seq<Utf8.Byte>): (r: seq<bv8>)
    ensures |r| == |bytes|
  {
    if bytes == [] then [] else [bytes[0] as bv8] + FromBytes(bytes[1..])
  }

  lemma {:induction false} BytesRoundTrip(bits: seq<bv8>)
    ensures FromBytes(ToBytes(bits)) == bits
  {
    if bits != [] {
      BytesRoundTrip(bits[1..]);
      assert (bits[0] as int) as bv8 == bits[0];
      assert ToBytes(bits)[1..] == ToBytes(bits[1..]);
    }
  }

  function NumArray(ns: seq<nat>): (js: seq<Json>)
    ensures |js| == |ns| && forall i :: 0 <= i < |ns| ==> js[i] == JNum(ns[i])
  {
    if ns == [] then [] else [JNum(ns[0])] + NumArray(ns[1..])
  }

  function ReadNumArray(js: seq<Json>): Option<seq<nat>> {
    if js == [] then Some([])
    else if !js[0].JNum? || js[0].n < 0 then None
    else
      match ReadNumArray(js[1..])
      case None => None
      case Some(ns) => Some([js[0].n as nat] + ns)
  }

  lemma {:induction false} NumArrayRoundTrip(ns: seq<nat>)
    ensures ReadNumArray(NumArray(ns)) == Some(ns)
  {
    if ns != [] {
      NumArrayRoundTrip(ns[1..]);
      assert [ns[0]] + ns[1..] == ns;
    }
  }

  function Metadata(m: Image): Json {
    JObj([("size", JNum(m.size)), ("hashFunctions", JNum(|m.seeds|)), ("expectedItems", JNum(m.expectedItems)),
          ("falsePositiveRate", m.falsePositiveRate), ("itemsAdded", JNum(m.itemsAdded)), ("hashSeeds", JArr(NumArray(m.seeds)))])
  }

  function ImageJson(m: Image): Json {
    JObj([("metadata", JStr(Stringify(Metadata(m)))), ("bits", JStr(Base64.Encode(ToBytes(m.bytes))))])
  }

  function ReadMetadata(meta: Json, bytes: seq<bv8>): Option<Image> {
    match (Field(meta, "size"), Field(meta, "hashFunctions"), Field(meta, "expectedItems"), Field(meta, "itemsAdded"), Field(meta, "hashSeeds"))
    case (Some(JNum(s)), Some(JNum(k)), Some(JNum(e)), Some(JNum(n)), Some(JArr(hs))) => (
      match (ReadNumArray(hs), Field(meta, "falsePositiveRate"))
      case (Some(seeds), Some(rate)) =>
        if s >= 0 && e >= 0 && n >= 0 && k == |seeds| && (rate.JNum? || rate.JDec?) then Some(Image(s, e, rate, n, seeds, bytes))
        else None
      case _ => None)
    case _ => None
  }

  /** What deserialize() recovers; None stands for text it throws on or turns into an unusable filter. */
  function ReadImage(text: string): Option<Image> {
    match Parse(text)
    case None => None
    case Some(j) =>
      match (Field(j, "metadata"), Field(j, "bits"))
      case (Some(JStr(m)), Some(JStr(b))) => (
        match (Parse(m), Base64.Decode(b))
        case (Some(meta), Some(bytes)) => ReadMetadata(meta, FromBytes(bytes))
        case _ => None)
      case _ => None
  }

  lemma MetadataWellFormed(m: Image)
    ensures WellFormed(Metadata(m))
  {
    NumArrayRoundTrip(m.seeds);
  }

  lemma MetadataFields(m: Image)
    ensures WellFormed(Metadata(m))
    ensures Field(Metadata(m), "size") == Some(JNum(m.size)) && Field(Metadata(m), "hashFunctions") == Some(JNum(|m.seeds|))
    ensures Field(Metadata(m), "expectedItems") == Some(JNum(m.expectedItems))
    ensures Field(Metadata(m), "itemsAdded") == Some(JNum(m.itemsAdded))
    ensures Field(Metadata(m), "falsePositiveRate") == Some(m.falsePositiveRate)
    ensures Field(Metadata(m), "hashSeeds") == Some(JArr(NumArray(m.seeds)))
  {
    MetadataWellFormed(m);
    var fs := Metadata(m).fields;
    FieldAt(fs, 0);
    FieldAt(fs, 1);
    FieldAt(fs, 2);
    FieldAt(fs, 3);
    FieldAt(fs, 4);
    FieldAt(fs, 5);
  }

  lemma MetadataRoundTrip(m: Image)
    ensures WellFormed(Metadata(m)) && ReadMetadata(Metadata(m), m.bytes) == Some(m)
  {
    MetadataFields(m);
    NumArrayRoundTrip(m.seeds);
  }

  lemma ImageJsonFields(m: Image)
    ensures WellFormed(ImageJson(m))
    ensures Field(ImageJson(m), "metadata") == Some(JStr(Stringify(Metadata(m))))
    ensures Field(ImageJson(m), "bits") == Some(JStr(Base64.Encode(ToBytes(m.bytes))))
  {
    var fs := ImageJson(m).fields;
    FieldAt(fs, 0);
    FieldAt(fs, 1);
  }

  /** Deserialising what was serialised restores size, seeds, rate, counters and every bit. */
  lemma ImageRoundTrip(m: Image)
    ensures ReadImage(Stringify(ImageJson(m))) == Some(m)
  {
    ImageJsonFields(m);
    MetadataRoundTrip(m);
    RoundTrip(ImageJson(m));
    RoundTrip(Metadata(m));
    Base64.RoundTrip(ToBytes(m.bytes));
    BytesRoundTrip(m.bytes);
  }

  // ----- the filter -----

  class BloomFilter {
    const mix: Mixer
    const size: nat
    const expectedItems: nat
    const falsePositiveRate: Number
    const hashSeeds: seq<nat>
    const bits: array<bv8>
    var itemsAdded: nat

    ghost predicate Valid()
      reads this
    {
      size > 0 && bits.Length == ByteCount(size)
    }

    ghost function Bits(): set<nat>
      reads this, bits
      requires Valid()
    {
      BitSet(bits[..], size)
    }

    function ToImage(): (m: Image)
      reads this, bits
    {
      Image(size, expectedItems, falsePositiveRate, itemsAdded, hashSeeds, bits[..])
    }

    constructor (mix: Mixer, size: nat, expectedItems: nat, falsePositiveRate: Number, hashSeeds: seq<nat>)
      requires size > 0
      ensures Valid() && fresh(bits) && Bits() == {} && itemsAdded == 0
      ensures this.mix == mix && this.size == size && this.hashSeeds == hashSeeds
      ensures this.expectedItems == expectedItems && this.falsePositiveRate == falsePositiveRate
    {
      this.mix, this.size, this.hashSeeds := mix, size, hashSeeds;
      this.expectedItems, this.falsePositiveRate := expectedItems, falsePositiveRate;
      this.itemsAdded := 0;
      this.bits := new bv8[ByteCount(size)](_ => 0);
      new;
      assert forall p: nat :: p < size ==> !BitAt(bits[..], p);
    }

    /** Rebuilds a filter from its image, as deserialize() fills in a temporary one. */
    constructor FromImage(mix: Mixer, m: Image)
      requires m.Valid()
      ensures Valid() && fresh(bits) && this.mix == mix && ToImage() == m
    {
      this.mix, this.size, this.hashSeeds := mix, m.size, m.seeds;
      this.expectedItems, this.falsePositiveRate := m.expectedItems, m.falsePositiveRate;
      this.itemsAdded := m.itemsAdded;
      this.bits := new bv8[|m.bytes|](i requires 0 <= i < |m.bytes| => m.bytes[i]);
      new;
      assert bits[..] == m.bytes;
    }

    method SetBit(position: nat)
      requires Valid() && position < size
      modifies bits
      ensures Bits() == old(Bits()) + {position}
    {
      var byteIndex, bitIndex := position / 8, position % 8;
      ghost var was := bits[..];
      bits[byteIndex] := bits[byteIndex] | Mask(bitIndex);
      forall p: nat | p < size ensures BitAt(bits[..], p) <==> p == position || BitAt(was, p) {
        if p / 8 == byteIndex { MaskOf(was[byteIndex], bitIndex, p % 8); }
      }
    }

    method GetBit(position: nat) returns (b: bool)
      requires Valid() && position < size
      ensures b <==> position in Bits()
    {
      var byteIndex, bitIndex := position / 8, position % 8;
      b := bits[byteIndex] & Mask(bitIndex) != 0;
      assert b <==> BitAt(bits[..], position);
    }

    method Add(item: string)
      requires Valid()
      modifies this, bits
      ensures Bits() == old(Bits()) + Positions(mix, item, hashSeeds, size)
      ensures itemsAdded == old(itemsAdded) + 1
    {
      ghost var was := Bits();
      var i := 0;
      while i < |hashSeeds|
        invariant 0 <= i <= |hashSeeds| && itemsAdded == old(itemsAdded)
        invariant Bits() == was + Positions(mix, item, hashSeeds[..i], size)
      {
        var position := Position(mix, item, hashSeeds[i], size);
        SetBit(position);
        assert hashSeeds[..i + 1] == hashSeeds[..i] + [hashSeeds[i]];
        PositionsSnoc(mix, item, hashSeeds[..i], hashSeeds[i], size);
        i := i + 1;
      }
      assert hashSeeds[..i] == hashSeeds;
      label L:
      itemsAdded := itemsAdded + 1;
      assert Bits() == old@L(Bits());
    }

    method Contains(item: string) returns (b: bool)
      requires Valid()
      ensures b <==> Positions(mix, item, hashSeeds, size) <= Bits()
    {
      var i := 0;
      while i < |hashSeeds|
        invariant 0 <= i <= |hashSeeds|
        invariant forall k :: 0 <= k < i ==> Position(mix, item, hashSeeds[k], size) in Bits()
      {
        var position := Position(mix, item, hashSeeds[i], size);
        var set_ := GetBit(position);
        if !set_ {
          assert position in Positions(mix, item, hashSeeds, size);
          return false;
        }
        i := i + 1;
      }
      return true;
    }

    method Serialize() returns (text: string)
      requires Valid()
      ensures text == Stringify(ImageJson(ToImage())) && ReadImage(text) == Some(ToImage())
    {
      text := Stringify(ImageJson(ToImage()));
      ImageRoundTrip(ToImage());
    }

    /** None when the filters' parameters differ (an exception in the source). */
    method Union(other: BloomFilter) returns (r: Option<BloomFilter>)
      requires Valid() && other.Valid()
      ensures r.Some? <==> size == other.size && |hashSeeds| == |other.hashSeeds|
      ensures r.Some? ==>
        && fresh(r.value) && r.value.Valid()
        && r.value.size == size && r.value.hashSeeds == hashSeeds
        && r.value.Bits() == Bits() + other.Bits()
        && r.value.itemsAdded == itemsAdded + other.itemsAdded
    {
      if size != other.size || |hashSeeds| != |other.hashSeeds| { return None; }
      var result := new BloomFilter(mix, size, expectedItems, falsePositiveRate, hashSeeds);
      var i := 0;
      while i < bits.Length
        invariant 0 <= i <= bits.Length
        invariant forall k :: 0 <= k < i ==> result.bits[k] == bits[k] | other.bits[k]
        modifies result.bits
      {
        result.bits[i] := bits[i] | other.bits[i];
        i := i + 1;
      }
      UnionBits(bits[..], other.bits[..], result.bits[..], size);
      result.itemsAdded := itemsAdded + other.itemsAdded;
      return Some(result);
    }
  }

  lemma UnionBits(a: seq<bv8>, b: seq<bv8>, r: seq<bv8>, size: nat)
    requires |a| == |b| == |r| == ByteCount(size) && forall k :: 0 <= k < |r| ==> r[k] == a[k] | b[k]
    ensures BitSet(r, size) == BitSet(a, size) + BitSet(b, size)
  {
    forall p: nat | p < size ensures BitAt(r, p) <==> BitAt(a, p) || BitAt(b, p) {
      OrBits(a[p / 8], b[p / 8], p % 8);
    }
  }

  lemma PositionsSnoc(mix: Mixer, item: string, seeds: seq<nat>, seed: nat, size: nat)
    requires size > 0
    ensures Positions(mix, item, seeds + [seed], size)
            == Positions(mix, item, seeds, size) + {Position(mix, item, seed, size)}
  {
    var all := seeds + [seed];
    assert all[|seeds|] == seed;
    forall p | p in Positions(mix, item, seeds, size) ensures p in Positions(mix, item, all, size) {
      var i :| 0 <= i < |seeds| && p == mix(item, seeds[i]) % size;
      assert all[i] == seeds[i] && mix(item, all[i]) % size == p;
    }
    assert mix(item, all[|seeds|]) % size in Positions(mix, item, all, size);
  }
}
