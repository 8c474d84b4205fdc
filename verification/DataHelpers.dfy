/** serializeData and deserializeData: JSON text in which Sets and Maps travel as tagged objects. */
module DataHelpers {
  import opened Prelude
  import opened Json
  import opened Numerals

  /** The JavaScript values the state objects are made of. Set elements and Map entries are in insertion order. */
  datatype Js =
    | Null
    | Bool(b: bool)
    | Num(n: int)
    | Dec(text: Literal)
    | Str(s: string)
    | Arr(items: seq<Js>)
    | Obj(fields: seq<(string, Js)>)
    | SetOf(elems: seq<Js>)
    | MapOf(entries: seq<(Js, Js)>)

  /** Compared by value rather than by identity. */
  predicate Primitive(v: Js) { v.Null? || v.Bool? || v.Num? || v.Dec? || v.Str? }

  // ----- the replacer, applied from the root down -----

  function Tag(v: Js): Json
    decreases v, 1
  {
    match v
    case Null => JNull
    case Bool(b) => JBool(b)
    case Num(n) => JNum(n)
    case Dec(text) => JDec(text)
    case Str(s) => JStr(s)
    case Arr(items) => JArr(TagItems(items))
    case Obj(fields) => JObj(TagFields(fields))
    case SetOf(elems) => Tagged("Set", TagItems(elems))
    case MapOf(entries) => Tagged("Map", TagEntries(entries))
  }

  function Tagged(kind: string, content: seq<Json>): Json {
    JObj([("__type", JStr(kind)), ("value", JArr(content))])
  }

  function TagItems(xs: seq<Js>): (js: seq<Json>)
    ensures |js| == |xs|
    decreases xs, 0
  {
    if xs == [] then [] else [Tag(xs[0])] + TagItems(xs[1..])
  }

  function TagField(f: (string, Js)): (string, Json)
    decreases f, 2
  {
    (f.0, Tag(f.1))
  }

  function TagFields(fs: seq<(string, Js)>): (js: seq<(string, Json)>)
    ensures |js| == |fs|
    decreases fs, 0
  {
    if fs == [] then [] else [TagField(fs[0])] + TagFields(fs[1..])
  }

  function TagEntry(e: (Js, Js)): Json
    decreases e, 2
  {
    JArr([Tag(e.0), Tag(e.1)])
  }

  function TagEntries(es: seq<(Js, Js)>): (js: seq<Json>)
    ensures |js| == |es|
    decreases es, 0
  {
    if es == [] then [] else [TagEntry(es[0])] + TagEntries(es[1..])
  }

  // ----- the reviver, applied from the leaves up; None is an exception -----

  function JsField(fs: seq<(string, Js)>, key: string): Option<Js> {
    if fs == [] then None else if fs[0].0 == key then Some(fs[0].1) else JsField(fs[1..], key)
  }

  /** Set.add: primitives are kept once, every object is a new element. */
  function Add(elems: seq<Js>, x: Js): seq<Js> {
    if Primitive(x) && x in elems then elems else elems + [x]
  }

  function AddAll(xs: seq<Js>): seq<Js> {
    if xs == [] then [] else Add(AddAll(xs[..|xs| - 1]), xs[|xs| - 1])
  }

  function KeyIndex(es: seq<(Js, Js)>, k: Js): (i: nat)
    ensures i <= |es|
    ensures i < |es| ==> es[i].0 == k
    ensures i == |es| ==> forall j :: 0 <= j < |es| ==> es[j].0 != k
  {
    if es == [] then 0 else if es[0].0 == k then 0 else 1 + KeyIndex(es[1..], k)
  }

  /** Map.set: a primitive key already present keeps its place. */
  function Set(es: seq<(Js, Js)>, e: (Js, Js)): seq<(Js, Js)> {
    var i := KeyIndex(es, e.0);
    if Primitive(e.0) && i < |es| then es[i := e] else es + [e]
  }

  function SetAll(es: seq<(Js, Js)>): seq<(Js, Js)> {
    if es == [] then [] else Set(SetAll(es[..|es| - 1]), es[|es| - 1])
  }

  function Characters(s: string): seq<Js> {
    if s == "" then [] else [Str([s[0]])] + Characters(s[1..])
  }

  /** new Set(iterable) */
  function NewSet(content: Option<Js>): Option<Js> {
    match content
    case None => Some(SetOf([]))
    case Some(v) =>
      match v
      case Null => Some(SetOf([]))
      case Arr(items) => Some(SetOf(AddAll(items)))
      case Str(s) => Some(SetOf(AddAll(Characters(s))))
      case SetOf(elems) => Some(SetOf(elems))
      case MapOf(entries) => Some(SetOf(seq(|entries|, i requires 0 <= i < |entries| => Arr([entries[i].0, entries[i].1]))))
      case _ => None
  }

  /** The pairs a Map is built from; an item that is not a pair has no counterpart among these values. */
  function Pairs(items: seq<Js>): Option<seq<(Js, Js)>> {
    if items == [] then Some([])
    else if !items[0].Arr? || |items[0].items| < 2 then None
    else
      match Pairs(items[1..])
      case None => None
      case Some(ps) => Some([(items[0].items[0], items[0].items[1])] + ps)
  }

  /** new Map(iterable) */
  function NewMap(content: Option<Js>): Option<Js> {
    match content
    case None => Some(MapOf([]))
    case Some(v) =>
      match v
      case Null => Some(MapOf([]))
      case Arr(items) => (match Pairs(items) case None => None case Some(ps) => Some(MapOf(SetAll(ps))))
      case SetOf(elems) => (match Pairs(elems) case None => None case Some(ps) => Some(MapOf(SetAll(ps))))
      case MapOf(entries) => Some(MapOf(entries))
      case Str(s) => if s == "" then Some(MapOf([])) else None
      case _ => None
  }

  function Revive(fields: seq<(string, Js)>): Option<Js> {
    if JsField(fields, "__type") == Some(Str("Set")) then NewSet(JsField(fields, "value"))
    else if JsField(fields, "__type") == Some(Str("Map")) then NewMap(JsField(fields, "value"))
    else Some(Obj(fields))
  }

  function Untag(j: Json): Option<Js>
    decreases j, 1
  {
    match j
    case JNull => Some(Null)
    case JBool(b) => Some(Bool(b))
    case JNum(n) => Some(Num(n))
    case JDec(text) => Some(Dec(text))
    case JStr(s) => Some(Str(s))
    case JArr(items) => (match UntagItems(items) case None => None case Some(xs) => Some(Arr(xs)))
    case JObj(fields) => (match UntagFields(fields) case None => None case Some(fs) => Revive(fs))
  }

  function UntagItems(js: seq<Json>): (r: Option<seq<Js>>)
    ensures r.Some? ==> |r.value| == |js|
    decreases js, 0
  {
    if js == [] then Some([])
    else
      match (Untag(js[0]), UntagItems(js[1..]))
      case (Some(x), Some(xs)) => Some([x] + xs)
      case _ => None
  }

  function UntagField(f: (string, Json)): Option<(string, Js)>
    decreases f, 2
  {
    match Untag(f.1)
    case None => None
    case Some(x) => Some((f.0, x))
  }

  function UntagFields(fs: seq<(string, Json)>): (r: Option<seq<(string, Js)>>)
    ensures r.Some? ==> |r.value| == |fs|
    decreases fs, 0
  {
    if fs == [] then Some([])
    else
      match (UntagField(fs[0]), UntagFields(fs[1..]))
      case (Some(x), Some(xs)) => Some([x] + xs)
      case _ => None
  }

  function SerializeData(v: Js): string { Stringify(Tag(v)) }

  function DeserializeData(text: string): Option<Js> {
    match Parse(text)
    case None => None
    case Some(j) => Untag(j)
  }

  // ----- values that exist, and values that survive -----

  /** Object keys are distinct, and so are primitive Set elements and primitive Map keys. */
  ghost predicate Valid(v: Js)
    decreases v
  {
    match v
    case Arr(items) => forall i :: 0 <= i < |items| ==> Valid(items[i])
    case Obj(fields) =>
      && (forall i, j :: 0 <= i < j < |fields| ==> fields[i].0 != fields[j].0)
      && (forall i :: 0 <= i < |fields| ==> Valid(fields[i].1))
    case SetOf(elems) =>
      && (forall i, j :: 0 <= i < j < |elems| && elems[i] == elems[j] ==> !Primitive(elems[i]))
      && (forall i :: 0 <= i < |elems| ==> Valid(elems[i]))
    case MapOf(entries) =>
      && (forall i, j :: 0 <= i < j < |entries| && entries[i].0 == entries[j].0 ==> !Primitive(entries[i].0))
      && (forall i :: 0 <= i < |entries| ==> Valid(entries[i].0) && Valid(entries[i].1))
    case _ => true
  }

  /** A plain object that the reviver would take for a tagged Set or Map. */
  predicate Clashes(fields: seq<(string, Js)>) {
    JsField(fields, "__type") == Some(Str("Set")) || JsField(fields, "__type") == Some(Str("Map"))
  }

  /** No plain object anywhere in v carries a __type of "Set" or "Map". */
  ghost predicate ClashFree(v: Js)
    decreases v
  {
    match v
    case Arr(items) => forall i :: 0 <= i < |items| ==> ClashFree(items[i])
    case Obj(fields) => !Clashes(fields) && forall i :: 0 <= i < |fields| ==> ClashFree(fields[i].1)
    case SetOf(elems) => forall i :: 0 <= i < |elems| ==> ClashFree(elems[i])
    case MapOf(entries) => forall i :: 0 <= i < |entries| ==> ClashFree(entries[i].0) && ClashFree(entries[i].1)
    case _ => true
  }

  // ----- untagging what was tagged, one level at a time -----

  function Back(v: Js): Option<Js> { Untag(Tag(v)) }

  lemma {:induction false} ItemsBack(xs: seq<Js>)
    ensures UntagItems(TagItems(xs)).Some? <==> forall i :: 0 <= i < |xs| ==> Back(xs[i]).Some?
    ensures UntagItems(TagItems(xs)).Some? ==>
              forall i :: 0 <= i < |xs| ==> Back(xs[i]) == Some(UntagItems(TagItems(xs)).value[i])
  {
    if xs != [] {
      ItemsBack(xs[1..]);
      assert TagItems(xs)[1..] == TagItems(xs[1..]);
      assert forall i :: 1 <= i < |xs| ==> xs[i] == xs[1..][i - 1];
    }
  }

  lemma {:induction false} FieldsBack(fs: seq<(string, Js)>)
    ensures UntagFields(TagFields(fs)).Some? <==> forall i :: 0 <= i < |fs| ==> Back(fs[i].1).Some?
    ensures UntagFields(TagFields(fs)).Some? ==>
              forall i :: 0 <= i < |fs| ==>
                UntagFields(TagFields(fs)).value[i].0 == fs[i].0
                && Back(fs[i].1) == Some(UntagFields(TagFields(fs)).value[i].1)
  {
    if fs != [] {
      FieldsBack(fs[1..]);
      assert TagFields(fs)[1..] == TagFields(fs[1..]);
      assert forall i :: 1 <= i < |fs| ==> fs[i] == fs[1..][i - 1];
    }
  }

  lemma UntagItemsPair(j: Json, k: Json)
    ensures UntagItems([j, k]) == match (Untag(j), Untag(k)) case (Some(x), Some(y)) => Some([x, y]) case _ => None
  {
    assert [j, k][1..] == [k] && [k][1..] == [];
    if Untag(k).Some? {
      var none: seq<Js> := [];
      assert UntagItems([k][1..]) == Some(none) && [Untag(k).value] + none == [Untag(k).value];
      assert UntagItems([k]) == Some([Untag(k).value]);
      if Untag(j).Some? { assert [Untag(j).value] + [Untag(k).value] == [Untag(j).value, Untag(k).value]; }
    } else {
      assert UntagItems([k]) == None;
    }
  }

  lemma UntagFieldsPair(f: (string, Json), g: (string, Json))
    ensures UntagFields([f, g])
            == match (UntagField(f), UntagField(g)) case (Some(x), Some(y)) => Some([x, y]) case _ => None
  {
    assert [f, g][1..] == [g] && [g][1..] == [];
    if UntagField(g).Some? {
      var none: seq<(string, Js)> := [];
      assert UntagFields([g][1..]) == Some(none) && [UntagField(g).value] + none == [UntagField(g).value];
      assert UntagFields([g]) == Some([UntagField(g).value]);
      if UntagField(f).Some? {
        assert [UntagField(f).value] + [UntagField(g).value] == [UntagField(f).value, UntagField(g).value];
      }
    } else {
      assert UntagFields([g]) == None;
    }
  }

  lemma EntryBack(e: (Js, Js))
    ensures Back(e.0).Some? && Back(e.1).Some? ==> Untag(TagEntry(e)) == Some(Arr([Back(e.0).value, Back(e.1).value]))
    ensures Back(e.0).None? || Back(e.1).None? ==> Untag(TagEntry(e)) == None
  {
    UntagItemsPair(Tag(e.0), Tag(e.1));
  }

  lemma {:induction false} EntriesBack(es: seq<(Js, Js)>)
    ensures UntagItems(TagEntries(es)).Some?
            <==> forall i :: 0 <= i < |es| ==> Back(es[i].0).Some? && Back(es[i].1).Some?
    ensures UntagItems(TagEntries(es)).Some? ==>
              var ps := Pairs(UntagItems(TagEntries(es)).value);
              && ps.Some? && |ps.value| == |es|
              && forall i :: 0 <= i < |es| ==> Back(es[i].0) == Some(ps.value[i].0) && Back(es[i].1) == Some(ps.value[i].1)
  {
    if es != [] {
      EntriesBack(es[1..]);
      EntryBack(es[0]);
      assert forall i :: 1 <= i < |es| ==> es[i] == es[1..][i - 1];
      FirstEntryBack(es);
    }
  }

  /** The first entry comes back in front of the rest. */
  lemma FirstEntryBack(es: seq<(Js, Js)>)
    requires es != []
    ensures var first, rest := Untag(TagEntry(es[0])), UntagItems(TagEntries(es[1..]));
            UntagItems(TagEntries(es))
            == if first.Some? && rest.Some? then Some([first.value] + rest.value) else None
    ensures var all := UntagItems(TagEntries(es));
            all.Some? ==> all.value[0] == Untag(TagEntry(es[0])).value && all.value[1..] == UntagItems(TagEntries(es[1..])).value
  {
    assert TagEntries(es)[1..] == TagEntries(es[1..]);
  }

  // ----- rebuilding keeps distinct collections as they are -----

  lemma {:induction false} AddAllDistinct(xs: seq<Js>)
    requires forall i, j :: 0 <= i < j < |xs| && xs[i] == xs[j] ==> !Primitive(xs[i])
    ensures AddAll(xs) == xs
  {
    if xs != [] {
      AddAllDistinct(xs[..|xs| - 1]);
      assert xs[..|xs| - 1] + [xs[|xs| - 1]] == xs;
    }
  }

  lemma {:induction false} SetAllDistinct(es: seq<(Js, Js)>)
    requires forall i, j :: 0 <= i < j < |es| && es[i].0 == es[j].0 ==> !Primitive(es[i].0)
    ensures SetAll(es) == es
  {
    if es != [] {
      SetAllDistinct(es[..|es| - 1]);
      assert es[..|es| - 1] + [es[|es| - 1]] == es;
    }
  }

  /** A Set keeps every element, and primitive ones once. */
  lemma {:induction false} AddAllKeeps(xs: seq<Js>)
    ensures forall x :: x in AddAll(xs) <==> x in xs
    ensures forall i, j :: 0 <= i < j < |AddAll(xs)| && AddAll(xs)[i] == AddAll(xs)[j] ==> !Primitive(AddAll(xs)[i])
  {
    if xs != [] {
      var init, x := xs[..|xs| - 1], xs[|xs| - 1];
      AddAllKeeps(init);
      assert xs == init + [x];
    }
  }

  /** A Map keeps every key, and a primitive one once, with the value set last. */
  lemma {:induction false} SetAllKeeps(es: seq<(Js, Js)>)
    ensures forall i, j :: 0 <= i < j < |SetAll(es)| && SetAll(es)[i].0 == SetAll(es)[j].0 ==> !Primitive(SetAll(es)[i].0)
    ensures es != [] ==> es[|es| - 1] in SetAll(es)
  {
    if es != [] {
      var init, e := es[..|es| - 1], es[|es| - 1];
      SetAllKeeps(init);
      var before := SetAll(init);
      var i := KeyIndex(before, e.0);
      if Primitive(e.0) && i < |before| {
        assert SetAll(es)[i] == e;
      } else {
        assert SetAll(es)[|before|] == e;
      }
    }
  }

  lemma {:induction false} CharactersOf(s: string)
    ensures |Characters(s)| == |s| && forall i :: 0 <= i < |s| ==> Characters(s)[i] == Str([s[i]])
  {
    if s != "" { CharactersOf(s[1..]); }
  }

  /** What a tag with other content becomes: text is a Set of its characters but no Map, unless empty. */
  lemma OtherContent(s: string)
    ensures NewMap(Some(Str(s))) == if s == "" then Some(MapOf([])) else None
    ensures NewSet(Some(Str(s))) == Some(SetOf(AddAll(Characters(s))))
    ensures NewSet(None) == Some(SetOf([])) && NewMap(None) == Some(MapOf([])) && NewSet(Some(Num(1))) == None
  {
  }

  /** A Set of two different primitives is a value, one with a repeated primitive is not. */
  lemma ValidSets(x: Js, y: Js)
    requires Primitive(x) && Primitive(y)
    ensures Valid(SetOf([x, y])) <==> x != y
    ensures Valid(MapOf([(x, y), (y, x)])) <==> x != y
  {
    var es := [(x, y), (y, x)];
    assert es[0].0 == x && es[1].0 == y;
    assert [x, y][0] == x && [x, y][1] == y;
  }

  lemma TaggedFields(kind: string, content: seq<Json>)
    ensures UntagItems(content).None? ==> Untag(Tagged(kind, content)).None?
    ensures UntagItems(content).Some? ==>
      UntagFields(Tagged(kind, content).fields) == Some([("__type", Str(kind)), ("value", Arr(UntagItems(content).value))])
  {
    UntagFieldsPair(("__type", JStr(kind)), ("value", JArr(content)));
  }

  lemma TaggedBack(kind: string, xs: seq<Js>)
    requires kind == "Set" || kind == "Map"
    ensures Revive([("__type", Str(kind)), ("value", Arr(xs))])
            == if kind == "Set" then NewSet(Some(Arr(xs))) else NewMap(Some(Arr(xs)))
  {
    var fs := [("__type", Str(kind)), ("value", Arr(xs))];
    assert fs[1..] == [("value", Arr(xs))];
    assert JsField(fs, "value") == JsField(fs[1..], "value") == Some(Arr(xs));
  }

  /** A tagged collection is rebuilt from its items, if they come back. */
  lemma UntagTagged(kind: string, content: seq<Json>)
    requires kind == "Set" || kind == "Map"
    ensures var r := UntagItems(content);
            Untag(Tagged(kind, content))
            == if r.None? then None else if kind == "Set" then NewSet(Some(Arr(r.value))) else NewMap(Some(Arr(r.value)))
  {
    TaggedFields(kind, content);
    var r := UntagItems(content);
    if r.Some? { TaggedBack(kind, r.value); }
  }

  lemma UntagSet(xs: seq<Js>)
    ensures var r := UntagItems(TagItems(xs)); Back(SetOf(xs)) == if r.None? then None else Some(SetOf(AddAll(r.value)))
  {
    UntagTagged("Set", TagItems(xs));
  }

  lemma UntagMap(es: seq<(Js, Js)>)
    ensures var r := UntagItems(TagEntries(es));
            Back(MapOf(es))
            == if r.None? || Pairs(r.value).None? then None else Some(MapOf(SetAll(Pairs(r.value).value)))
  {
    UntagTagged("Map", TagEntries(es));
  }

  /** Primitives come back as themselves, and nothing else comes back as a primitive. */
  lemma {:induction false} KindKept(v: Js)
    ensures Primitive(v) ==> Back(v) == Some(v)
    ensures !Primitive(v) && Back(v).Some? ==> !Primitive(Back(v).value)
  {
  }

  // ----- the theorem -----

  ghost predicate AllBack(vs: seq<Js>) { forall i :: 0 <= i < |vs| ==> Back(vs[i]) == Some(vs[i]) }

  lemma ArrBack(xs: seq<Js>)
    ensures Back(Arr(xs)) == Some(Arr(xs)) <==> AllBack(xs)
  {
    ItemsBack(xs);
    if AllBack(xs) { assert UntagItems(TagItems(xs)).value == xs; }
  }

  lemma ObjBack(fs: seq<(string, Js)>)
    ensures Back(Obj(fs)) == Some(Obj(fs))
            <==> !Clashes(fs) && forall i :: 0 <= i < |fs| ==> Back(fs[i].1) == Some(fs[i].1)
  {
    FieldsBack(fs);
    var r := UntagFields(TagFields(fs));
    if forall i :: 0 <= i < |fs| ==> Back(fs[i].1) == Some(fs[i].1) {
      assert r.value == fs;
    }
  }

  /** Coming back keeps the primitive elements of a Set apart. */
  lemma ElementsStayApart(xs: seq<Js>, ys: seq<Js>)
    requires |xs| == |ys| && forall i :: 0 <= i < |xs| ==> Back(xs[i]) == Some(ys[i])
    requires forall i, j :: 0 <= i < j < |xs| && xs[i] == xs[j] ==> !Primitive(xs[i])
    ensures forall i, j :: 0 <= i < j < |ys| && ys[i] == ys[j] ==> !Primitive(ys[i])
  {
    forall i | 0 <= i < |xs| ensures Primitive(ys[i]) ==> ys[i] == xs[i] && Primitive(xs[i]) { KindKept(xs[i]); }
  }

  /** A tagged Set comes back with its elements, if they come back. */
  lemma SetBackIs(xs: seq<Js>)
    requires forall i, j :: 0 <= i < j < |xs| && xs[i] == xs[j] ==> !Primitive(xs[i])
    ensures var r := UntagItems(TagItems(xs)); Back(SetOf(xs)) == if r.None? then None else Some(SetOf(r.value))
  {
    UntagSet(xs);
    var r := UntagItems(TagItems(xs));
    if r.Some? {
      ItemsBack(xs);
      ElementsStayApart(xs, r.value);
      AddAllDistinct(r.value);
    }
  }

  lemma SetBack(xs: seq<Js>)
    requires forall i, j :: 0 <= i < j < |xs| && xs[i] == xs[j] ==> !Primitive(xs[i])
    ensures Back(SetOf(xs)) == Some(SetOf(xs)) <==> AllBack(xs)
  {
    SetBackIs(xs);
    ItemsBack(xs);
    if AllBack(xs) { assert UntagItems(TagItems(xs)).value == xs; }
  }

  lemma KeysStayApart(es: seq<(Js, Js)>, ps: seq<(Js, Js)>)
    requires |es| == |ps| && forall i :: 0 <= i < |es| ==> Back(es[i].0) == Some(ps[i].0)
    requires forall i, j :: 0 <= i < j < |es| && es[i].0 == es[j].0 ==> !Primitive(es[i].0)
    ensures forall i, j :: 0 <= i < j < |ps| && ps[i].0 == ps[j].0 ==> !Primitive(ps[i].0)
  {
    forall i | 0 <= i < |es| ensures Primitive(ps[i].0) ==> ps[i].0 == es[i].0 && Primitive(es[i].0) { KindKept(es[i].0); }
  }

  /** A tagged Map comes back with its entries, if they come back. */
  lemma MapBackIs(es: seq<(Js, Js)>)
    requires forall i, j :: 0 <= i < j < |es| && es[i].0 == es[j].0 ==> !Primitive(es[i].0)
    ensures var r := UntagItems(TagEntries(es));
            if r.None? then Back(MapOf(es)) == None
            else Pairs(r.value).Some? && Back(MapOf(es)) == Some(MapOf(Pairs(r.value).value))
  {
    UntagMap(es);
    EntriesBack(es);
    var r := UntagItems(TagEntries(es));
    if r.Some? {
      KeysStayApart(es, Pairs(r.value).value);
      SetAllDistinct(Pairs(r.value).value);
    }
  }

  lemma MapBack(es: seq<(Js, Js)>)
    requires forall i, j :: 0 <= i < j < |es| && es[i].0 == es[j].0 ==> !Primitive(es[i].0)
    ensures Back(MapOf(es)) == Some(MapOf(es))
            <==> forall i :: 0 <= i < |es| ==> Back(es[i].0) == Some(es[i].0) && Back(es[i].1) == Some(es[i].1)
  {
    MapBackIs(es);
    EntriesBack(es);
    if forall i :: 0 <= i < |es| ==> Back(es[i].0) == Some(es[i].0) && Back(es[i].1) == Some(es[i].1) {
      assert Pairs(UntagItems(TagEntries(es)).value).value == es;
    }
  }

  lemma {:induction false} BackIffClashFree(v: Js)
    requires Valid(v)
    ensures Back(v) == Some(v) <==> ClashFree(v)
    decreases v
  {
    match v
    case Arr(items) =>
      forall i | 0 <= i < |items| ensures Back(items[i]) == Some(items[i]) <==> ClashFree(items[i]) {
        BackIffClashFree(items[i]);
      }
      ArrBack(items);
    case Obj(fields) =>
      forall i | 0 <= i < |fields| ensures Back(fields[i].1) == Some(fields[i].1) <==> ClashFree(fields[i].1) {
        BackIffClashFree(fields[i].1);
      }
      ObjBack(fields);
    case SetOf(elems) =>
      forall i | 0 <= i < |elems| ensures Back(elems[i]) == Some(elems[i]) <==> ClashFree(elems[i]) {
        BackIffClashFree(elems[i]);
      }
      SetBack(elems);
    case MapOf(entries) =>
      forall i | 0 <= i < |entries|
        ensures Back(entries[i].0) == Some(entries[i].0) <==> ClashFree(entries[i].0)
        ensures Back(entries[i].1) == Some(entries[i].1) <==> ClashFree(entries[i].1)
      {
        BackIffClashFree(entries[i].0);
        BackIffClashFree(entries[i].1);
      }
      MapBack(entries);
    case _ =>
  }

  // ----- down to the text -----

  lemma {:induction false} TagItemsAt(xs: seq<Js>)
    ensures forall i :: 0 <= i < |xs| ==> TagItems(xs)[i] == Tag(xs[i])
  {
    if xs != [] {
      TagItemsAt(xs[1..]);
      assert forall i :: 1 <= i < |xs| ==> xs[i] == xs[1..][i - 1];
    }
  }

  lemma {:induction false} TagFieldsAt(fs: seq<(string, Js)>)
    ensures forall i :: 0 <= i < |fs| ==> TagFields(fs)[i] == (fs[i].0, Tag(fs[i].1))
  {
    if fs != [] {
      TagFieldsAt(fs[1..]);
      assert forall i :: 1 <= i < |fs| ==> fs[i] == fs[1..][i - 1];
    }
  }

  lemma {:induction false} TagEntriesAt(es: seq<(Js, Js)>)
    ensures forall i :: 0 <= i < |es| ==> TagEntries(es)[i] == JArr([Tag(es[i].0), Tag(es[i].1)])
  {
    if es != [] {
      TagEntriesAt(es[1..]);
      assert forall i :: 1 <= i < |es| ==> es[i] == es[1..][i - 1];
    }
  }

  lemma {:induction false} TagWellFormed(v: Js)
    requires Valid(v)
    ensures WellFormed(Tag(v))
    decreases v
  {
    match v
    case Arr(items) =>
      TagItemsAt(items);
      forall i | 0 <= i < |items| ensures WellFormed(Tag(items[i])) { TagWellFormed(items[i]); }
    case Obj(fields) =>
      TagFieldsAt(fields);
      forall i | 0 <= i < |fields| ensures WellFormed(Tag(fields[i].1)) { TagWellFormed(fields[i].1); }
    case SetOf(elems) =>
      TagItemsAt(elems);
      forall i | 0 <= i < |elems| ensures WellFormed(Tag(elems[i])) { TagWellFormed(elems[i]); }
      assert WellFormed(JArr(TagItems(elems)));
    case MapOf(entries) =>
      TagEntriesAt(entries);
      forall i | 0 <= i < |entries| ensures WellFormed(TagEntries(entries)[i]) {
        TagWellFormed(entries[i].0);
        TagWellFormed(entries[i].1);
      }
      assert WellFormed(JArr(TagEntries(entries)));
    case _ =>
  }

  /** Nested Sets, Maps, arrays and objects survive the trip through text exactly when no plain object poses as a tag. */
  lemma DataRoundTrip(v: Js)
    requires Valid(v)
    ensures DeserializeData(SerializeData(v)) == Some(v) <==> ClashFree(v)
  {
    TagWellFormed(v);
    RoundTrip(Tag(v));
    BackIffClashFree(v);
  }

  lemma {:induction false} UntagFieldsNames(fs: seq<(string, Json)>)
    requires UntagFields(fs).Some?
    ensures forall i :: 0 <= i < |fs| ==> UntagFields(fs).value[i].0 == fs[i].0
  {
    if fs != [] {
      UntagFieldsNames(fs[1..]);
      assert forall i :: 1 <= i < |fs| ==> fs[i] == fs[1..][i - 1];
    }
  }

  /** An object read from text has each of its fields once. */
  lemma ReadFieldsDistinct(text: string)
    requires DeserializeData(text).Some? && DeserializeData(text).value.Obj?
    ensures var fs := DeserializeData(text).value.fields;
            forall i, j :: 0 <= i < j < |fs| ==> fs[i].0 != fs[j].0
  {
    var j := Parse(text).value;
    ParseWellFormed(text);
    UntagFieldsNames(j.fields);
  }
}
