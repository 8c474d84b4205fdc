/** The pre-image that a P2PK witness signs: a domain tag, the input's hash, and the value-routing fields of every output. */
module SpendAuth {
  import opened Prelude
  import opened Json

  const TAG := "TAT-P2PK-SPEND-v1\n"

  /** An output's property, null when it is absent. */
  function OrNull(out: Json, key: string): Json {
    match Field(out, key)
    case None => JNull
    case Some(v) => v
  }

  /** The three fields a witness commits to: to, amount, tokenID. */
  datatype Route = Route(to: Json, amount: Json, tokenID: Json)

  function RouteOf(out: Json): Route {
    Route(OrNull(out, "to"), OrNull(out, "amount"), OrNull(out, "tokenID"))
  }

  /** An output may be an object or its JSON text; None stands for the exception JSON.parse or property access throws. */
  function Normalize(out: Json): Option<Route> {
    if out.JStr? then
      match Parse(out.s)
      case None => None
      case Some(v) => if v == JNull then None else Some(RouteOf(v))
    else Some(RouteOf(out))
  }

  function Routes(outs: seq<Json>): (r: Option<seq<Route>>)
    ensures r.Some? ==> |r.value| == |outs|
  {
    if outs == [] then Some([])
    else
      match (Normalize(outs[0]), Routes(outs[1..]))
      case (Some(o), Some(os)) => Some([o] + os)
      case _ => None
  }

  function RouteJson(r: Route): Json {
    JObj([("to", r.to), ("amount", r.amount), ("tokenID", r.tokenID)])
  }

  function RoutesJson(rs: seq<Route>): (js: seq<Json>)
    ensures |js| == |rs|
    ensures forall i :: 0 <= i < |rs| ==> js[i] == RouteJson(rs[i])
  {
    if rs == [] then [] else [RouteJson(rs[0])] + RoutesJson(rs[1..])
  }

  /** The text spendAuthDigest hashes, or None when it throws. */
  function Message(inputHash: string, outs: seq<Json>): Option<string> {
    match Routes(outs)
    case None => None
    case Some(rs) => Some(TAG + inputHash + "\n" + Stringify(JArr(RoutesJson(rs))))
  }

  // ----- unambiguity -----

  ghost predicate AllWellFormed(vs: seq<Json>) {
    forall i :: 0 <= i < |vs| ==> WellFormed(vs[i])
  }

  lemma RouteWellFormed(out: Json)
    requires WellFormed(out) && Normalize(out).Some?
    ensures WellFormed(RouteJson(Normalize(out).value))
  {
    if out.JStr? { ParseWellFormed(out.s); }
  }

  lemma {:induction false} RoutesWellFormed(outs: seq<Json>)
    requires AllWellFormed(outs) && Routes(outs).Some?
    ensures AllWellFormed(RoutesJson(Routes(outs).value))
  {
    if outs != [] {
      RouteWellFormed(outs[0]);
      RoutesWellFormed(outs[1..]);
    }
  }

  lemma RoutesJsonInjective(a: seq<Route>, b: seq<Route>)
    requires RoutesJson(a) == RoutesJson(b)
    ensures a == b
  {
    assert |a| == |RoutesJson(a)| == |RoutesJson(b)| == |b|;
    forall i | 0 <= i < |a| ensures a[i] == b[i] {
      assert RouteJson(a[i]) == RoutesJson(a)[i] == RoutesJson(b)[i] == RouteJson(b[i]);
    }
  }

  /** A newline ends a newline-free prefix at one place only. */
  lemma {:induction false} SplitAtNewline(a: string, x: string, b: string, y: string)
    requires '\n' !in a && '\n' !in b
    requires a + "\n" + x == b + "\n" + y
    ensures a == b && x == y
  {
    var s, t := a + "\n" + x, b + "\n" + y;
    assert t[0] == if b == "" then '\n' else b[0];
    if a == "" {
      assert s[0] == '\n';
      assert s[1..] == x && t[1..] == y;
    } else {
      assert s[0] == a[0];
      assert s[1..] == a[1..] + "\n" + x && t[1..] == b[1..] + "\n" + y;
      SplitAtNewline(a[1..], x, b[1..], y);
    }
  }

  /** An output as an object: text is parsed. */
  ghost function Opened(out: Json): Json
    requires out.JStr? ==> Parse(out.s).Some?
  {
    if out.JStr? then Parse(out.s).value else out
  }

  /** Two outputs have the same value under a name, absent counting as null. */
  ghost predicate SameUnder(a: Json, b: Json, name: string) {
    (match Field(a, name) case Some(v) => v case None => JNull) == match Field(b, name) case Some(v) => v case None => JNull
  }

  /** They route the same value to the same recipient. */
  ghost predicate SameRouting(a: Json, b: Json) {
    SameUnder(a, b, "to") && SameUnder(a, b, "amount") && SameUnder(a, b, "tokenID")
  }

  lemma {:induction false} RoutesAt(outs: seq<Json>)
    ensures Routes(outs).Some? <==>
            forall i :: 0 <= i < |outs| && outs[i].JStr? ==> Parse(outs[i].s).Some? && Parse(outs[i].s) != Some(JNull)
    ensures Routes(outs).Some? ==> forall i :: 0 <= i < |outs| ==> Normalize(outs[i]) == Some(Routes(outs).value[i])
  {
    if outs != [] {
      var rest := outs[1..];
      RoutesAt(rest);
      assert forall i :: 1 <= i < |outs| ==> outs[i] == rest[i - 1];
      assert Normalize(outs[0]).None? <==> outs[0].JStr? && (Parse(outs[0].s).None? || Parse(outs[0].s) == Some(JNull));
      if Routes(rest).Some? && Normalize(outs[0]).Some? {
        assert Routes(outs).value == [Normalize(outs[0]).value] + Routes(rest).value;
      }
    }
  }

  lemma SameRoute(a: Json, b: Json)
    requires Normalize(a).Some? && Normalize(b).Some?
    ensures Normalize(a) == Normalize(b) <==> SameRouting(Opened(a), Opened(b))
  {
  }

  /** There is no message exactly when some output is text that does not parse, or that parses to null. */
  lemma MessageThrows(h: string, outs: seq<Json>)
    ensures Message(h, outs).None? <==>
            exists i :: 0 <= i < |outs| && outs[i].JStr? && (Parse(outs[i].s).None? || Parse(outs[i].s) == Some(JNull))
  {
    RoutesAt(outs);
  }

  /** A message begins with its own tag, then the input's hash on a line. */
  lemma MessageTagged(h: string, outs: seq<Json>)
    requires Message(h, outs).Some?
    ensures "TAT-P2PK-SPEND-v1\n" + h + "\n[" <= Message(h, outs).value
  {
    var j := JArr(RoutesJson(Routes(outs).value));
    assert Stringify(j)[0] == '[';
    assert Message(h, outs).value == TAG + h + "\n" + Stringify(j);
  }

  /**
   * Two messages are equal exactly when the input hashes are, the outputs are equally many, and at each position
   * the two outputs name the same recipient, amount and token id, absent counting as null.
   */
  lemma MessageUnambiguous(h1: string, outs1: seq<Json>, h2: string, outs2: seq<Json>)
    requires '\n' !in h1 && '\n' !in h2
    requires AllWellFormed(outs1) && AllWellFormed(outs2)
    requires Message(h1, outs1).Some? && Message(h2, outs2).Some?
    ensures forall i :: 0 <= i < |outs1| && outs1[i].JStr? ==> Parse(outs1[i].s).Some?
    ensures forall i :: 0 <= i < |outs2| && outs2[i].JStr? ==> Parse(outs2[i].s).Some?
    ensures Message(h1, outs1) == Message(h2, outs2)
            <==> h1 == h2 && |outs1| == |outs2|
                 && forall i :: 0 <= i < |outs1| ==> SameRouting(Opened(outs1[i]), Opened(outs2[i]))
  {
    RoutesAt(outs1);
    RoutesAt(outs2);
    SameMessage(h1, outs1, h2, outs2);
    var r1, r2 := Routes(outs1).value, Routes(outs2).value;
    if |outs1| == |outs2| {
      forall i | 0 <= i < |outs1| ensures r1[i] == r2[i] <==> SameRouting(Opened(outs1[i]), Opened(outs2[i])) {
        SameRoute(outs1[i], outs2[i]);
      }
      assert r1 == r2 <==> forall i :: 0 <= i < |outs1| ==> r1[i] == r2[i];
    }
  }

  lemma SameMessage(h1: string, outs1: seq<Json>, h2: string, outs2: seq<Json>)
    requires '\n' !in h1 && '\n' !in h2
    requires AllWellFormed(outs1) && AllWellFormed(outs2)
    requires Message(h1, outs1).Some? && Message(h2, outs2).Some?
    ensures Message(h1, outs1) == Message(h2, outs2)
            <==> h1 == h2 && Routes(outs1) == Routes(outs2)
  {
    if Message(h1, outs1) == Message(h2, outs2) {
      var j1, j2 := JArr(RoutesJson(Routes(outs1).value)), JArr(RoutesJson(Routes(outs2).value));
      var m1, m2 := Message(h1, outs1).value, Message(h2, outs2).value;
      assert m1[|TAG|..] == h1 + "\n" + Stringify(j1);
      assert m2[|TAG|..] == h2 + "\n" + Stringify(j2);
      SplitAtNewline(h1, Stringify(j1), h2, Stringify(j2));
      RoutesWellFormed(outs1);
      RoutesWellFormed(outs2);
      StringifyInjective(j1, j2);
      RoutesJsonInjective(Routes(outs1).value, Routes(outs2).value);
    }
  }

  // ----- insensitivity -----

  lemma FieldOfMember(fs: seq<(string, Json)>, f: (string, Json))
    requires DistinctKeys(fs) && f in fs
    ensures Field(JObj(fs), f.0) == Some(f.1)
  {
    var i :| 0 <= i < |fs| && fs[i] == f;
    FieldAt(fs, i);
  }

  lemma FieldsAgree(fs: seq<(string, Json)>, gs: seq<(string, Json)>, key: string)
    requires DistinctKeys(fs) && DistinctKeys(gs)
    requires forall v :: (key, v) in fs <==> (key, v) in gs
    ensures Field(JObj(fs), key) == Field(JObj(gs), key)
  {
    var i, j := IndexOf(fs, key), IndexOf(gs, key);
    if i < |fs| {
      assert fs[i] == (key, fs[i].1) && (key, fs[i].1) in gs;
      FieldOfMember(gs, (key, fs[i].1));
    }
    if j < |gs| {
      assert gs[j] == (key, gs[j].1) && (key, gs[j].1) in fs;
      FieldOfMember(fs, (key, gs[j].1));
    }
  }

  /** Reordering an output's fields, or adding and removing fields other than the three, changes nothing. */
  lemma OrderAndExtrasIrrelevant(fs: seq<(string, Json)>, gs: seq<(string, Json)>)
    requires DistinctKeys(fs) && DistinctKeys(gs)
    requires forall k, v :: k == "to" || k == "amount" || k == "tokenID" ==> ((k, v) in fs <==> (k, v) in gs)
    ensures Normalize(JObj(fs)) == Normalize(JObj(gs))
  {
    FieldsAgree(fs, gs, "to");
    FieldsAgree(fs, gs, "amount");
    FieldsAgree(fs, gs, "tokenID");
  }

  lemma {:induction false} RoutesPointwise(a: seq<Json>, b: seq<Json>)
    requires |a| == |b| && forall i :: 0 <= i < |a| ==> Normalize(a[i]) == Normalize(b[i])
    ensures Routes(a) == Routes(b)
  {
    if a != [] { RoutesPointwise(a[1..], b[1..]); }
  }

  /** outs with any of its objects sent as JSON text instead. */
  ghost predicate SameOuts(a: seq<Json>, b: seq<Json>) {
    |a| == |b| && forall i :: 0 <= i < |a| ==>
      a[i] == b[i] || (a[i].JObj? && WellFormed(a[i]) && b[i] == JStr(Stringify(a[i])))
  }

  /** The wallet signs over objects, the forge may receive text: both derive the same message. */
  lemma TextOutsSameMessage(hash: string, a: seq<Json>, b: seq<Json>)
    requires SameOuts(a, b)
    ensures Message(hash, a) == Message(hash, b)
  {
    forall i | 0 <= i < |a| ensures Normalize(a[i]) == Normalize(b[i]) {
      if a[i] != b[i] { RoundTrip(a[i]); }
    }
    RoutesPointwise(a, b);
  }
}
