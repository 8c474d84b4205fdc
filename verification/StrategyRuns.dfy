/** How often a gate grants a token over any run of calls, without resets. */
module StrategyRuns {
  import opened Prelude
  import opened Strategies

  ghost function RunOf(snap: Snapshot, leaves: seq<UsageBackedStrategy>, cs: seq<Call>): Snapshot {
    if cs == [] then snap else After(RunOf(snap, leaves, cs[..|cs| - 1]), leaves, cs[|cs| - 1])
  }

  /** How often the token was consumed. */
  ghost function Consumptions(snap: Snapshot, leaves: seq<UsageBackedStrategy>, cs: seq<Call>, h: string): nat {
    if cs == [] then 0
    else
      var init, c := cs[..|cs| - 1], cs[|cs| - 1];
      Consumptions(snap, leaves, init, h) + if c.h == h && Consumes(RunOf(snap, leaves, init), leaves, c) then 1 else 0
  }

  /** How often access was granted: consumed and saved. */
  ghost function Grants(snap: Snapshot, leaves: seq<UsageBackedStrategy>, cs: seq<Call>, h: string): nat {
    if cs == [] then 0
    else
      var init, c := cs[..|cs| - 1], cs[|cs| - 1];
      Grants(snap, leaves, init, h)
      + if c.h == h && c.saved && Consumes(RunOf(snap, leaves, init), leaves, c) then 1 else 0
  }

  lemma {:induction false} GrantsAreConsumptions(snap: Snapshot, leaves: seq<UsageBackedStrategy>, cs: seq<Call>, h: string)
    ensures Grants(snap, leaves, cs, h) <= Consumptions(snap, leaves, cs, h)
    ensures (forall i :: 0 <= i < |cs| ==> cs[i].saved) ==>
              Grants(snap, leaves, cs, h) == Consumptions(snap, leaves, cs, h)
  {
    if cs != [] {
      GrantsAreConsumptions(snap, leaves, cs[..|cs| - 1], h);
    }
  }

  /** Nothing has been used yet. */
  ghost predicate Unused(snap: Snapshot) { forall o :: o in snap ==> snap[o] == map[] }

  /** Every object's use count is its number of occurrences times the number of consumptions: equal when it is not shared. */
  lemma {:induction false} UsesCount(snap: Snapshot, leaves: seq<UsageBackedStrategy>, cs: seq<Call>, o: UsageBackedStrategy, h: string)
    requires Unused(snap) && o in snap
    ensures o in RunOf(snap, leaves, cs)
    ensures UsesIn(RunOf(snap, leaves, cs)[o], h) == Count(leaves, o) * Consumptions(snap, leaves, cs, h)
    ensures Count(leaves, o) == 1 && (forall i :: 0 <= i < |cs| ==> cs[i].saved) ==>
              UsesIn(RunOf(snap, leaves, cs)[o], h) == Grants(snap, leaves, cs, h)
  {
    GrantsAreConsumptions(snap, leaves, cs, h);
    if cs != [] {
      var init := cs[..|cs| - 1];
      UsesCount(snap, leaves, init, o, h);
      OneMore(Count(leaves, o), Consumptions(snap, leaves, init, h));
    }
  }

  lemma OneMore(m: nat, c: nat)
    ensures m * (c + 1) == m * c + m
  {
  }

  lemma {:induction false} KeysStay(snap: Snapshot, leaves: seq<UsageBackedStrategy>, cs: seq<Call>)
    ensures RunOf(snap, leaves, cs).Keys == snap.Keys
  {
    if cs != [] {
      KeysStay(snap, leaves, cs[..|cs| - 1]);
    }
  }

  /** The window of an object is open. */
  predicate Open(o: UsageBackedStrategy, now: int) {
    o.kind.Window? ==>
      && (o.kind.startsAt.Some? && o.kind.startsAt.value != 0 ==> o.kind.startsAt.value <= now)
      && (o.kind.endsAt.Some? && o.kind.endsAt.value != 0 ==> now <= o.kind.endsAt.value)
  }

  /**
   * Which call is granted, from the history alone: the other checks pass, every window is open, and for
   * every limited object its occurrences times the consumptions so far is below its limit.
   */
  lemma GrantedWhen(snap: Snapshot, leaves: seq<UsageBackedStrategy>, cs: seq<Call>, c: Call)
    requires Unused(snap) && forall o :: o in leaves <==> o in snap
    ensures Consumes(RunOf(snap, leaves, cs), leaves, c) <==>
            && c.otherChecks
            && forall o :: o in leaves ==>
                 && Open(o, c.now)
                 && (Limit(o.kind).Some? ==> Count(leaves, o) * Consumptions(snap, leaves, cs, c.h) < Limit(o.kind).value)
  {
    var now := RunOf(snap, leaves, cs);
    KeysStay(snap, leaves, cs);
    forall o | o in leaves
      ensures UsesIn(now[o], c.h) == Count(leaves, o) * Consumptions(snap, leaves, cs, c.h)
    {
      UsesCount(snap, leaves, cs, o, c.h);
    }
  }

  /**
   * Consumptions of a token never exceed the least limit in the tree, divided by how often the limited
   * object occurs: the last one still found room.
   */
  lemma {:induction false} ConsumptionsBelowLimit(snap: Snapshot, leaves: seq<UsageBackedStrategy>, cs: seq<Call>,
                                                  o: UsageBackedStrategy, h: string)
    requires Unused(snap) && (forall p :: p in leaves <==> p in snap) && o in leaves && Limit(o.kind).Some?
    ensures var c := Consumptions(snap, leaves, cs, h);
            c > 0 ==> Count(leaves, o) * (c - 1) < Limit(o.kind).value
  {
    if cs != [] {
      var init, last := cs[..|cs| - 1], cs[|cs| - 1];
      ConsumptionsBelowLimit(snap, leaves, init, o, h);
      GrantedWhen(snap, leaves, init, last);
    }
  }

  /** So grants of a token never exceed any limit in the tree, however the tree is nested and whatever it shares. */
  lemma GrantsNeverExceedLimit(s: Strategy, snap: Snapshot, cs: seq<Call>, o: UsageBackedStrategy, h: string)
    requires snap.Keys == Objects(s) && Unused(snap) && o in Leaves(s) && Limit(o.kind).Some?
    ensures Grants(snap, Leaves(s), cs, h) <= if Limit(o.kind).value > 0 then Limit(o.kind).value else 0
  {
    var leaves := Leaves(s);
    assert forall p :: p in leaves <==> p in Objects(s);
    GrantsAreConsumptions(snap, leaves, cs, h);
    ConsumptionsBelowLimit(snap, leaves, cs, o, h);
    var c := Consumptions(snap, leaves, cs, h);
    CountPositive(leaves, o);
    if c > 0 { AtLeastOnce(Count(leaves, o), c - 1); }
  }

  lemma AtLeastOnce(m: nat, c: nat)
    requires m >= 1
    ensures c <= m * c
  {
  }
}
