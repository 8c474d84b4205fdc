/** Usage-limit strategies, their composition, and the gate that consumes them. */
module Strategies {
  import opened Prelude

  /** Single use, a maximum number of uses, or a wall-clock window (a bound of 0 is no bound). */
  datatype Kind = SingleUse | MultiUse(maxUses: int) | Window(startsAt: Option<int>, endsAt: Option<int>)

  type Usage = map<string, nat>

  function UsesIn(usage: Usage, h: string): nat { if h in usage then usage[h] else 0 }

  predicate Bound(b: Option<int>) { b.Some? && b.value != 0 }

  /** What validateUse decides for a token with that many uses. */
  predicate Allows(kind: Kind, uses: nat, now: int) {
    match kind
    case SingleUse => !(uses > 0)
    case MultiUse(maxUses) => !(uses >= maxUses)
    case Window(startsAt, endsAt) => !(Bound(startsAt) && now < startsAt.value) && !(Bound(endsAt) && now > endsAt.value)
  }

  /** Single use: never used before. A maximum: used fewer times. A window: not before its start, not after its end, 0 being no bound. */
  lemma AllowsMeans(kind: Kind, uses: nat, now: int)
    ensures kind.SingleUse? ==> (Allows(kind, uses, now) <==> uses == 0)
    ensures kind.MultiUse? ==> (Allows(kind, uses, now) <==> uses < kind.maxUses)
    ensures kind.Window? ==>
      (Allows(kind, uses, now) <==>
         && (kind.startsAt.None? || kind.startsAt == Some(0) || kind.startsAt.value <= now)
         && (kind.endsAt.None? || kind.endsAt == Some(0) || now <= kind.endsAt.value))
  {
  }

  /** How often a token may be used in all, where that is limited. */
  function Limit(kind: Kind): Option<int> {
    match kind
    case SingleUse => Some(1)
    case MultiUse(maxUses) => Some(maxUses)
    case Window(_, _) => None
  }

  /** usage after n more uses of h. */
  function Bumped(usage: Usage, h: string, n: nat): Usage {
    if n == 0 then usage else usage[h := UsesIn(usage, h) + n]
  }

  class UsageBackedStrategy {
    const kind: Kind
    var usage: Usage

    constructor (kind: Kind)
      ensures this.kind == kind && usage == map[]
    {
      this.kind, this.usage := kind, map[];
    }

    method Validate(h: string, now: int) returns (valid: bool)
      ensures valid == Allows(kind, UsesIn(usage, h), now)
      ensures kind.SingleUse? ==> (valid <==> h !in usage || usage[h] == 0)
      ensures kind.MultiUse? ==> (valid <==> (if h in usage then usage[h] else 0) < kind.maxUses)
    {
      match kind {
        case SingleUse => valid := !(UsesIn(usage, h) > 0);
        case MultiUse(maxUses) => valid := !(UsesIn(usage, h) >= maxUses);
        case Window(startsAt, endsAt) =>
          if Bound(startsAt) && now < startsAt.value { return false; }
          if Bound(endsAt) && now > endsAt.value { return false; }
          return true;
      }
    }

    method Consume(h: string)
      modifies this`usage
      ensures usage == Bumped(old(usage), h, 1)
      ensures h in usage && usage[h] == (if h in old(usage) then old(usage)[h] else 0) + 1
      ensures forall g :: g in usage && g != h <==> g in old(usage) && g != h
      ensures forall g :: g in old(usage) && g != h ==> usage[g] == old(usage)[g]
    {
      usage := usage[h := UsesIn(usage, h) + 1];
    }
  }

  /** A strategy object, or a composition: parts may be nested and may share objects. */
  datatype Strategy = Leaf(leaf: UsageBackedStrategy) | AllOf(parts: seq<Strategy>)

  /** The strategy objects in order, each as often as it occurs. */
  function Leaves(s: Strategy): seq<UsageBackedStrategy> {
    match s
    case Leaf(o) => [o]
    case AllOf(parts) => LeavesOf(parts)
  }

  function LeavesOf(parts: seq<Strategy>): seq<UsageBackedStrategy> {
    if parts == [] then [] else LeavesOf(parts[..|parts| - 1]) + Leaves(parts[|parts| - 1])
  }

  function Objects(s: Strategy): set<UsageBackedStrategy> { set o | o in Leaves(s) }

  lemma {:induction false} PartLeaves(parts: seq<Strategy>, i: nat)
    requires i < |parts|
    ensures forall o :: o in Leaves(parts[i]) ==> o in LeavesOf(parts)
    ensures forall o :: o in LeavesOf(parts[..i]) ==> o in LeavesOf(parts)
  {
    var n := |parts| - 1;
    if i < n {
      assert parts[..n][i] == parts[i] && parts[..n][..i] == parts[..i];
      PartLeaves(parts[..n], i);
    }
  }

  /** The usage of strategy objects. */
  type Snapshot = map<UsageBackedStrategy, Usage>

  ghost function SnapshotOf(objects: set<UsageBackedStrategy>): (r: Snapshot)
    reads objects
    ensures r.Keys == objects
  {
    map o | o in objects :: o.usage
  }

  ghost predicate AllowedIn(snap: Snapshot, leaves: seq<UsageBackedStrategy>, h: string, now: int) {
    forall o :: o in leaves && o in snap ==> Allows(o.kind, UsesIn(snap[o], h), now)
  }

  lemma AllowedConcat(snap: Snapshot, a: seq<UsageBackedStrategy>, b: seq<UsageBackedStrategy>, h: string, now: int)
    ensures AllowedIn(snap, a + b, h, now) <==> AllowedIn(snap, a, h, now) && AllowedIn(snap, b, h, now)
  {
    if AllowedIn(snap, a + b, h, now) {
      assert forall o :: o in a ==> o in a + b;
      assert forall o :: o in b ==> o in a + b;
    }
  }

  lemma LeavesSnoc(parts: seq<Strategy>, i: nat)
    requires i < |parts|
    ensures LeavesOf(parts[..i + 1]) == LeavesOf(parts[..i]) + Leaves(parts[i])
  {
    assert parts[..i + 1][..i] == parts[..i];
  }

  /** Valid exactly when every strategy object in the tree allows the use. */
  method Validate(s: Strategy, h: string, now: int, ghost objects: set<UsageBackedStrategy>) returns (valid: bool)
    requires Objects(s) <= objects
    ensures valid <==> AllowedIn(SnapshotOf(objects), Leaves(s), h, now)
    ensures SnapshotOf(objects) == old(SnapshotOf(objects))
    decreases s
  {
    match s {
      case Leaf(o) =>
        assert o in Leaves(s);
        valid := o.Validate(h, now);
      case AllOf(parts) => valid := ValidateAll(parts, h, now, objects);
    }
  }

  /** The loop of allOf: the first refusal decides. */
  method ValidateAll(parts: seq<Strategy>, h: string, now: int, ghost objects: set<UsageBackedStrategy>) returns (valid: bool)
    requires forall o :: o in LeavesOf(parts) ==> o in objects
    ensures valid <==> AllowedIn(SnapshotOf(objects), LeavesOf(parts), h, now)
    ensures SnapshotOf(objects) == old(SnapshotOf(objects))
    decreases parts
  {
    ghost var snap := SnapshotOf(objects);
    var i := 0;
    while i < |parts|
      invariant 0 <= i <= |parts|
      invariant SnapshotOf(objects) == snap
      invariant AllowedIn(snap, LeavesOf(parts[..i]), h, now)
    {
      PartLeaves(parts, i);
      LeavesSnoc(parts, i);
      AllowedConcat(snap, LeavesOf(parts[..i]), Leaves(parts[i]), h, now);
      valid := Validate(parts[i], h, now, objects);
      if !valid { return false; }
      i := i + 1;
    }
    assert parts[..i] == parts;
    return true;
  }

  /** How often x occurs in s. */
  ghost function Count<T>(s: seq<T>, x: T): nat {
    if s == [] then 0 else Count(s[..|s| - 1], x) + if s[|s| - 1] == x then 1 else 0
  }

  lemma {:induction false} CountConcat<T>(a: seq<T>, b: seq<T>, x: T)
    ensures Count(a + b, x) == Count(a, x) + Count(b, x)
  {
    if b == [] {
      assert a + b == a;
    } else {
      assert (a + b)[..|a + b| - 1] == a + b[..|b| - 1];
      CountConcat(a, b[..|b| - 1], x);
    }
  }

  lemma {:induction false} CountPositive<T>(s: seq<T>, x: T)
    ensures Count(s, x) > 0 <==> x in s
  {
    if s != [] {
      CountPositive(s[..|s| - 1], x);
    }
  }

  ghost function Consumed(snap: Snapshot, leaves: seq<UsageBackedStrategy>, h: string): Snapshot {
    map o | o in snap :: Bumped(snap[o], h, Count(leaves, o))
  }

  lemma ConsumedAt(snap: Snapshot, leaves: seq<UsageBackedStrategy>, h: string, o: UsageBackedStrategy)
    requires o in snap
    ensures Consumed(snap, leaves, h)[o] == Bumped(snap[o], h, Count(leaves, o))
  {
  }

  lemma ConsumedTwiceAt(snap: Snapshot, a: seq<UsageBackedStrategy>, b: seq<UsageBackedStrategy>, h: string, o: UsageBackedStrategy)
    requires o in snap
    ensures Consumed(Consumed(snap, a, h), b, h)[o] == Consumed(snap, a + b, h)[o]
  {
    ConsumedAt(snap, a, h, o);
    ConsumedAt(Consumed(snap, a, h), b, h, o);
    ConsumedAt(snap, a + b, h, o);
    CountConcat(a, b, o);
    BumpedTwice(snap[o], h, Count(a, o), Count(b, o));
  }

  lemma ConsumedTwice(snap: Snapshot, a: seq<UsageBackedStrategy>, b: seq<UsageBackedStrategy>, h: string)
    ensures Consumed(Consumed(snap, a, h), b, h) == Consumed(snap, a + b, h)
  {
    forall o | o in snap ensures Consumed(Consumed(snap, a, h), b, h)[o] == Consumed(snap, a + b, h)[o] {
      ConsumedTwiceAt(snap, a, b, h, o);
    }
  }

  lemma BumpedTwice(usage: Usage, h: string, m: nat, n: nat)
    ensures Bumped(Bumped(usage, h, m), h, n) == Bumped(usage, h, m + n)
  {
  }

  lemma NoneConsumed(snap: Snapshot, h: string)
    ensures Consumed(snap, [], h) == snap
  {
  }

  /** Consuming one object. */
  lemma ConsumedOne(before: Snapshot, after: Snapshot, o: UsageBackedStrategy, h: string)
    requires o in before && after == before[o := Bumped(before[o], h, 1)]
    ensures after == Consumed(before, [o], h)
  {
    forall p | p in before ensures after[p] == Consumed(before, [o], h)[p] {
      assert [o][..0] == [];
      assert Count([o], p) == if p == o then 1 else 0;
    }
  }

  /** Every object is consumed once per occurrence, shared objects several times. */
  method Consume(s: Strategy, h: string, ghost objects: set<UsageBackedStrategy>)
    requires Objects(s) <= objects
    modifies objects
    ensures SnapshotOf(objects) == Consumed(old(SnapshotOf(objects)), Leaves(s), h)
    decreases s
  {
    ghost var before := SnapshotOf(objects);
    match s {
      case Leaf(o) =>
        assert o in Leaves(s);
        o.Consume(h);
        assert SnapshotOf(objects) == before[o := Bumped(before[o], h, 1)];
        ConsumedOne(before, SnapshotOf(objects), o, h);
      case AllOf(parts) => ConsumeAll(parts, h, objects);
    }
  }

  /** Every part of a composition is consumed, in order. */
  method ConsumeAll(parts: seq<Strategy>, h: string, ghost objects: set<UsageBackedStrategy>)
    requires forall o :: o in LeavesOf(parts) ==> o in objects
    modifies objects
    ensures SnapshotOf(objects) == Consumed(old(SnapshotOf(objects)), LeavesOf(parts), h)
    decreases parts
  {
    ghost var before := SnapshotOf(objects);
    var i := 0;
    NoneConsumed(before, h);
    while i < |parts|
      invariant 0 <= i <= |parts|
      invariant SnapshotOf(objects) == Consumed(before, LeavesOf(parts[..i]), h)
    {
      PartLeaves(parts, i);
      LeavesSnoc(parts, i);
      ConsumedTwice(before, LeavesOf(parts[..i]), Leaves(parts[i]), h);
      Consume(parts[i], h, objects);
      i := i + 1;
    }
    assert parts[..i] == parts;
  }

  // ----- the gate -----

  datatype Outcome = Granted | Refused | Broken

  /**
   * One call of grantAccess for the token of that hash. otherChecks: the basic, policy and forge checks and
   * the record of the attempt all go through. saved: the state is saved after the token was consumed.
   */
  datatype Call = Call(h: string, now: int, otherChecks: bool, saved: bool)

  /** The token is consumed: everything allows it. */
  ghost predicate Consumes(snap: Snapshot, leaves: seq<UsageBackedStrategy>, c: Call) {
    c.otherChecks && AllowedIn(snap, leaves, c.h, c.now)
  }

  ghost function After(snap: Snapshot, leaves: seq<UsageBackedStrategy>, c: Call): Snapshot {
    if Consumes(snap, leaves, c) then Consumed(snap, leaves, c.h) else snap
  }

  class Gate {
    const strategy: Strategy
    var redemptions: map<string, int>

    constructor (strategy: Strategy)
      ensures this.strategy == strategy && redemptions == map[]
    {
      this.strategy, this.redemptions := strategy, map[];
    }

    /** grantAccess: validate, consume, record the redemption, save. */
    method GrantAccess(c: Call) returns (outcome: Outcome)
      modifies this`redemptions, Objects(strategy)
      ensures SnapshotOf(Objects(strategy)) == After(old(SnapshotOf(Objects(strategy))), Leaves(strategy), c)
      ensures outcome == Granted <==> old(Consumes(SnapshotOf(Objects(strategy)), Leaves(strategy), c)) && c.saved
      ensures outcome == Refused <==> !old(Consumes(SnapshotOf(Objects(strategy)), Leaves(strategy), c))
      ensures redemptions == if outcome == Refused then old(redemptions) else old(redemptions)[c.h := c.now]
    {
      ghost var before := SnapshotOf(Objects(strategy));
      var valid := Validate(strategy, c.h, c.now, Objects(strategy));
      if !valid || !c.otherChecks { return Refused; }
      Consume(strategy, c.h, Objects(strategy));
      redemptions := redemptions[c.h := c.now];
      return if c.saved then Granted else Broken;
    }
  }
}
