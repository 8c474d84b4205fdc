/**
 * runExclusive: a chain of promises that runs its callbacks one at a time in arrival order.
 * locks[i] is the value of spendLock when call i arrives; results[i] is call i's own promise.
 * The chain is shown to behave as a plain first-in-first-out queue with one place in front.
 */
module PromiseLock {
  import opened Prelude

  datatype Promise = Pending | Fulfilled | Rejected {
    predicate Settled() { this != Pending }
  }

  /** started[i] says that call i's callback has begun. locks has one entry more than results: the next caller's. */
  datatype Chain = Chain(locks: seq<Promise>, results: seq<Promise>, started: seq<bool>)

  const Initial := Chain([Fulfilled], [], [])

  datatype Step =
    | Call                       // a caller chains its callback on the lock and leaves a new lock behind it
    | Begin(i: nat)              // the lock promise of call i has settled, either way: fn starts
    | Finish(i: nat, ok: bool)   // fn resolves or rejects
    | Advance(i: nat)            // the swallowing handler settles the next lock

  predicate Enabled(c: Chain, s: Step) {
    && |c.locks| == |c.results| + 1 == |c.started| + 1
    && match s
       case Call => true
       case Begin(i) => i < |c.results| && c.locks[i].Settled() && !c.started[i]
       case Finish(i, ok) => i < |c.results| && c.started[i] && c.results[i] == Pending
       case Advance(i) => i < |c.results| && c.results[i].Settled() && c.locks[i + 1] == Pending
  }

  function Next(c: Chain, s: Step): Chain
    requires Enabled(c, s)
  {
    match s
    case Call => Chain(c.locks + [Pending], c.results + [Pending], c.started + [false])
    case Begin(i) => c.(started := c.started[i := true])
    case Finish(i, ok) => c.(results := c.results[i := if ok then Fulfilled else Rejected])
    case Advance(i) => c.(locks := c.locks[i + 1 := Fulfilled])
  }

  /** The first `front` calls are over, the one behind them may be running, the others have not begun. */
  ghost predicate Inv(c: Chain, front: nat) {
    && |c.locks| == |c.results| + 1 == |c.started| + 1
    && front <= |c.results|
    && c.locks[0] == Fulfilled
    && (forall i :: 0 <= i < |c.locks| ==> c.locks[i] != Rejected)
    && (forall i :: 0 <= i < front ==> c.started[i] && c.results[i].Settled())
    && (forall i :: front <= i < |c.results| ==> c.results[i] == Pending)
    && (forall i :: front < i < |c.results| ==> !c.started[i])
    && (forall i :: front < i < |c.locks| ==> c.locks[i] == Pending)
    && (forall i :: 0 <= i < front ==> c.locks[i] == Fulfilled)
    && (front < |c.results| && c.started[front] ==> c.locks[front] == Fulfilled)
  }

  // ----- the queue it implements -----

  /** done calls are over; busy says whether call number `done` is running; arrived calls in all. */
  datatype Queue = Queue(done: nat, busy: bool, arrived: nat)

  ghost predicate QueueStep(q: Queue, q': Queue) {
    || q' == q
    || q' == q.(arrived := q.arrived + 1)
    || (!q.busy && q.done < q.arrived && q' == q.(busy := true))
    || (q.busy && q' == q.(busy := false, done := q.done + 1))
  }

  /** In a step of the queue at most one of these happens: a call arrives, the first unfinished one begins, it ends. */
  lemma QueueStepMeans(q: Queue, q': Queue)
    requires QueueStep(q, q')
    ensures q'.arrived > q.arrived ==> q'.arrived == q.arrived + 1 && q'.done == q.done && q'.busy == q.busy
    ensures q'.done != q.done ==> q'.done == q.done + 1 && q.busy && !q'.busy && q'.arrived == q.arrived
    ensures q'.busy && !q.busy ==> q.done < q.arrived && q'.done == q.done && q'.arrived == q.arrived
    ensures q'.arrived >= q.arrived && (q.busy && !q'.busy ==> q'.done == q.done + 1)
  {
  }

  ghost function Abstract(c: Chain, front: nat): Queue
    requires Inv(c, front)
  {
    Queue(front, front < |c.results| && c.started[front], |c.results|)
  }

  function FrontAfter(front: nat, s: Step): nat {
    if s.Finish? then front + 1 else front
  }

  /** Every step of the chain is a step of the queue: one call at a time, in arrival order. */
  lemma ChainRefinesQueue(c: Chain, s: Step, front: nat)
    requires Inv(c, front) && Enabled(c, s)
    ensures Inv(Next(c, s), FrontAfter(front, s))
    ensures QueueStep(Abstract(c, front), Abstract(Next(c, s), FrontAfter(front, s)))
    ensures s.Begin? || s.Finish? ==> s.i == front
  {
  }

  /** Whether earlier calls resolved or rejected, whoever is next gets its turn: at most one internal step away. */
  lemma RejectionNeverBlocks(c: Chain, front: nat)
    requires Inv(c, front) && front < |c.results| && !c.started[front]
    ensures Enabled(c, Begin(front))
            || (front > 0 && Enabled(c, Advance(front - 1)) && Enabled(Next(c, Advance(front - 1)), Begin(front)))
  {
    if front > 0 && c.locks[front] == Pending {
      assert c.results[front - 1].Settled();
    }
  }

  /** A caller can always line up, and a running callback can always settle, either way; then the next one can be let in. */
  lemma NothingBlocks(c: Chain, front: nat, ok: bool)
    requires Inv(c, front)
    ensures Enabled(c, Call) && |Next(c, Call).results| == |c.results| + 1
    ensures front < |c.results| && c.started[front] ==>
      && Enabled(c, Finish(front, ok)) && Next(c, Finish(front, ok)).results[front] == (if ok then Fulfilled else Rejected)
      && Enabled(Next(c, Finish(front, ok)), Advance(front))
  {
  }

  ghost predicate IsRun(cs: seq<Chain>, ss: seq<Step>) {
    && |cs| == |ss| + 1 && cs[0] == Initial
    && forall k :: 0 <= k < |ss| ==> Enabled(cs[k], ss[k]) && cs[k + 1] == Next(cs[k], ss[k])
  }

  /** A run goes on by any step that is enabled. */
  lemma ExtendRun(cs: seq<Chain>, ss: seq<Step>, s: Step)
    requires IsRun(cs, ss) && Enabled(cs[|ss|], s)
    ensures IsRun(cs + [Next(cs[|ss|], s)], ss + [s]) && IsRun([Initial], [])
  {
    var ds, ts := cs + [Next(cs[|ss|], s)], ss + [s];
    forall k | 0 <= k < |ts| ensures Enabled(ds[k], ts[k]) && ds[k + 1] == Next(ds[k], ts[k]) {
      if k < |ss| { assert ds[k] == cs[k] && ds[k + 1] == cs[k + 1] && ts[k] == ss[k]; }
    }
  }

  /** How many calls have finished along a run. */
  function Finished(ss: seq<Step>): nat {
    if ss == [] then 0 else Finished(ss[..|ss| - 1]) + if ss[|ss| - 1].Finish? then 1 else 0
  }

  lemma {:induction false} RunInv(cs: seq<Chain>, ss: seq<Step>)
    requires IsRun(cs, ss)
    ensures Inv(cs[|ss|], Finished(ss))
    decreases |ss|
  {
    if ss != [] {
      var n := |ss| - 1;
      RunInv(cs[..n + 1], ss[..n]);
      assert Enabled(cs[n], ss[n]) && cs[n + 1] == Next(cs[n], ss[n]);
      ChainRefinesQueue(cs[n], ss[n], Finished(ss[..n]));
    }
  }

  /** In every reachable state at most one callback is running, and it is the earliest unfinished one. */
  lemma MutualExclusion(cs: seq<Chain>, ss: seq<Step>, i: nat, j: nat)
    requires IsRun(cs, ss)
    requires var c := cs[|ss|]; i < |c.results| == |c.started| && j < |c.results|
    requires var c := cs[|ss|]; c.started[i] && c.results[i] == Pending && c.started[j]
    ensures j <= i && (cs[|ss|].results[j] == Pending ==> j == i)
  {
    RunInv(cs, ss);
  }
}
