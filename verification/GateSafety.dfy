/** Runs of the gate server: one session per nonce, and sweeping that no one can notice. */
module GateSafety {
  import opened Prelude
  import opened GateRules

  // ----- one session per nonce -----

  /** The server after the events. */
  function After(cfg: Config, s: Server, es: seq<Event>): Server {
    if es == [] then s else Handle(cfg, After(cfg, s, es[..|es| - 1]), es[|es| - 1]).0
  }

  /** A session is opened: access is granted, or the sessions in memory are others than before. */
  predicate Opening(cfg: Config, s: Server, e: Event) {
    e.Proof? && (Handle(cfg, s, e).1.Granted? || Handle(cfg, s, e).0.memory.sessions != s.memory.sessions)
  }

  /** The nonces for which sessions were opened, in order; a nonce once per session. */
  function Opened(cfg: Config, s: Server, es: seq<Event>): seq<string> {
    if es == [] then []
    else
      var init, e := es[..|es| - 1], es[|es| - 1];
      Opened(cfg, s, init) + if Opening(cfg, After(cfg, s, init), e) then [e.nonce] else []
  }

  /** An opened session's nonce was known and unused, and its use is now remembered, in memory and on disk. */
  lemma OpeningUses(cfg: Config, s: Server, e: Event)
    requires Opening(cfg, s, e)
    ensures e.nonce in s.memory.challenges && e.nonce !in s.memory.usedNonces
    ensures e.nonce in Handle(cfg, s, e).0.memory.usedNonces && e.nonce in Handle(cfg, s, e).0.disk.usedNonces
  {
    ProofMeans(cfg, s, e);
  }

  /** Every challenge has a nonce never issued before. */
  ghost predicate FreshNonces(es: seq<Event>) {
    forall i, j :: 0 <= i < j < |es| && es[i].Request? && es[j].Request? ==> es[i].nonce != es[j].nonce
  }

  ghost predicate Issued(es: seq<Event>, n: string) { exists i :: 0 <= i < |es| && es[i].Request? && es[i].nonce == n }

  /** A nonce that opened a session is used or forgotten, in memory and on disk; a remembered nonce was issued. */
  ghost predicate Inv(m: Store, es: seq<Event>, granted: seq<string>) {
    && (forall n :: n in granted ==> n !in m.challenges || n in m.usedNonces)
    && (forall n :: n in m.challenges ==> Issued(es, n))
  }

  lemma {:induction false} NoncesStayUsed(cfg: Config, es: seq<Event>)
    requires FreshNonces(es)
    ensures var s := After(cfg, Server(EmptyStore, EmptyStore), es);
            var granted := Opened(cfg, Server(EmptyStore, EmptyStore), es);
            && Distinct(granted) && (forall n :: n in granted ==> Issued(es, n))
            && Inv(s.memory, es, granted) && Inv(s.disk, es, granted)
  {
    if es != [] {
      var init, e := es[..|es| - 1], es[|es| - 1];
      var start := Server(EmptyStore, EmptyStore);
      assert forall i :: 0 <= i < |init| ==> init[i] == es[i];
      NoncesStayUsed(cfg, init);
      assert forall n :: Issued(init, n) ==> Issued(es, n);
      assert e.Request? ==> es[|es| - 1].nonce == e.nonce && !Issued(init, e.nonce);
      StepKeeps(cfg, After(cfg, start, init), e, init, es, Opened(cfg, start, init));
    }
  }

  lemma StepKeeps(cfg: Config, s: Server, e: Event, before: seq<Event>, es: seq<Event>, granted: seq<string>)
    requires es == before + [e] && Distinct(granted) && (forall n :: n in granted ==> Issued(before, n))
    requires forall n :: Issued(before, n) ==> Issued(es, n)
    requires e.Request? ==> !Issued(before, e.nonce)
    requires Inv(s.memory, before, granted) && Inv(s.disk, before, granted)
    ensures var s' := Handle(cfg, s, e).0;
            var granted' := granted + if Opening(cfg, s, e) then [e.nonce] else [];
            && Distinct(granted') && (forall n :: n in granted' ==> Issued(es, n))
            && Inv(s'.memory, es, granted') && Inv(s'.disk, es, granted')
  {
    var s' := Handle(cfg, s, e).0;
    if e.Request? {
      assert es[|before|] == e;
      assert Issued(es, e.nonce);
    }
    if Opening(cfg, s, e) {
      OpeningUses(cfg, s, e);
      assert e.nonce !in granted;
    }
  }

  /**
   * A nonce opens at most one session over any run from an empty server: proofs repeated at will, saves
   * that fail, sweeps and restarts anywhere, whatever the clock says, as long as nonces are fresh.
   */
  lemma OneSessionPerNonce(cfg: Config, es: seq<Event>)
    requires FreshNonces(es)
    ensures Distinct(Opened(cfg, Server(EmptyStore, EmptyStore), es))
  {
    NoncesStayUsed(cfg, es);
  }

  /** A run goes on with one event more. */
  lemma AfterOneMore(cfg: Config, s: Server, es: seq<Event>, e: Event)
    ensures After(cfg, s, []) == s && After(cfg, s, es + [e]) == Handle(cfg, After(cfg, s, es), e).0
    ensures Opened(cfg, s, []) == []
    ensures var before := After(cfg, s, es);
            Opened(cfg, s, es + [e])
            == Opened(cfg, s, es) + if e.Proof? && (Handle(cfg, before, e).1.Granted?
                                                    || Handle(cfg, before, e).0.memory.sessions != before.memory.sessions)
                                    then [e.nonce] else []
  {
    assert (es + [e])[..|es|] == es;
  }

  /** For instance: a challenge answered and its proof in time open one session; their nonces count as fresh. */
  lemma ChallengeAndProof(cfg: Config, request: Event, proof: Event, es: seq<Event>)
    requires request.Request? && request.readable && request.saved
    requires proof.Proof? && proof.nonce == request.nonce && proof.now <= request.now + cfg.challengeExpiry
    requires proof.readable && proof.valid && proof.saved && proof.savedSession
    requires |es| == 2 && es[0] == request && es[1] == proof
    ensures FreshNonces(es) && Opened(cfg, Server(EmptyStore, EmptyStore), es) == [request.nonce]
  {
    var start := Server(EmptyStore, EmptyStore);
    RequestMeans(cfg, start, request);
    ProofMeans(cfg, Handle(cfg, start, request).0, proof);
    var init := es[..1];
    var none := init[..0];
    assert none == [] && init == none + [request] && es == init + [proof];
    AfterOneMore(cfg, start, none, request);
    AfterOneMore(cfg, start, init, proof);
  }

  // ----- an answered challenge can be redeemed -----

  /** The challenge stands, unused, in memory and on disk. */
  ghost predicate Open(m: Store, nonce: string, resource: string, expiresAt: int) {
    && nonce in m.challenges && nonce !in m.usedNonces
    && m.challenges[nonce].expiresAt == expiresAt && m.challenges[nonce].resource == resource
  }

  /** Nothing here answers the challenge, issues it again, or sweeps when it is long over. */
  ghost predicate LeavesOpen(e: Event, nonce: string, expiresAt: int) {
    match e
    case Request(_, _, _, n, _, _, _) => n != nonce
    case Proof(n, _, _, _, _, _, _, _, _, _, _) => n != nonce
    case Sweep(now) => now <= expiresAt + 3600000
    case _ => true
  }

  /** Restarts, session checks and sweeps up to an hour after expiry are no obstacle. */
  lemma Harmless(nonce: string, expiresAt: int, token: string, now: int)
    ensures LeavesOpen(Restart, nonce, expiresAt) && LeavesOpen(Check(token, now), nonce, expiresAt)
    ensures LeavesOpen(Sweep(expiresAt + 3600000), nonce, expiresAt)
  {
  }

  lemma StepStaysOpen(cfg: Config, s: Server, e: Event, nonce: string, resource: string, expiresAt: int)
    requires Open(s.memory, nonce, resource, expiresAt) && Open(s.disk, nonce, resource, expiresAt)
    requires LeavesOpen(e, nonce, expiresAt)
    ensures var s' := Handle(cfg, s, e).0;
            Open(s'.memory, nonce, resource, expiresAt) && Open(s'.disk, nonce, resource, expiresAt)
  {
  }

  lemma {:induction false} StaysOpen(cfg: Config, s: Server, es: seq<Event>, nonce: string, resource: string, expiresAt: int)
    requires Open(s.memory, nonce, resource, expiresAt) && Open(s.disk, nonce, resource, expiresAt)
    requires forall i :: 0 <= i < |es| ==> LeavesOpen(es[i], nonce, expiresAt)
    ensures Open(After(cfg, s, es).memory, nonce, resource, expiresAt) && Open(After(cfg, s, es).disk, nonce, resource, expiresAt)
  {
    if es != [] {
      var init := es[..|es| - 1];
      assert forall i :: 0 <= i < |init| ==> init[i] == es[i];
      StaysOpen(cfg, s, init, nonce, resource, expiresAt);
      StepStaysOpen(cfg, After(cfg, s, init), es[|es| - 1], nonce, resource, expiresAt);
    }
  }

  /**
   * Once a challenge was answered, its first valid proof in time is granted the resource asked for, whatever
   * else was requested, proved, swept in time or restarted in between, provided the gate can save.
   */
  lemma ChallengeRedeemable(cfg: Config, s: Server, request: Event, es: seq<Event>, proof: Event)
    requires request.Request? && Handle(cfg, s, request).1.Challenge? && request.nonce !in s.memory.usedNonces
    requires forall i :: 0 <= i < |es| ==> LeavesOpen(es[i], request.nonce, request.now + cfg.challengeExpiry)
    requires proof.Proof? && proof.nonce == request.nonce && proof.now <= request.now + cfg.challengeExpiry
    requires proof.readable && proof.valid && proof.saved && proof.savedSession
    ensures Handle(cfg, After(cfg, Handle(cfg, s, request).0, es), proof).1
            == Granted(request.resource, proof.token, proof.last + cfg.sessionExpiry)
  {
    RequestMeans(cfg, s, request);
    var s' := Handle(cfg, s, request).0;
    StaysOpen(cfg, s', es, request.nonce, request.resource, request.now + cfg.challengeExpiry);
    ProofMeans(cfg, After(cfg, s', es), proof);
  }

  // ----- sweeping is invisible -----

  /** The clock readings an event makes are in order, from now on; the result is the last one. */
  function Until(now: int, e: Event): int {
    match e
    case Request(_, _, _, _, _, later, _) => later
    case Proof(_, _, _, _, _, _, _, _, last, _, _) => last
    case Check(_, at) => at
    case Sweep(at) => at
    case Restart => now
  }

  predicate InOrder(now: int, e: Event) {
    match e
    case Request(_, _, _, _, at, later, _) => now <= at <= later
    case Proof(_, _, _, _, _, _, at, later, last, _, _) => now <= at <= later <= last
    case Check(_, at) => now <= at
    case Sweep(at) => now <= at
    case Restart => true
  }

  ghost predicate Monotone(now: int, es: seq<Event>)
    decreases es
  {
    es != [] ==> InOrder(now, es[0]) && Monotone(Until(now, es[0]), es[1..])
  }

  /** Nonces are new with respect to those known at the start. */
  ghost predicate FreshFrom(known: set<string>, es: seq<Event>)
    decreases es
  {
    es != [] ==>
      if es[0].Request? then es[0].nonce !in known && FreshFrom(known + {es[0].nonce}, es[1..])
      else FreshFrom(known, es[1..])
  }

  /** The answers given, sweeps giving none. */
  function Answers(cfg: Config, s: Server, es: seq<Event>): seq<Answer>
    decreases es
  {
    if es == [] then []
    else
      var (s', answer) := Handle(cfg, s, es[0]);
      (if es[0].Sweep? then [] else [answer]) + Answers(cfg, s', es[1..])
  }

  /** One event after the other: each gives its answer, a sweep none; events may share one clock reading. */
  lemma AnswersFirst(cfg: Config, s: Server, e: Event, es: seq<Event>, now: int)
    ensures Answers(cfg, s, [e] + es) == (if e.Sweep? then [] else [Handle(cfg, s, e).1]) + Answers(cfg, Handle(cfg, s, e).0, es)
    ensures Answers(cfg, s, []) == []
    ensures InOrder(now, Restart) && InOrder(now, Sweep(now)) && InOrder(now, Check("", now))
    ensures InOrder(now, Request("", "", true, "", now, now, true))
    ensures InOrder(now, Proof("", "", true, true, "", "", now, now, now, true, true))
  {
    assert ([e] + es)[1..] == es;
  }

  function WithoutSweeps(es: seq<Event>): seq<Event> {
    if es == [] then [] else (if es[0].Sweep? then [] else [es[0]]) + WithoutSweeps(es[1..])
  }

  /** b remembers what a does, except what is long over by now. */
  ghost predicate Forgets(a: Store, b: Store, now: int) {
    && b.challenges.Keys <= a.challenges.Keys && b.usedNonces <= a.usedNonces && b.sessions.Keys <= a.sessions.Keys
    && (forall n :: n in b.challenges ==> b.challenges[n] == a.challenges[n] && (n in a.usedNonces ==> n in b.usedNonces))
    && (forall n :: n in a.challenges && n !in b.challenges ==> now > a.challenges[n].expiresAt)
    && (forall t :: t in b.sessions ==> b.sessions[t] == a.sessions[t])
    && (forall t :: t in a.sessions && t !in b.sessions ==> now > a.sessions[t].validUntil)
  }

  ghost predicate KnownOnly(m: Store, known: set<string>) { m.challenges.Keys <= known && m.usedNonces <= known }

  ghost predicate Related(a: Server, b: Server, now: int, known: set<string>) {
    && Forgets(a.memory, b.memory, now) && Forgets(a.disk, b.disk, now)
    && KnownOnly(a.memory, known) && KnownOnly(a.disk, known)
  }

  /** A sweep of one side only. */
  lemma SweepForgets(a: Store, b: Store, now: int, at: int)
    requires Forgets(a, b, now) && now <= at
    ensures Forgets(a, Swept(b, at), at)
  {
  }

  lemma RequestAgrees(cfg: Config, a: Server, b: Server, now: int, known: set<string>, e: Event)
    requires Related(a, b, now, known) && InOrder(now, e) && e.Request? && e.nonce !in known
    ensures Handle(cfg, a, e).1 == Handle(cfg, b, e).1
    ensures Related(Handle(cfg, a, e).0, Handle(cfg, b, e).0, Until(now, e), known + {e.nonce})
  {
  }

  lemma ProofAgrees(cfg: Config, a: Server, b: Server, now: int, known: set<string>, e: Event)
    requires Related(a, b, now, known) && InOrder(now, e) && e.Proof?
    ensures Handle(cfg, a, e).1 == Handle(cfg, b, e).1
    ensures Related(Handle(cfg, a, e).0, Handle(cfg, b, e).0, Until(now, e), known)
  {
    assert Considered(a.memory, e) <==> Considered(b.memory, e);
  }

  lemma StepAgrees(cfg: Config, a: Server, b: Server, now: int, known: set<string>, e: Event)
    requires Related(a, b, now, known) && InOrder(now, e) && !e.Sweep? && (e.Request? ==> e.nonce !in known)
    ensures Handle(cfg, a, e).1 == Handle(cfg, b, e).1
    ensures Related(Handle(cfg, a, e).0, Handle(cfg, b, e).0, Until(now, e), if e.Request? then known + {e.nonce} else known)
  {
    if e.Request? {
      RequestAgrees(cfg, a, b, now, known, e);
    } else if e.Proof? {
      ProofAgrees(cfg, a, b, now, known, e);
    }
  }

  lemma {:induction false} SweepsUnnoticed(cfg: Config, a: Server, b: Server, now: int, known: set<string>, es: seq<Event>)
    requires Related(a, b, now, known) && Monotone(now, es) && FreshFrom(known, es)
    ensures Answers(cfg, a, WithoutSweeps(es)) == Answers(cfg, b, es)
    decreases es
  {
    if es != [] {
      var e := es[0];
      if e.Sweep? {
        SweepForgets(a.memory, b.memory, now, e.now);
        assert WithoutSweeps(es) == WithoutSweeps(es[1..]);
        SweepsUnnoticed(cfg, a, Handle(cfg, b, e).0, e.now, known, es[1..]);
        assert Answers(cfg, b, es) == Answers(cfg, Handle(cfg, b, e).0, es[1..]);
      } else {
        StepAgrees(cfg, a, b, now, known, e);
        SweepsUnnoticed(cfg, Handle(cfg, a, e).0, Handle(cfg, b, e).0, Until(now, e),
                        if e.Request? then known + {e.nonce} else known, es[1..]);
        assert WithoutSweeps(es) == [e] + WithoutSweeps(es[1..]);
        assert WithoutSweeps(es)[1..] == WithoutSweeps(es[1..]);
      }
    }
  }

  /**
   * With a monotone clock and fresh nonces, cleanups inserted anywhere in any run change no answer: no
   * challenge, grant or denial, and no answer about a session, then or later, restarts included.
   */
  lemma SweepingIsInvisible(cfg: Config, s: Server, now: int, known: set<string>, es: seq<Event>)
    requires KnownOnly(s.memory, known) && KnownOnly(s.disk, known)
    requires Monotone(now, es) && FreshFrom(known, es)
    ensures Answers(cfg, s, es) == Answers(cfg, s, WithoutSweeps(es))
  {
    SweepsUnnoticed(cfg, s, s, now, known, es);
  }
}
