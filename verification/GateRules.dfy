/** The gate server's challenges, nonces and sessions: what each handler does, one at a time. */
module GateRules {
  import opened Prelude

  const KEEP_AFTER_EXPIRY := 3600000

  datatype Entry = Entry(resource: string, expiresAt: int, requester: string, createdAt: int, usedAt: Option<int>)

  datatype Session = Session(validUntil: int, holder: string)

  datatype Store = Store(challenges: map<string, Entry>, sessions: map<string, Session>, usedNonces: set<string>)

  datatype Config = Config(challengeExpiry: int, sessionExpiry: int)

  /** memory, and what the last successful save left in storage. */
  datatype Server = Server(memory: Store, disk: Store)

  const EmptyStore := Store(map[], map[], {})

  /**
   * What happens to the server. readable: the parameters parse and are acceptable. valid: the outcome of
   * verifying the proof. now, later, last: the clock readings the handler makes. saved: whether each save succeeds.
   */
  datatype Event =
    | Request(resource: string, sender: string, readable: bool, nonce: string, now: int, later: int, saved: bool)
    | Proof(nonce: string, sender: string, readable: bool, valid: bool, holder: string, token: string,
            now: int, later: int, last: int, saved: bool, savedSession: bool)
    | Check(token: string, now: int)
    | Sweep(now: int)
    | Restart

  /** A denial's wording is left out: it may differ with what is still remembered. */
  datatype Answer =
    | Challenge(nonce: string, resource: string, expiresAt: int)
    | Granted(resource: string, token: string, validUntil: int)
    | Denied
    | Alive(yes: bool)
    | Silent

  function Save(s: Server, ok: bool): Server { if ok then s.(disk := s.memory) else s }

  function AfterRequest(cfg: Config, s: Server, e: Event): (Server, Answer)
    requires e.Request?
  {
    if !e.readable then (s, Denied)
    else
      var entry := Entry(e.resource, e.now + cfg.challengeExpiry, e.sender, e.later, None);
      var s' := s.(memory := s.memory.(challenges := s.memory.challenges[e.nonce := entry]));
      (Save(s', e.saved), if e.saved then Challenge(e.nonce, e.resource, entry.expiresAt) else Denied)
  }

  /** The proof is looked at: its challenge is known, unused and unexpired. */
  predicate Considered(m: Store, e: Event)
    requires e.Proof?
  {
    e.readable && e.nonce in m.challenges && e.nonce !in m.usedNonces && e.now <= m.challenges[e.nonce].expiresAt
  }

  function Marked(m: Store, nonce: string, at: int): Store
    requires nonce in m.challenges
  {
    m.(usedNonces := m.usedNonces + {nonce}, challenges := m.challenges[nonce := m.challenges[nonce].(usedAt := Some(at))])
  }

  function AfterProof(cfg: Config, s: Server, e: Event): (Server, Answer)
    requires e.Proof?
  {
    if !Considered(s.memory, e) then (s, Denied)
    else
      var marked := Save(s.(memory := Marked(s.memory, e.nonce, e.later)), e.saved);
      if !e.saved || !e.valid then (marked, Denied)
      else
        var session := Session(e.last + cfg.sessionExpiry, if e.holder != "" then e.holder else e.sender);
        var granted := marked.(memory := marked.memory.(sessions := marked.memory.sessions[e.token := session]));
        (Save(granted, e.savedSession),
         if e.savedSession then Granted(s.memory.challenges[e.nonce].resource, e.token, session.validUntil) else Denied)
  }

  function AfterCheck(s: Server, e: Event): (Server, Answer)
    requires e.Check?
  {
    if e.token !in s.memory.sessions then (s, Alive(false))
    else if e.now > s.memory.sessions[e.token].validUntil then
      (s.(memory := s.memory.(sessions := s.memory.sessions - {e.token})), Alive(false))
    else (s, Alive(true))
  }

  function Stale(m: Store, now: int): (ns: set<string>)
    ensures forall n :: n in ns <==> n in m.challenges && now > m.challenges[n].expiresAt + KEEP_AFTER_EXPIRY
  {
    set n | n in m.challenges && now > m.challenges[n].expiresAt + KEEP_AFTER_EXPIRY
  }

  function Over(m: Store, now: int): (ts: set<string>)
    ensures forall t :: t in ts <==> t in m.sessions && now > m.sessions[t].validUntil
  {
    set t | t in m.sessions && now > m.sessions[t].validUntil
  }

  function Swept(m: Store, now: int): Store {
    Store(m.challenges - Stale(m, now), m.sessions - Over(m, now), m.usedNonces - Stale(m, now))
  }

  function Handle(cfg: Config, s: Server, e: Event): (Server, Answer) {
    match e
    case Request(_, _, _, _, _, _, _) => AfterRequest(cfg, s, e)
    case Proof(_, _, _, _, _, _, _, _, _, _, _) => AfterProof(cfg, s, e)
    case Check(_, _) => AfterCheck(s, e)
    case Sweep(now) => (s.(memory := Swept(s.memory, now)), Silent)
    case Restart => (s.(memory := s.disk), Silent)
  }

  // ----- what each event does, field by field -----

  /** A challenge is answered exactly when the request is readable and the save succeeds. */
  lemma RequestMeans(cfg: Config, s: Server, e: Event)
    requires e.Request?
    ensures var (s', answer) := Handle(cfg, s, e);
            && answer == (if e.readable && e.saved then Challenge(e.nonce, e.resource, e.now + cfg.challengeExpiry) else Denied)
            && s'.memory.sessions == s.memory.sessions && s'.memory.usedNonces == s.memory.usedNonces
            && s'.memory.challenges == (if e.readable then
                 s.memory.challenges[e.nonce := Entry(e.resource, e.now + cfg.challengeExpiry, e.sender, e.later, None)]
               else s.memory.challenges)
            && s'.disk == (if e.readable && e.saved then s'.memory else s.disk)
  {
  }

  /**
   * Access is granted exactly for readable parameters, a nonce known, unused and not past its expiry, a valid proof
   * and two saves that succeed. The nonce is used up whether or not the proof is valid; a session is added
   * exactly when it is valid and the nonce's use is on disk.
   */
  lemma ProofMeans(cfg: Config, s: Server, e: Event)
    requires e.Proof?
    ensures var (s', answer) := Handle(cfg, s, e);
            var m, m' := s.memory, s'.memory;
            var considered := e.readable && e.nonce in m.challenges && e.nonce !in m.usedNonces
                              && e.now <= m.challenges[e.nonce].expiresAt;
            && answer == (if considered && e.valid && e.saved && e.savedSession then
                            Granted(m.challenges[e.nonce].resource, e.token, e.last + cfg.sessionExpiry)
                          else Denied)
            && (!considered ==> s' == s)
            && (considered ==>
                  && m'.usedNonces == m.usedNonces + {e.nonce}
                  && m'.challenges == m.challenges[e.nonce := m.challenges[e.nonce].(usedAt := Some(e.later))])
            && m'.sessions == (if considered && e.valid && e.saved then
                 m.sessions[e.token := Session(e.last + cfg.sessionExpiry, if e.holder == "" then e.sender else e.holder)]
               else m.sessions)
            && (considered && e.saved ==> e.nonce in s'.disk.usedNonces)
            && (considered && !e.saved ==> s'.disk == s.disk)
            && (answer.Granted? ==> s'.disk == m')
  {
  }

  /** What a restart finds is what was last saved. */
  lemma RestartMeans(cfg: Config, s: Server)
    ensures Handle(cfg, s, Restart).0 == Server(s.disk, s.disk)
  {
  }

  /** A session counts through its last millisecond; asking after it drops it, and only it. */
  lemma CheckMeans(cfg: Config, s: Server, e: Event)
    requires e.Check?
    ensures var (s', answer) := Handle(cfg, s, e);
            var sessions := s.memory.sessions;
            && answer == Alive(e.token in sessions && e.now <= sessions[e.token].validUntil)
            && s'.disk == s.disk
            && s'.memory == s.memory.(sessions := if e.token in sessions && e.now > sessions[e.token].validUntil
                                                  then sessions - {e.token} else sessions)
  {
  }

  /** A sweep drops challenges an hour past their expiry, with their nonces, and sessions past their end. */
  lemma SweepMeans(cfg: Config, s: Server, now: int)
    ensures var s' := Handle(cfg, s, Sweep(now)).0;
            var m, m' := s.memory, s'.memory;
            && s'.disk == s.disk
            && (forall n :: n in m'.challenges <==> n in m.challenges && now <= m.challenges[n].expiresAt + 3600000)
            && (forall n :: n in m'.challenges ==> m'.challenges[n] == m.challenges[n])
            && (forall n :: n in m'.usedNonces <==>
                  n in m.usedNonces && !(n in m.challenges && now > m.challenges[n].expiresAt + 3600000))
            && (forall t :: t in m'.sessions <==> t in m.sessions && now <= m.sessions[t].validUntil)
            && (forall t :: t in m'.sessions ==> m'.sessions[t] == m.sessions[t])
  {
  }
}
