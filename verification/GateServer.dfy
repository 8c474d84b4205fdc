/** The gate server's handlers over its mutable state. */
module GateServer {
  import opened Prelude
  import opened GateRules

  class GateServer {
    const cfg: Config
    var challenges: map<string, Entry>
    var sessions: map<string, Session>
    var usedNonces: set<string>
    var storage: Store

    constructor (cfg: Config, saved: Store)
      ensures this.cfg == cfg && S() == Server(saved, saved)
    {
      this.cfg, this.storage := cfg, saved;
      challenges, sessions, usedNonces := saved.challenges, saved.sessions, saved.usedNonces;
    }

    ghost function S(): Server
      reads this
    {
      Server(Store(challenges, sessions, usedNonces), storage)
    }

    method SaveState(ok: bool)
      modifies this`storage
      ensures S() == Save(old(S()), ok)
    {
      if ok { storage := Store(challenges, sessions, usedNonces); }
    }

    /** A challenge is answered only when it is in storage, under its nonce, with its expiry. */
    method HandleRequestAccess(e: Event) returns (answer: Answer)
      requires e.Request?
      modifies this
      ensures answer == if e.readable && e.saved then Challenge(e.nonce, e.resource, e.now + cfg.challengeExpiry) else Denied
      ensures usedNonces == old(usedNonces) && sessions == old(sessions)
      ensures challenges == if e.readable then
                old(challenges)[e.nonce := Entry(e.resource, e.now + cfg.challengeExpiry, e.sender, e.later, None)]
              else old(challenges)
      ensures storage == if e.readable && e.saved then Store(challenges, sessions, usedNonces) else old(storage)
      ensures (S(), answer) == Handle(cfg, old(S()), e)
    {
      if !e.readable { return Denied; }
      var expiresAt := e.now + cfg.challengeExpiry;
      challenges := challenges[e.nonce := Entry(e.resource, expiresAt, e.sender, e.later, None)];
      SaveState(e.saved);
      if !e.saved { return Denied; }
      return Challenge(e.nonce, e.resource, expiresAt);
    }

    /**
     * Access is granted exactly for readable parameters, a nonce that was known, unused and not past its expiry,
     * a valid proof and saves that succeed. A proof not looked at changes nothing; one that is uses up its nonce,
     * and adds one session exactly when it is valid and the nonce's use is saved.
     */
    method HandleProof(e: Event) returns (answer: Answer)
      requires e.Proof?
      modifies this
      ensures var looked := e.readable && e.nonce in old(challenges) && e.nonce !in old(usedNonces)
                            && e.now <= old(challenges)[e.nonce].expiresAt;
        && (answer.Granted? <==> looked && e.valid && e.saved && e.savedSession)
        && (!answer.Granted? ==> answer == Denied)
        && (answer.Granted? ==>
              && answer == Granted(old(challenges)[e.nonce].resource, e.token, e.last + cfg.sessionExpiry)
              && storage == Store(challenges, sessions, usedNonces))
        && (looked && e.saved && e.valid ==>
              && sessions.Keys == old(sessions).Keys + {e.token}
              && sessions[e.token].validUntil == e.last + cfg.sessionExpiry
              && sessions[e.token].holder == (if e.holder == "" then e.sender else e.holder)
              && (forall t :: t in old(sessions) && t != e.token ==> sessions[t] == old(sessions)[t])
              && e.nonce in storage.usedNonces)
        && (!(looked && e.saved && e.valid) ==> sessions == old(sessions))
        && usedNonces == old(usedNonces) + (if looked then {e.nonce} else {})
        && (looked ==>
              && e.nonce in challenges && challenges[e.nonce] == old(challenges)[e.nonce].(usedAt := Some(e.later))
              && challenges.Keys == old(challenges).Keys
              && forall n :: n in old(challenges) && n != e.nonce ==> challenges[n] == old(challenges)[n])
        && (!looked ==> challenges == old(challenges))
        && (!(looked && e.saved) ==> storage == old(storage))
      ensures (S(), answer) == Handle(cfg, old(S()), e)
    {
      if !e.readable { return Denied; }
      if e.nonce !in challenges { return Denied; }
      if e.nonce in usedNonces { return Denied; }
      var entry := challenges[e.nonce];
      if e.now > entry.expiresAt { return Denied; }
      usedNonces := usedNonces + {e.nonce};
      challenges := challenges[e.nonce := entry.(usedAt := Some(e.later))];
      SaveState(e.saved);
      if !e.saved { return Denied; }
      if !e.valid { return Denied; }
      var session := Session(e.last + cfg.sessionExpiry, if e.holder != "" then e.holder else e.sender);
      sessions := sessions[e.token := session];
      SaveState(e.savedSession);
      if !e.savedSession { return Denied; }
      return Granted(entry.resource, e.token, session.validUntil);
    }

    method VerifySession(token: string, now: int) returns (alive: bool)
      modifies this`sessions
      ensures alive <==> token in old(sessions) && now <= old(sessions)[token].validUntil
      ensures alive <==> token in sessions
      ensures sessions == if alive then old(sessions) else old(sessions) - {token}
      ensures (S(), Alive(alive)) == Handle(cfg, old(S()), Check(token, now))
    {
      if token !in sessions { return false; }
      if now > sessions[token].validUntil {
        sessions := sessions - {token};
        return false;
      }
      return true;
    }

    /** Both loops delete while they go through the entries; the order does not matter. */
    method CleanupExpired(now: int)
      modifies this`challenges, this`sessions, this`usedNonces
      ensures forall n :: n in challenges <==>
                n in old(challenges) && now <= old(challenges)[n].expiresAt + KEEP_AFTER_EXPIRY
      ensures forall n :: n in challenges ==> challenges[n] == old(challenges)[n]
      ensures forall n :: n in usedNonces <==> n in old(usedNonces) && !(n in old(challenges) && n !in challenges)
      ensures forall t :: t in sessions <==> t in old(sessions) && now <= old(sessions)[t].validUntil
      ensures forall t :: t in sessions ==> sessions[t] == old(sessions)[t]
      ensures (S(), Silent) == Handle(cfg, old(S()), Sweep(now))
    {
      CleanupChallenges(now);
      CleanupSessions(now);
    }

    method CleanupSessions(now: int)
      modifies this`sessions
      ensures sessions == old(sessions) - Over(old(S()).memory, now)
    {
      ghost var m := S().memory;
      var left := sessions.Keys;
      while left != {}
        invariant left <= m.sessions.Keys
        invariant sessions == m.sessions - (Over(m, now) - left)
        decreases |left|
      {
        var token :| token in left;
        assert token in sessions && sessions[token] == m.sessions[token];
        if now > sessions[token].validUntil {
          sessions := sessions - {token};
        }
        left := left - {token};
      }
      assert Over(m, now) - left == Over(m, now);
    }

    method CleanupChallenges(now: int)
      modifies this`challenges, this`usedNonces
      ensures challenges == old(challenges) - Stale(old(S()).memory, now)
      ensures usedNonces == old(usedNonces) - Stale(old(S()).memory, now)
    {
      ghost var m := S().memory;
      var left := challenges.Keys;
      while left != {}
        invariant left <= m.challenges.Keys
        invariant challenges == m.challenges - (Stale(m, now) - left)
        invariant usedNonces == m.usedNonces - (Stale(m, now) - left)
        decreases |left|
      {
        var nonce :| nonce in left;
        assert nonce in challenges && challenges[nonce] == m.challenges[nonce];
        if now > challenges[nonce].expiresAt + KEEP_AFTER_EXPIRY {
          challenges := challenges - {nonce};
          usedNonces := usedNonces - {nonce};
        }
        left := left - {nonce};
      }
      assert Stale(m, now) - left == Stale(m, now);
    }
  }
}
