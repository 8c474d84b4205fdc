/**
 * Tokens as the forge and the wallet see them once decoded. Hashing and signing are symbolic:
 * a digest determines the payload, and a signature determines its key and message.
 */
module Tokens {
  import opened Prelude
  import Decimal

  datatype TokenId = IdNum(n: nat) | IdText(s: string) {
    /** The id as text. */
    function Text(): string {
      match this
      case IdNum(n) => Decimal.Text(n)
      case IdText(s) => s
    }
  }

  /** Numbers have different texts, and a text id is its own text. */
  lemma IdTexts(n: nat, m: nat, s: string)
    ensures IdNum(n).Text() == IdNum(m).Text() <==> n == m
    ensures IdText(s).Text() == s
    ensures Decimal.AllDigits(IdNum(n).Text()) && Decimal.Value(IdNum(n).Text()) == n
  {
    Decimal.ValueOfText(n);
    Decimal.ValueOfText(m);
  }

  datatype Payload = Payload(
    iss: string,
    iat: nat,
    exp: Option<nat>,
    amount: Option<int>,
    htlc: Option<string>,
    timeLock: Option<nat>,
    lock: Option<string>,
    tokenID: Option<TokenId>,
    dataUri: Option<string>,
    setID: string)

  datatype Hash = Digest(payload: Payload) | OtherHash(text: string)

  /** The value-routing part of an output that a witness commits to. */
  datatype Route = Route(to: string, amount: Option<int>, tokenID: Option<TokenId>)

  datatype Message =
    | OverHash(h: Hash)                          // issuance: the text of the token hash
    | OverSpend(h: Hash, routes: seq<Route>)     // spendAuthDigest
    | OverHashBytes(h: Hash)                     // legacy, unbound witness

  datatype Signature = Signed(key: string, message: Message) | OtherSignature(text: string)

  /** claimedHash is what the header says; it need not be the payload's digest. */
  datatype Token = Token(claimedHash: Hash, payload: Payload, signature: Signature)

  /** A token as text: some text does not restore. */
  datatype Wire = Malformed(text: string) | Jwt(token: Token)

  /** JavaScript truthiness of an optional string and an optional number. */
  function TruthyText(s: Option<string>): Option<string> { if s == Some("") then None else s }

  function TruthyNum(n: Option<nat>): Option<nat> { if n == Some(0) then None else n }

  predicate VerifyTokenHash(t: Token) { t.claimedHash == Digest(t.payload) }

  predicate VerifyTokenSignature(t: Token) {
    t.payload.iss != "" && t.signature == Signed(t.payload.iss, OverHash(t.claimedHash))
  }

  /** create_token_hash: overwrites the header's hash with the payload's digest. */
  function Rehash(t: Token): Token { t.(claimedHash := Digest(t.payload)) }

  /** A token as signAndCreateJWT issues it. */
  function Issue(key: string, p: Payload): Token {
    Token(Digest(p), p, Signed(key, OverHash(Digest(p))))
  }

  /** An issued token states its own hash and carries its issuer's signature over it. */
  lemma IssuedIsVerified(key: string, p: Payload)
    requires key != "" && p.iss == key
    ensures var t := Issue(key, p);
            && t.payload == p && t.claimedHash == Digest(p) && t.signature == Signed(key, OverHash(Digest(p)))
            && VerifyTokenHash(t) && VerifyTokenSignature(t)
  {
  }

  predicate IsExpired(p: Payload, now: nat) {
    TruthyNum(p.exp).Some? && now >= p.exp.value
  }

  predicate IsTimeLocked(p: Payload, now: nat) {
    TruthyNum(p.timeLock).Some? && now < p.timeLock.value
  }

  function Amount(p: Payload): nat {
    if p.amount.Some? && p.amount.value > 0 then p.amount.value else 0
  }

  // ----- value of a set of tokens -----

  /** Total amount over a set of payloads, that is, of hashes. */
  ghost function Value(s: set<Payload>): nat
    decreases |s|
  {
    if s == {} then 0
    else
      var p :| p in s;
      Amount(p) + Value(s - {p})
  }

  lemma {:induction false} ValueRemove(s: set<Payload>, p: Payload)
    requires p in s
    ensures Value(s) == Amount(p) + Value(s - {p})
    decreases |s|
  {
    var q :| q in s && Value(s) == Amount(q) + Value(s - {q});
    if q != p {
      ValueRemove(s - {q}, p);
      ValueRemove(s - {p}, q);
      assert s - {q} - {p} == s - {p} - {q};
    }
  }

  lemma ValueAdd(s: set<Payload>, p: Payload)
    ensures Value(s + {p}) == Value(s) + if p in s then 0 else Amount(p)
  {
    if p in s {
      assert s + {p} == s;
    } else {
      ValueRemove(s + {p}, p);
      assert s + {p} - {p} == s;
    }
  }

  lemma {:induction false} ValueMonotone(s: set<Payload>, t: set<Payload>)
    requires s <= t
    ensures Value(s) <= Value(t)
    decreases |t|
  {
    if s != t {
      var p :| p in t && p !in s;
      ValueRemove(t, p);
      ValueMonotone(s, t - {p});
    }
  }

  lemma {:induction false} ValueDisjoint(s: set<Payload>, t: set<Payload>)
    requires s !! t
    ensures Value(s + t) == Value(s) + Value(t)
    decreases |t|
  {
    if t == {} {
      assert s + t == s;
    } else {
      var p :| p in t;
      ValueRemove(t, p);
      ValueDisjoint(s, t - {p});
      ValueAdd(s + (t - {p}), p);
      assert s + (t - {p}) + {p} == s + t;
    }
  }

  function Total(ps: seq<Payload>): nat {
    if ps == [] then 0 else Amount(ps[0]) + Total(ps[1..])
  }

  lemma {:induction false} TotalSnoc(ps: seq<Payload>, p: Payload)
    ensures Total(ps + [p]) == Total(ps) + Amount(p)
  {
    if ps == [] {
      assert ps + [p] == [p] && [p][1..] == [];
    } else {
      assert (ps + [p])[1..] == ps[1..] + [p];
      TotalSnoc(ps[1..], p);
    }
  }

  ghost function ToSet(ps: seq<Payload>): set<Payload> { set p | p in ps }

  /** Listing a set without repetition totals its value; with repetition it can only total more. */
  lemma {:induction false} TotalIsValue(ps: seq<Payload>)
    ensures Value(ToSet(ps)) <= Total(ps)
    ensures Distinct(ps) ==> Value(ToSet(ps)) == Total(ps)
  {
    if ps != [] {
      var rest := ps[1..];
      TotalIsValue(rest);
      assert ToSet(ps) == ToSet(rest) + {ps[0]};
      ValueAdd(ToSet(rest), ps[0]);
      if Distinct(ps) {
        assert forall i, j :: 0 <= i < j < |rest| ==> rest[i] == ps[i + 1] && rest[j] == ps[j + 1];
        assert Distinct(rest);
        assert forall j :: 0 <= j < |rest| ==> rest[j] != ps[0];
      }
    }
  }
}
