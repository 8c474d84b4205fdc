/** The wallet's token map and the indexes kept beside it. */
module PocketTokens {
  import opened Prelude
  import opened JsMap
  import opened Tokens
  import opened ForgeRules
  import opened WalletIndexes

  type Entries = seq<Pair<Hash, Wire>>

  /** The stored tokens and everything derived from them. */
  datatype State = State(
    tokens: map<string, Entries>,
    tokenIndex: map<string, Index>,
    tatIndex: map<string, map<string, Hash>>,
    balances: map<string, map<string, int>>)

  function EntriesOf(tokens: map<string, Entries>, issuer: string): Entries {
    if issuer in tokens then tokens[issuer] else []
  }

  /** The stored values that restore to a token of the issuer, in order. */
  function Kept(issuer: string, ws: seq<Wire>): seq<Token> {
    if ws == [] then []
    else
      var w := ws[|ws| - 1];
      Kept(issuer, ws[..|ws| - 1]) + if w.Jwt? && w.token.payload.iss == issuer then [w.token] else []
  }

  /** The same, keyed by the hash each token states. */
  function Canonical(issuer: string, ws: seq<Wire>): Entries {
    if ws == [] then []
    else
      var w := ws[|ws| - 1];
      var init := Canonical(issuer, ws[..|ws| - 1]);
      if w.Jwt? && w.token.payload.iss == issuer then Put(init, w.token.claimedHash, w) else init
  }

  function Held(tokens: map<string, Entries>, issuer: string): seq<Token> {
    Kept(issuer, Values(EntriesOf(tokens, issuer)))
  }

  /** Each entry restores to a token of the issuer and stands under the hash it states. */
  ghost predicate OwnKeyed(issuer: string, m: Entries) {
    Keyed(m)
    && forall i :: 0 <= i < |m| ==>
         m[i].value.Jwt? && m[i].value.token.payload.iss == issuer && m[i].value.token.claimedHash == m[i].key
  }

  /** An issuer with nothing to list has no entry. */
  ghost predicate Slot<V>(m: map<string, seq<V>>, issuer: string, v: seq<V>) {
    if v == [] then issuer !in m else issuer in m && m[issuer] == v
  }

  ghost predicate SlotMap<V>(m: map<string, map<string, V>>, issuer: string, v: map<string, V>) {
    if v == map[] then issuer !in m else issuer in m && m[issuer] == v
  }

  /** Set the issuer's entry, or drop it when there is nothing to list. */
  function WithSlot<V>(m: map<string, seq<V>>, issuer: string, v: seq<V>): (m': map<string, seq<V>>)
    ensures Slot(m', issuer, v) && m' - {issuer} == m - {issuer}
  {
    if |v| > 0 then m[issuer := v] else m - {issuer}
  }

  function WithSlotMap<V>(m: map<string, map<string, V>>, issuer: string, v: map<string, V>): (m': map<string, map<string, V>>)
    ensures SlotMap(m', issuer, v) && m' - {issuer} == m - {issuer}
  {
    if |v| > 0 then m[issuer := v] else m - {issuer}
  }

  /** Everything the state says of the issuer is what the listed values give. */
  ghost predicate IssuerFrom(s: State, issuer: string, ws: seq<Wire>) {
    var held := Kept(issuer, ws);
    && Slot(s.tokens, issuer, Canonical(issuer, ws))
    && Slot(s.tokenIndex, issuer, IndexOf(held))
    && SlotMap(s.tatIndex, issuer, TatsOf(held))
    && SlotMap(s.balances, issuer, BalancesOf(held))
  }

  /** The derived maps agree with the issuer's tokens. */
  ghost predicate IssuerOK(s: State, issuer: string) {
    && OwnKeyed(issuer, EntriesOf(s.tokens, issuer))
    && IssuerFrom(s, issuer, Values(EntriesOf(s.tokens, issuer)))
  }

  ghost predicate StateOK(s: State) { forall issuer: string :: IssuerOK(s, issuer) }

  /** Outside one issuer nothing changed. */
  ghost predicate OnlyIssuer(s: State, s': State, issuer: string) {
    && s'.tokens - {issuer} == s.tokens - {issuer}
    && s'.tokenIndex - {issuer} == s.tokenIndex - {issuer}
    && s'.tatIndex - {issuer} == s.tatIndex - {issuer}
    && s'.balances - {issuer} == s.balances - {issuer}
  }

  // ----- canonical entries -----

  lemma {:induction false} CanonicalOwnKeyed(issuer: string, ws: seq<Wire>)
    ensures OwnKeyed(issuer, Canonical(issuer, ws))
  {
    if ws != [] {
      var w := ws[|ws| - 1];
      var init := Canonical(issuer, ws[..|ws| - 1]);
      CanonicalOwnKeyed(issuer, ws[..|ws| - 1]);
      if w.Jwt? && w.token.payload.iss == issuer {
        PutKeyed(init, w.token.claimedHash, w);
        var m := Put(init, w.token.claimedHash, w);
        forall i | 0 <= i < |m|
          ensures m[i].value.Jwt? && m[i].value.token.payload.iss == issuer && m[i].value.token.claimedHash == m[i].key
        {
          assert m[i] in m;
          assert m[i] == Pair(w.token.claimedHash, w) || m[i] in init;
        }
      }
    }
  }

  /** Entries that are already canonical stay as they are. */
  lemma {:induction false} CanonicalIsSelf(issuer: string, m: Entries)
    requires OwnKeyed(issuer, m)
    ensures Canonical(issuer, Values(m)) == m
    ensures |Kept(issuer, Values(m))| == |m|
    ensures forall i :: 0 <= i < |m| ==> Kept(issuer, Values(m))[i] == m[i].value.token
  {
    if m != [] {
      var n := |m| - 1;
      var init := m[..n];
      CanonicalIsSelf(issuer, init);
      assert Values(m)[..n] == Values(init);
      PutLast(m);
    }
  }

  lemma KeptSnoc(issuer: string, ws: seq<Wire>, w: Wire)
    requires w.Jwt? && w.token.payload.iss == issuer
    ensures Kept(issuer, ws + [w]) == Kept(issuer, ws) + [w.token]
  {
    assert (ws + [w])[..|ws|] == ws;
  }

  lemma KeptSkip(issuer: string, ws: seq<Wire>, w: Wire)
    requires !(w.Jwt? && w.token.payload.iss == issuer)
    ensures Kept(issuer, ws + [w]) == Kept(issuer, ws) && Canonical(issuer, ws + [w]) == Canonical(issuer, ws)
  {
    assert (ws + [w])[..|ws|] == ws;
    assert Kept(issuer, ws) + [] == Kept(issuer, ws);
  }

  /** Adding a token that states a new hash adds it at the end of the canonical entries. */
  lemma CanonicalSnoc(issuer: string, ws: seq<Wire>, w: Wire)
    requires w.Jwt? && w.token.payload.iss == issuer && ClaimsDistinct(Kept(issuer, ws) + [w.token])
    requires Kept(issuer, Values(Canonical(issuer, ws))) == Kept(issuer, ws)
    ensures Canonical(issuer, ws + [w]) == Canonical(issuer, ws) + [Pair(w.token.claimedHash, w)]
  {
    var init, held := Canonical(issuer, ws), Kept(issuer, ws);
    CanonicalOwnKeyed(issuer, ws);
    CanonicalIsSelf(issuer, init);
    GetFinds(init, w.token.claimedHash);
    var all := held + [w.token];
    assert all[|held|] == w.token;
    forall i | 0 <= i < |init| ensures init[i].key != w.token.claimedHash {
      assert all[i] == held[i] == init[i].value.token;
    }
    PutNew(init, w.token.claimedHash, w);
    assert (ws + [w])[..|ws|] == ws;
  }

  /** Values that state different hashes lose nothing by being keyed. */
  lemma {:induction false} CanonicalKeeps(issuer: string, ws: seq<Wire>)
    requires ClaimsDistinct(Kept(issuer, ws))
    ensures Kept(issuer, Values(Canonical(issuer, ws))) == Kept(issuer, ws)
  {
    if ws != [] {
      var n := |ws| - 1;
      var w, before := ws[n], ws[..n];
      assert ws == before + [w];
      if w.Jwt? && w.token.payload.iss == issuer {
        KeptSnoc(issuer, before, w);
        ClaimsDistinctInit(Kept(issuer, before), w.token);
        CanonicalKeeps(issuer, before);
        CanonicalSnoc(issuer, before, w);
        var init := Canonical(issuer, before);
        assert Values(init + [Pair(w.token.claimedHash, w)]) == Values(init) + [w];
        KeptSnoc(issuer, Values(init), w);
      } else {
        KeptSkip(issuer, before, w);
        CanonicalKeeps(issuer, before);
      }
    }
  }

  lemma ClaimsDistinctInit(ts: seq<Token>, t: Token)
    requires ClaimsDistinct(ts + [t])
    ensures ClaimsDistinct(ts)
  {
    assert forall i :: 0 <= i < |ts| ==> (ts + [t])[i] == ts[i];
  }

  /** Rebuilding one issuer from canonical entries makes its maps agree and leaves every other issuer as it was. */
  lemma RebuiltIsOK(s: State, s': State, issuer: string, ws: seq<Wire>)
    requires IssuerFrom(s', issuer, ws) && ClaimsDistinct(Kept(issuer, ws))
    ensures IssuerOK(s', issuer)
    ensures EntriesOf(s'.tokens, issuer) == Canonical(issuer, ws)
  {
    var m := Canonical(issuer, ws);
    assert EntriesOf(s'.tokens, issuer) == m;
    CanonicalOwnKeyed(issuer, ws);
    CanonicalIsSelf(issuer, m);
    CanonicalKeeps(issuer, ws);
  }

  /** Fungible tokens that state one hash cannot both be counted and both be kept. */
  ghost predicate FungiblesDistinct(ts: seq<Token>) {
    forall i, j :: 0 <= i < j < |ts| && Fungible(ts[i]) && Fungible(ts[j]) ==> ts[i].claimedHash != ts[j].claimedHash
  }

  lemma SameBuckets(s: State, issuer: string, ws: seq<Wire>, d: nat)
    requires IssuerFrom(s, issuer, ws) && IssuerOK(s, issuer)
    ensures Bucket(Kept(issuer, ws), d) == Bucket(Held(s.tokens, issuer), d)
  {
    assert IndexOf(Kept(issuer, ws)) == IndexOf(Held(s.tokens, issuer));
    IndexMeans(Kept(issuer, ws), d);
    IndexMeans(Held(s.tokens, issuer), d);
  }

  /** The converse: a rebuilt issuer whose maps agree had no two fungible tokens stating one hash. */
  lemma AgreementNeedsDistinct(s: State, issuer: string, ws: seq<Wire>)
    requires IssuerFrom(s, issuer, ws) && IssuerOK(s, issuer)
    ensures FungiblesDistinct(Kept(issuer, ws))
  {
    var all, held := Kept(issuer, ws), Held(s.tokens, issuer);
    OwnKeyedClaims(issuer, EntriesOf(s.tokens, issuer));
    forall i, j | 0 <= i < j < |all| && Fungible(all[i]) && Fungible(all[j])
      ensures all[i].claimedHash != all[j].claimedHash
    {
      if all[i].claimedHash == all[j].claimedHash {
        SameBuckets(s, issuer, ws, AmountOf(all[i]));
        SameBuckets(s, issuer, ws, AmountOf(all[j]));
        BucketLists(all, AmountOf(all[i]), all[i].claimedHash);
        BucketLists(all, AmountOf(all[j]), all[j].claimedHash);
        BucketLists(held, AmountOf(all[i]), all[i].claimedHash);
        BucketLists(held, AmountOf(all[j]), all[j].claimedHash);
        BucketDistinct(held, AmountOf(all[j]));
        BucketRepeats(all, i, j);
      }
    }
  }

  lemma OthersStay(s: State, s': State, issuer: string, other: string)
    requires OnlyIssuer(s, s', issuer) && other != issuer
    ensures EntriesOf(s'.tokens, other) == EntriesOf(s.tokens, other)
    ensures forall ws :: IssuerFrom(s, other, ws) ==> IssuerFrom(s', other, ws)
  {
    SameAt(s.tokens, s'.tokens, issuer, other);
    SameAt(s.tokenIndex, s'.tokenIndex, issuer, other);
    SameAt(s.tatIndex, s'.tatIndex, issuer, other);
    SameAt(s.balances, s'.balances, issuer, other);
    forall ws | IssuerFrom(s, other, ws) ensures IssuerFrom(s', other, ws) {
      SlotStays(s.tokens, s'.tokens, other, Canonical(other, ws));
      SlotStays(s.tokenIndex, s'.tokenIndex, other, IndexOf(Kept(other, ws)));
    }
  }

  lemma SlotStays<V>(m: map<string, seq<V>>, m': map<string, seq<V>>, issuer: string, v: seq<V>)
    requires (issuer in m <==> issuer in m') && (issuer in m ==> m[issuer] == m'[issuer]) && Slot(m, issuer, v)
    ensures Slot(m', issuer, v)
  {
  }

  ghost predicate RebuiltAt(start: map<string, Entries>, s: State, issuer: string) {
    IssuerFrom(s, issuer, Values(EntriesOf(start, issuer)))
  }

  ghost predicate UntouchedAt(start: map<string, Entries>, s: State, issuer: string) {
    EntriesOf(s.tokens, issuer) == EntriesOf(start, issuer)
  }

  /** Issuers still to do have their tokens as they were at the start; all others are rebuilt from those. */
  ghost predicate PartlyRebuilt(start: map<string, Entries>, s: State, todo: set<string>) {
    forall issuer: string :: if issuer in todo then UntouchedAt(start, s, issuer) else RebuiltAt(start, s, issuer)
  }

  lemma RebuiltOneMore(start: map<string, Entries>, s: State, s': State, todo: set<string>, issuer: string)
    requires PartlyRebuilt(start, s, todo) && issuer in todo && OnlyIssuer(s, s', issuer)
    requires IssuerFrom(s', issuer, Values(EntriesOf(s.tokens, issuer)))
    ensures PartlyRebuilt(start, s', todo - {issuer})
  {
    assert UntouchedAt(start, s, issuer);
    forall other: string
      ensures if other in todo - {issuer} then UntouchedAt(start, s', other) else RebuiltAt(start, s', other)
    {
      if other != issuer {
        OthersStay(s, s', issuer, other);
        assert other !in todo ==> RebuiltAt(start, s, other);
        assert other in todo ==> UntouchedAt(start, s, other);
      }
    }
  }

  lemma SameAt<V>(m: map<string, V>, m': map<string, V>, issuer: string, other: string)
    requires m - {issuer} == m' - {issuer} && other != issuer
    ensures other in m <==> other in m'
    ensures other in m ==> m[other] == m'[other]
  {
    assert other in m <==> other in m - {issuer};
    assert other in m' <==> other in m' - {issuer};
    if other in m { assert m[other] == (m - {issuer})[other] == (m' - {issuer})[other]; }
  }

  lemma OwnKeyedClaims(issuer: string, m: Entries)
    requires OwnKeyed(issuer, m)
    ensures ClaimsDistinct(Kept(issuer, Values(m)))
  {
    CanonicalIsSelf(issuer, m);
  }

  // ----- what agreement says, issuer by issuer -----

  function Row<V>(m: map<string, map<string, V>>, issuer: string): map<string, V> {
    if issuer in m then m[issuer] else map[]
  }

  /** Each balance is the sum of the held amounts of its token set, and is there exactly when there is one to sum. */
  lemma BalanceAgrees(s: State, issuer: string, setID: string)
    requires IssuerOK(s, issuer)
    ensures var held := Held(s.tokens, issuer);
            && (setID in Row(s.balances, issuer) <==> exists i :: 0 <= i < |held| && CountedIn(held[i].payload, setID))
            && BalanceAt(Row(s.balances, issuer), setID) == SetSum(held, setID)
  {
    BalanceMeans(Held(s.tokens, issuer), setID);
    assert Row(s.balances, issuer) == BalancesOf(Held(s.tokens, issuer));
  }

  function IndexRow(s: State, issuer: string): Index { if issuer in s.tokenIndex then s.tokenIndex[issuer] else [] }

  /** Each denomination lists exactly the held hashes of that amount, each once; an empty denomination is not listed. */
  lemma BucketAgrees(s: State, issuer: string, d: nat, h: Hash)
    requires IssuerOK(s, issuer)
    ensures var held := Held(s.tokens, issuer);
            && Distinct(HashesAt(IndexRow(s, issuer), d))
            && (h in HashesAt(IndexRow(s, issuer), d)
                <==> exists i :: 0 <= i < |held| && held[i].claimedHash == h && d > 0
                                 && held[i].payload.tokenID.None? && held[i].payload.amount == Some(d))
            && Get(IndexRow(s, issuer), d) != Some([])
  {
    var held := Held(s.tokens, issuer);
    OwnKeyedClaims(issuer, EntriesOf(s.tokens, issuer));
    IndexMeans(held, d);
    BucketLists(held, d, h);
    BucketDistinct(held, d);
    assert IndexRow(s, issuer) == IndexOf(held);
    assert HashesAt(IndexRow(s, issuer), d) == Bucket(held, d);
  }

  /** Each access-token id points to a token that is held under that hash and has that id; every held id is listed. */
  lemma TatAgrees(s: State, issuer: string, id: string)
    requires IssuerOK(s, issuer)
    ensures var held := Held(s.tokens, issuer);
            var tats := Row(s.tatIndex, issuer);
            && (id in tats <==>
                  exists i :: 0 <= i < |held| && held[i].payload.tokenID.Some? && held[i].payload.tokenID.value.Text() == id)
            && (id in tats ==>
                  && Has(EntriesOf(s.tokens, issuer), tats[id])
                  && var w := Get(EntriesOf(s.tokens, issuer), tats[id]).value;
                     && w.Jwt? && w.token.payload.iss == issuer && w.token.claimedHash == tats[id]
                     && w.token.payload.tokenID.Some? && w.token.payload.tokenID.value.Text() == id)
  {
    var held := Held(s.tokens, issuer);
    var m := EntriesOf(s.tokens, issuer);
    TatMeans(held, id);
    assert Row(s.tatIndex, issuer) == TatsOf(held);
    CanonicalIsSelf(issuer, m);
    if id in TatsOf(held) {
      var i :| 0 <= i < |held| && held[i].payload.tokenID.Some? && held[i].payload.tokenID.value.Text() == id
               && held[i].claimedHash == TatsOf(held)[id];
      GetAt(m, i);
    }
  }

  /** An issuer of whom nothing is held appears in none of the maps. */
  lemma NothingHeldNothingListed(s: State, issuer: string)
    requires IssuerOK(s, issuer) && Held(s.tokens, issuer) == []
    ensures issuer !in s.tokens && issuer !in s.tokenIndex && issuer !in s.tatIndex && issuer !in s.balances
  {
    CanonicalIsSelf(issuer, EntriesOf(s.tokens, issuer));
  }

  // ----- what the operations do to the stored tokens -----

  datatype Outcome = Stored | Rejected | Duplicate | Failed

  predicate Genuine(t: Token) { VerifyTokenHash(t) && VerifyTokenSignature(t) }

  function StoreOutcome(tokens: map<string, Entries>, w: Wire): Outcome {
    match w
    case Malformed(_) => Failed
    case Jwt(t) =>
      if !Genuine(t) then Rejected
      else if Has(EntriesOf(tokens, t.payload.iss), t.claimedHash) then Duplicate
      else Stored
  }

  /** A genuine token not yet held is added last under its hash; anything else changes nothing. */
  function StoreInto(tokens: map<string, Entries>, w: Wire): map<string, Entries> {
    if StoreOutcome(tokens, w) != Stored then tokens
    else tokens[w.token.payload.iss := EntriesOf(tokens, w.token.payload.iss) + [Pair(w.token.claimedHash, w)]]
  }

  function DeleteFrom(tokens: map<string, Entries>, issuer: string, h: Hash): map<string, Entries> {
    var left := Remove(EntriesOf(tokens, issuer), h);
    if left == [] then tokens - {issuer} else tokens[issuer := left]
  }

  /** What the map holds under an issuer and a hash. */
  ghost function HeldUnder(tokens: map<string, Entries>, issuer: string, h: Hash): Option<Wire> {
    if issuer in tokens then Get(tokens[issuer], h) else None
  }

  /** Storing files exactly this token, when it verifies and is not held; every other place is as it was. */
  lemma StoreMeans(tokens: map<string, Entries>, w: Wire, issuer: string, h: Hash)
    ensures var stored := w.Jwt? && w.token.claimedHash == Digest(w.token.payload) && w.token.payload.iss != ""
                          && w.token.signature == Signed(w.token.payload.iss, OverHash(w.token.claimedHash))
                          && HeldUnder(tokens, w.token.payload.iss, w.token.claimedHash).None?;
            && (StoreOutcome(tokens, w) == Stored <==> stored)
            && (StoreOutcome(tokens, w) == Failed <==> w.Malformed?)
            && (StoreOutcome(tokens, w) == Duplicate ==> HeldUnder(tokens, w.token.payload.iss, w.token.claimedHash).Some?)
            && HeldUnder(StoreInto(tokens, w), issuer, h)
               == if stored && issuer == w.token.payload.iss && h == w.token.claimedHash then Some(w)
                  else HeldUnder(tokens, issuer, h)
  {
    if w.Jwt? && StoreOutcome(tokens, w) == Stored {
      AppendGet(EntriesOf(tokens, w.token.payload.iss), w.token.claimedHash, w, h);
    }
  }

  /** Deleting takes exactly the entry under that issuer and hash. */
  lemma DeleteMeans(tokens: map<string, Entries>, issuer: string, h: Hash, other: string, g: Hash)
    requires Keyed(EntriesOf(tokens, issuer))
    ensures HeldUnder(DeleteFrom(tokens, issuer, h), other, g)
            == if other == issuer && g == h then None else HeldUnder(tokens, other, g)
    ensures other != issuer ==> (other in DeleteFrom(tokens, issuer, h) <==> other in tokens)
    ensures |EntriesOf(DeleteFrom(tokens, issuer, h), issuer)|
            == |EntriesOf(tokens, issuer)| - if HeldUnder(tokens, issuer, h).Some? then 1 else 0
  {
    RemoveGet(EntriesOf(tokens, issuer), h, g);
    RemoveGet(EntriesOf(tokens, issuer), h, h);
  }

  function StoreAll(tokens: map<string, Entries>, ws: seq<Wire>): map<string, Entries> {
    if ws == [] then tokens else StoreInto(StoreAll(tokens, ws[..|ws| - 1]), ws[|ws| - 1])
  }

  function MalformedIn(ws: seq<Wire>): nat {
    if ws == [] then 0 else MalformedIn(ws[..|ws| - 1]) + if ws[|ws| - 1].Malformed? then 1 else 0
  }

  /** How many of the wires name a token that is held by the time their turn comes. */
  ghost function DuplicatesIn(tokens: map<string, Entries>, ws: seq<Wire>): nat {
    if ws == [] then 0
    else
      var init, w := ws[..|ws| - 1], ws[|ws| - 1];
      DuplicatesIn(tokens, init)
      + if w.Jwt? && HeldUnder(StoreAll(tokens, init), w.token.payload.iss, w.token.claimedHash).Some? then 1 else 0
  }

  /** Everything held was verified when it was stored. */
  ghost predicate GenuineEntries(m: Entries) {
    forall i :: 0 <= i < |m| ==> m[i].value.Jwt? && Genuine(m[i].value.token)
  }

  ghost predicate GenuineTokens(tokens: map<string, Entries>) {
    forall issuer: string :: GenuineEntries(EntriesOf(tokens, issuer))
  }

  lemma StoreKeepsGenuine(tokens: map<string, Entries>, w: Wire)
    requires GenuineTokens(tokens)
    ensures GenuineTokens(StoreInto(tokens, w))
  {
    forall issuer: string ensures GenuineEntries(EntriesOf(StoreInto(tokens, w), issuer)) {
      assert GenuineEntries(EntriesOf(tokens, issuer));
    }
  }

  lemma DeleteKeepsGenuine(tokens: map<string, Entries>, issuer: string, h: Hash)
    requires GenuineTokens(tokens) && Keyed(EntriesOf(tokens, issuer))
    ensures GenuineTokens(DeleteFrom(tokens, issuer, h))
  {
    RemoveKeyed(EntriesOf(tokens, issuer), h);
    forall other: string ensures GenuineEntries(EntriesOf(DeleteFrom(tokens, issuer, h), other)) {
      assert GenuineEntries(EntriesOf(tokens, other));
      if other == issuer {
        var left := Remove(EntriesOf(tokens, issuer), h);
        forall i | 0 <= i < |left| ensures left[i].value.Jwt? && Genuine(left[i].value.token) {
          assert left[i] in EntriesOf(tokens, issuer);
        }
      }
    }
  }

  lemma StoredAll(tokens: map<string, Entries>, w: Wire)
    ensures forall issuer: string, h: Hash ::
              HeldUnder(StoreInto(tokens, w), issuer, h)
              == if StoreOutcome(tokens, w) == Stored && issuer == w.token.payload.iss && h == w.token.claimedHash then Some(w)
                 else HeldUnder(tokens, issuer, h)
  {
    forall issuer: string, h: Hash
      ensures HeldUnder(StoreInto(tokens, w), issuer, h)
              == if StoreOutcome(tokens, w) == Stored && issuer == w.token.payload.iss && h == w.token.claimedHash then Some(w)
                 else HeldUnder(tokens, issuer, h)
    {
      StoreMeans(tokens, w, issuer, h);
    }
  }

  lemma DeletedAll(s: State, issuer: string, h: Hash)
    requires StateOK(s)
    ensures forall other: string, g: Hash ::
              HeldUnder(DeleteFrom(s.tokens, issuer, h), other, g)
              == if other == issuer && g == h then None else HeldUnder(s.tokens, other, g)
  {
    assert IssuerOK(s, issuer);
    forall other: string, g: Hash
      ensures HeldUnder(DeleteFrom(s.tokens, issuer, h), other, g)
              == if other == issuer && g == h then None else HeldUnder(s.tokens, other, g)
    {
      DeleteMeans(s.tokens, issuer, h, other, g);
    }
  }

  lemma DeleteIsGenuine(s: State, issuer: string, h: Hash)
    requires StateOK(s) && GenuineTokens(s.tokens)
    ensures GenuineTokens(DeleteFrom(s.tokens, issuer, h))
  {
    assert IssuerOK(s, issuer);
    DeleteKeepsGenuine(s.tokens, issuer, h);
  }

  lemma {:induction false} StoreAllConcat(tokens: map<string, Entries>, a: seq<Wire>, b: seq<Wire>)
    ensures StoreAll(tokens, a + b) == StoreAll(StoreAll(tokens, a), b)
  {
    if b == [] {
      assert a + b == a;
    } else {
      assert (a + b)[..|a + b| - 1] == a + b[..|b| - 1];
      StoreAllConcat(tokens, a, b[..|b| - 1]);
    }
  }

  lemma StoreNext(tokens: map<string, Entries>, issuer: string, init: Entries, p: Pair<Hash, Wire>)
    requires issuer !in tokens && OwnKeyed(issuer, init + [p]) && p.value.Jwt? && Genuine(p.value.token)
    ensures StoreInto(if init == [] then tokens else tokens[issuer := init], p.value) == tokens[issuer := init + [p]]
  {
    var m := init + [p];
    assert m[|init|] == p && forall i :: 0 <= i < |init| ==> m[i] == init[i];
    GetFinds(init, p.key);
    var before := if init == [] then tokens else tokens[issuer := init];
    assert EntriesOf(before, issuer) == init;
    assert before[issuer := m] == tokens[issuer := m];
  }

  /** Storing one issuer's tokens in order gives back that issuer's entries. */
  lemma {:induction false} StoreBlock(tokens: map<string, Entries>, issuer: string, m: Entries)
    requires issuer !in tokens && OwnKeyed(issuer, m) && GenuineEntries(m)
    ensures StoreAll(tokens, Values(m)) == if m == [] then tokens else tokens[issuer := m]
  {
    if m != [] {
      var init, p := m[..|m| - 1], m[|m| - 1];
      assert m == init + [p];
      OwnInit(issuer, init, p);
      StoreBlock(tokens, issuer, init);
      StoreNext(tokens, issuer, init, p);
      assert Values(m)[..|m| - 1] == Values(init) && Values(m)[|m| - 1] == p.value;
    }
  }

  lemma OwnInit(issuer: string, init: Entries, p: Pair<Hash, Wire>)
    requires OwnKeyed(issuer, init + [p]) && GenuineEntries(init + [p])
    ensures OwnKeyed(issuer, init) && GenuineEntries(init) && p.value.Jwt? && Genuine(p.value.token)
  {
    var m := init + [p];
    assert m[|init|] == p && forall i :: 0 <= i < |init| ==> m[i] == init[i];
  }

  lemma NonEmptyEntries(s: State, issuer: string)
    requires IssuerOK(s, issuer) && issuer in s.tokens
    ensures s.tokens[issuer] != [] && OwnKeyed(issuer, s.tokens[issuer])
  {
  }

  lemma StoredEntries(issuer: string, m: Entries, w: Wire)
    requires OwnKeyed(issuer, m) && w.Jwt? && w.token.payload.iss == issuer && !Has(m, w.token.claimedHash)
    ensures OwnKeyed(issuer, m + [Pair(w.token.claimedHash, w)])
  {
    GetFinds(m, w.token.claimedHash);
  }

  lemma StoreIsSound(s: State, w: Wire)
    requires StateOK(s) && StoreOutcome(s.tokens, w) == Stored
    ensures var issuer, stored := w.token.payload.iss, StoreInto(s.tokens, w);
            && OwnKeyed(issuer, EntriesOf(stored, issuer)) && stored - {issuer} == s.tokens - {issuer}
            && EntriesOf(stored, issuer) != []
            && stored == s.tokens[issuer := EntriesOf(s.tokens, issuer) + [Pair(w.token.claimedHash, w)]]
            && (issuer !in s.tokens ==> stored == s.tokens[issuer := [Pair(w.token.claimedHash, w)]])
  {
    var issuer := w.token.payload.iss;
    assert IssuerOK(s, issuer);
    StoredEntries(issuer, EntriesOf(s.tokens, issuer), w);
    assert issuer !in s.tokens ==> EntriesOf(s.tokens, issuer) + [Pair(w.token.claimedHash, w)] == [Pair(w.token.claimedHash, w)];
  }

  lemma LeftEntries(issuer: string, m: Entries, h: Hash)
    requires OwnKeyed(issuer, m)
    ensures OwnKeyed(issuer, Remove(m, h))
  {
    RemoveKeyed(m, h);
    var left := Remove(m, h);
    forall i | 0 <= i < |left|
      ensures left[i].value.Jwt? && left[i].value.token.payload.iss == issuer && left[i].value.token.claimedHash == left[i].key
    {
      assert left[i] in m;
    }
  }

  // ----- the wallet -----

  class TokenStore {
    var tokens: map<string, Entries>
    var tokenIndex: map<string, Index>
    var tatIndex: map<string, map<string, Hash>>
    var balances: map<string, map<string, int>>

    constructor ()
      ensures S() == State(map[], map[], map[], map[]) && Valid() && GenuineTokens(tokens)
    {
      tokens, tokenIndex, tatIndex, balances := map[], map[], map[], map[];
    }

    ghost function S(): State
      reads this
    {
      State(tokens, tokenIndex, tatIndex, balances)
    }

    ghost predicate Valid()
      reads this
    {
      StateOK(S())
    }

    /** Rebuild everything derived for one issuer; tokens is the only source, whatever the other maps hold. */
    method ReindexIssuerState(issuer: string)
      modifies this
      ensures IssuerFrom(S(), issuer, Values(EntriesOf(old(tokens), issuer)))
      ensures OnlyIssuer(old(S()), S(), issuer)
    {
      if issuer !in tokens || tokens[issuer] == [] {
        tokens := tokens - {issuer};
        tokenIndex := tokenIndex - {issuer};
        tatIndex := tatIndex - {issuer};
        balances := balances - {issuer};
        return;
      }
      var stored := Values(tokens[issuer]);
      var canonical, index, tats, sums := Collect(issuer, stored);
      tokens := WithSlot(tokens, issuer, canonical);
      tokenIndex := WithSlot(tokenIndex, issuer, index);
      tatIndex := WithSlotMap(tatIndex, issuer, tats);
      balances := WithSlotMap(balances, issuer, sums);
    }

    /** The rebuilding loop. */
    static method Collect(issuer: string, stored: seq<Wire>)
      returns (canonical: Entries, index: Index, tats: map<string, Hash>, sums: map<string, int>)
      ensures canonical == Canonical(issuer, stored)
      ensures index == IndexOf(Kept(issuer, stored))
      ensures tats == TatsOf(Kept(issuer, stored))
      ensures sums == BalancesOf(Kept(issuer, stored))
    {
      canonical, index, tats, sums := [], [], map[], map[];
      var i := 0;
      while i < |stored|
        invariant 0 <= i <= |stored|
        invariant canonical == Canonical(issuer, stored[..i])
        invariant index == IndexOf(Kept(issuer, stored[..i]))
        invariant tats == TatsOf(Kept(issuer, stored[..i]))
        invariant sums == BalancesOf(Kept(issuer, stored[..i]))
      {
        var w := stored[i];
        ghost var before := Kept(issuer, stored[..i]);
        assert stored[..i + 1][..i] == stored[..i];
        i := i + 1;
        if w.Malformed? || w.token.payload.iss != issuer {
          assert before + [] == before;
          continue;
        }
        var token := w.token;
        ViewsSnoc(before, token);
        canonical := Put(canonical, token.claimedHash, w);
        if token.payload.tokenID.Some? {
          tats := tats[token.payload.tokenID.value.Text() := token.claimedHash];
          continue;
        }
        if !Positive(token.payload.amount) {
          continue;
        }
        var amount := token.payload.amount.value;
        var hashes := HashesAt(index, amount) + [token.claimedHash];
        index := Put(index, amount, hashes);
        sums := sums[SetOf(token) := BalanceAt(sums, SetOf(token)) + amount];
      }
      assert stored[..i] == stored;
    }

    /** Reindexing after the issuer's entries were set to canonical ones keeps the whole wallet in agreement. */
    lemma ReindexKeeps(before: State, changed: map<string, Entries>, issuer: string)
      requires StateOK(before) && changed - {issuer} == before.tokens - {issuer}
      requires OwnKeyed(issuer, EntriesOf(changed, issuer))
      requires IssuerFrom(S(), issuer, Values(EntriesOf(changed, issuer)))
      requires OnlyIssuer(State(changed, before.tokenIndex, before.tatIndex, before.balances), S(), issuer)
      ensures Valid()
      ensures Slot(tokens, issuer, EntriesOf(changed, issuer)) && tokens - {issuer} == before.tokens - {issuer}
    {
      var m := EntriesOf(changed, issuer);
      OwnKeyedClaims(issuer, m);
      CanonicalIsSelf(issuer, m);
      RebuiltIsOK(before, S(), issuer, Values(m));
      forall other: string ensures IssuerOK(S(), other) {
        if other != issuer {
          assert IssuerOK(before, other);
          OthersStay(before, S(), issuer, other);
        }
      }
    }

    /** Store a received token: verified, not held yet, and then indexed. */
    method StoreToken(w: Wire) returns (outcome: Outcome)
      requires Valid()
      modifies this
      ensures Valid()
      ensures outcome == StoreOutcome(old(tokens), w)
      ensures tokens == StoreInto(old(tokens), w)
      ensures forall issuer: string, h: Hash ::
                HeldUnder(tokens, issuer, h)
                == if outcome == Stored && issuer == w.token.payload.iss && h == w.token.claimedHash then Some(w)
                   else HeldUnder(old(tokens), issuer, h)
      ensures old(GenuineTokens(tokens)) ==> GenuineTokens(tokens)
    {
      ghost var before := S();
      StoredAll(tokens, w);
      if GenuineTokens(tokens) { StoreKeepsGenuine(tokens, w); }
      if w.Malformed? { return Failed; }
      if !VerifyTokenHash(w.token) { return Rejected; }
      if !VerifyTokenSignature(w.token) { return Rejected; }
      var issuer, tokenHash := w.token.payload.iss, w.token.claimedHash;
      if issuer in tokens && Has(tokens[issuer], tokenHash) { return Duplicate; }
      StoreIsSound(before, w);
      if issuer in tokens {
        tokens := tokens[issuer := tokens[issuer] + [Pair(tokenHash, w)]];
      } else {
        tokens := tokens[issuer := [Pair(tokenHash, w)]];
      }
      assert tokens == StoreInto(before.tokens, w);
      ReindexIssuerState(issuer);
      ReindexKeeps(before, StoreInto(before.tokens, w), issuer);
      MapFromParts(tokens, StoreInto(before.tokens, w), issuer);
      return Stored;
    }

    method DeleteToken(w: Wire) returns (threw: bool)
      requires Valid()
      modifies this
      ensures Valid()
      ensures threw == w.Malformed?
      ensures tokens == if threw then old(tokens) else DeleteFrom(old(tokens), w.token.payload.iss, w.token.claimedHash)
      ensures forall issuer: string, h: Hash ::
                HeldUnder(tokens, issuer, h)
                == if w.Jwt? && issuer == w.token.payload.iss && h == w.token.claimedHash then None
                   else HeldUnder(old(tokens), issuer, h)
      ensures old(GenuineTokens(tokens)) ==> GenuineTokens(tokens)
    {
      ghost var before := S();
      if w.Jwt? { DeletedAll(before, w.token.payload.iss, w.token.claimedHash); }
      if w.Jwt? && GenuineTokens(tokens) { DeleteIsGenuine(before, w.token.payload.iss, w.token.claimedHash); }
      if w.Malformed? { return true; }
      var issuer, tokenHash := w.token.payload.iss, w.token.claimedHash;
      assert IssuerOK(before, issuer);
      LeftEntries(issuer, EntriesOf(tokens, issuer), tokenHash);
      if issuer in tokens {
        tokens := tokens[issuer := Remove(tokens[issuer], tokenHash)];
      }
      ghost var changed := tokens;
      ReindexIssuerState(issuer);
      ReindexKeeps(before, changed, issuer);
      MapFromParts(tokens, DeleteFrom(before.tokens, issuer, tokenHash), issuer);
      return false;
    }

    /** Rebuild every issuer that any of the maps mentions, in whatever order. */
    method RebuildIndexesAndBalances()
      modifies this
      ensures forall issuer: string :: IssuerFrom(S(), issuer, Values(EntriesOf(old(tokens), issuer)))
    {
      var todo := tokens.Keys + tokenIndex.Keys + tatIndex.Keys + balances.Keys;
      while todo != {}
        invariant PartlyRebuilt(old(tokens), S(), todo)
        decreases |todo|
      {
        var issuer :| issuer in todo;
        ghost var before := S();
        ReindexIssuerState(issuer);
        RebuiltOneMore(old(tokens), before, S(), todo, issuer);
        todo := todo - {issuer};
      }
      forall issuer: string ensures IssuerFrom(S(), issuer, Values(EntriesOf(old(tokens), issuer))) {
        assert RebuiltAt(old(tokens), S(), issuer);
      }
    }

    /** Take over a saved state and repair it: the saved indexes are ignored. */
    method Load(saved: State)
      modifies this
      ensures forall issuer: string :: IssuerFrom(S(), issuer, Values(EntriesOf(saved.tokens, issuer)))
      ensures (forall issuer: string :: ClaimsDistinct(Held(saved.tokens, issuer))) ==> Valid()
      ensures Valid() ==> forall issuer: string :: FungiblesDistinct(Held(saved.tokens, issuer))
    {
      tokens, tokenIndex, tatIndex, balances := saved.tokens, saved.tokenIndex, saved.tatIndex, saved.balances;
      assert tokens == saved.tokens;
      RebuildIndexesAndBalances();
      assert forall issuer: string :: IssuerFrom(S(), issuer, Values(EntriesOf(saved.tokens, issuer)));
      if forall issuer: string :: ClaimsDistinct(Held(saved.tokens, issuer)) {
        forall issuer: string ensures IssuerOK(S(), issuer) {
          assert ClaimsDistinct(Held(saved.tokens, issuer));
          RebuiltIsOK(saved, S(), issuer, Values(EntriesOf(saved.tokens, issuer)));
        }
      }
      if Valid() {
        forall issuer: string ensures FungiblesDistinct(Held(saved.tokens, issuer)) {
          assert IssuerFrom(S(), issuer, Values(EntriesOf(saved.tokens, issuer))) && IssuerOK(S(), issuer);
          AgreementNeedsDistinct(S(), issuer, Values(EntriesOf(saved.tokens, issuer)));
        }
      }
    }

    /** Import a backup's tokens one by one. A token that storing rejects still counts as imported. */
    method ImportTokens(list: seq<Wire>) returns (imported: nat, failed: nat, duplicates: nat)
      requires Valid()
      modifies this
      ensures Valid()
      ensures tokens == StoreAll(old(tokens), list)
      ensures old(GenuineTokens(tokens)) ==> GenuineTokens(tokens)
      ensures imported + failed + duplicates == |list|
      ensures failed == MalformedIn(list) && duplicates == DuplicatesIn(old(tokens), list)
    {
      imported, failed, duplicates := 0, 0, 0;
      var i := 0;
      while i < |list|
        invariant 0 <= i <= |list| && Valid()
        invariant tokens == StoreAll(old(tokens), list[..i])
        invariant old(GenuineTokens(tokens)) ==> GenuineTokens(tokens)
        invariant imported + failed + duplicates == i && failed == MalformedIn(list[..i])
        invariant duplicates == DuplicatesIn(old(tokens), list[..i])
      {
        var w := list[i];
        assert list[..i + 1][..i] == list[..i];
        i := i + 1;
        if w.Malformed? { failed := failed + 1; continue; }
        var issuer, tokenHash := w.token.payload.iss, w.token.claimedHash;
        if issuer in tokens && Has(tokens[issuer], tokenHash) {
          duplicates := duplicates + 1;
          continue;
        }
        var _ := StoreToken(w);
        imported := imported + 1;
      }
      assert list[..i] == list;
    }

    /** The token part of exportRecoverySnapshot: all tokens, issuer after issuer. Importing them rebuilds the map. */
    method ExportTokens() returns (list: seq<Wire>)
      requires Valid()
      ensures GenuineTokens(tokens) ==> StoreAll(map[], list) == tokens
    {
      list := [];
      var todo := tokens.Keys;
      ghost var done: map<string, Entries> := map[];
      while todo != {}
        invariant todo <= tokens.Keys
        invariant done == map issuer | issuer in tokens && issuer !in todo :: tokens[issuer]
        invariant GenuineTokens(tokens) ==> StoreAll(map[], list) == done
        decreases |todo|
      {
        var issuer :| issuer in todo;
        var m := tokens[issuer];
        assert IssuerOK(S(), issuer);
        NonEmptyEntries(S(), issuer);
        if GenuineTokens(tokens) {
          StoreBlock(done, issuer, m);
          StoreAllConcat(map[], list, Values(m));
        }
        list := list + Values(m);
        done := done[issuer := m];
        todo := todo - {issuer};
      }
      assert done == tokens;
    }

    static lemma MapFromParts<V>(m: map<string, V>, m': map<string, V>, k: string)
      requires m - {k} == m' - {k}
      requires (k in m <==> k in m') && (k in m ==> m[k] == m'[k])
      ensures m == m'
    {
      forall j ensures (j in m <==> j in m') && (j in m ==> m[j] == m'[j]) {
        if j != k { SameAt(m, m', k, j); }
      }
    }
  }
}
