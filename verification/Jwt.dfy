/** Token text: three dot-joined parts (section 7.1 of RFC 7515), two of them unpadded base64 of JSON. */
module Jwt {
  import opened Prelude
  import opened Json
  import Utf8
  import Base64

  /** encode_header and encode_payload. */
  function EncodePart(v: Json): string {
    Base64.RemovePadding(Base64.Encode(Utf8.Encode(Stringify(v))))
  }

  /** The bytes of a part, its padding restored. */
  function PartBytes(text: string): Option<seq<Utf8.Byte>> { Base64.Decode(Base64.PadEnd(text)) }

  function BytesJson(bytes: seq<Utf8.Byte>): Option<Json> {
    match Utf8.Decode(bytes)
    case None => None
    case Some(s) => Parse(s)
  }

  function DecodePart(text: string): Option<Json> {
    match PartBytes(text)
    case None => None
    case Some(bytes) => BytesJson(bytes)
  }

  /** The pieces between the dots. */
  function Split(s: string): (parts: seq<string>)
    ensures |parts| >= 1
  {
    if s == "" then [""]
    else
      var rest := Split(s[1..]);
      if s[0] == '.' then [""] + rest else [[s[0]] + rest[0]] + rest[1..]
  }

  function Write(header: Json, payload: Json, signature: string): string {
    EncodePart(header) + "." + (EncodePart(payload) + "." + signature)
  }

  function Read(jwt: string): Option<(Json, Json, string)> {
    var parts := Split(jwt);
    if |parts| != 3 || parts[0] == "" || parts[1] == "" || parts[2] == "" then None
    else
      match (DecodePart(parts[0]), DecodePart(parts[1]))
      case (Some(h), Some(p)) => Some((h, p, parts[2]))
      case _ => None
  }

  /** The header that reading stores: both parts are base64 and the first holds JSON, whatever the second holds. */
  function HeaderStored(jwt: string): Option<Json> {
    var parts := Split(jwt);
    if |parts| != 3 || parts[0] == "" || parts[1] == "" || parts[2] == "" || PartBytes(parts[1]).None? then None
    else DecodePart(parts[0])
  }

  class Token {
    var header: Json
    var payload: Json
    var signature: string

    constructor (header: Json, payload: Json)
      ensures this.header == header && this.payload == payload && this.signature == ""
    {
      this.header, this.payload, this.signature := header, payload, "";
    }

    method ToJWT(signature: string) returns (jwt: string)
      modifies this`signature
      ensures jwt == Write(header, payload, signature) && this.signature == signature
      ensures jwt == EncodePart(header) + "." + EncodePart(payload) + "." + signature
    {
      var headerPayload := EncodePart(header) + "." + EncodePart(payload);
      this.signature := signature;
      jwt := headerPayload + "." + signature;
      assert jwt == Write(header, payload, signature);
    }

    /**
     * ok is false where the source throws. The parts are stored one after the other: the header stays replaced
     * when it could be read and the payload's JSON could not.
     */
    method FromJWT(jwt: string) returns (ok: bool)
      modifies this
      ensures ok == Read(jwt).Some?
      ensures ok ==> (header, payload, signature) == Read(jwt).value
      ensures !ok ==> payload == old(payload) && signature == old(signature)
      ensures !ok ==> header == if HeaderStored(jwt).Some? then HeaderStored(jwt).value else old(header)
    {
      var parts := Split(jwt);
      if |parts| != 3 { return false; }
      if parts[0] == "" || parts[1] == "" || parts[2] == "" { return false; }
      var headerBytes := PartBytes(parts[0]);
      if headerBytes.None? { return false; }
      var payloadBytes := PartBytes(parts[1]);
      if payloadBytes.None? { return false; }
      var h := BytesJson(headerBytes.value);
      if h.None? { return false; }
      header := h.value;
      var p := BytesJson(payloadBytes.value);
      if p.None? { return false; }
      payload := p.value;
      signature := parts[2];
      return true;
    }
  }

  // ----- round trip -----

  lemma {:induction false} SplitAtDot(a: string, b: string)
    requires '.' !in a
    ensures Split(a + "." + b) == [a] + Split(b)
  {
    var s := a + "." + b;
    if a == "" {
      assert s[1..] == b;
    } else {
      assert s[1..] == a[1..] + "." + b;
      SplitAtDot(a[1..], b);
      assert [s[0]] + a[1..] == a;
    }
  }

  lemma {:induction false} SplitDotFree(a: string)
    ensures |Split(a)| == 1 <==> '.' !in a
    ensures '.' !in a ==> Split(a) == [a]
  {
    if a != "" {
      SplitDotFree(a[1..]);
      assert [a[0]] + a[1..] == a;
    }
  }

  /** The bytes of a part survive base64 without its padding, and no dot appears in it. */
  lemma BytesRoundTrip(bytes: seq<Utf8.Byte>)
    ensures Base64.Decode(Base64.PadEnd(Base64.RemovePadding(Base64.Encode(bytes)))) == Some(bytes)
    ensures '.' !in Base64.RemovePadding(Base64.Encode(bytes))
    ensures bytes != [] ==> Base64.RemovePadding(Base64.Encode(bytes)) != ""
  {
    Base64.PaddingRoundTrip(bytes);
    Base64.RoundTrip(bytes);
    assert !Base64.IsSymbol('.');
  }

  lemma TextNotEmpty(v: Json)
    requires WellFormed(v)
    ensures Stringify(v) != ""
  {
    RoundTrip(v);
    assert Parse("").None?;
  }

  lemma PartRoundTrip(v: Json)
    requires WellFormed(v)
    ensures DecodePart(EncodePart(v)) == Some(v)
    ensures EncodePart(v) != "" && '.' !in EncodePart(v)
  {
    var s := Stringify(v);
    TextNotEmpty(v);
    Utf8.RoundTrip(s);
    BytesRoundTrip(Utf8.Encode(s));
    RoundTrip(v);
  }

  /** A part is base64 of the JSON text without padding: symbols of the alphabet only. */
  lemma PartsAreBare(v: Json)
    ensures forall c :: c in EncodePart(v) ==> c != '=' && Base64.IsSymbol(c)
    ensures PartBytes(EncodePart(v)) == Some(Utf8.Encode(Stringify(v)))
  {
    Base64.PaddingRoundTrip(Utf8.Encode(Stringify(v)));
    BytesRoundTrip(Utf8.Encode(Stringify(v)));
    assert !Base64.IsSymbol('=');
  }

  /** Writing and reading back restores all three parts exactly when the signature is non-empty and has no dot. */
  lemma TokenTextRoundTrip(header: Json, payload: Json, signature: string)
    requires WellFormed(header) && WellFormed(payload)
    ensures Read(Write(header, payload, signature)) == Some((header, payload, signature))
            <==> signature != "" && '.' !in signature
    ensures signature == "" || '.' in signature ==> Read(Write(header, payload, signature)).None?
  {
    PartRoundTrip(header);
    PartRoundTrip(payload);
    SplitAtDot(EncodePart(header), EncodePart(payload) + "." + signature);
    SplitAtDot(EncodePart(payload), signature);
    SplitDotFree(signature);
  }

  /** Distinct payloads have distinct encodings, so a collision-free hash of the encoding identifies the payload. */
  lemma HashInputIdentifiesPayload(p: Json, q: Json)
    requires WellFormed(p) && WellFormed(q)
    requires Quote(EncodePart(p)) == Quote(EncodePart(q))
    ensures p == q
  {
    PartRoundTrip(p);
    PartRoundTrip(q);
    RoundTrip(JStr(EncodePart(p)));
    RoundTrip(JStr(EncodePart(q)));
  }
}
