/** Signed tokens: three base64url fields joined by dots, the shape of section 7.1 of RFC 7515. */
module Token {
  import opened Bytes
  import opened Sequences
  import Base64Url

  datatype Claims = Claims(subject: string, role: string, expiresAt: int)

  /** The libraries the service calls; nothing is known about them but what a lemma requires. */
  datatype Libraries = Libraries(
    hmac: (Bytes, Bytes) -> Bytes,
    marshal: Claims -> Option<Bytes>,
    unmarshal: Bytes -> Option<Claims>,
    hashPassword: string -> string)

  /** What JSON encoding promises for one claims value. */
  ghost predicate JsonRoundTrips(lib: Libraries, claims: Claims) {
    lib.marshal(claims).Some? && lib.unmarshal(lib.marshal(claims).value) == Some(claims)
  }

  datatype Parsed = Accepted(claims: Claims) | InvalidToken | ExpiredToken

  const DOT: byte := 46

  /** Instants and durations are in nanoseconds. */
  const SECOND := 1_000_000_000

  const HOUR := 3600 * SECOND

  /** Unix seconds, rounding down. */
  function Unix(instant: int): int {
    instant / SECOND
  }

  const HEADER := Ascii("{\"alg\":\"HS256\",") + Ascii("\"typ\":\"AUTH\"}")

  function Sign(lib: Libraries, secret: Bytes, data: Bytes): Bytes {
    Base64Url.Encode(lib.hmac(secret, data))
  }

  function SigningInput(header: Bytes, json: Bytes): Bytes {
    Base64Url.Encode(header) + [DOT] + Base64Url.Encode(json)
  }

  function Signed(lib: Libraries, secret: Bytes, input: Bytes): Bytes {
    input + [DOT] + Sign(lib, secret, input)
  }

  function IssuedClaims(subject: string, role: string, ttl: int, now: int): Claims {
    Claims(subject, role, Unix(now + ttl))
  }

  /** None when the claims cannot be marshalled. */
  function NewToken(lib: Libraries, secret: Bytes, subject: string, role: string, ttl: int, now: int): Option<Bytes> {
    match lib.marshal(IssuedClaims(subject, role, ttl, now))
    case None => None
    case Some(json) => Some(Signed(lib, secret, SigningInput(HEADER, json)))
  }

  /** strings.Split with a one-octet separator. */
  function Split(s: Bytes, sep: byte): (parts: seq<Bytes>)
    ensures parts != []
  {
    if s == [] then [[]]
    else
      var parts := Split(s[1..], sep);
      if s[0] == sep then [[]] + parts else [[s[0]] + parts[0]] + parts[1..]
  }

  predicate SignatureValid(lib: Libraries, secret: Bytes, token: Bytes) {
    var parts := Split(token, DOT);
    |parts| == 3 && parts[2] == Sign(lib, secret, parts[0] + [DOT] + parts[1])
  }

  function ParseToken(lib: Libraries, secret: Bytes, token: Bytes, now: int): Parsed {
    if !SignatureValid(lib, secret, token) then InvalidToken
    else
      match Base64Url.Decode(Split(token, DOT)[1])
      case None => InvalidToken
      case Some(json) =>
        match lib.unmarshal(json)
        case None => InvalidToken
        case Some(claims) => if Unix(now) > claims.expiresAt then ExpiredToken else Accepted(claims)
  }

  function Joined(parts: seq<Bytes>, sep: byte): Bytes {
    if parts == [] then [] else if |parts| == 1 then parts[0] else parts[0] + [sep] + Joined(parts[1..], sep)
  }

  lemma JoinedPrepend(c: byte, parts: seq<Bytes>, sep: byte)
    requires parts != []
    ensures Joined([[c] + parts[0]] + parts[1..], sep) == [c] + Joined(parts, sep)
  {
    var longer := [[c] + parts[0]] + parts[1..];
    assert longer[1..] == parts[1..];
    if |parts| > 1 {
      var tail := [sep] + Joined(parts[1..], sep);
      Associative([c], parts[0], tail);
      assert Joined(parts, sep) == parts[0] + tail;
      assert Joined(longer, sep) == longer[0] + tail;
    }
  }

  /** Split cuts at every separator and nowhere else. */
  lemma {:induction false} SplitThenJoin(s: Bytes, sep: byte)
    ensures Joined(Split(s, sep), sep) == s
    ensures forall p :: p in Split(s, sep) ==> sep !in p
  {
    if s == [] {
    } else {
      SplitThenJoin(s[1..], sep);
      var rest := Split(s[1..], sep);
      assert s == [s[0]] + s[1..];
      if s[0] == sep {
        var empty: Bytes := [];
        assert Split(s, sep) == [empty] + rest;
        assert ([empty] + rest)[1..] == rest;
      } else {
        JoinedPrepend(s[0], rest, sep);
        assert rest[0] in rest;
      }
    }
  }

  lemma {:induction false} SplitFirst(a: Bytes, rest: Bytes, sep: byte)
    requires sep !in a
    ensures Split(a + [sep] + rest, sep) == [a] + Split(rest, sep)
  {
    if a == [] {
      assert a + [sep] + rest == [sep] + rest;
    } else {
      SplitFirst(a[1..], rest, sep);
      assert (a + [sep] + rest)[1..] == a[1..] + [sep] + rest;
      assert [a[0]] + a[1..] == a;
    }
  }

  lemma {:induction false} SplitWhole(a: Bytes, sep: byte)
    requires sep !in a
    ensures Split(a, sep) == [a]
  {
    if a == [] {
    } else {
      SplitWhole(a[1..], sep);
      assert [a[0]] + a[1..] == a;
    }
  }

  /** The two-dot join of a header and a payload splits back into them and the rest. */
  lemma SplitSigned(header: Bytes, json: Bytes, signature: Bytes)
    ensures Split(SigningInput(header, json) + [DOT] + signature, DOT)
         == [Base64Url.Encode(header), Base64Url.Encode(json)] + Split(signature, DOT)
  {
    hide Split, Base64Url.Encode, Base64Url.Decode;
    var h, p := Base64Url.Encode(header), Base64Url.Encode(json);
    Base64Url.RoundTrip(header);
    Base64Url.RoundTrip(json);
    assert SigningInput(header, json) + [DOT] + signature == h + [DOT] + (p + [DOT] + signature);
    SplitFirst(h, p + [DOT] + signature, DOT);
    SplitFirst(p, signature, DOT);
  }

  /** token is the signing input of a header and a payload text followed by its signature. */
  ghost predicate SignedText(lib: Libraries, secret: Bytes, token: Bytes, header: Bytes, payload: Bytes) {
    && DOT !in header && DOT !in payload
    && token == Signed(lib, secret, header + [DOT] + payload)
  }

  /** The signature check passes for exactly the texts that signing some header and payload gives. */
  lemma SignedExactly(lib: Libraries, secret: Bytes, token: Bytes)
    ensures SignatureValid(lib, secret, token)
       <==> exists header, payload :: SignedText(lib, secret, token, header, payload)
  {
    if SignatureValid(lib, secret, token) {
      var parts := Split(token, DOT);
      SplitThenJoin(token, DOT);
      assert parts[1..][1..] == [parts[2]];
      assert Joined(parts[1..], DOT) == parts[1] + [DOT] + parts[2];
      assert token == parts[0] + [DOT] + parts[1] + [DOT] + parts[2];
      assert parts[0] in parts && parts[1] in parts;
      assert SignedText(lib, secret, token, parts[0], parts[1]);
    }
    if header, payload :| SignedText(lib, secret, token, header, payload) {
      var signature := Sign(lib, secret, header + [DOT] + payload);
      Base64Url.RoundTrip(lib.hmac(secret, header + [DOT] + payload));
      assert token == header + [DOT] + (payload + [DOT] + signature);
      SplitFirst(header, payload + [DOT] + signature, DOT);
      SplitFirst(payload, signature, DOT);
      SplitWhole(signature, DOT);
    }
  }

  /** A text is parsed as its payload says, in whatever header, until the second after its expiry, if it is signed. */
  lemma ParsesExactly(lib: Libraries, secret: Bytes, header: Bytes, payload: Bytes, signature: Bytes, now: int)
    requires 46 !in header && 46 !in payload
    ensures ParseToken(lib, secret, header + [46] + payload + [46] + signature, now)
         == if signature != Base64Url.Encode(lib.hmac(secret, header + [46] + payload)) then InvalidToken
            else match Base64Url.Decode(payload)
              case None => InvalidToken
              case Some(json) =>
                match lib.unmarshal(json)
                case None => InvalidToken
                case Some(claims) =>
                  if now >= (claims.expiresAt + 1) * 1_000_000_000 then ExpiredToken else Accepted(claims)
  {
    assert header + [46] + payload + [46] + signature == header + [46] + (payload + [46] + signature);
    SplitFirst(header, payload + [46] + signature, DOT);
    SplitFirst(payload, signature, DOT);
    Base64Url.RoundTrip(lib.hmac(secret, header + [46] + payload));
    if 46 !in signature {
      SplitWhole(signature, DOT);
    }
    SplitThenJoin(signature, DOT);
  }

  /** A text that is not two dots and a signature of what precedes the second is invalid. */
  lemma OthersAreInvalid(lib: Libraries, secret: Bytes, token: Bytes, now: int)
    requires !exists header, payload :: SignedText(lib, secret, token, header, payload)
    ensures ParseToken(lib, secret, token, now) == InvalidToken
  {
    SignedExactly(lib, secret, token);
  }

  /** Parsing a signed text is decided by its payload and the clock, whatever its header. */
  lemma SignedParses(lib: Libraries, secret: Bytes, header: Bytes, json: Bytes, now: int)
    ensures var token, claims := Signed(lib, secret, SigningInput(header, json)), lib.unmarshal(json);
      && SignatureValid(lib, secret, token)
      && ParseToken(lib, secret, token, now)
         == if claims.None? then InvalidToken
            else if now >= (claims.value.expiresAt + 1) * 1_000_000_000 then ExpiredToken
            else Accepted(claims.value)
  {
    var h, p := Base64Url.Encode(header), Base64Url.Encode(json);
    Base64Url.RoundTrip(header);
    Base64Url.RoundTrip(json);
    ParsesExactly(lib, secret, h, p, Sign(lib, secret, SigningInput(header, json)), now);
    assert SignedText(lib, secret, Signed(lib, secret, SigningInput(header, json)), h, p);
    SignedExactly(lib, secret, Signed(lib, secret, SigningInput(header, json)));
  }

  /** The octets of {"alg":"HS256","typ":"AUTH"}. */
  const HEADER_OCTETS: Bytes :=
    [123, 34, 97, 108, 103, 34, 58, 34, 72, 83, 50, 53, 54, 34, 44,
     34, 116, 121, 112, 34, 58, 34, 65, 85, 84, 72, 34, 125]

  lemma HeaderIsOctets()
    ensures HEADER == HEADER_OCTETS
  {
  }

  /**
   An issued token is three dot-separated fields in base64url: the fixed header, the JSON of the
   claims and the MAC of the first two, under the second in which the lifetime ends.
   */
  lemma IssuedShape(lib: Libraries, secret: Bytes, subject: string, role: string, ttl: int, issued: int)
    ensures var json := lib.marshal(Claims(subject, role, (issued + ttl) / 1_000_000_000));
      var token := NewToken(lib, secret, subject, role, ttl, issued);
      && (token.Some? <==> json.Some?)
      && (json.Some? ==>
            var input := Base64Url.Encode(HEADER_OCTETS) + [46] + Base64Url.Encode(json.value);
            token.value == input + [46] + Base64Url.Encode(lib.hmac(secret, input)))
  {
    HeaderIsOctets();
  }

  /** Parsing an issued token gives back exactly the issued claims through their expiry second, then expires. */
  lemma TokenRoundTrip(lib: Libraries, secret: Bytes, subject: string, role: string, ttl: int, issued: int, now: int)
    requires JsonRoundTrips(lib, IssuedClaims(subject, role, ttl, issued))
    ensures var token := NewToken(lib, secret, subject, role, ttl, issued);
      && token.Some?
      && SignatureValid(lib, secret, token.value)
      && ParseToken(lib, secret, token.value, now)
         == var expiry := (issued + ttl) / 1_000_000_000;
            if now / 1_000_000_000 <= expiry then Accepted(Claims(subject, role, expiry)) else ExpiredToken
  {
    SignedParses(lib, secret, HEADER, lib.marshal(IssuedClaims(subject, role, ttl, issued)).value, now);
  }

  /** The lifetime in sub-second time: accepted up to issue plus ttl, expired a second later. */
  lemma TokenLifetime(lib: Libraries, secret: Bytes, subject: string, role: string, ttl: int, issued: int, now: int)
    requires JsonRoundTrips(lib, IssuedClaims(subject, role, ttl, issued))
    ensures var token := NewToken(lib, secret, subject, role, ttl, issued);
      && token.Some?
      && var parsed := ParseToken(lib, secret, token.value, now);
      && (now <= issued + ttl ==> parsed.Accepted?)
      && (now >= issued + ttl + 1_000_000_000 ==> parsed == ExpiredToken)
      && (parsed.Accepted? <==> now < ((issued + ttl) / 1_000_000_000 + 1) * 1_000_000_000)
  {
    TokenRoundTrip(lib, secret, subject, role, ttl, issued, now);
  }

  /** Any other text in the signature's place is rejected, even one that contains dots. */
  lemma TamperedSignatureRejected(lib: Libraries, secret: Bytes, header: Bytes, json: Bytes, signature: Bytes, now: int)
    requires signature != Sign(lib, secret, SigningInput(header, json))
    ensures ParseToken(lib, secret, SigningInput(header, json) + [DOT] + signature, now) == InvalidToken
  {
    SplitSigned(header, json, signature);
    SplitThenJoin(signature, DOT);
  }

  /** Under another secret a signed text passes exactly when the two MACs collide. */
  lemma WrongSecretRejected(lib: Libraries, secret: Bytes, other: Bytes, header: Bytes, json: Bytes)
    ensures var input := SigningInput(header, json);
      SignatureValid(lib, other, Signed(lib, secret, input)) <==> lib.hmac(secret, input) == lib.hmac(other, input)
  {
    var input := SigningInput(header, json);
    SplitSigned(header, json, Sign(lib, secret, input));
    Base64Url.RoundTrip(lib.hmac(secret, input));
    Base64Url.RoundTrip(lib.hmac(other, input));
    SplitWhole(Sign(lib, secret, input), DOT);
  }
}
