/** The gateway's global JWT filter: public paths pass untouched, every other
  * request needs an `Authorization: Bearer` token in JWS compact form whose
  * key is found by `kid` in Clerk's key set (cached per `kid`), whose
  * signature and issuer check out and which has not expired; the backend then
  * receives the caller's identity in `X-User-Id` and `X-Org-Id`. Base64url
  * decoding, JSON parsing, RSA key construction and the signature check are
  * oracles, and the key-set download is passed in as its reply. */
module JwtFilter {
  import opened Common
  import opened Json

  // ------------------------------------------------------------------
  // Requests and responses
  // ------------------------------------------------------------------

  /** An incoming request: its path and the first value of each header. */
  datatype GatewayRequest = GatewayRequest(path: string, headers: map<string, string>)

  datatype ErrorResponse = ErrorResponse(status: int, contentType: string, body: string)

  /** Either the (possibly rewritten) request goes on down the chain, or the
    * exchange is answered directly. */
  datatype FilterOutcome = Forwarded(request: GatewayRequest) | Rejected(response: ErrorResponse)

  /** The one answer the filter gives to every failure. */
  const Unauthorized := ErrorResponse(401, "application/json",
    "{\"error\":\"Unauthorized\",\"message\":\"Invalid or missing JWT token\"}")

  const AuthorizationHeader := "Authorization"
  const UserIdHeader := "X-User-Id"
  const OrgIdHeader := "X-Org-Id"
  const BearerPrefix := "Bearer "

  // ------------------------------------------------------------------
  // Claims, keys and oracles
  // ------------------------------------------------------------------

  /** The verified claims the filter reads: `sub` (section 4.1.2 of RFC 7519),
    * Clerk's `org_id`, and `exp` (section 4.1.4 of RFC 7519) in milliseconds. */
  datatype Claims = Claims(subject: Option<string>, orgId: Option<string>, expirationMillis: Option<int>)

  /** An RSA public key built from a JWK's `n` and `e` (section 6.3.1 of RFC 7518). */
  datatype PublicKey = RsaPublicKey(modulus: nat, exponent: nat)

  /** The reply of the key-set download: a status and a body. */
  datatype JwksReply = JwksReply(status: int, body: string)

  /** Library calls the filter makes, each returning or throwing:
    * `decodeSegment` is base64url decoding followed by UTF-8 decoding,
    * `jwkToPublicKey` builds the RSA key from the base64url `n` and `e`, and
    * `parseSignedClaims` checks the signature with the key and the issuer
    * and returns the payload's claims. */
  datatype Oracles = Oracles(
    decodeSegment: string -> Attempt<string>,
    parseJson: string -> Attempt<Json>,
    jwkToPublicKey: (string, string) -> Attempt<PublicKey>,
    parseSignedClaims: (string, PublicKey, string) -> Attempt<Claims>)

  // ------------------------------------------------------------------
  // Public paths and the bearer token
  // ------------------------------------------------------------------

  /** Webhooks, the health check and payments need no token. */
  function IsPublicPath(path: string): (r: bool)
    ensures r ==> StartsWith(path, "/api/")
    ensures StartsWith(path, "/api/webhooks") || StartsWith(path, "/api/payments") ==> r
    ensures path == "/api/health" ==> r
    ensures r && !StartsWith(path, "/api/webhooks") && !StartsWith(path, "/api/payments") ==> path == "/api/health"
  {
    StartsWith(path, "/api/webhooks") || path == "/api/health" || StartsWith(path, "/api/payments")
  }

  /** The token of an `Authorization: Bearer <token>` header (section 2.1 of
    * RFC 6750): everything after the seven-character prefix. */
  function BearerToken(req: GatewayRequest): (r: Option<string>)
    ensures r.Some? <==> AuthorizationHeader in req.headers && StartsWith(req.headers[AuthorizationHeader], BearerPrefix)
    ensures r.Some? ==> req.headers[AuthorizationHeader] == BearerPrefix + r.value
  {
    if AuthorizationHeader in req.headers && StartsWith(req.headers[AuthorizationHeader], BearerPrefix) then
      var h := req.headers[AuthorizationHeader];
      assert h == h[..7] + h[7..];
      Some(h[7..])
    else None
  }

  lemma BearerRoundTrip(req: GatewayRequest, token: string)
    requires req.headers == map[AuthorizationHeader := BearerPrefix + token]
    ensures BearerToken(req) == Some(token)
  {
    assert (BearerPrefix + token)[7..] == token;
  }

  // ------------------------------------------------------------------
  // The key cache
  // ------------------------------------------------------------------

  /** The `kid` of a key-set entry (section 4.1.4 of RFC 7515), None when the
    * entry has none (dereferencing it throws). */
  function KidText(key: Json): (r: Option<string>)
    ensures r.Some? <==> Has(key, "kid")
  {
    if Has(key, "kid") then Some(Text(key, "kid")) else None
  }

  /** Entries `from` up to `to` all carry a `kid`, and none is `kid`. */
  predicate Misses(keys: seq<Json>, kid: string, from: nat, to: nat)
    requires from <= to <= |keys|
  {
    forall j :: from <= j < to ==> KidText(keys[j]).Some? && KidText(keys[j]).value != kid
  }

  datatype ScanResult = Match(index: nat) | NoMatch | NoKid(index: nat)

  /** The loop over the key set from entry `from`: it stops at the first entry
    * whose `kid` is `kid`, or at the first entry without one. */
  function Scan(keys: seq<Json>, kid: string, from: nat): (r: ScanResult)
    requires from <= |keys|
    ensures r.Match? ==> from <= r.index < |keys| && KidText(keys[r.index]) == Some(kid) && Misses(keys, kid, from, r.index)
    ensures r.NoKid? ==> from <= r.index < |keys| && KidText(keys[r.index]).None? && Misses(keys, kid, from, r.index)
    ensures r.NoMatch? ==> Misses(keys, kid, from, |keys|)
    decreases |keys| - from
  {
    if from == |keys| then NoMatch
    else
      match KidText(keys[from])
      case None => NoKid(from)
      case Some(k) => if k == kid then Match(from) else Scan(keys, kid, from + 1)
  }

  /** `fetchJwks` followed by reading the `keys` array: a status other than
    * 200, or a `keys` field that is missing or not an array, is an error. */
  function JwksKeys(fetched: Attempt<JwksReply>, o: Oracles): (r: Attempt<seq<Json>>)
    ensures fetched.Ok? && fetched.value.status != 200 ==>
              r == Thrown("Failed to fetch JWKS: " + IntToString(fetched.value.status))
    ensures r.Ok? ==> fetched.Ok? && fetched.value.status == 200 &&
                      o.parseJson(fetched.value.body).Ok? &&
                      Get(o.parseJson(fetched.value.body).value, "keys") == Some(JArray(r.value))
  {
    match fetched
    case Thrown(m) => Thrown(m)
    case Ok(reply) =>
      if reply.status != 200 then Thrown("Failed to fetch JWKS: " + IntToString(reply.status))
      else
        match o.parseJson(reply.body)
        case Thrown(m) => Thrown(m)
        case Ok(jwks) =>
          match Get(jwks, "keys")
          case Some(JArray(items)) => Ok(items)
          case _ => Thrown("Invalid JWKS format")
  }

  /** The key of a matching entry: its `n` and `e` must be present. */
  function JwkKey(key: Json, o: Oracles): (r: Attempt<PublicKey>)
    ensures !Has(key, "n") || !Has(key, "e") ==> r == Thrown(NullPointerMessage)
    ensures r.Ok? ==> Has(key, "n") && Has(key, "e") && o.jwkToPublicKey(Text(key, "n"), Text(key, "e")) == r
  {
    if !Has(key, "n") || !Has(key, "e") then Thrown(NullPointerMessage)
    else o.jwkToPublicKey(Text(key, "n"), Text(key, "e"))
  }

  datatype KeyResult = KeyResult(key: Attempt<PublicKey>, cache: map<string, PublicKey>)

  /** `getPublicKey` as a function of the cache before the call: a cached
    * `kid` is answered from the cache whatever the key set holds; otherwise
    * the first entry of the key set with that `kid` gives the key, which is
    * cached. A failure leaves the cache as it was. */
  function KeyLookup(cache: map<string, PublicKey>, kid: string, fetched: Attempt<JwksReply>, o: Oracles)
    : (r: KeyResult)
    ensures kid in cache ==> r == KeyResult(Ok(cache[kid]), cache)
    ensures r.key.Thrown? ==> r.cache == cache
    ensures r.key.Ok? ==> r.cache == cache[kid := r.key.value]
    ensures r.key.Ok? && kid !in cache ==>
              JwksKeys(fetched, o).Ok? &&
              var keys := JwksKeys(fetched, o).value;
              Scan(keys, kid, 0).Match? && JwkKey(keys[Scan(keys, kid, 0).index], o) == r.key
    ensures kid !in cache && JwksKeys(fetched, o).Ok? && Scan(JwksKeys(fetched, o).value, kid, 0).NoMatch? ==>
              r.key == Thrown("Key not found in JWKS: " + kid)
  {
    if kid in cache then KeyResult(Ok(cache[kid]), cache)
    else
      match JwksKeys(fetched, o)
      case Thrown(m) => KeyResult(Thrown(m), cache)
      case Ok(keys) =>
        match Scan(keys, kid, 0)
        case NoKid(_) => KeyResult(Thrown(NullPointerMessage), cache)
        case NoMatch => KeyResult(Thrown("Key not found in JWKS: " + kid), cache)
        case Match(i) =>
          match JwkKey(keys[i], o)
          case Thrown(m) => KeyResult(Thrown(m), cache)
          case Ok(pk) => KeyResult(Ok(pk), cache[kid := pk])
  }

  /** The cache only grows: no lookup drops or replaces a cached key. */
  predicate Extends(before: map<string, PublicKey>, after: map<string, PublicKey>)
  {
    forall k :: k in before ==> k in after && after[k] == before[k]
  }

  /** Once a lookup succeeds, the next lookup of the same `kid` is a cache
    * hit: it returns the same key without consulting the key set. */
  lemma LookupThenHit(cache: map<string, PublicKey>, kid: string, fetched: Attempt<JwksReply>,
                      later: Attempt<JwksReply>, o: Oracles, o2: Oracles)
    requires KeyLookup(cache, kid, fetched, o).key.Ok?
    ensures Extends(cache, KeyLookup(cache, kid, fetched, o).cache)
    ensures var r := KeyLookup(cache, kid, fetched, o);
            KeyLookup(r.cache, kid, later, o2) == r
  {
  }

  /** A key set whose only entry with `kid` comes after entries with other
    * `kid`s is still searched to that entry. */
  lemma {:induction false} FirstMatchWins(keys: seq<Json>, kid: string, i: nat)
    requires i < |keys| && KidText(keys[i]) == Some(kid)
    requires Misses(keys, kid, 0, i)
    ensures Scan(keys, kid, 0) == Match(i)
  {
    ScanSkips(keys, kid, 0, i);
  }

  lemma {:induction false} ScanSkips(keys: seq<Json>, kid: string, from: nat, to: nat)
    requires from <= to <= |keys|
    requires Misses(keys, kid, from, to)
    ensures Scan(keys, kid, from) == Scan(keys, kid, to)
    decreases |keys| - from
  {
    if from < to {
      assert KidText(keys[from]).Some? && KidText(keys[from]).value != kid;
      ScanSkips(keys, kid, from + 1, to);
    }
  }

  // ------------------------------------------------------------------
  // Validating the token
  // ------------------------------------------------------------------

  datatype Checked = Checked(claims: Attempt<Claims>, cache: map<string, PublicKey>)

  /** An `exp` in the past (strictly before now) is refused. */
  function Expired(c: Claims, nowMillis: int): (r: bool)
    ensures c.expirationMillis.None? ==> !r
    ensures c.expirationMillis.Some? && c.expirationMillis.value >= nowMillis ==> !r
    ensures r ==> c.expirationMillis.Some? && nowMillis - c.expirationMillis.value >= 1
  {
    c.expirationMillis.Some? && c.expirationMillis.value < nowMillis
  }

  /** `validateJwt` as a function of the cache before the call: the token
    * must split on '.' into exactly three pieces (section 7.1 of RFC 7515),
    * its header must decode to JSON with a `kid`, the key for that `kid` must
    * be found, the signature and issuer must verify under that key and no
    * other, and it must not be expired. A key found and cached stays cached even when a later step
    * fails. */
  function TokenCheck(cache: map<string, PublicKey>, token: string, issuer: string, nowMillis: int,
                      fetched: Attempt<JwksReply>, o: Oracles): (r: Checked)
    ensures |JavaSplit(token, '.')| != 3 ==> r == Checked(Thrown("Invalid JWT format"), cache)
    ensures Extends(cache, r.cache)
    ensures r.claims.Ok? ==> |JavaSplit(token, '.')| == 3 && !Expired(r.claims.value, nowMillis)
    ensures r.claims.Ok? ==>
              exists pk :: pk in r.cache.Values && o.parseSignedClaims(token, pk, issuer) == r.claims
    ensures r.claims.Ok? ==>
              var first := JavaSplit(token, '.')[0];
              o.decodeSegment(first).Ok? && o.parseJson(o.decodeSegment(first).value).Ok?
              && var header := o.parseJson(o.decodeSegment(first).value).value;
              Has(header, "kid")
              && var found := KeyLookup(cache, Text(header, "kid"), fetched, o);
              found.key.Ok? && r.cache == found.cache
              && o.parseSignedClaims(token, found.key.value, issuer) == r.claims
  {
    var parts := JavaSplit(token, '.');
    if |parts| != 3 then Checked(Thrown("Invalid JWT format"), cache)
    else
      match o.decodeSegment(parts[0])
      case Thrown(m) => Checked(Thrown(m), cache)
      case Ok(headerJson) =>
        match o.parseJson(headerJson)
        case Thrown(m) => Checked(Thrown(m), cache)
        case Ok(header) =>
          if !Has(header, "kid") then Checked(Thrown(NullPointerMessage), cache)
          else
            var found := KeyLookup(cache, Text(header, "kid"), fetched, o);
            match found.key
            case Thrown(m) => Checked(Thrown(m), found.cache)
            case Ok(pk) =>
              match o.parseSignedClaims(token, pk, issuer)
              case Thrown(m) => Checked(Thrown(m), found.cache)
              case Ok(claims) =>
                assert found.cache[Text(header, "kid")] == pk && pk in found.cache.Values;
                if Expired(claims, nowMillis) then Checked(Thrown("JWT expired"), found.cache)
                else Checked(Ok(claims), found.cache)
  }

  // ------------------------------------------------------------------
  // The filter
  // ------------------------------------------------------------------

  /** The request handed to the backend: `X-User-Id` is the subject and
    * `X-Org-Id` the organization claim, or "" without one; whatever the
    * client sent in those headers is replaced. */
  function WithIdentity(req: GatewayRequest, subject: string, orgId: Option<string>): (r: GatewayRequest)
    ensures r.path == req.path
    ensures r.headers.Keys == req.headers.Keys + {UserIdHeader, OrgIdHeader}
    ensures r.headers[UserIdHeader] == subject
    ensures r.headers[OrgIdHeader] == (if orgId.Some? then orgId.value else "")
    ensures forall h :: h in req.headers && h != UserIdHeader && h != OrgIdHeader ==> r.headers[h] == req.headers[h]
  {
    var org := if orgId.Some? then orgId.value else "";
    req.(headers := req.headers[UserIdHeader := subject][OrgIdHeader := org])
  }

  datatype FilterStep = FilterStep(outcome: FilterOutcome, cache: map<string, PublicKey>)

  /** `filter` as a function of the cache before the call. */
  function Admission(cache: map<string, PublicKey>, req: GatewayRequest, issuer: string, nowMillis: int,
                     fetched: Attempt<JwksReply>, o: Oracles): (r: FilterStep)
    ensures IsPublicPath(req.path) ==> r == FilterStep(Forwarded(req), cache)
    ensures r.outcome.Rejected? ==> r.outcome.response == Unauthorized
    ensures Extends(cache, r.cache)
    ensures !IsPublicPath(req.path) ==>
              (r.outcome.Forwarded? <==>
                 && BearerToken(req).Some?
                 && var c := TokenCheck(cache, BearerToken(req).value, issuer, nowMillis, fetched, o);
                 && c.claims.Ok? && c.claims.value.subject.Some?)
    ensures !IsPublicPath(req.path) && r.outcome.Forwarded? ==>
              var c := TokenCheck(cache, BearerToken(req).value, issuer, nowMillis, fetched, o).claims.value;
              r.outcome.request == WithIdentity(req, c.subject.value, c.orgId)
  {
    if IsPublicPath(req.path) then FilterStep(Forwarded(req), cache)
    else
      match BearerToken(req)
      case None => FilterStep(Rejected(Unauthorized), cache)
      case Some(token) =>
        var c := TokenCheck(cache, token, issuer, nowMillis, fetched, o);
        match c.claims
        case Thrown(_) => FilterStep(Rejected(Unauthorized), c.cache)
        case Ok(claims) =>
          match claims.subject
          case None => FilterStep(Rejected(Unauthorized), c.cache)
          case Some(sub) => FilterStep(Forwarded(WithIdentity(req, sub, claims.orgId)), c.cache)
  }

  /** On a protected path the backend's `X-User-Id` comes from the token
    * alone: a client cannot choose it by sending the header itself. */
  lemma IdentityCannotBeSpoofed(cache: map<string, PublicKey>, req: GatewayRequest, spoofed: string,
                                issuer: string, nowMillis: int, fetched: Attempt<JwksReply>, o: Oracles)
    requires !IsPublicPath(req.path)
    ensures var forged := req.(headers := req.headers[UserIdHeader := spoofed]);
            var a := Admission(cache, req, issuer, nowMillis, fetched, o);
            var b := Admission(cache, forged, issuer, nowMillis, fetched, o);
            && a.outcome.Forwarded? == b.outcome.Forwarded?
            && (a.outcome.Forwarded? ==> a.outcome.request.headers[UserIdHeader] == b.outcome.request.headers[UserIdHeader])
  {
    var forged := req.(headers := req.headers[UserIdHeader := spoofed]);
    assert BearerToken(forged) == BearerToken(req) by {
      assert AuthorizationHeader != UserIdHeader;
    }
  }

  /** On a public path the request is passed on as the client sent it,
    * including any `X-User-Id` header of its own. */
  lemma PublicPathsKeepClientHeaders(cache: map<string, PublicKey>, req: GatewayRequest, issuer: string,
                                     nowMillis: int, fetched: Attempt<JwksReply>, o: Oracles)
    requires StartsWith(req.path, "/api/webhooks")
    ensures Admission(cache, req, issuer, nowMillis, fetched, o).outcome == Forwarded(req)
  {
  }

  /** An expired token is refused even when its signature verifies. */
  lemma ExpiredTokenIsRejected(cache: map<string, PublicKey>, req: GatewayRequest, issuer: string,
                               nowMillis: int, fetched: Attempt<JwksReply>, o: Oracles, pk: PublicKey, claims: Claims)
    requires !IsPublicPath(req.path) && BearerToken(req).Some?
    requires var token := BearerToken(req).value;
             var parts := JavaSplit(token, '.');
             && |parts| == 3
             && o.decodeSegment(parts[0]).Ok?
             && o.parseJson(o.decodeSegment(parts[0]).value).Ok?
             && Has(o.parseJson(o.decodeSegment(parts[0]).value).value, "kid")
             && KeyLookup(cache, Text(o.parseJson(o.decodeSegment(parts[0]).value).value, "kid"), fetched, o).key == Ok(pk)
             && o.parseSignedClaims(token, pk, issuer) == Ok(claims)
    requires Expired(claims, nowMillis)
    ensures Admission(cache, req, issuer, nowMillis, fetched, o).outcome == Rejected(Unauthorized)
    ensures TokenCheck(cache, BearerToken(req).value, issuer, nowMillis, fetched, o).claims == Thrown("JWT expired")
  {
  }

  /** A compact JWS of three non-empty '.'-free segments passes the format
    * check. */
  lemma ThreeSegmentsPass(header: string, payload: string, signature: string)
    requires '.' !in header && '.' !in payload && '.' !in signature
    requires signature != ""
    ensures |JavaSplit(header + "." + payload + "." + signature, '.')| == 3
  {
    var parts := [header, payload, signature];
    assert Join(parts, '.') == header + "." + payload + "." + signature by {
      assert parts[1..] == [payload, signature];
      assert parts[1..][1..] == [signature];
      assert Join([payload, signature], '.') == payload + ['.'] + signature;
    }
    JavaSplitJoin(parts, '.');
  }

  /** An unsecured JWS (section 6 of RFC 7515), whose signature segment is
    * empty, is refused by the format check: Java's split drops the trailing
    * empty piece, leaving two. */
  lemma {:induction false} EmptySignatureFailsFormat(header: string, payload: string)
    requires '.' !in header && '.' !in payload
    requires payload != ""
    ensures |JavaSplit(header + "." + payload + ".", '.')| == 2
  {
    var parts := [header, payload, ""];
    var s := header + "." + payload + ".";
    assert Join(parts, '.') == s by {
      assert parts[1..] == [payload, ""];
      assert parts[1..][1..] == [""];
      assert Join([payload, ""], '.') == payload + ['.'];
    }
    SplitAllJoin(parts, '.');
    SepInJoin(parts, '.');
    assert SplitAll(s, '.') == parts;
    assert DropTrailingEmpty(parts) == DropTrailingEmpty(parts[..2]);
    assert parts[..2] == [header, payload];
  }

  // ------------------------------------------------------------------
  // The filter object and its key cache
  // ------------------------------------------------------------------

  class JwtAuthenticationFilter {
    /** Keys already fetched, by `kid`. */
    var publicKeyCache: map<string, PublicKey>
    /** The required `iss` claim. */
    const issuer: string
    const oracles: Oracles

    constructor(issuer: string, oracles: Oracles)
      ensures publicKeyCache == map[] && this.issuer == issuer && this.oracles == oracles
    {
      publicKeyCache := map[];
      this.issuer := issuer;
      this.oracles := oracles;
    }

    /** `getPublicKey`: a cache hit, or a scan of the downloaded key set. */
    method GetPublicKey(kid: string, fetched: Attempt<JwksReply>) returns (r: Attempt<PublicKey>)
      modifies this
      ensures KeyResult(r, publicKeyCache) == KeyLookup(old(publicKeyCache), kid, fetched, oracles)
    {
      if kid in publicKeyCache {
        return Ok(publicKeyCache[kid]);
      }
      var keys := JwksKeys(fetched, oracles);
      if keys.Thrown? {
        return Thrown(keys.message);
      }
      var entries := keys.value;
      var i := 0;
      while i < |entries|
        invariant 0 <= i <= |entries|
        invariant Scan(entries, kid, 0) == Scan(entries, kid, i)
        invariant publicKeyCache == old(publicKeyCache)
      {
        var entryKid := KidText(entries[i]);
        if entryKid.None? {
          return Thrown(NullPointerMessage);
        }
        if entryKid.value == kid {
          r := JwkKey(entries[i], oracles);
          if r.Ok? {
            publicKeyCache := publicKeyCache[kid := r.value];
          }
          return;
        }
        i := i + 1;
      }
      return Thrown("Key not found in JWKS: " + kid);
    }

    /** `validateJwt` */
    method ValidateJwt(token: string, nowMillis: int, fetched: Attempt<JwksReply>) returns (r: Attempt<Claims>)
      modifies this
      ensures Checked(r, publicKeyCache) == TokenCheck(old(publicKeyCache), token, issuer, nowMillis, fetched, oracles)
    {
      var parts := JavaSplit(token, '.');
      if |parts| != 3 {
        return Thrown("Invalid JWT format");
      }
      var headerJson := oracles.decodeSegment(parts[0]);
      if headerJson.Thrown? {
        return Thrown(headerJson.message);
      }
      var header := oracles.parseJson(headerJson.value);
      if header.Thrown? {
        return Thrown(header.message);
      }
      if !Has(header.value, "kid") {
        return Thrown(NullPointerMessage);
      }
      var publicKey := GetPublicKey(Text(header.value, "kid"), fetched);
      if publicKey.Thrown? {
        return Thrown(publicKey.message);
      }
      r := oracles.parseSignedClaims(token, publicKey.value, issuer);
      if r.Ok? && Expired(r.value, nowMillis) {
        r := Thrown("JWT expired");
      }
    }

    /** `filter` */
    method Filter(req: GatewayRequest, nowMillis: int, fetched: Attempt<JwksReply>) returns (outcome: FilterOutcome)
      modifies this
      ensures FilterStep(outcome, publicKeyCache) ==
              Admission(old(publicKeyCache), req, issuer, nowMillis, fetched, oracles)
    {
      if IsPublicPath(req.path) {
        return Forwarded(req);
      }
      var token := BearerToken(req);
      if token.None? {
        return Rejected(Unauthorized);
      }
      var claims := ValidateJwt(token.value, nowMillis, fetched);
      if claims.Thrown? || claims.value.subject.None? {
        return Rejected(Unauthorized);
      }
      return Forwarded(WithIdentity(req, claims.value.subject.value, claims.value.orgId));
    }
  }
}
