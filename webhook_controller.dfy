/** The Clerk webhook endpoint: Svix signature verification, the event-type
  * switch and the HTTP status of each outcome.
  *
  * The signature follows Svix's scheme: the `svix-signature` header is
  * `v1,<sig>` where `<sig>` is the Base64 (section 4 of RFC 4648) of the
  * HMAC-SHA256 (RFC 2104) of `<svix-id>.<svix-timestamp>.<body>`. HMAC,
  * Base64, UTF-8 and JSON parsing are library calls, given here as
  * functions the caller supplies. */
module WebhookController {
  import opened Common
  import opened Json
  import opened Store
  import opened Audit
  import opened SyncSpec
  import SyncProperties
  import Service = UserWebhookService

  type byte = bv8

  /** The library calls the endpoint makes. */
  datatype Codecs = Codecs(
    utf8: string -> seq<byte>,
    base64Encode: seq<byte> -> string,
    base64Decode: string -> Attempt<seq<byte>>,
    hmacSha256: (seq<byte>, seq<byte>) -> seq<byte>,
    parseJson: string -> Attempt<Json>)

  datatype Response = Response(status: int, body: string)

  const HttpOk := 200
  const HttpUnauthorized := 401
  const HttpInternalServerError := 500

  // ------------------------------------------------------------------
  // Headers
  // ------------------------------------------------------------------

  /** The request as the endpoint receives it: the three headers bound by
    * name (absent when Spring did not bind them), every header by its exact
    * name, and the raw body. */
  datatype Request = Request(svixId: Option<string>, svixTimestamp: Option<string>, svixSignature: Option<string>,
                             headers: map<string, string>, payload: string)

  function Header(req: Request, name: string): (r: Option<string>)
    ensures r.Some? <==> name in req.headers
  {
    if name in req.headers then Some(req.headers[name]) else None
  }

  /** A bound header, else the capitalised spelling, else the lower-case one. */
  function Fallback(bound: Option<string>, req: Request, capitalised: string, lower: string): (r: Option<string>)
    ensures r.Some? <==> bound.Some? || capitalised in req.headers || lower in req.headers
    ensures bound.Some? ==> r == bound
  {
    if bound.Some? then bound
    else if capitalised in req.headers then Some(req.headers[capitalised])
    else Header(req, lower)
  }

  /** The header fallback of `handleClerkWebhook`, reassigning the three
    * parameters in the order the endpoint does. */
  method ResolveHeaders(req: Request) returns (svixId: Option<string>, svixTimestamp: Option<string>,
                                                svixSignature: Option<string>)
    ensures svixId == Fallback(req.svixId, req, "Svix-Id", "svix-id")
    ensures svixTimestamp == Fallback(req.svixTimestamp, req, "Svix-Timestamp", "svix-timestamp")
    ensures svixSignature == Fallback(req.svixSignature, req, "Svix-Signature", "svix-signature")
  {
    svixId, svixTimestamp, svixSignature := req.svixId, req.svixTimestamp, req.svixSignature;
    if svixId.None? {
      svixId := Header(req, "Svix-Id");
    }
    if svixTimestamp.None? {
      svixTimestamp := Header(req, "Svix-Timestamp");
    }
    if svixSignature.None? {
      svixSignature := Header(req, "Svix-Signature");
    }
    if svixId.None? {
      svixId := Header(req, "svix-id");
    }
    if svixTimestamp.None? {
      svixTimestamp := Header(req, "svix-timestamp");
    }
    if svixSignature.None? {
      svixSignature := Header(req, "svix-signature");
    }
  }

  // ------------------------------------------------------------------
  // Signature
  // ------------------------------------------------------------------

  /** Bitwise exclusive or of two non-negative integers (Java's `^` on
    * `char` operands, which are widened to non-negative `int`s). */
  function Xor(x: nat, y: nat): nat
  {
    if x == 0 then y
    else if y == 0 then x
    else 2 * Xor(x / 2, y / 2) + (if x % 2 != y % 2 then 1 else 0)
  }

  /** Bitwise or of two non-negative integers (Java's `|`). */
  function Or(x: nat, y: nat): nat
  {
    if x == 0 then y
    else if y == 0 then x
    else 2 * Or(x / 2, y / 2) + (if x % 2 == 1 || y % 2 == 1 then 1 else 0)
  }

  lemma {:induction false} XorZero(x: nat, y: nat)
    ensures Xor(x, y) == 0 <==> x == y
  {
    if x != 0 && y != 0 {
      XorZero(x / 2, y / 2);
    }
  }

  lemma {:induction false} OrZero(x: nat, y: nat)
    ensures Or(x, y) == 0 <==> x == 0 && y == 0
  {
    if x != 0 && y != 0 {
      OrZero(x / 2, y / 2);
    }
  }

  /** `constantTimeEquals`: equal lengths, then an OR of the XORs of every
    * pair of characters into an accumulator. */
  method ConstantTimeEquals(a: string, b: string) returns (r: bool)
    ensures r <==> a == b
  {
    if |a| != |b| {
      return false;
    }
    var result: nat := 0;
    for i := 0 to |a|
      invariant result == 0 <==> a[..i] == b[..i]
    {
      var diff := Xor(a[i] as int, b[i] as int);
      XorZero(a[i] as int, b[i] as int);
      OrZero(result, diff);
      assert a[..i + 1] == a[..i] + [a[i]] && b[..i + 1] == b[..i] + [b[i]];
      result := Or(result, diff);
    }
    assert a[..|a|] == a && b[..|b|] == b;
    return result == 0;
  }

  /** What `verifySignature` does: accept, reject, or let an exception out. */
  datatype Verdict = Accept | Reject | Raise(message: string)

  /** The key bytes of the configured secret: a `whsec_` secret is the
    * Base64 decoding of what follows the prefix, any other secret its UTF-8
    * bytes. */
  function SecretBytes(secret: string, c: Codecs): (r: Attempt<seq<byte>>)
    ensures StartsWith(secret, "whsec_") ==> |secret| >= 6 && r == c.base64Decode(secret[6..])
    ensures !StartsWith(secret, "whsec_") ==> r == Ok(c.utf8(secret))
  {
    if StartsWith(secret, "whsec_") then c.base64Decode(secret[6..]) else Ok(c.utf8(secret))
  }

  /** The text the HMAC covers: id, timestamp and body joined by dots. */
  function SignedContent(svixId: string, svixTimestamp: string, payload: string): (r: string)
    ensures |r| == |svixId| + |svixTimestamp| + |payload| + 2
    ensures r[..|svixId|] == svixId && r[|svixId|] == '.'
    ensures r[|svixId| + 1 + |svixTimestamp|] == '.' && r[|svixId| + 2 + |svixTimestamp|..] == payload
  {
    svixId + "." + svixTimestamp + "." + payload
  }

  /** The first dot of `a.b` is the one after `a`. */
  lemma FirstDotAt(a: string, b: string)
    requires '.' !in a
    ensures (a + "." + b)[|a|] == '.'
    ensures forall i :: 0 <= i < |a| ==> (a + "." + b)[i] == a[i] != '.'
  {
  }

  /** Splitting at a dot that the left part does not contain recovers both
    * parts. */
  lemma SplitAtFirstDot(a: string, b: string, c: string, d: string)
    requires '.' !in a && '.' !in c
    requires a + "." + b == c + "." + d
    ensures a == c && b == d
  {
    var x := a + "." + b;
    FirstDotAt(a, b);
    FirstDotAt(c, d);
    if |a| < |c| {
      assert false;
    } else if |c| < |a| {
      assert false;
    }
    assert a == x[..|a|];
    assert c == (c + "." + d)[..|c|];
    assert b == x[|a| + 1..];
    assert d == (c + "." + d)[|c| + 1..];
  }

  /** As long as the id and the timestamp hold no dot, the signed text
    * determines all three parts: a signature made for one request cannot
    * be replayed as another id, timestamp or body. */
  lemma {:induction false} SignedContentIsUnambiguous(id1: string, ts1: string, p1: string,
                                                      id2: string, ts2: string, p2: string)
    requires '.' !in id1 && '.' !in ts1 && '.' !in id2 && '.' !in ts2
    requires SignedContent(id1, ts1, p1) == SignedContent(id2, ts2, p2)
    ensures id1 == id2 && ts1 == ts2 && p1 == p2
  {
    assert SignedContent(id1, ts1, p1) == id1 + "." + (ts1 + "." + p1);
    assert SignedContent(id2, ts2, p2) == id2 + "." + (ts2 + "." + p2);
    SplitAtFirstDot(id1, ts1 + "." + p1, id2, ts2 + "." + p2);
    SplitAtFirstDot(ts1, p1, ts2, p2);
  }

  /** The signature a sender holding the key would put after `v1,`. */
  function ExpectedSignature(key: seq<byte>, svixId: string, svixTimestamp: string, payload: string, c: Codecs): string
  {
    c.base64Encode(c.hmacSha256(key, c.utf8(SignedContent(svixId, svixTimestamp, payload))))
  }

  /** `verifySignature`. A secret that fails to decode, or decodes to no
    * bytes (which the HMAC key constructor refuses), is an exception the
    * method does not catch. */
  function VerifySignature(secret: string, svixId: Option<string>, svixTimestamp: Option<string>,
                           svixSignature: Option<string>, payload: string, c: Codecs): (v: Verdict)
    ensures secret == "" ==> v == Accept
    ensures secret != "" && (svixId.None? || svixTimestamp.None? || svixSignature.None?) ==> v == Reject
  {
    if secret == "" then Accept
    else if svixId.None? || svixTimestamp.None? || svixSignature.None? then Reject
    else
      match SecretBytes(secret, c)
      case Thrown(m) => Raise(m)
      case Ok(key) =>
        var parts := JavaSplit(svixSignature.value, ',');
        if |parts| != 2 || parts[0] != "v1" then Reject
        else if key == [] then Raise("Empty key")
        else if parts[1] == ExpectedSignature(key, svixId.value, svixTimestamp.value, payload, c) then Accept
        else Reject
  }

  /** With a secret configured, a request is accepted exactly when its
    * signature header is `v1,` followed by the expected signature (and
    * nothing after a further comma but commas). */
  lemma AcceptedMeansSigned(secret: string, svixId: Option<string>, svixTimestamp: Option<string>,
                            svixSignature: Option<string>, payload: string, c: Codecs)
    requires secret != ""
    requires VerifySignature(secret, svixId, svixTimestamp, svixSignature, payload, c) == Accept
    ensures svixId.Some? && svixTimestamp.Some? && svixSignature.Some?
    ensures SecretBytes(secret, c).Ok? && SecretBytes(secret, c).value != []
    ensures JavaSplit(svixSignature.value, ',') ==
            ["v1", ExpectedSignature(SecretBytes(secret, c).value, svixId.value, svixTimestamp.value, payload, c)]
  {
  }

  /** A sender who signs with the key is accepted, provided the Base64 text
    * holds no comma (standard Base64 never does). */
  lemma SignedIsAccepted(secret: string, svixId: string, svixTimestamp: string, payload: string, c: Codecs)
    requires secret != ""
    requires SecretBytes(secret, c).Ok? && SecretBytes(secret, c).value != []
    requires var expected := ExpectedSignature(SecretBytes(secret, c).value, svixId, svixTimestamp, payload, c);
             expected != "" && ',' !in expected
    ensures var expected := ExpectedSignature(SecretBytes(secret, c).value, svixId, svixTimestamp, payload, c);
            VerifySignature(secret, Some(svixId), Some(svixTimestamp), Some("v1," + expected), payload, c) == Accept
  {
    var expected := ExpectedSignature(SecretBytes(secret, c).value, svixId, svixTimestamp, payload, c);
    var parts := ["v1", expected];
    assert Join(parts, ',') == "v1," + expected by {
      assert Join(parts[1..], ',') == expected;
    }
    JavaSplitJoin(parts, ',');
  }

  /** Only the `v1,<sig>` form is read: Svix's multi-signature header
    * `v1,<a> v1,<b>` has three comma-separated parts and is rejected. */
  lemma MultiSignatureHeaderRejected(secret: string, svixId: string, svixTimestamp: string, payload: string,
                                     a: string, b: string, c: Codecs)
    requires secret != "" && SecretBytes(secret, c).Ok?
    requires a != "" && b != "" && ',' !in a && ',' !in b
    ensures VerifySignature(secret, Some(svixId), Some(svixTimestamp), Some("v1," + a + " v1," + b), payload, c)
            == Reject
  {
    var parts := ["v1", a + " v1", b];
    assert ',' !in a + " v1" by {
      forall k | 0 <= k < |a + " v1"| ensures (a + " v1")[k] != ',' {
        if k < |a| { assert (a + " v1")[k] == a[k]; }
      }
    }
    assert Join(parts, ',') == "v1," + a + " v1," + b by {
      assert Join(parts[2..], ',') == b;
      assert Join(parts[1..], ',') == (a + " v1") + [','] + b;
    }
    JavaSplitJoin(parts, ',');
  }

  // ------------------------------------------------------------------
  // Routing
  // ------------------------------------------------------------------

  /** The switch of `handleClerkWebhook`: five event types have a handler. */
  function RouteOf(eventType: string): (r: Option<Handler>)
    ensures r.Some? <==> eventType in {"user.created", "user.updated", "organization.created",
                                       "organizationMembership.created", "organizationMembership.deleted"}
    ensures eventType == "user.created" ==> r == Some(OnUserCreated)
    ensures eventType == "user.updated" ==> r == Some(OnUserUpdated)
    ensures eventType == "organization.created" ==> r == Some(OnOrganizationCreated)
    ensures eventType == "organizationMembership.created" ==> r == Some(OnMembershipCreated)
    ensures eventType == "organizationMembership.deleted" ==> r == Some(OnMembershipDeleted)
  {
    match eventType
    case "user.created" => Some(OnUserCreated)
    case "user.updated" => Some(OnUserUpdated)
    case "organization.created" => Some(OnOrganizationCreated)
    case "organizationMembership.created" => Some(OnMembershipCreated)
    case "organizationMembership.deleted" => Some(OnMembershipDeleted)
    case _ => None
  }

  /** `handleClerkWebhook` as a transition: the response and the new state. */
  function WebhookTransition(s: State, req: Request, secret: string, c: Codecs, env: Env): (r: (Response, State))
    ensures r.0.status in {HttpOk, HttpUnauthorized, HttpInternalServerError}
    ensures r.0.status != HttpOk ==> r.1 == s
  {
    var svixId := Fallback(req.svixId, req, "Svix-Id", "svix-id");
    var svixTimestamp := Fallback(req.svixTimestamp, req, "Svix-Timestamp", "svix-timestamp");
    var svixSignature := Fallback(req.svixSignature, req, "Svix-Signature", "svix-signature");
    match VerifySignature(secret, svixId, svixTimestamp, svixSignature, req.payload, c)
    case Raise(m) => (Response(HttpInternalServerError, "Error processing webhook: " + m), s)
    case Reject => (Response(HttpUnauthorized, "Invalid signature"), s)
    case Accept =>
      match c.parseJson(req.payload)
      case Thrown(m) => (Response(HttpInternalServerError, "Error processing webhook: " + m), s)
      case Ok(event) =>
        if !Has(event, "type") then (Response(HttpInternalServerError, "Error processing webhook: " + NullPointerMessage), s)
        else Dispatched(s, event, env)
  }

  /** The switch on the event's `type` and the response to the handler's outcome. */
  function Dispatched(s: State, event: Json, env: Env): (r: (Response, State))
    requires Has(event, "type")
    ensures r.0.status in {HttpOk, HttpInternalServerError}
    ensures r.0.status != HttpOk ==> r.1 == s
  {
    var eventType := Text(event, "type");
    match RouteOf(eventType)
    case None => (Response(HttpOk, "Event ignored: " + eventType), s)
    case Some(h) =>
      var step := Apply(h, s, event, env);
      match step.outcome
      case Failed(m) => (Response(HttpInternalServerError, "Error processing webhook: " + m), s)
      case Done => (Response(HttpOk, "Webhook processed successfully"), step.state)
  }

  /** What each response means for the database: a 401 runs no handler; an
    * event type without a handler is acknowledged with 200 and changes
    * nothing; a 500 changes nothing; a success is exactly the handler's
    * transition. */
  lemma ResponsesAndState(s: State, req: Request, secret: string, c: Codecs, env: Env)
    ensures var (resp, s') := WebhookTransition(s, req, secret, c, env);
            (resp.status == HttpUnauthorized ==> resp.body == "Invalid signature" && secret != "")
            && (resp.status == HttpOk && s' != s ==> resp.body == "Webhook processed successfully")
            && (resp.status == HttpOk ==>
                  exists event :: c.parseJson(req.payload) == Ok(event) && Has(event, "type")
                    && (RouteOf(Text(event, "type")).None? ==> resp.body == "Event ignored: " + Text(event, "type"))
                    && (RouteOf(Text(event, "type")).Some? ==>
                          s' == Apply(RouteOf(Text(event, "type")).value, s, event, env).state))
  {
    var (resp, s') := WebhookTransition(s, req, secret, c, env);
    if resp.status == HttpOk {
      var event := c.parseJson(req.payload).value;
      assert Has(event, "type");
    }
  }

  /** The endpoint keeps the database constraints. */
  lemma HandleKeepsValid(s: State, req: Request, secret: string, c: Codecs, env: Env)
    requires Valid(s)
    ensures Valid(WebhookTransition(s, req, secret, c, env).1)
  {
    var svixId := Fallback(req.svixId, req, "Svix-Id", "svix-id");
    var svixTimestamp := Fallback(req.svixTimestamp, req, "Svix-Timestamp", "svix-timestamp");
    var svixSignature := Fallback(req.svixSignature, req, "Svix-Signature", "svix-signature");
    if VerifySignature(secret, svixId, svixTimestamp, svixSignature, req.payload, c) == Accept
       && c.parseJson(req.payload).Ok? {
      var event := c.parseJson(req.payload).value;
      if Has(event, "type") && RouteOf(Text(event, "type")).Some? {
        SyncProperties.ApplyKeepsValid(RouteOf(Text(event, "type")).value, s, event, env);
      }
    }
  }

  // ------------------------------------------------------------------
  // The endpoint
  // ------------------------------------------------------------------

  class WebhookController {
    const webhookService: Service.WebhookService
    const webhookSecret: string
    const codecs: Codecs

    constructor (webhookService: Service.WebhookService, webhookSecret: string, codecs: Codecs)
      ensures this.webhookService == webhookService && this.webhookSecret == webhookSecret && this.codecs == codecs
    {
      this.webhookService := webhookService;
      this.webhookSecret := webhookSecret;
      this.codecs := codecs;
    }

    method HandleClerkWebhook(req: Request, env: Env) returns (response: Response)
      modifies webhookService.db
      ensures (response, webhookService.db.Snapshot())
              == WebhookTransition(old(webhookService.db.Snapshot()), req, webhookSecret, codecs, env)
    {
      var svixId, svixTimestamp, svixSignature := ResolveHeaders(req);
      var verdict := VerifySignature(webhookSecret, svixId, svixTimestamp, svixSignature, req.payload, codecs);
      if verdict.Raise? {
        return Response(HttpInternalServerError, "Error processing webhook: " + verdict.message);
      }
      if verdict.Reject? {
        return Response(HttpUnauthorized, "Invalid signature");
      }
      var parsed := codecs.parseJson(req.payload);
      if parsed.Thrown? {
        return Response(HttpInternalServerError, "Error processing webhook: " + parsed.message);
      }
      var event := parsed.value;
      if !Has(event, "type") {
        return Response(HttpInternalServerError, "Error processing webhook: " + NullPointerMessage);
      }
      response := Dispatch(event, env);
    }

    /** The switch on the event's `type`. */
    method Dispatch(event: Json, env: Env) returns (response: Response)
      requires Has(event, "type")
      modifies webhookService.db
      ensures (response, webhookService.db.Snapshot()) == Dispatched(old(webhookService.db.Snapshot()), event, env)
    {
      var eventType := Text(event, "type");
      var outcome: Outcome;
      match eventType {
        case "user.created" => outcome := webhookService.ProcessUserCreated(event, env);
        case "user.updated" => outcome := webhookService.ProcessUserUpdated(event, env);
        case "organization.created" => outcome := webhookService.ProcessOrganizationCreated(event, env);
        case "organizationMembership.created" => outcome := webhookService.ProcessMembershipCreated(event, env);
        case "organizationMembership.deleted" => outcome := webhookService.ProcessMembershipDeleted(event, env);
        case _ => return Response(HttpOk, "Event ignored: " + eventType);
      }
      if outcome.Failed? {
        return Response(HttpInternalServerError, "Error processing webhook: " + outcome.message);
      }
      return Response(HttpOk, "Webhook processed successfully");
    }
  }
}
