/** The webhook ingress: `GET /health` reports the mode, `POST /webhook`
    accepts a signed lifecycle event and hands it to the reconciler, and
    everything else is not found. The signature is checked before the body
    is parsed, and the body is parsed before anything is done. */
module Server {
  import opened Types
  import opened Text
  import opened FileSystem
  import opened CertManager
  import opened EventHandler

  // ---------------------------------------------------------------------
  // verifySignature

  const SignaturePrefix := "sha256="

  /** The header value a correctly signed body carries; `hmac(key, body)`
      is the hex HMAC-SHA256 digest of `body` under `key`. */
  function Expected(hmac: (string, string) -> string, secret: string, body: string): string
  {
    SignaturePrefix + hmac(secret, body)
  }

  /** `verifySignature(body, signature)`: a missing or empty header fails;
      `timingSafeEqual` throws on inputs of different lengths, which the
      `catch` turns into a failure; otherwise the two must be equal. */
  function VerifySignature(hmac: (string, string) -> string, secret: string, body: string, signature: Option<string>): (ok: bool)
    ensures ok <==> signature == Some(Expected(hmac, secret, body))
    ensures signature.Some? && |signature.value| != |Expected(hmac, secret, body)| ==> !ok
  {
    match signature
    case None => false
    case Some(sig) =>
      var expected := Expected(hmac, secret, body);
      if sig == "" then false
      else if |sig| != |expected| then false
      else sig == expected
  }

  // ---------------------------------------------------------------------
  // getAgentMode

  function GetAgentMode(cfg: Config): (m: AgentMode)
    ensures ModeName(m) == "sandbox" <==> cfg.sandboxMode
    ensures ModeName(m) == "live" <==> !cfg.sandboxMode
  {
    if cfg.sandboxMode then Sandbox else Live
  }

  // ---------------------------------------------------------------------
  // Requests and responses

  /** A request as the server reads it: its method, path, the chunks of its
      body as they arrive, and the `x-chr-signature` header, if any. */
  datatype Request = Request(verb: string, url: string, chunks: seq<string>, signature: Option<string>)

  /** What `JSON.parse` makes of a body: no JSON at all, the JSON `null`, a
      value that is none of the five events, or one of them. */
  datatype Payload = Malformed | Null | Unrecognised | Event(event: AgentEvent)

  datatype Body =
    | Health(health: HealthResponse)
    | Missing(error: string)
    | Webhook(webhook: WebhookResponse)

  datatype Response = Response(status: nat, body: Body)

  /** The TypeError `handleEvent` raises when it reads the kind of a
      `null` payload. */
  const NullMessage := "Cannot read properties of null (reading 'event')"

  /** The answer, from what the server learns in order: the route, whether
      the signature holds, whether the body parses, and how the handler
      ends. Each is consulted only when the ones before let the request
      through. */
  function Route(cfg: Config, verb: string, url: string, signed: bool, parsed: bool, handled: Outcome): Response
  {
    var mode := GetAgentMode(cfg);
    if verb == "GET" && url == "/health" then Response(200, Health(HealthResponse(true, mode)))
    else if verb != "POST" || url != "/webhook" then Response(404, Missing("not found"))
    else if !signed then Response(401, Webhook(WebhookResponse(false, mode, Some("invalid signature"))))
    else if !parsed then Response(400, Webhook(WebhookResponse(false, mode, Some("invalid json"))))
    else match handled
      case Ok => Response(200, Webhook(WebhookResponse(true, mode, None)))
      case Err(message) => Response(500, Webhook(WebhookResponse(false, mode, Some(message))))
  }

  /** `handleEvent(payload)` on a parsed payload: an event is reconciled, a
      `null` throws before anything is attempted, and any other value
      matches no case of the switch. */
  function Handled(env: Env, cfg: Config, payload: Payload, reply: FetchReply, parseBundle: string -> Option<CertBundle>,
                   generated: string, d: Disk): Run
  {
    match payload
    case Event(ev) => HandleRun(env, cfg, ev, reply, parseBundle, generated, d)
    case Null => Rejected(d, NullMessage)
    case _ => Idle(d)
  }

  /** The response to a request and what handling it did. */
  datatype Exchange = Exchange(response: Response, run: Run)

  /** What the server does with `req` from disk `d`. */
  function ServeRun(env: Env, cfg: Config, hmac: (string, string) -> string, parseJson: string -> Payload, req: Request,
                    reply: FetchReply, parseBundle: string -> Option<CertBundle>, generated: string, d: Disk): Exchange
  {
    var body := Concat(req.chunks);
    var webhook := req.verb == "POST" && req.url == "/webhook";
    var signed := webhook && VerifySignature(hmac, cfg.agentSecret, body, req.signature);
    var payload := if signed then parseJson(body) else Malformed;
    var run := if payload.Malformed? then Idle(d) else Handled(env, cfg, payload, reply, parseBundle, generated, d);
    Exchange(Route(cfg, req.verb, req.url, signed, !payload.Malformed?, run.outcome), run)
  }

  /** The request handler of `createServer`. */
  method Serve(h: Host, cfg: Config, hmac: (string, string) -> string, parseJson: string -> Payload, req: Request,
               reply: FetchReply, parseBundle: string -> Option<CertBundle>, generated: string)
    returns (res: Response)
    modifies h
    ensures var x := ServeRun(h.env, cfg, hmac, parseJson, req, reply, parseBundle, generated, old(h.disk));
            res == x.response && h.disk == x.run.disk && h.trace == old(h.trace) + x.run.trace
  {
    var mode := GetAgentMode(cfg);
    if req.verb == "GET" && req.url == "/health" {
      return Response(200, Health(HealthResponse(true, mode)));
    }
    if req.verb != "POST" || req.url != "/webhook" {
      return Response(404, Missing("not found"));
    }
    var received: seq<string> := [];
    var i := 0;
    while i < |req.chunks|
      invariant 0 <= i <= |req.chunks|
      invariant received == req.chunks[..i]
    {
      received := received + [req.chunks[i]];
      i := i + 1;
    }
    assert received == req.chunks;
    var body := Concat(received);
    if !VerifySignature(hmac, cfg.agentSecret, body, req.signature) {
      return Response(401, Webhook(WebhookResponse(false, mode, Some("invalid signature"))));
    }
    var payload := parseJson(body);
    if payload.Malformed? {
      return Response(400, Webhook(WebhookResponse(false, mode, Some("invalid json"))));
    }
    var outcome: Outcome;
    match payload {
      case Event(ev) =>
        outcome := HandleEvent(h, cfg, ev, reply, parseBundle, generated);
      case Null =>
        outcome := Err(NullMessage);
      case Unrecognised =>
        outcome := Ok;
    }
    if outcome.Ok? {
      res := Response(200, Webhook(WebhookResponse(true, mode, None)));
    } else {
      res := Response(500, Webhook(WebhookResponse(false, mode, Some(outcome.message))));
    }
  }

  // ---------------------------------------------------------------------
  // What the server promises

  /** `GET /health` always answers 200 with `ok: true` and does nothing. */
  lemma HealthAnswers(env: Env, cfg: Config, hmac: (string, string) -> string, parseJson: string -> Payload, req: Request,
                      reply: FetchReply, parseBundle: string -> Option<CertBundle>, generated: string, d: Disk)
    requires req.verb == "GET" && req.url == "/health"
    ensures var x := ServeRun(env, cfg, hmac, parseJson, req, reply, parseBundle, generated, d);
            && x.response.status == 200 && x.response.body.Health? && x.response.body.health.ok
            && x.run == Idle(d)
  {
  }

  /** Any other request but `POST /webhook` is answered 404 and does
      nothing. */
  lemma OthersNotFound(env: Env, cfg: Config, hmac: (string, string) -> string, parseJson: string -> Payload, req: Request,
                       reply: FetchReply, parseBundle: string -> Option<CertBundle>, generated: string, d: Disk)
    requires !(req.verb == "GET" && req.url == "/health") && !(req.verb == "POST" && req.url == "/webhook")
    ensures var x := ServeRun(env, cfg, hmac, parseJson, req, reply, parseBundle, generated, d);
            x.response == Response(404, Missing("not found")) && x.run == Idle(d)
  {
  }

  /** A webhook whose signature does not hold is answered 401, nothing is
      done, and its body is never parsed: any parser gives the same
      exchange. */
  lemma SignatureBeforeParse(env: Env, cfg: Config, hmac: (string, string) -> string, parseJson: string -> Payload,
                             parseJson': string -> Payload, req: Request,
                             reply: FetchReply, parseBundle: string -> Option<CertBundle>, generated: string, d: Disk)
    requires req.verb == "POST" && req.url == "/webhook"
    requires req.signature != Some(Expected(hmac, cfg.agentSecret, Concat(req.chunks)))
    ensures var x := ServeRun(env, cfg, hmac, parseJson, req, reply, parseBundle, generated, d);
            && x.response == Response(401, Webhook(WebhookResponse(false, GetAgentMode(cfg), Some("invalid signature"))))
            && x.run == Idle(d)
            && x == ServeRun(env, cfg, hmac, parseJson', req, reply, parseBundle, generated, d)
  {
  }

  /** A signed webhook whose body is not JSON is answered 400 and nothing
      is done. */
  lemma MalformedRejected(env: Env, cfg: Config, hmac: (string, string) -> string, parseJson: string -> Payload, req: Request,
                          reply: FetchReply, parseBundle: string -> Option<CertBundle>, generated: string, d: Disk)
    requires req.verb == "POST" && req.url == "/webhook"
    requires req.signature == Some(Expected(hmac, cfg.agentSecret, Concat(req.chunks)))
    requires parseJson(Concat(req.chunks)).Malformed?
    ensures var x := ServeRun(env, cfg, hmac, parseJson, req, reply, parseBundle, generated, d);
            && x.response == Response(400, Webhook(WebhookResponse(false, GetAgentMode(cfg), Some("invalid json"))))
            && x.run == Idle(d)
  {
  }

  /** A signed, well-formed event is reconciled; the answer is 200 with
      `ok: true` when that succeeds and 500 carrying the error's message
      when it fails. */
  lemma EventHandled(env: Env, cfg: Config, hmac: (string, string) -> string, parseJson: string -> Payload, req: Request,
                     reply: FetchReply, parseBundle: string -> Option<CertBundle>, generated: string, d: Disk, ev: AgentEvent)
    requires req.verb == "POST" && req.url == "/webhook"
    requires req.signature == Some(Expected(hmac, cfg.agentSecret, Concat(req.chunks)))
    requires parseJson(Concat(req.chunks)) == Event(ev)
    ensures var x, mode := ServeRun(env, cfg, hmac, parseJson, req, reply, parseBundle, generated, d), GetAgentMode(cfg);
            && x.run == HandleRun(env, cfg, ev, reply, parseBundle, generated, d)
            && (x.run.outcome.Ok? ==> x.response == Response(200, Webhook(WebhookResponse(true, mode, None))))
            && (x.run.outcome.Err? ==>
                  x.response == Response(500, Webhook(WebhookResponse(false, mode, Some(x.run.outcome.message)))))
  {
  }

  /** The handler runs only for a signed `POST /webhook` whose body parses:
      every other request leaves the disk alone and attempts nothing. */
  lemma OnlyAuthorisedActs(env: Env, cfg: Config, hmac: (string, string) -> string, parseJson: string -> Payload, req: Request,
                           reply: FetchReply, parseBundle: string -> Option<CertBundle>, generated: string, d: Disk)
    ensures var x, body := ServeRun(env, cfg, hmac, parseJson, req, reply, parseBundle, generated, d), Concat(req.chunks);
            x.run != Idle(d) ==>
              && req.verb == "POST" && req.url == "/webhook"
              && req.signature == Some(Expected(hmac, cfg.agentSecret, body))
              && !parseJson(body).Malformed?
  {
  }

  /** A health body and a webhook body name the agent's mode (the 404
      body names none), and a webhook body reports `ok: true`, without an
      error, exactly when the status is 200. */
  lemma BodiesAgree(env: Env, cfg: Config, hmac: (string, string) -> string, parseJson: string -> Payload, req: Request,
                    reply: FetchReply, parseBundle: string -> Option<CertBundle>, generated: string, d: Disk)
    ensures var res := ServeRun(env, cfg, hmac, parseJson, req, reply, parseBundle, generated, d).response;
            && (res.body.Health? ==> res.status == 200 && res.body.health.status == GetAgentMode(cfg))
            && (res.body.Webhook? ==>
                  && res.body.webhook.status == GetAgentMode(cfg)
                  && (res.body.webhook.ok <==> res.status == 200)
                  && (res.body.webhook.ok <==> res.body.webhook.error.None?))
            && (res.body.Missing? <==> res.status == 404)
  {
  }
}
