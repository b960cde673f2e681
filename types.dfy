/** The agent's value types: lifecycle events, certificate bundles, the
    agent mode, response bodies and the configuration record. */
module Types {

  datatype Option<T> = None | Some(value: T)

  /** A value, or the message of the Error that was raised instead. */
  datatype Result<T> = Success(value: T) | Failure(error: string)

  /** How a `Promise<void>` settles: resolved, or rejected with an Error's message. */
  datatype Outcome = Ok | Err(message: string)

  /** The five lifecycle events the control plane sends. Only issuance and
      renewal carry a certificate id, which is used for nothing but logging. */
  datatype AgentEvent =
    | CertIssued(domain: string, certId: string)
    | CertRenewed(domain: string, certId: string)
    | CertRevoked(domain: string)
    | DomainAdded(domain: string)
    | DomainRemoved(domain: string)

  /** What the control plane returns for a domain. An absent key, chain,
      certificate or domain is modelled as the empty string: every check the
      agent makes on those fields treats absent and empty alike. The expiry
      is checked by nothing and written as it is, so its absence (`None`) is
      kept apart from the empty string. */
  datatype CertBundle = CertBundle(
    domain: string,
    privateKey: string,
    certificate: string,
    fullChain: string,
    expiresAt: Option<string>)

  datatype AgentMode = Live | Sandbox

  /** The `status` string carried by every response body. */
  function ModeName(m: AgentMode): string
  {
    match m
    case Live => "live"
    case Sandbox => "sandbox"
  }

  datatype WebhookResponse = WebhookResponse(ok: bool, status: AgentMode, error: Option<string>)

  /** The health body; the process uptime it also carries is not modelled. */
  datatype HealthResponse = HealthResponse(ok: bool, status: AgentMode)

  /** The settings the core reads from the environment once at start-up. */
  datatype Config = Config(
    agentSecret: string,
    certDir: string,
    nginxSitesDir: string,
    upstream: string,
    sandboxMode: bool)
}
