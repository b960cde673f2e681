# nginx-agent, modelled in Dafny

This project models the core of the Changerawr nginx agent. The agent is a host-resident reconciler: it accepts signed lifecycle events from the Changerawr control plane over a webhook, installs certificate bundles on disk, writes one nginx site configuration per domain, and reloads nginx.

The model has one module per source file, plus two supporting modules.

- `Types` (`types.dfy`) holds the event, bundle, mode and response records.
- `Text` (`text.dfy`) holds the string helpers: containment, joining lines, decimal rendering of a status code.
- `FileSystem` (`host.dfy`) is the machine the agent acts on.
  - A `Disk` maps paths to files (content and mode) and holds a set of directories.
  - An `Env` holds the errors the operating system raises at given paths, and how the reload command fails, if it does.
  - The class `Host` carries the disk and a `trace` of every operation attempted.
  - `Execute` is the fail-fast semantics of a run of `await`ed operations: the first refusal ends the run with its message, and nothing is rolled back.
- `CertManager` (`cert-manager.dfy`) models `src/cert-manager.ts`.
  - It covers the bundle request's decision step, the chunk loop that builds the response body, `writeCerts` (validation, directory, four temporary files, four renames, the closing `stat`) and `removeCerts`.
- `NginxManager` (`nginx-manager.dfy`) models `src/nginx-manager.ts`: the per-domain site file, its write, tolerant removal and existence probe, and the reload with its error prefix.
- `Template` (`nginx-template.dfy`) models `nginx-template.ts`.
  - The two template literals are rebuilt line by line.
  - The `Generated:` timestamp is a parameter.
- `EventHandler` (`event-handler.dfy`) models `src/event-handler.ts`: the three action sequences of `handleEvent` and the guard of `domain.added`.
- `Server` (`server.dfy`) models `src/server.ts`: `verifySignature`, `getAgentMode` and the request handler of `createServer`.

Each state-changing operation is written twice.

- A `method` on `Host` carries the operation's loop or sequence of awaits.
- A function (`WriteCertsRun`, `HandleRun`, `ServeRun`, …) computes the resulting disk, the operations attempted, and the outcome.
- The method's `ensures` ties it to that function.
- What the source promises is then proved about the function.

A site file's content is recorded as `Rendered(mode, options, generated)`, and `TextOf` gives its characters. `NginxManager.SiteTextRenders` states that those characters are the template's rendering. This keeps the long configuration text out of the disk-level proofs.

An issuing event installs certificates under the domain the bundle names, but writes the site file for the domain the event names. `EventHandler.IssueServes` therefore states that the configuration points nginx at the new chain and key only when the two domains agree.

Two facts about the code shape several contracts:
- only the chain and the key are checked for PEM markers; the certificate is only checked for being non-empty;
- errors propagate with their own messages, with two exceptions: the reload error gets a prefix, and any error of the closing `stat` is replaced by "Certificate files were not written to disk".

## Model

| member | source | states |
|---|---|---|
| Text.NatToString | src/cert-manager.ts:21 | the status code is rendered as a non-empty string of decimal digits without a leading zero, whose decimal value is the status code |
| CertManager.DecideFetch | src/cert-manager.ts:20-37 | success exactly when the status is 200 and the body parses to a bundle; a non-200 status fails with the status and the body; an unparsable body fails with "Invalid JSON: " and the body; a bundle without a domain gets the requested one, and nothing else of it changes |
| CertManager.FetchNamesDomain | src/cert-manager.ts:28-35 | a fetched bundle always names a domain when a non-empty one was requested |
| CertManager.FetchCertBundle | src/cert-manager.ts:8-44 | one request is attempted and the disk is unchanged; the result is the decision on the whole concatenated body, the socket error's message, or "Request timed out" |
| CertManager.NamesDistinct | src/cert-manager.ts:90-111 | none of the four temporary names equals a final name, and the four names of each kind are pairwise distinct |
| CertManager.PathsDistinct | src/cert-manager.ts:88-116 | the eight paths of an installation in one directory are eight different paths |
| CertManager.BundleError | src/cert-manager.ts:54-74 | a bundle is refused exactly when the certificate directory is not configured, or any of key, chain or certificate is empty, or the chain lacks `BEGIN CERTIFICATE`, or the key lacks `BEGIN` |
| CertManager.CertificateNotInspected | src/cert-manager.ts:59-74 | the verdict does not depend on the certificate's text as long as it is non-empty |
| CertManager.WriteCerts | src/cert-manager.ts:46-130 | the new disk, the attempted operations and the outcome are those of `WriteCertsRun` |
| CertManager.RefusedBeforeAnyChange | src/cert-manager.ts:47-74 | in sandbox mode, or for a refused bundle, nothing is attempted and the disk is unchanged; a refusal reports its message |
| CertManager.TempWritten | src/cert-manager.ts:88-101 | after the directory and the four temporary writes, each temporary file holds its part of the bundle |
| CertManager.WritePhaseSpares | src/cert-manager.ts:79-101 | the write phase leaves every path other than the four temporary ones as it was |
| CertManager.RenameMoves | src/cert-manager.ts:103-116 | the rename phase moves each temporary file onto its final name and leaves no temporary file behind |
| CertManager.RenamesSpare | src/cert-manager.ts:103-116 | the rename phase leaves every path outside the eight as it was |
| CertManager.CertStepsSpare | src/cert-manager.ts:79-116 | no operation of an installation touches a path outside its eight |
| CertManager.InstallDirs | src/cert-manager.ts:79-85 | the only directory an installation creates is the domain's own |
| CertManager.WriteCertsInstalls | src/cert-manager.ts:76-129 | on success the bundle has an expiry, and the operations attempted are mkdir, the four writes and the four renames in the order key, chain, certificate, expiry, then the stat; each final file holds its part with its artifact's mode (0o600 for the key, 0o644 for the rest) unless a stale temporary file's mode carried over; no temporary file remains; only the domain's directory is added; every other file is unchanged |
| CertManager.MissingExpiryRefused | src/cert-manager.ts:87-101 | a bundle without `expiresAt` passes validation but is never installed: the run fails within mkdir and the four writes, every final file is as it was, and reaching the fourth write the error is Node's `ERR_INVALID_ARG_TYPE` message for undefined data, with the key, chain and certificate left in their temporary files |
| CertManager.WriteCertsSucceeds | src/cert-manager.ts:46-130 | outside sandbox mode `writeCerts` succeeds exactly when the bundle passes validation, it has an expiry, the operating system raises nothing at the domain's directory, its temporary files or its installed chain, the directory is not a file, and no temporary or final name is a directory |
| CertManager.WriteFailureKeepsFinals | src/cert-manager.ts:87-116 | a failure at the directory or at any temporary write leaves every final file as it was |
| CertManager.RemoveCerts | src/cert-manager.ts:132-141 | the new disk, the attempted operations and the outcome are those of `RemoveCertsRun` |
| CertManager.RemoveCertsFails | src/cert-manager.ts:138-139 | the forced removal fails exactly when the operating system refuses that directory, whether or not it exists; sandbox mode never fails |
| CertManager.RemoveCertsClears | src/cert-manager.ts:132-141 | after success nothing is left at or below the domain's directory and everything outside it is as it was; in sandbox mode nothing changes |
| CertManager.RemoveCertsIdempotent | src/cert-manager.ts:138-139 | removing twice leaves the disk and the outcome as removing once |
| FileSystem.Refusal | src/nginx-manager.ts:31-36 | a fetch is never refused; a reload fails as the command does; a forced removal fails only at a faulty path; a write fails into a missing directory; an unlink reports `ENOENT` exactly when nothing is at the path |
| FileSystem.UndefinedDataRefused | src/cert-manager.ts:96 | a write whose data is `undefined` is refused with Node's `ERR_INVALID_ARG_TYPE` error whatever the disk holds |
| FileSystem.ExecuteStops | src/cert-manager.ts:88-116 | a run of awaited operations attempts a prefix of them; on success all of them, with the disk holding their effects; on failure it ends at the refused operation, whose message is the error, with the effects of those before it kept |
| FileSystem.Host.RunAll | src/cert-manager.ts:88-116 | awaiting each operation in turn yields the disk, trace and outcome of `Execute` |
| NginxManager.ConfigExists | src/nginx-manager.ts:39-42 | true exactly when the site path can be stat'ed: a file or a directory is there and no error is raised at it |
| NginxManager.SiteTextRenders | src/nginx-manager.ts:17-19 | the text of the written configuration is `renderActive` of the domain, upstream and certificate directory in active mode, and `renderPending` otherwise |
| NginxManager.WriteNginxConfig | src/nginx-manager.ts:11-22 | the new disk, the attempted operations and the outcome are those of `WriteConfigRun` for the rendered content |
| NginxManager.WriteConfigReplaces | src/nginx-manager.ts:17-21 | a successful write replaces the whole file with the content (mode 0o644 when created), after which the configuration exists; no other file and no directory changes |
| NginxManager.WriteConfigFails | src/nginx-manager.ts:20 | the write fails exactly when the machine refuses it, and then changes nothing, in particular when the sites directory is missing |
| NginxManager.RemoveNginxConfig | src/nginx-manager.ts:24-37 | the new disk, the attempted operations and the outcome are those of `RemoveConfigRun` |
| NginxManager.RemoveConfigClears | src/nginx-manager.ts:30-36 | after a successful removal the configuration no longer exists and every other path is unchanged |
| NginxManager.RemoveConfigTolerant | src/nginx-manager.ts:31-36 | removing an absent configuration succeeds and changes nothing; removing twice is removing once |
| NginxManager.ReloadNginx | src/nginx-manager.ts:44-59 | the new disk, the attempted operations and the outcome are those of `ReloadRun` |
| NginxManager.ReloadSurfaces | src/nginx-manager.ts:44-59 | a reload never touches the disk; it fails exactly when the command fails outside sandbox mode, with "nginx reload failed: " before the command's message |
| NginxManager.SandboxTouchesNothing | src/nginx-manager.ts:11-48 | in sandbox mode write, remove and reload attempt nothing and change nothing |
| NginxManager.ConfigApart | src/nginx-manager.ts:17 | a site file is none of the eight certificate paths of any directory |
| NginxManager.CertPathsAgree | nginx-template.ts:7-13 | the chain and key paths of `certPaths` are the final files `writeCerts` installs for the domain |
| Template.PendingLayout | nginx-template.ts:18-53 | the pending file opens with `# chr-nginx-agent: PENDING`, the notice and the timestamp line, followed by its server block |
| Template.ActiveLayout | nginx-template.ts:64-140 | the active file opens with `# chr-nginx-agent: ACTIVE`, the notice and the timestamp line, followed by its two server blocks |
| Template.PendingStamp | nginx-template.ts:21-23 | with the same options, two pending files are equal exactly when their timestamps are |
| Template.ActiveStamp | nginx-template.ts:68-70 | with the same options, two active files are equal exactly when their timestamps are |
| Template.ModesDiffer | nginx-template.ts:21-68 | no pending file equals any active file |
| Template.PendingContents | nginx-template.ts:25-40 | the pending file names the domain, listens on port 80 over IPv4 and IPv6, and proxies the challenge and everything else to the upstream |
| Template.PendingIsPlainHttp | nginx-template.ts:18-53 | no line of the pending file is an `ssl_*` directive, and its only `listen` lines are the port-80 pair |
| Template.RedirectContents | nginx-template.ts:72-90 | the port-80 block of the active file names the domain and proxies the challenge to the upstream |
| Template.TlsContents | nginx-template.ts:92-122 | the port-443 block listens on 443 over IPv4 and IPv6, names the domain and proxies to the upstream |
| Template.TlsCertificates | nginx-template.ts:99-100 | the port-443 block names the chain and key paths of `certPaths` |
| Template.PolicyContents | nginx-template.ts:102-115 | the TLS policy sets TLSv1.2 and TLSv1.3 only, the `shared:CHR:10m` session cache and the HSTS header |
| Template.ActiveRouting | nginx-template.ts:72-122 | the active file names the domain, proxies the challenge and the rest to the upstream, and listens on 443 |
| Template.ActiveTls | nginx-template.ts:99-115 | the active file names the chain and key paths of `certPaths` and carries the fixed protocol, session-cache and HSTS lines |
| Template.HstsMaxAgeSet | nginx-template.ts:115 | HSTS carries `max-age=63072000` |
| Template.HstsScope | nginx-template.ts:115 | the HSTS line has neither `includeSubDomains` nor `preload` |
| EventHandler.HandleEvent | src/event-handler.ts:6-35 | the new disk, the attempted operations and the outcome are those of `HandleRun` |
| EventHandler.IssueCertificate | src/event-handler.ts:10-16 | the fetch, then the installation, configuration and reload, as `IssueRun` |
| EventHandler.Install | src/event-handler.ts:13-15 | `writeCerts`, then the configuration and reload only if it succeeded, as `InstallRun` |
| EventHandler.Activate | src/event-handler.ts:14-15 | the configuration write, then the reload only if it succeeded, as `ActivateRun` |
| EventHandler.AddDomain | src/event-handler.ts:19-25 | the existence guard, then the pending configuration and the reload, as `AddRun` |
| EventHandler.RemoveDomain | src/event-handler.ts:27-33 | the removals and the reload, each only after the previous step succeeded, as `RemoveRun` |
| EventHandler.CertStageFollows | src/event-handler.ts:13 | a certificate installation attempts a prefix of its plan, and all of it on success |
| EventHandler.SiteStagesFollow | src/event-handler.ts:14-15 | each configuration write, removal and reload attempts a prefix of its one-operation plan, and all of it on success |
| EventHandler.InstallFollowsPlan | src/event-handler.ts:13-15 | installation then activation attempt a prefix of their joint plan, and all of it on success |
| EventHandler.IssueFollowsPlan | src/event-handler.ts:10-16 | issuance and renewal attempt, in order, a prefix of fetch, installation, configuration write and reload, and all of it on success; a failed fetch ends the event with its error |
| EventHandler.AddFollowsPlan | src/event-handler.ts:19-25 | with a configuration present nothing is attempted and nothing changes; otherwise a prefix of write then reload, and all of it on success |
| EventHandler.RemoveFollowsPlan | src/event-handler.ts:27-33 | removal and revocation attempt a prefix of unlink, recursive removal and reload, and all of it on success |
| EventHandler.CertPlanReloadFree | src/cert-manager.ts:79-129 | no operation of a certificate installation is a reload |
| EventHandler.PlansReloadLast | src/event-handler.ts:9-33 | in every plan no operation before the last is a reload |
| EventHandler.IssueReloadsLast | src/event-handler.ts:10-16 | issuance reloads at most once, as its last operation, and never in sandbox mode |
| EventHandler.ReloadAtMostOnce | src/event-handler.ts:6-35 | whatever the event and however its steps end, it reloads at most once, only as the last operation attempted, and never in sandbox mode |
| EventHandler.CertsSpareConfig | src/event-handler.ts:13-14 | installing certificates never changes the site file, whether the installation succeeds or stops part-way |
| EventHandler.IssueInstalls | src/event-handler.ts:10-16 | after a successful issuance the bundle is installed, no temporary file is left, the site file holds the new content and the configuration exists |
| EventHandler.IssueReplay | src/event-handler.ts:10-16 | redelivering a successful issuance with the same bundle and configuration, with a second rendering of any defined content (a new `generated` timestamp, say), on the disk the first delivery left, succeeds and attempts the same operations with the new rendering (outside sandbox mode exactly one reload, as the last step); the certificate directory keeps its files and contents, each final file getting its artifact's mode; the site file holds the new rendering with the mode it had; every other path is as it was; with no stale temporary file before the first run only the site file changes, and with the same rendering the disk is exactly as the first delivery left it |
| EventHandler.IssueFailFast | src/event-handler.ts:12-15 | a failed installation ends the event with its error, before any configuration write or reload, with the old site file intact; a failed configuration write ends it before the reload, with the certificates installed; a failed reload surfaces with its prefix after both writes |
| EventHandler.AddWritesPending | src/event-handler.ts:20-23 | with no configuration present, success writes exactly one new file of mode 0o644 holding the pending configuration, then exactly one reload, and no other file changes; a failed write ends the event before the reload with nothing changed |
| EventHandler.RemoveClears | src/event-handler.ts:29-31 | a successful removal attempts unlink, recursive removal and reload in that order; afterwards the configuration is gone, nothing remains in the certificate directory, and nothing else has changed |
| EventHandler.RemoveFailFast | src/event-handler.ts:29-31 | an unlink error other than `ENOENT` ends the event at once with nothing changed; a refused certificate removal ends it before the reload with the configuration gone; a failed reload surfaces with its prefix |
| EventHandler.SandboxHandles | src/event-handler.ts:6-35 | in sandbox mode no event changes the disk; an issuing event attempts only its fetch and fails only when that fetch fails |
| EventHandler.OnlyKindAndDomainMatter | src/event-handler.ts:9-33 | the certificate id is never consulted; issuance and renewal are handled alike, and so are removal and revocation |
| EventHandler.IssueServes | src/event-handler.ts:12-15 | after a successful issuance the fetch succeeded and the site file holds the active configuration; when the bundle names the event's domain, the chain and key paths it points nginx at hold the bundle's chain and key |
| Server.VerifySignature | src/server.ts:7-17 | accepts exactly when the header is present and equals `sha256=` followed by the HMAC of the body under the agent secret; a header of the wrong length is refused |
| Server.GetAgentMode | src/server.ts:28-30 | the mode is named `sandbox` exactly in sandbox mode and `live` otherwise |
| Server.Serve | src/server.ts:32-97 | the response, the new disk and the attempted operations are those of `ServeRun`, with the body accumulated chunk by chunk |
| Server.HealthAnswers | src/server.ts:34-42 | `GET /health` answers 200 with `ok: true` and does nothing |
| Server.OthersNotFound | src/server.ts:44-47 | any request other than `GET /health` and `POST /webhook` answers 404 `not found` and does nothing |
| Server.SignatureBeforeParse | src/server.ts:54-64 | a webhook with a bad or missing signature answers 401 `invalid signature`, does nothing, and does not depend on the JSON parser |
| Server.MalformedRejected | src/server.ts:66-77 | a signed webhook whose body is not JSON answers 400 `invalid json` and does nothing |
| Server.EventHandled | src/server.ts:79-95 | a signed, parsed event runs `handleEvent`; success answers 200 with `ok: true`, failure answers 500 with the error's message |
| Server.OnlyAuthorisedActs | src/server.ts:32-97 | the handler runs only for a signed `POST /webhook` whose body parses; every other request attempts nothing |
| Server.BodiesAgree | src/server.ts:34-95 | a health body and a webhook body name the agent's mode, and a health answer has status 200; a webhook body has `ok: true` exactly when the status is 200, which is exactly when it has no error; `not found` goes exactly with 404 |

## Left out

- Network mechanics of `fetchCertBundle` (URL, `x-internal-secret` header, `http`/`https` choice, the ten-second timer) are not modelled. How the request ends is a `FetchReply` parameter: a response with its status and body chunks, a socket error, or the timeout.
- `JSON.parse` is a parameter in both places it is used. For the bundle it turns a body into a bundle or nothing; for the webhook it turns a body into a `Payload`: malformed, `null`, another value, or one of the five events.
- A missing `domain`, `privateKey`, `fullChain` or `certificate` in the bundle JSON is modelled as the empty string, which the agent's falsy checks treat alike; a missing `expiresAt` is kept as absent (`None`) and reaches `fs.writeFile` as `undefined`. Non-string field values are not modelled.
- HMAC-SHA256 is a function parameter `hmac(secret, body)`. The constant-time property of `timingSafeEqual` cannot be expressed.
- Server.VerifySignature: compares lengths in characters, where `timingSafeEqual` compares UTF-8 byte lengths. Since unequal strings are refused either way, the verdict is the same.
- The reload command's subprocess, and the logging of its stdout and stderr, are not modelled. How the command fails is `Env.reloadError`.
- Errors the operating system raises for reasons of its own (permissions, a full disk) are not modelled as such. They are the `Env.faults` map of paths to errors.
- `log`, `src/config.ts` (environment reading, defaults, `process.exit`) and `agent.ts` (listening) are not modelled. The configuration is a `Config` parameter.
- `process.uptime()` is not modelled: the health body has no uptime field.
- JSON serialisation of responses, `writeHead` and `Content-Length` are not modelled. A response is a status and a structured body.
- `new Date().toISOString()` is a `generated` parameter.
- Requests are handled one at a time on one `Host`. Node's interleaving of concurrent requests is not modelled.
- Request bodies are strings. The model does not decode bytes as UTF-8.
- `path.join` is `dir + "/" + name`, without normalisation. One consequence is a hazard of the agent that the model does not show: for an event whose domain is `""`, `path.join(certDir, "")` is `certDir` itself, so the agent's forced recursive `rm` deletes every domain's certificates, while the model's removal of `certDir + "/"` reaches only the paths under that one name. `mkdir -p` creates only the named directory, not its ancestors. File modes are recorded, and the operating system's umask is not applied.
- Site file content is recorded as a `Rendered` value. Its characters are `TextOf` of it; `NginxManager.SiteTextRenders` states the rendering.
- The `existsSync` probe of `domain.added` is not recorded in the trace. It is an observation, not an operation, and it never raises an error.
- Template.PendingIsPlainHttp: states the absence of TLS line by line (no line is an `ssl_*` directive, and the only `listen` lines are the port-80 pair). It does not claim that the text `443` occurs nowhere in the file.
- CertManager.WriteCertsInstalls: states each final file's mode as its artifact's mode (0o600 for the key, 0o644 for the rest) only when no stale temporary file of that name was already present. `fs.writeFile` keeps the mode of an existing file, and the stale file's mode then carries over.
- Of the active template, the lemmas cover the listed directives: markers, `server_name`, `proxy_pass`, `listen`, the certificate lines, protocols, session cache and HSTS. The other lines (ciphers, stapling, resolver, the remaining headers and proxy settings) are in the model's text but have no lemma of their own.
- An exception that is not an `Error` (`String(err)`) is not modelled. Every failure carries a message.
