/** The nginx site configurations the agent writes: a pending one, which
    serves the ACME challenge and proxies everything else over plain HTTP,
    and an active one, which keeps serving the challenge on port 80,
    redirects the rest to HTTPS and terminates TLS with a fixed policy.
    Each is one template literal in the agent's code; here it is the same text
    as a sequence of lines joined by newlines, grouped into the blocks of
    the configuration (the header comment, each `server` block and each
    `location` block). The `Generated:` timestamp, which the agent reads
    from the clock, is a parameter. A line longer than 40 characters is
    written as several literals, split where a directive's arguments begin:
    the verifier decides the characters of short literals readily, and the
    proofs about whole files stay cheap. */
module Template {
  import opened Text

  datatype TemplateOptions = TemplateOptions(domain: string, upstream: string, certDir: string)

  /** Where nginx is told to find a domain's certificate chain and key. */
  datatype CertFiles = CertFiles(fullchain: string, privkey: string)

  function CertPaths(domain: string, certDir: string): CertFiles
  {
    var base := certDir + "/" + domain;
    CertFiles(base + "/fullchain.pem", base + "/privkey.pem")
  }

  const PendingMarker := "# chr-nginx-agent: PENDING"
  const ActiveMarker := "# chr-nginx-agent: ACTIVE"
  const NoticeLine := "# Do not edit \U{2014} " + "this file is managed by Changerawr."
  const GeneratedPrefix := "# Generated: "
  const ListenHttp := "    listen 80;"
  const ListenHttp6 := "    listen [::]:80;"
  const ListenHttps := "    listen 443 ssl;"
  const ListenHttps6 := "    listen [::]:443 ssl;"
  const ServerTokensOff := "    server_tokens off;"
  const SslProtocolsLine := "    ssl_protocols              TLSv1.2 " + "TLSv1.3;"
  const SessionCacheLine := "    ssl_session_cache    shared:CHR:10m;"

  /** The HSTS header line; its value is the quoted `max-age` alone. */
  const HstsMaxAge := "max-age=63072000"
  const HstsValue := "\"" + HstsMaxAge + "\""
  const HstsDirective := "    add_header  " + "Strict-Transport-Security  "
  const HstsAlways := "            always;"
  const HstsLine := HstsDirective + HstsValue + HstsAlways

  function GeneratedLine(generated: string): string { GeneratedPrefix + generated }
  function ServerNameLine(domain: string): string { "    server_name " + domain + ";" }
  function AcmeProxyLine(upstream: string): string { "        proxy_pass        " + upstream + ";" }
  function AppProxyLine(upstream: string): string { "        proxy_pass              " + upstream + ";" }
  function CertificateLine(path: string): string { "    ssl_certificate      " + path + ";" }
  function KeyLine(path: string): string { "    ssl_certificate_key  " + path + ";" }

  /** The comment that opens both files, ending in a blank line. */
  function Header(marker: string, generated: string): seq<string>
  {
    [marker, NoticeLine, GeneratedLine(generated), ""]
  }

  /** The opening of a plain-HTTP server block for `domain`. */
  function HttpServerOpen(domain: string): seq<string>
  {
    ["server {", ListenHttp, ListenHttp6, ServerNameLine(domain)]
  }

  /** The ACME HTTP-01 challenge location, proxied to the control plane. */
  function AcmeLocation(upstream: string): seq<string>
  {
    [
      "    location " + "/.well-known/acme-challenge/ {",
      AcmeProxyLine(upstream),
      "        proxy_set_header  " + "Host              $host;",
      "        proxy_set_header  " + "X-Real-IP         $remote_addr;",
      "        proxy_set_header  " + "X-Forwarded-For   " + "$proxy_add_x_forwarded_for;",
      "        proxy_set_header  " + "X-Forwarded-Proto $scheme;",
      "    }"
    ]
  }

  /** The pending file's catch-all location: a plain proxy. */
  function PendingLocation(upstream: string): seq<string>
  {
    [
      "    location / {",
      AppProxyLine(upstream),
      "        proxy_http_version      1.1;",
      "        proxy_set_header        " + "Upgrade           $http_upgrade;",
      "        proxy_set_header        " + "Connection        \"upgrade\";",
      "        proxy_set_header        " + "Host              $host;",
      "        proxy_set_header        " + "X-Real-IP         $remote_addr;",
      "        proxy_set_header        " + "X-Forwarded-For   " + "$proxy_add_x_forwarded_for;",
      "        proxy_set_header        " + "X-Forwarded-Proto $scheme;",
      "        proxy_read_timeout      60s;",
      "        proxy_send_timeout      60s;",
      "        proxy_connect_timeout   10s;",
      "    }"
    ]
  }

  /** The pending file's only server block, on port 80. */
  function PendingServer(o: TemplateOptions): seq<string>
  {
    HttpServerOpen(o.domain) + [""] + AcmeLocation(o.upstream) + [""] + PendingLocation(o.upstream) + ["}", ""]
  }

  /** The active file's port-80 block: the challenge, and a redirect for the rest. */
  function RedirectServer(o: TemplateOptions): seq<string>
  {
    HttpServerOpen(o.domain) + [ServerTokensOff, "", "    # ACME HTTP-01 \U{2014} must never " + "be redirected to HTTPS"] + AcmeLocation(o.upstream) +
    ["",
      "    location / {",
      "        return 308 " + "https://$host$request_uri;",
      "    }",
      "}",
      ""]
  }

  /** The opening of the TLS server block, naming the certificate files. */
  function TlsServerOpen(o: TemplateOptions): seq<string>
  {
    var paths := CertPaths(o.domain, o.certDir);
    [
      "server {",
      ListenHttps,
      ListenHttps6,
      "    http2 on;",
      ServerNameLine(o.domain),
      ServerTokensOff,
      "",
      CertificateLine(paths.fullchain),
      KeyLine(paths.privkey)
    ]
  }

  /** The TLS settings and response headers, the same for every domain. */
  const TlsPolicy: seq<string> := [
      SslProtocolsLine,
      "    ssl_ciphers                " + "ECDHE-ECDSA-AES128-GCM-SHA256:" + "ECDHE-RSA-AES128-GCM-SHA256:" + "ECDHE-ECDSA-AES256-GCM-SHA384:" + "ECDHE-RSA-AES256-GCM-SHA384:" + "ECDHE-ECDSA-CHACHA20-POLY1305:" + "ECDHE-RSA-CHACHA20-POLY1305;",
      "    ssl_prefer_server_ciphers  off;",
      "",
      SessionCacheLine,
      "    ssl_session_timeout  1d;",
      "    ssl_session_tickets  off;",
      "",
      "    ssl_stapling         on;",
      "    ssl_stapling_verify  on;",
      "    resolver             1.1.1.1 " + "8.8.8.8 valid=300s;",
      "    resolver_timeout     5s;",
      "",
      HstsLine,
      "    add_header  " + "X-Content-Type-Options     " + "\"nosniff\"                     always;",
      "    add_header  " + "X-Frame-Options            " + "\"SAMEORIGIN\"                  always;",
      "    add_header  " + "Referrer-Policy            " + "\"no-referrer-when-downgrade\"  always;",
      "    add_header  " + "X-Powered-By              " + "\"\"                             always;"
    ]

  /** The active file's catch-all location: the full reverse proxy. */
  function ActiveLocation(upstream: string): seq<string>
  {
    [
      "    location / {",
      AppProxyLine(upstream),
      "        proxy_http_version      1.1;",
      "        proxy_set_header        " + "Upgrade           $http_upgrade;",
      "        proxy_set_header        " + "Connection        \"upgrade\";",
      "        proxy_set_header        " + "Host              $host;",
      "        proxy_set_header        " + "X-Real-IP         $remote_addr;",
      "        proxy_set_header        " + "X-Forwarded-For   " + "$proxy_add_x_forwarded_for;",
      "        proxy_set_header        " + "X-Forwarded-Proto $scheme;",
      "        proxy_hide_header       " + "X-Powered-By;",
      "        proxy_read_timeout      60s;",
      "        proxy_send_timeout      60s;",
      "        proxy_connect_timeout   10s;",
      "        proxy_buffering         on;",
      "        proxy_buffer_size       4k;",
      "        proxy_buffers           8 4k;",
      "    }"
    ]
  }

  /** The active file's port-443 block. */
  function TlsServer(o: TemplateOptions): seq<string>
  {
    TlsServerOpen(o) + [""] + TlsPolicy + [""] + ActiveLocation(o.upstream) + ["}", ""]
  }

  function PendingLines(o: TemplateOptions, generated: string): seq<string>
  {
    Header(PendingMarker, generated) + PendingServer(o)
  }

  /** The two server blocks of the active file. */
  function ActiveServers(o: TemplateOptions): seq<string>
  {
    RedirectServer(o) + TlsServer(o)
  }

  function ActiveLines(o: TemplateOptions, generated: string): seq<string>
  {
    Header(ActiveMarker, generated) + ActiveServers(o)
  }

  function RenderPending(o: TemplateOptions, generated: string): string
  {
    JoinLines(PendingLines(o, generated))
  }

  function RenderActive(o: TemplateOptions, generated: string): string
  {
    JoinLines(ActiveLines(o, generated))
  }

  /** Which of the two configurations a domain is given. */
  datatype SiteMode = Pending | Active

  function Render(mode: SiteMode, o: TemplateOptions, generated: string): string
  {
    match mode
    case Active => RenderActive(o, generated)
    case Pending => RenderPending(o, generated)
  }

  // ---------------------------------------------------------------------
  // The mode marker and the timestamp

  /** A file that opens with the header comment: the marker on the first
      line, and the timestamp the only thing between the fixed text before
      it and the lines that follow. */
  lemma HeaderLayout(marker: string, generated: string, rest: seq<string>)
    requires |rest| > 0
    ensures JoinLines(Header(marker, generated) + rest) ==
              marker + "\n" + NoticeLine + "\n" + GeneratedPrefix + generated + "\n\n" + JoinLines(rest)
  {
    JoinAppend(Header(marker, generated), rest);
    JoinFour(marker, NoticeLine, GeneratedLine(generated), "");
    HeaderRegroup(marker, NoticeLine, GeneratedPrefix, generated, JoinLines(rest));
  }

  lemma HeaderRegroup(m: string, n: string, p: string, g: string, j: string)
    ensures m + "\n" + n + "\n" + (p + g) + "\n" + "" + "\n" + j == m + "\n" + n + "\n" + p + g + "\n\n" + j
  {
  }

  /** Behind the same header, two files agree exactly when their
      timestamps do. */
  lemma HeaderStamp(marker: string, g: string, g': string, rest: seq<string>)
    requires |rest| > 0
    ensures JoinLines(Header(marker, g) + rest) == JoinLines(Header(marker, g') + rest) <==> g == g'
  {
    HeaderLayout(marker, g, rest);
    HeaderLayout(marker, g', rest);
    MiddleDecides(marker + "\n" + NoticeLine + "\n" + GeneratedPrefix, g, g', "\n\n", JoinLines(rest));
  }

  /** The pending file opens with its marker line, and its timestamp is the
      only part of it the options do not determine. */
  lemma PendingLayout(o: TemplateOptions, generated: string)
    ensures RenderPending(o, generated) ==
              PendingMarker + "\n" + NoticeLine + "\n" + GeneratedPrefix + generated + "\n\n" + JoinLines(PendingServer(o))
  {
    HeaderLayout(PendingMarker, generated, PendingServer(o));
  }

  /** The same for the active file. */
  lemma ActiveLayout(o: TemplateOptions, generated: string)
    ensures RenderActive(o, generated) ==
              ActiveMarker + "\n" + NoticeLine + "\n" + GeneratedPrefix + generated + "\n\n" + JoinLines(ActiveServers(o))
  {
    HeaderLayout(ActiveMarker, generated, ActiveServers(o));
  }

  /** Two pending renderings with the same options are equal exactly when
      their timestamps are. */
  lemma PendingStamp(o: TemplateOptions, g: string, g': string)
    ensures RenderPending(o, g) == RenderPending(o, g') <==> g == g'
  {
    HeaderStamp(PendingMarker, g, g', PendingServer(o));
  }

  lemma ActiveStamp(o: TemplateOptions, g: string, g': string)
    ensures RenderActive(o, g) == RenderActive(o, g') <==> g == g'
  {
    HeaderStamp(ActiveMarker, g, g', ActiveServers(o));
  }

  /** Files whose markers differ at some position differ. */
  lemma MarkersSeparate(m: string, g: string, r: seq<string>, m': string, g': string, r': seq<string>, i: nat)
    requires |r| > 0 && |r'| > 0 && i < |m| && i < |m'| && m[i] != m'[i]
    ensures JoinLines(Header(m, g) + r) != JoinLines(Header(m', g') + r')
  {
    HeaderLayout(m, g, r);
    HeaderLayout(m', g', r');
    assert JoinLines(Header(m, g) + r)[i] == m[i];
    assert JoinLines(Header(m', g') + r')[i] == m'[i];
  }

  /** The first line tells the two kinds of file apart. */
  lemma ModesDiffer(o: TemplateOptions, g: string, o': TemplateOptions, g': string)
    ensures RenderPending(o, g) != RenderActive(o', g')
  {
    MarkersSeparate(PendingMarker, g, PendingServer(o), ActiveMarker, g', ActiveServers(o'), 19);
  }

  // ---------------------------------------------------------------------
  // What the files contain

  /** The pending file names the domain, listens on port 80 over IPv4 and
      IPv6, and proxies both the challenge and the rest to the upstream. */
  lemma PendingContents(o: TemplateOptions, generated: string)
    ensures Contains(RenderPending(o, generated), ServerNameLine(o.domain))
    ensures Contains(RenderPending(o, generated), ListenHttp)
    ensures Contains(RenderPending(o, generated), ListenHttp6)
    ensures Contains(RenderPending(o, generated), AcmeProxyLine(o.upstream))
    ensures Contains(RenderPending(o, generated), AppProxyLine(o.upstream))
  {
    var ls := PendingLines(o, generated);
    LineIsContained(ls, 5);
    LineIsContained(ls, 6);
    LineIsContained(ls, 7);
    LineIsContained(ls, 10);
    LineIsContained(ls, 18);
    assert ls[5] == ListenHttp && ls[6] == ListenHttp6 && ls[7] == ServerNameLine(o.domain);
    assert ls[10] == AcmeProxyLine(o.upstream) && ls[18] == AppProxyLine(o.upstream);
  }

  /** Text found in either server block of the active file is found in
      the file. */
  lemma InActive(o: TemplateOptions, generated: string, t: string)
    requires Contains(JoinLines(RedirectServer(o)), t) || Contains(JoinLines(TlsServer(o)), t)
    ensures Contains(RenderActive(o, generated), t)
  {
    JoinKeeps(RedirectServer(o), TlsServer(o), t);
    JoinKeeps(Header(ActiveMarker, generated), ActiveServers(o), t);
  }

  /** The port-80 block of the active file names the domain and proxies the
      challenge to the upstream. */
  lemma RedirectContents(o: TemplateOptions)
    ensures Contains(JoinLines(RedirectServer(o)), ServerNameLine(o.domain))
    ensures Contains(JoinLines(RedirectServer(o)), AcmeProxyLine(o.upstream))
  {
    var ls := RedirectServer(o);
    LineIsContained(ls, 3);
    LineIsContained(ls, 8);
    assert ls[3] == ServerNameLine(o.domain) && ls[8] == AcmeProxyLine(o.upstream);
  }

  /** The port-443 block listens on 443, names the domain and proxies to
      the upstream. */
  lemma TlsContents(o: TemplateOptions)
    ensures Contains(JoinLines(TlsServer(o)), ListenHttps)
    ensures Contains(JoinLines(TlsServer(o)), ListenHttps6)
    ensures Contains(JoinLines(TlsServer(o)), ServerNameLine(o.domain))
    ensures Contains(JoinLines(TlsServer(o)), AppProxyLine(o.upstream))
  {
    var ls := TlsServer(o);
    TlsLinesAt(o);
    LineIsContained(ls, 1);
    LineIsContained(ls, 2);
    LineIsContained(ls, 4);
    LineIsContained(ls, 30);
  }

  /** Where the listen, name and proxy lines sit in the port-443 block. */
  lemma TlsLinesAt(o: TemplateOptions)
    ensures var ls := TlsServer(o);
            && |ls| > 30
            && ls[1] == ListenHttps && ls[2] == ListenHttps6 && ls[4] == ServerNameLine(o.domain)
            && ls[30] == AppProxyLine(o.upstream)
  {
    var head := TlsServerOpen(o) + [""] + TlsPolicy + [""];
    assert |TlsServerOpen(o)| == 9 && |TlsPolicy| == 18;
    assert head[1] == ListenHttps && head[2] == ListenHttps6 && head[4] == ServerNameLine(o.domain);
    assert TlsServer(o) == head + ActiveLocation(o.upstream) + ["}", ""];
  }

  /** The port-443 block names the certificate files. */
  lemma TlsCertificates(o: TemplateOptions)
    ensures var paths := CertPaths(o.domain, o.certDir);
            && Contains(JoinLines(TlsServer(o)), CertificateLine(paths.fullchain))
            && Contains(JoinLines(TlsServer(o)), KeyLine(paths.privkey))
  {
    var ls := TlsServer(o);
    var paths := CertPaths(o.domain, o.certDir);
    LineIsContained(ls, 7);
    LineIsContained(ls, 8);
    assert ls[7] == CertificateLine(paths.fullchain) && ls[8] == KeyLine(paths.privkey);
  }

  /** The TLS policy names the protocol versions, the session cache and
      the HSTS header. */
  lemma PolicyContents()
    ensures Contains(JoinLines(TlsPolicy), SslProtocolsLine)
    ensures Contains(JoinLines(TlsPolicy), SessionCacheLine)
    ensures Contains(JoinLines(TlsPolicy), HstsLine)
  {
    var policy := TlsPolicy;
    assert policy[0] == SslProtocolsLine && policy[4] == SessionCacheLine && policy[13] == HstsLine;
    LineIsContained(policy, 0);
    LineIsContained(policy, 4);
    LineIsContained(policy, 13);
  }

  /** Text found in the TLS policy is found in the port-443 block. */
  lemma PolicyInTls(o: TemplateOptions, t: string)
    requires Contains(JoinLines(TlsPolicy), t)
    ensures Contains(JoinLines(TlsServer(o)), t)
  {
    var open := TlsServerOpen(o) + [""];
    JoinKeeps(open, TlsPolicy, t);
    JoinKeeps(open + TlsPolicy, [""], t);
    JoinKeeps(open + TlsPolicy + [""], ActiveLocation(o.upstream), t);
    JoinKeeps(open + TlsPolicy + [""] + ActiveLocation(o.upstream), ["}", ""], t);
  }

  /** The active file names the domain in both server blocks, keeps the
      challenge on port 80 and proxies the rest on 443. */
  lemma ActiveRouting(o: TemplateOptions, generated: string)
    ensures Contains(RenderActive(o, generated), ServerNameLine(o.domain))
    ensures Contains(RenderActive(o, generated), AcmeProxyLine(o.upstream))
    ensures Contains(RenderActive(o, generated), AppProxyLine(o.upstream))
    ensures Contains(RenderActive(o, generated), ListenHttps)
    ensures Contains(RenderActive(o, generated), ListenHttps6)
  {
    RedirectContents(o);
    TlsContents(o);
    InActive(o, generated, ServerNameLine(o.domain));
    InActive(o, generated, AcmeProxyLine(o.upstream));
    InActive(o, generated, AppProxyLine(o.upstream));
    InActive(o, generated, ListenHttps);
    InActive(o, generated, ListenHttps6);
  }

  /** The active file points nginx at the certificate files the agent
      stores for the domain and carries the fixed TLS policy. */
  lemma ActiveTls(o: TemplateOptions, generated: string)
    ensures var paths := CertPaths(o.domain, o.certDir);
            && Contains(RenderActive(o, generated), CertificateLine(paths.fullchain))
            && Contains(RenderActive(o, generated), KeyLine(paths.privkey))
    ensures Contains(RenderActive(o, generated), SslProtocolsLine)
    ensures Contains(RenderActive(o, generated), SessionCacheLine)
    ensures Contains(RenderActive(o, generated), HstsLine)
  {
    var paths := CertPaths(o.domain, o.certDir);
    TlsCertificates(o);
    InActive(o, generated, CertificateLine(paths.fullchain));
    InActive(o, generated, KeyLine(paths.privkey));
    PolicyContents();
    assert Contains(RenderActive(o, generated), SslProtocolsLine) by {
      PolicyInTls(o, SslProtocolsLine);
      InActive(o, generated, SslProtocolsLine);
    }
    assert Contains(RenderActive(o, generated), SessionCacheLine) by {
      PolicyInTls(o, SessionCacheLine);
      InActive(o, generated, SessionCacheLine);
    }
    assert Contains(RenderActive(o, generated), HstsLine) by {
      PolicyInTls(o, HstsLine);
      InActive(o, generated, HstsLine);
    }
  }

  /** HSTS is sent with a two-year `max-age`, ... */
  lemma HstsMaxAgeSet()
    ensures Contains(HstsLine, HstsMaxAge)
  {
    QuotedInside(HstsDirective, HstsMaxAge, HstsAlways);
  }

  /** ... without `includeSubDomains` and without `preload`. */
  lemma HstsScope()
    ensures !Contains(HstsLine, "includeSubDomains")
    ensures !Contains(HstsLine, "preload")
  {
    Unlisted("includeSubDomains", 'i');
    Unlisted("preload", 'p');
  }

  lemma QuotedInside(d: string, m: string, a: string)
    ensures Contains(d + ("\"" + m + "\"") + a, m)
  {
    ContainsInfix(d + "\"", m, "\"" + a);
    assert d + "\"" + m + ("\"" + a) == d + ("\"" + m + "\"") + a;
  }

  /** `t` is not found in the HSTS line when neither the value nor the
      text after it has `t`'s character `c`, and `t` has an `l`, which the
      text before the value lacks. */
  lemma Unlisted(t: string, c: char)
    requires c in t && 'l' in t && ' ' !in t
    requires c !in HstsValue && c !in HstsAlways
    ensures !Contains(HstsLine, t)
  {
    MissingChar(HstsDirective, t, 'l');
    MissingChar(HstsValue, t, c);
    MissingChar(HstsAlways, t, c);
    if Contains(HstsLine, t) {
      Bracketed(HstsDirective, HstsValue, HstsAlways, t);
    }
  }

  // ---------------------------------------------------------------------
  // What the pending file leaves out

  /** A line that is neither an `ssl_*` nor a `listen` directive: the sixth
      character of each of those (`s` of `ssl`, `i` of `listen`) is
      missing where Quiet lines have it. */
  predicate Quiet(l: string)
  {
    |l| > 5 ==> l[5] != 's' && l[5] != 'i'
  }

  lemma QuietIsNoDirective(l: string)
    requires Quiet(l)
    ensures !("    ssl_" <= l) && !("    listen " <= l)
  {
    DirectiveSixth(l, "    ssl_");
    DirectiveSixth(l, "    listen ");
  }

  lemma DirectiveSixth(l: string, d: string)
    requires |d| > 5
    ensures d <= l ==> |l| > 5 && l[5] == d[5]
  {
  }

  lemma HeaderQuiet(generated: string)
    ensures forall l | l in Header(PendingMarker, generated) :: Quiet(l)
  {
    assert GeneratedLine(generated)[5] == GeneratedPrefix[5];
  }

  lemma HttpOpenListens(domain: string)
    ensures forall l | l in HttpServerOpen(domain) :: Quiet(l) || l == ListenHttp || l == ListenHttp6
  {
    assert ServerNameLine(domain)[5] == 'e';
  }

  lemma AcmeQuiet(upstream: string)
    ensures forall k | 0 <= k < |AcmeLocation(upstream)| :: Quiet(AcmeLocation(upstream)[k])
  {
    assert AcmeProxyLine(upstream)[5] == ' ';
  }

  lemma PendingLocationQuiet(upstream: string)
    ensures forall k | 0 <= k < |PendingLocation(upstream)| :: Quiet(PendingLocation(upstream)[k])
  {
    assert AppProxyLine(upstream)[5] == ' ';
  }

  /** The pending file serves plain HTTP only: its one pair of `listen`
      directives is the port-80 pair, and it has no `ssl_*` directive (so
      no `ssl_certificate` line). The statement is about the elements of
      the line sequence; it is about the file's real lines only when the
      domain, the upstream and the timestamp hold no newline, since an
      element holding one is several lines of the file. */
  lemma PendingIsPlainHttp(o: TemplateOptions, generated: string, l: string)
    requires l in PendingLines(o, generated)
    ensures !("    ssl_" <= l)
    ensures "    listen " <= l ==> l == ListenHttp || l == ListenHttp6
  {
    if l in Header(PendingMarker, generated) {
      HeaderQuiet(generated);
    } else if l in HttpServerOpen(o.domain) {
      HttpOpenListens(o.domain);
    } else if l in AcmeLocation(o.upstream) {
      AcmeQuiet(o.upstream);
      QuietMember(AcmeLocation(o.upstream), l);
    } else if l in PendingLocation(o.upstream) {
      PendingLocationQuiet(o.upstream);
      QuietMember(PendingLocation(o.upstream), l);
    } else {
      assert l == "" || l == "}";
    }
    if l == ListenHttp || l == ListenHttp6 {
      DirectiveSixth(l, "    ssl_");
      assert l[5] == 'i';
    } else {
      QuietIsNoDirective(l);
    }
  }

  lemma QuietMember(ls: seq<string>, l: string)
    requires l in ls && forall k | 0 <= k < |ls| :: Quiet(ls[k])
    ensures Quiet(l)
  {
  }
}
