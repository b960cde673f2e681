/** The reconciler: each lifecycle event becomes a fixed, fail-fast
    sequence of store operations and at most one reload. The first failure
    ends the sequence with its error and nothing already done is undone. */
module EventHandler {
  import opened Types
  import opened FileSystem
  import opened CertManager
  import opened Template
  import opened NginxManager

  /** The one field of an event the reconciler acts on. */
  function EventDomain(ev: AgentEvent): string
  {
    ev.domain
  }

  // ---------------------------------------------------------------------
  // The three sequences, each from disk `d`; `content` is the
  // configuration text the sequence writes.

  /** Write a configuration, then reload: the tail of both the issuing
      and the adding sequence. */
  function ActivateRun(env: Env, cfg: Config, domain: string, content: Content, d: Disk): Run
  {
    var c := WriteConfigRun(env, cfg, domain, content, d);
    AndThen(c, ReloadRun(env, cfg, c.disk))
  }

  /** Install a fetched bundle, then activate its configuration. */
  function InstallRun(env: Env, cfg: Config, domain: string, b: CertBundle, content: Content, d: Disk): Run
  {
    var w := WriteCertsRun(env, cfg, b, d);
    AndThen(w, ActivateRun(env, cfg, domain, content, w.disk))
  }

  /** `cert.issued` / `cert.renewed`: fetch the bundle, install it, write
      the active configuration, reload. */
  function IssueRun(env: Env, cfg: Config, domain: string, fetched: Result<CertBundle>, content: Content, d: Disk): Run
  {
    match fetched
    case Failure(message) => Run(d, [Fetch(domain)], Err(message))
    case Success(b) => Then(Run(d, [Fetch(domain)], Ok), InstallRun(env, cfg, domain, b, content, d))
  }

  /** `domain.added`: only a domain without a configuration gets the
      pending one, followed by a reload. */
  function AddRun(env: Env, cfg: Config, domain: string, content: Content, d: Disk): Run
  {
    if ConfigExists(env, d, cfg, domain) then Idle(d) else ActivateRun(env, cfg, domain, content, d)
  }

  /** `domain.removed` / `cert.revoked`: remove the configuration, then the
      certificates, then reload. */
  function RemoveRun(env: Env, cfg: Config, domain: string, d: Disk): Run
  {
    var a := RemoveConfigRun(env, cfg, domain, d);
    var b := RemoveCertsRun(env, cfg, domain, a.disk);
    var l := ReloadRun(env, cfg, b.disk);
    AndThen(a, AndThen(b, l))
  }

  /** What `handleEvent(ev)` does from disk `d`, given how the bundle
      request is answered and the time stamped into a configuration. */
  function HandleRun(env: Env, cfg: Config, ev: AgentEvent, reply: FetchReply, parse: string -> Option<CertBundle>,
                     generated: string, d: Disk): Run
  {
    match ev
    case CertIssued(domain, _) =>
      IssueRun(env, cfg, domain, FetchOutcome(domain, reply, parse), SiteText(cfg, domain, Active, generated), d)
    case CertRenewed(domain, _) =>
      IssueRun(env, cfg, domain, FetchOutcome(domain, reply, parse), SiteText(cfg, domain, Active, generated), d)
    case DomainAdded(domain) =>
      AddRun(env, cfg, domain, SiteText(cfg, domain, Pending, generated), d)
    case DomainRemoved(domain) => RemoveRun(env, cfg, domain, d)
    case CertRevoked(domain) => RemoveRun(env, cfg, domain, d)
  }

  // ---------------------------------------------------------------------
  // handleEvent

  method HandleEvent(h: Host, cfg: Config, ev: AgentEvent, reply: FetchReply, parse: string -> Option<CertBundle>,
                     generated: string)
    returns (outcome: Outcome)
    modifies h
    ensures var r := HandleRun(h.env, cfg, ev, reply, parse, generated, old(h.disk));
            h.disk == r.disk && h.trace == old(h.trace) + r.trace && outcome == r.outcome
  {
    match ev
    case CertIssued(domain, _) =>
      outcome := IssueCertificate(h, cfg, domain, reply, parse, generated);
    case CertRenewed(domain, _) =>
      outcome := IssueCertificate(h, cfg, domain, reply, parse, generated);
    case DomainAdded(domain) =>
      outcome := AddDomain(h, cfg, domain, generated);
    case DomainRemoved(domain) =>
      outcome := RemoveDomain(h, cfg, domain);
    case CertRevoked(domain) =>
      outcome := RemoveDomain(h, cfg, domain);
  }

  /** The body of the `cert.issued` / `cert.renewed` case. */
  method IssueCertificate(h: Host, cfg: Config, domain: string, reply: FetchReply, parse: string -> Option<CertBundle>,
                          generated: string)
    returns (outcome: Outcome)
    modifies h
    ensures var r := IssueRun(h.env, cfg, domain, FetchOutcome(domain, reply, parse),
                              SiteText(cfg, domain, Active, generated), old(h.disk));
            h.disk == r.disk && h.trace == old(h.trace) + r.trace && outcome == r.outcome
  {
    var fetched := FetchCertBundle(h, domain, reply, parse);
    if fetched.Failure? {
      return Err(fetched.error);
    }
    outcome := Install(h, cfg, domain, fetched.value, generated);
  }

  /** `writeCerts` and what follows it. */
  method Install(h: Host, cfg: Config, domain: string, b: CertBundle, generated: string) returns (outcome: Outcome)
    modifies h
    ensures var r := InstallRun(h.env, cfg, domain, b, SiteText(cfg, domain, Active, generated), old(h.disk));
            h.disk == r.disk && h.trace == old(h.trace) + r.trace && outcome == r.outcome
  {
    outcome := WriteCerts(h, cfg, b);
    if outcome.Err? {
      return;
    }
    outcome := Activate(h, cfg, domain, Active, generated);
  }

  /** `writeNginxConfig` and the reload after it. */
  method Activate(h: Host, cfg: Config, domain: string, mode: SiteMode, generated: string) returns (outcome: Outcome)
    modifies h
    ensures var r := ActivateRun(h.env, cfg, domain, SiteText(cfg, domain, mode, generated), old(h.disk));
            h.disk == r.disk && h.trace == old(h.trace) + r.trace && outcome == r.outcome
  {
    outcome := WriteNginxConfig(h, cfg, domain, mode, generated);
    if outcome.Err? {
      return;
    }
    outcome := ReloadNginx(h, cfg);
  }

  /** The body of the `domain.added` case. */
  method AddDomain(h: Host, cfg: Config, domain: string, generated: string) returns (outcome: Outcome)
    modifies h
    ensures var r := AddRun(h.env, cfg, domain, SiteText(cfg, domain, Pending, generated), old(h.disk));
            h.disk == r.disk && h.trace == old(h.trace) + r.trace && outcome == r.outcome
  {
    if ConfigExists(h.env, h.disk, cfg, domain) {
      return Ok;
    }
    outcome := Activate(h, cfg, domain, Pending, generated);
  }

  /** The body of the `domain.removed` / `cert.revoked` case. */
  method RemoveDomain(h: Host, cfg: Config, domain: string) returns (outcome: Outcome)
    modifies h
    ensures var r := RemoveRun(h.env, cfg, domain, old(h.disk));
            h.disk == r.disk && h.trace == old(h.trace) + r.trace && outcome == r.outcome
  {
    outcome := RemoveNginxConfig(h, cfg, domain);
    if outcome.Err? {
      return;
    }
    outcome := RemoveCerts(h, cfg, domain);
    if outcome.Err? {
      return;
    }
    outcome := ReloadNginx(h, cfg);
  }

  // ---------------------------------------------------------------------
  // The plans the events follow

  /** The operations a certificate installation attempts when nothing fails. */
  function CertPlan(cfg: Config, b: CertBundle): seq<Effect>
  {
    var dir := CertDir(cfg, b.domain);
    if cfg.sandboxMode then [] else CertSteps(dir, b) + [Stat(dir, FinalName(FullChain))]
  }

  /** The single operation of each of the configuration store's writes and
      removals, and of the reloader, outside sandbox mode. */
  function Only(cfg: Config, e: Effect): seq<Effect>
  {
    if cfg.sandboxMode then [] else [e]
  }

  /** `cert.issued` / `cert.renewed` with bundle `b`: fetch, the
      installation, the configuration, the reload. */
  function IssuePlan(cfg: Config, domain: string, b: CertBundle, content: Content): seq<Effect>
  {
    [Fetch(domain)] + CertPlan(cfg, b) + Only(cfg, WriteSite(cfg, domain, content)) + Only(cfg, Reload)
  }

  /** `domain.added` for a domain without a configuration. */
  function AddPlan(cfg: Config, domain: string, content: Content): seq<Effect>
  {
    Only(cfg, WriteSite(cfg, domain, content)) + Only(cfg, Reload)
  }

  /** `domain.removed` / `cert.revoked`. */
  function RemovePlan(cfg: Config, domain: string): seq<Effect>
  {
    Only(cfg, Unlink(cfg.nginxSitesDir, ConfigName(domain))) + Only(cfg, RemoveTree(CertDir(cfg, domain))) + Only(cfg, Reload)
  }

  /** A certificate installation follows its plan. */
  lemma CertStageFollows(env: Env, cfg: Config, b: CertBundle, d: Disk)
    ensures Follows(WriteCertsRun(env, cfg, b, d), CertPlan(cfg, b))
  {
    ExecuteFollows(env, d, CertSteps(CertDir(cfg, b.domain), b));
  }

  /** Each operation of the configuration store and the reloader follows
      its plan. */
  lemma SiteStagesFollow(env: Env, cfg: Config, domain: string, content: Content, d: Disk)
    ensures Follows(WriteConfigRun(env, cfg, domain, content, d), Only(cfg, WriteSite(cfg, domain, content)))
    ensures Follows(ReloadRun(env, cfg, d), Only(cfg, Reload))
    ensures Follows(RemoveConfigRun(env, cfg, domain, d), Only(cfg, Unlink(cfg.nginxSitesDir, ConfigName(domain))))
    ensures Follows(RemoveCertsRun(env, cfg, domain, d), Only(cfg, RemoveTree(CertDir(cfg, domain))))
  {
    ExecuteOne(env, d, WriteSite(cfg, domain, content));
    ExecuteOne(env, d, RemoveTree(CertDir(cfg, domain)));
  }

  /** An installation followed by the activation attempts a prefix of
      their joint plan, all of it when it succeeds. */
  lemma InstallFollowsPlan(env: Env, cfg: Config, domain: string, b: CertBundle, content: Content, d: Disk)
    ensures Follows(InstallRun(env, cfg, domain, b, content, d),
                    CertPlan(cfg, b) + (Only(cfg, WriteSite(cfg, domain, content)) + Only(cfg, Reload)))
  {
    var w := WriteCertsRun(env, cfg, b, d);
    var c := WriteConfigRun(env, cfg, domain, content, w.disk);
    CertStageFollows(env, cfg, b, d);
    SiteStagesFollow(env, cfg, domain, content, w.disk);
    SiteStagesFollow(env, cfg, domain, content, c.disk);
    var pw, pl := Only(cfg, WriteSite(cfg, domain, content)), Only(cfg, Reload);
    AndThenFollows(c, ReloadRun(env, cfg, c.disk), pw, pl);
    AndThenFollows(w, ActivateRun(env, cfg, domain, content, w.disk), CertPlan(cfg, b), pw + pl);
  }

  /** `cert.issued` / `cert.renewed` attempt, in order, a prefix of the
      plan for the fetched bundle, all of it when they succeed; a failed
      fetch ends the event there, with the fetch's error. */
  lemma IssueFollowsPlan(env: Env, cfg: Config, domain: string, fetched: Result<CertBundle>, content: Content, d: Disk)
    ensures var r := IssueRun(env, cfg, domain, fetched, content, d);
            && (fetched.Success? ==> Follows(r, IssuePlan(cfg, domain, fetched.value, content)))
            && (fetched.Failure? ==> r == Run(d, [Fetch(domain)], Err(fetched.error)))
  {
    if fetched.Success? {
      var b := fetched.value;
      var pc, pw, pl := CertPlan(cfg, b), Only(cfg, WriteSite(cfg, domain, content)), Only(cfg, Reload);
      InstallFollowsPlan(env, cfg, domain, b, content, d);
      var i := InstallRun(env, cfg, domain, b, content, d);
      assert [Fetch(domain)] + pc + pw + pl == [Fetch(domain)] + (pc + (pw + pl));
      assert Then(Run(d, [Fetch(domain)], Ok), i).trace == [Fetch(domain)] + i.trace;
    }
  }

  /** `domain.added`: with a configuration in place nothing is attempted
      and nothing changes; without one the event attempts a prefix of its
      plan, all of it when it succeeds. */
  lemma AddFollowsPlan(env: Env, cfg: Config, domain: string, content: Content, d: Disk)
    ensures var r := AddRun(env, cfg, domain, content, d);
            && (ConfigExists(env, d, cfg, domain) ==> r == Idle(d))
            && (!ConfigExists(env, d, cfg, domain) ==> Follows(r, AddPlan(cfg, domain, content)))
  {
    var c := WriteConfigRun(env, cfg, domain, content, d);
    SiteStagesFollow(env, cfg, domain, content, d);
    SiteStagesFollow(env, cfg, domain, content, c.disk);
    AndThenFollows(c, ReloadRun(env, cfg, c.disk), Only(cfg, WriteSite(cfg, domain, content)), Only(cfg, Reload));
  }

  /** `domain.removed` / `cert.revoked` attempt a prefix of their plan, all
      of it when they succeed. */
  lemma RemoveFollowsPlan(env: Env, cfg: Config, domain: string, d: Disk)
    ensures Follows(RemoveRun(env, cfg, domain, d), RemovePlan(cfg, domain))
  {
    var a := RemoveConfigRun(env, cfg, domain, d);
    var b := RemoveCertsRun(env, cfg, domain, a.disk);
    SiteStagesFollow(env, cfg, domain, Literal(""), d);
    SiteStagesFollow(env, cfg, domain, Literal(""), a.disk);
    SiteStagesFollow(env, cfg, domain, Literal(""), b.disk);
    var pa, pb, pl := Only(cfg, Unlink(cfg.nginxSitesDir, ConfigName(domain))), Only(cfg, RemoveTree(CertDir(cfg, domain))), Only(cfg, Reload);
    AndThenFollows(b, ReloadRun(env, cfg, b.disk), pb, pl);
    AndThenFollows(a, AndThen(b, ReloadRun(env, cfg, b.disk)), pa, pb + pl);
    assert pa + pb + pl == pa + (pb + pl);
  }

  // ---------------------------------------------------------------------
  // Reloads

  /** No installation step is a reload. */
  lemma CertPlanReloadFree(cfg: Config, b: CertBundle)
    ensures ReloadFree(CertPlan(cfg, b))
  {
    var dir := CertDir(cfg, b.domain);
    var s := CertSteps(dir, b);
    assert forall i | 0 <= i < |TempWrites(dir, b)| :: TempWrites(dir, b)[i].WriteFile?;
    assert forall i | 0 <= i < |Renames(dir)| :: Renames(dir)[i].Rename?;
    assert forall i | 0 <= i < |s| :: s[i].MakeDir? || s[i].WriteFile? || s[i].Rename?;
  }

  /** Every plan ends with its one reload and has none before it. */
  lemma PlansReloadLast(cfg: Config, domain: string, b: CertBundle, content: Content)
    ensures ReloadsLast(IssuePlan(cfg, domain, b, content))
    ensures ReloadsLast(AddPlan(cfg, domain, content))
    ensures ReloadsLast(RemovePlan(cfg, domain))
  {
    CertPlanReloadFree(cfg, b);
    var p := IssuePlan(cfg, domain, b, content);
    var c := CertPlan(cfg, b);
    assert forall i | 1 <= i < 1 + |c| :: p[i] == c[i - 1];
  }

  /** Whatever the event and however its steps end, it reloads at most once,
      and only as the last operation it attempts; in sandbox mode it never
      reloads. */
  lemma ReloadAtMostOnce(env: Env, cfg: Config, ev: AgentEvent, reply: FetchReply, parse: string -> Option<CertBundle>,
                         generated: string, d: Disk)
    ensures var t := HandleRun(env, cfg, ev, reply, parse, generated, d).trace;
            && (forall i | 0 <= i < |t| - 1 :: t[i] != Reload)
            && (cfg.sandboxMode ==> Reload !in t)
  {
    var domain := EventDomain(ev);
    var r := HandleRun(env, cfg, ev, reply, parse, generated, d);
    var fetched := FetchOutcome(domain, reply, parse);
    match ev
    case CertIssued(_, _) => IssueReloadsLast(env, cfg, domain, fetched, SiteText(cfg, domain, Active, generated), d);
    case CertRenewed(_, _) => IssueReloadsLast(env, cfg, domain, fetched, SiteText(cfg, domain, Active, generated), d);
    case DomainAdded(_) =>
      var content := SiteText(cfg, domain, Pending, generated);
      AddFollowsPlan(env, cfg, domain, content, d);
      PlansReloadLast(cfg, domain, CertBundle(domain, "", "", "", None), content);
      if !ConfigExists(env, d, cfg, domain) {
        PrefixReloadsLast(r, AddPlan(cfg, domain, content));
      }
    case DomainRemoved(_) =>
      RemoveFollowsPlan(env, cfg, domain, d);
      PlansReloadLast(cfg, domain, CertBundle(domain, "", "", "", None), Literal(""));
      PrefixReloadsLast(r, RemovePlan(cfg, domain));
    case CertRevoked(_) =>
      RemoveFollowsPlan(env, cfg, domain, d);
      PlansReloadLast(cfg, domain, CertBundle(domain, "", "", "", None), Literal(""));
      PrefixReloadsLast(r, RemovePlan(cfg, domain));
  }

  lemma IssueReloadsLast(env: Env, cfg: Config, domain: string, fetched: Result<CertBundle>, content: Content, d: Disk)
    ensures var t := IssueRun(env, cfg, domain, fetched, content, d).trace;
            && (forall i | 0 <= i < |t| - 1 :: t[i] != Reload)
            && (cfg.sandboxMode ==> Reload !in t)
  {
    IssueFollowsPlan(env, cfg, domain, fetched, content, d);
    if fetched.Success? {
      PlansReloadLast(cfg, domain, fetched.value, content);
      PrefixReloadsLast(IssueRun(env, cfg, domain, fetched, content, d), IssuePlan(cfg, domain, fetched.value, content));
    }
  }

  // ---------------------------------------------------------------------
  // What each event leaves on the disk

  /** Installing certificates never touches the site file, whether the
      installation succeeds or stops part-way. */
  lemma CertsSpareConfig(env: Env, cfg: Config, domain: string, b: CertBundle, d: Disk)
    ensures var p := ConfigPath(cfg, domain);
            FileAt(WriteCertsRun(env, cfg, b, d).disk, p) == FileAt(d, p)
  {
    if !cfg.sandboxMode && BundleError(cfg, b).None? {
      var dir, p := CertDir(cfg, b.domain), ConfigPath(cfg, domain);
      var s := CertSteps(dir, b);
      forall a: Artifact
        ensures p != TempPath(dir, a) && p != FinalPath(dir, a)
      {
        ConfigApart(cfg, domain, dir, a);
      }
      CertStepsSpare(dir, b, p);
      ExecuteStops(env, d, s);
      var r := Execute(env, d, s);
      if r.outcome.Ok? {
        SparedByAll(d, s, p);
      } else {
        var k := |r.trace| - 1;
        assert forall j | 0 <= j < k :: s[..k][j] == s[j];
        SparedByAll(d, s[..k], p);
      }
    }
  }

  /** A successful `cert.issued` / `cert.renewed` outside sandbox mode
      leaves the bundle installed in the directory of the bundle's domain,
      `content` in the site file of the event's domain, and that
      configuration present. */
  lemma IssueInstalls(env: Env, cfg: Config, domain: string, b: CertBundle, content: Content, d: Disk)
    requires !cfg.sandboxMode && IssueRun(env, cfg, domain, Success(b), content, d).outcome.Ok?
    ensures var r, dir, p := IssueRun(env, cfg, domain, Success(b), content, d), CertDir(cfg, b.domain), ConfigPath(cfg, domain);
            && p in r.disk.files && r.disk.files[p].content == content
            && ConfigExists(env, r.disk, cfg, domain)
            && (forall a: Artifact :: FileAt(r.disk, FinalPath(dir, a)) == Some(File(Part(b, a), TempMode(d, dir, a))))
            && (forall a: Artifact :: TempPath(dir, a) !in r.disk.files)
  {
    var dir, p := CertDir(cfg, b.domain), ConfigPath(cfg, domain);
    var w := WriteCertsRun(env, cfg, b, d);
    var c := WriteConfigRun(env, cfg, domain, content, w.disk);
    WriteCertsInstalls(env, cfg, b, d);
    forall a: Artifact
      ensures FileAt(c.disk, FinalPath(dir, a)) == FileAt(w.disk, FinalPath(dir, a))
      ensures FileAt(c.disk, TempPath(dir, a)) == FileAt(w.disk, TempPath(dir, a))
    {
      ConfigApart(cfg, domain, dir, a);
      WriteConfigReplaces(env, cfg, domain, content, w.disk, FinalPath(dir, a));
      WriteConfigReplaces(env, cfg, domain, content, w.disk, TempPath(dir, a));
    }
    WriteConfigReplaces(env, cfg, domain, content, w.disk, p);
    ReloadSurfaces(env, cfg, c.disk);
  }

  /** Fail-fast without rollback for `cert.issued` / `cert.renewed`: a
      failed installation ends the event with its error before the
      configuration is written, leaving the old configuration in place; a
      failed configuration write ends it before the reload, with the new
      certificates still installed; a failed reload surfaces with its
      prefix, with certificates and configuration both written. */
  lemma IssueFailFast(env: Env, cfg: Config, domain: string, b: CertBundle, content: Content, d: Disk)
    requires IssueRun(env, cfg, domain, Success(b), content, d).outcome.Err?
    ensures var r, w, dir, p := IssueRun(env, cfg, domain, Success(b), content, d), WriteCertsRun(env, cfg, b, d),
                                CertDir(cfg, b.domain), ConfigPath(cfg, domain);
            var c := WriteConfigRun(env, cfg, domain, content, w.disk);
            && (w.outcome.Err? ==>
                  && r.outcome == w.outcome && r.trace == [Fetch(domain)] + w.trace && Reload !in r.trace
                  && FileAt(r.disk, p) == FileAt(d, p))
            && (w.outcome.Ok? ==>
                  && !cfg.sandboxMode
                  && (forall a: Artifact :: FileAt(r.disk, FinalPath(dir, a)) == Some(File(Part(b, a), TempMode(d, dir, a)))))
            && (w.outcome.Ok? && c.outcome.Err? ==>
                  r.outcome == c.outcome && r.trace == [Fetch(domain)] + w.trace + [WriteSite(cfg, domain, content)])
            && (w.outcome.Ok? && c.outcome.Ok? ==>
                  && r.outcome == Err(ReloadFailedPrefix + env.reloadError.value.message)
                  && p in r.disk.files && r.disk.files[p].content == content)
  {
    var dir, p := CertDir(cfg, b.domain), ConfigPath(cfg, domain);
    var w := WriteCertsRun(env, cfg, b, d);
    var c := WriteConfigRun(env, cfg, domain, content, w.disk);
    CertsSpareConfig(env, cfg, domain, b, d);
    CertStageFollows(env, cfg, b, d);
    CertPlanReloadFree(cfg, b);
    if w.outcome.Ok? {
      WriteCertsInstalls(env, cfg, b, d);
      ExecuteOne(env, w.disk, WriteSite(cfg, domain, content));
      forall a: Artifact
        ensures FileAt(c.disk, FinalPath(dir, a)) == FileAt(w.disk, FinalPath(dir, a))
      {
        ConfigApart(cfg, domain, dir, a);
        if c.outcome.Ok? {
          WriteConfigReplaces(env, cfg, domain, content, w.disk, FinalPath(dir, a));
        }
      }
      if c.outcome.Ok? {
        WriteConfigReplaces(env, cfg, domain, content, w.disk, p);
        ReloadSurfaces(env, cfg, c.disk);
      }
    } else {
      var r := IssueRun(env, cfg, domain, Success(b), content, d);
      assert forall i | 0 <= i < |w.trace| :: w.trace[i] == CertPlan(cfg, b)[i];
      assert forall i | 1 <= i < |r.trace| :: r.trace[i] == w.trace[i - 1];
    }
  }

  /** A successful issuance leaves a disk that is ready for the same
      installation again. */
  lemma IssueLeavesReady(env: Env, cfg: Config, domain: string, b: CertBundle, content: Content, d: Disk)
    requires !cfg.sandboxMode && IssueRun(env, cfg, domain, Success(b), content, d).outcome.Ok?
    ensures var d1, dir := IssueRun(env, cfg, domain, Success(b), content, d).disk, CertDir(cfg, b.domain);
            && InstallReady(env, d1, dir, b)
            && d1.dirs == d.dirs + {dir}
  {
    var dir := CertDir(cfg, b.domain);
    var w := WriteCertsRun(env, cfg, b, d);
    WriteCertsInstalls(env, cfg, b, d);
    InstalledFromReady(env, cfg, b, d);
    ExecuteOne(env, w.disk, WriteSite(cfg, domain, content));
    WriteConfigReplaces(env, cfg, domain, content, w.disk, dir);
    forall a: Artifact
      ensures dir != TempPath(dir, a) && dir != FinalPath(dir, a)
    {
    }
  }

  /** Redelivering a successful issuance: the same bundle and configuration,
      but a configuration rendered anew (a later `generated` stamp), from
      the disk the first delivery left. The replay succeeds, attempts the
      same operations with the new configuration, and leaves the disk as it
      found it, except that the site file holds the new rendering (with the
      mode it already had) and each final certificate file has its
      artifact's mode; the contents of the final files are unchanged.
      Without a stale temporary file before the first run, the site file is
      the only thing that changes, and a replay with the same rendering
      leaves the disk exactly as it was. */
  lemma IssueReplay(env: Env, cfg: Config, domain: string, b: CertBundle, content: Content, content2: Content, d: Disk)
    requires IssueRun(env, cfg, domain, Success(b), content, d).outcome.Ok?
    requires !content2.Undefined?
    ensures var d1 := IssueRun(env, cfg, domain, Success(b), content, d).disk;
            var r, dir, p := IssueRun(env, cfg, domain, Success(b), content2, d1), CertDir(cfg, b.domain), ConfigPath(cfg, domain);
            && r.outcome.Ok?
            && r.trace == IssuePlan(cfg, domain, b, content2)
            && r.disk.dirs == d1.dirs
            && (forall q | q != p && (forall a: Artifact :: q != FinalPath(dir, a)) :: FileAt(r.disk, q) == FileAt(d1, q))
            && (!cfg.sandboxMode ==>
                  && p in d1.files
                  && d1.files[p].mode == (if p in d.files then d.files[p].mode else SiteFileMode)
                  && FileAt(r.disk, p) == Some(File(content2, d1.files[p].mode))
                  && forall a: Artifact ::
                       && FileAt(r.disk, FinalPath(dir, a)) == Some(File(Part(b, a), ModeOf(a)))
                       && FileAt(d1, FinalPath(dir, a)).Some? && FileAt(d1, FinalPath(dir, a)).value.content == Part(b, a))
            && (cfg.sandboxMode ==> r.disk == d1)
            && (!cfg.sandboxMode && (forall a: Artifact :: TempPath(dir, a) !in d.files) ==>
                  r.disk == d1.(files := d1.files[p := File(content2, d1.files[p].mode)]))
            && (content2 == content && (cfg.sandboxMode || forall a: Artifact :: TempPath(dir, a) !in d.files) ==> r.disk == d1)
  {
    var d1 := IssueRun(env, cfg, domain, Success(b), content, d).disk;
    var r, dir, p := IssueRun(env, cfg, domain, Success(b), content2, d1), CertDir(cfg, b.domain), ConfigPath(cfg, domain);
    IssueFollowsPlan(env, cfg, domain, Success(b), content2, d1);
    if !cfg.sandboxMode {
      ReplaySucceeds(env, cfg, domain, b, content, content2, d);
      ReplayKeeps(env, cfg, domain, b, content, content2, d);
      if forall a: Artifact :: TempPath(dir, a) !in d.files {
        var e := d1.(files := d1.files[p := File(content2, d1.files[p].mode)]);
        forall q
          ensures FileAt(r.disk, q) == FileAt(e, q)
        {
          if exists a: Artifact :: q == FinalPath(dir, a) {
            var a: Artifact :| q == FinalPath(dir, a);
            assert TempMode(d, dir, a) == ModeOf(a);
          }
        }
        assert r.disk.files == e.files by {
          assert forall q :: (q in r.disk.files <==> q in e.files) by {
            forall q ensures q in r.disk.files <==> q in e.files {
              assert FileAt(r.disk, q) == FileAt(e, q);
            }
          }
          forall q | q in r.disk.files
            ensures r.disk.files[q] == e.files[q]
          {
            assert FileAt(r.disk, q) == FileAt(e, q);
          }
        }
        if content2 == content {
          IssueInstalls(env, cfg, domain, b, content, d);
          assert d1.files[p] == File(content, d1.files[p].mode);
          assert e.files == d1.files;
        }
      }
    }
  }

  /** The replay of a successful issuance succeeds: every operation it
      attempts was accepted in the first run on a disk with the same
      directories, or finds the file the first run left behind; the site
      write is refused on the same grounds whatever defined data it
      carries. */
  lemma ReplaySucceeds(env: Env, cfg: Config, domain: string, b: CertBundle, content: Content, content2: Content, d: Disk)
    requires !cfg.sandboxMode && IssueRun(env, cfg, domain, Success(b), content, d).outcome.Ok?
    requires !content2.Undefined?
    ensures IssueRun(env, cfg, domain, Success(b), content2, IssueRun(env, cfg, domain, Success(b), content, d).disk).outcome.Ok?
  {
    var d1 := IssueRun(env, cfg, domain, Success(b), content, d).disk;
    var w := WriteCertsRun(env, cfg, b, d);
    IssueLeavesReady(env, cfg, domain, b, content, d);
    WriteCertsSucceeds(env, cfg, b, d);
    WriteCertsSucceeds(env, cfg, b, d1);
    var w2 := WriteCertsRun(env, cfg, b, d1);
    WriteCertsInstalls(env, cfg, b, d);
    WriteCertsInstalls(env, cfg, b, d1);
    assert w2.disk.dirs == w.disk.dirs;
    ExecuteOne(env, w.disk, WriteSite(cfg, domain, content));
    ExecuteOne(env, w2.disk, WriteSite(cfg, domain, content2));
  }

  /** The disk after a successful replay with rendering `content2`,
      compared with the disk the first run left. */
  lemma ReplayKeeps(env: Env, cfg: Config, domain: string, b: CertBundle, content: Content, content2: Content, d: Disk)
    requires !cfg.sandboxMode && IssueRun(env, cfg, domain, Success(b), content, d).outcome.Ok?
    requires IssueRun(env, cfg, domain, Success(b), content2, IssueRun(env, cfg, domain, Success(b), content, d).disk).outcome.Ok?
    ensures var d1 := IssueRun(env, cfg, domain, Success(b), content, d).disk;
            IssueRun(env, cfg, domain, Success(b), content2, d1).disk.dirs == d1.dirs
    ensures var d1, dir, p := IssueRun(env, cfg, domain, Success(b), content, d).disk, CertDir(cfg, b.domain), ConfigPath(cfg, domain);
            var r := IssueRun(env, cfg, domain, Success(b), content2, d1);
            forall q | q != p && (forall a: Artifact :: q != FinalPath(dir, a)) :: FileAt(r.disk, q) == FileAt(d1, q)
    ensures var d1, p := IssueRun(env, cfg, domain, Success(b), content, d).disk, ConfigPath(cfg, domain);
            var r := IssueRun(env, cfg, domain, Success(b), content2, d1);
            && p in d1.files
            && d1.files[p].mode == (if p in d.files then d.files[p].mode else SiteFileMode)
            && FileAt(r.disk, p) == Some(File(content2, d1.files[p].mode))
    ensures var d1, dir := IssueRun(env, cfg, domain, Success(b), content, d).disk, CertDir(cfg, b.domain);
            var r := IssueRun(env, cfg, domain, Success(b), content2, d1);
            forall a: Artifact ::
              && FileAt(r.disk, FinalPath(dir, a)) == Some(File(Part(b, a), ModeOf(a)))
              && FileAt(d1, FinalPath(dir, a)) == Some(File(Part(b, a), TempMode(d, dir, a)))
  {
    var d1 := IssueRun(env, cfg, domain, Success(b), content, d).disk;
    var r, dir, p := IssueRun(env, cfg, domain, Success(b), content2, d1), CertDir(cfg, b.domain), ConfigPath(cfg, domain);
    var w := WriteCertsRun(env, cfg, b, d);
    var w2 := WriteCertsRun(env, cfg, b, d1);
    var c2 := WriteConfigRun(env, cfg, domain, content2, w2.disk);
    assert r.disk == c2.disk;
    WriteConfigReplaces(env, cfg, domain, content2, w2.disk, p);
    WriteConfigReplaces(env, cfg, domain, content, w.disk, p);
    CertsSpareConfig(env, cfg, domain, b, d);
    CertsSpareConfig(env, cfg, domain, b, d1);
    IssueLeavesReady(env, cfg, domain, b, content, d);
    IssueInstalls(env, cfg, domain, b, content, d);
    IssueInstalls(env, cfg, domain, b, content2, d1);
    WriteCertsInstalls(env, cfg, b, d1);
    forall a: Artifact
      ensures TempMode(d1, dir, a) == ModeOf(a)
      ensures p != TempPath(dir, a) && p != FinalPath(dir, a)
    {
      ConfigApart(cfg, domain, dir, a);
    }
    forall q | q != p && (forall a: Artifact :: q != FinalPath(dir, a))
      ensures FileAt(r.disk, q) == FileAt(d1, q)
    {
      WriteConfigReplaces(env, cfg, domain, content2, w2.disk, q);
    }
  }

  /** `domain.added` for a domain without a configuration, outside sandbox
      mode: on success exactly one pending configuration is written, as a
      new file with mode `0o644`, followed by exactly one reload, and no
      other file changes; a failed write ends the event before the reload
      with nothing changed; a failed reload surfaces with its prefix. */
  lemma AddWritesPending(env: Env, cfg: Config, domain: string, content: Content, d: Disk, q: Path)
    requires !cfg.sandboxMode && !ConfigExists(env, d, cfg, domain)
    ensures var r, c, p := AddRun(env, cfg, domain, content, d), WriteConfigRun(env, cfg, domain, content, d), ConfigPath(cfg, domain);
            && (r.outcome.Ok? ==>
                  && r.trace == [WriteSite(cfg, domain, content), Reload]
                  && p in r.disk.files && r.disk.files[p] == File(content, SiteFileMode)
                  && ConfigExists(env, r.disk, cfg, domain)
                  && (q != p ==> FileAt(r.disk, q) == FileAt(d, q)))
            && (c.outcome.Err? ==> r.trace == [WriteSite(cfg, domain, content)] && r.disk == d && r.outcome == c.outcome)
            && (c.outcome.Ok? && r.outcome.Err? ==>
                  r.trace == [WriteSite(cfg, domain, content), Reload] &&
                  r.outcome == Err(ReloadFailedPrefix + env.reloadError.value.message))
  {
    var c := WriteConfigRun(env, cfg, domain, content, d);
    ExecuteOne(env, d, WriteSite(cfg, domain, content));
    if c.outcome.Ok? {
      WriteConfigReplaces(env, cfg, domain, content, d, q);
      ReloadSurfaces(env, cfg, c.disk);
    }
  }

  /** A successful `domain.removed` / `cert.revoked` outside sandbox mode
      removes the configuration, then the certificates, then reloads; the
      configuration is gone, nothing is left at or below the domain's
      certificate directory, and nothing else has changed. */
  lemma RemoveClears(env: Env, cfg: Config, domain: string, d: Disk, q: Path)
    requires !cfg.sandboxMode && RemoveRun(env, cfg, domain, d).outcome.Ok?
    ensures var r, dir, p := RemoveRun(env, cfg, domain, d), CertDir(cfg, domain), ConfigPath(cfg, domain);
            && r.trace == [Unlink(cfg.nginxSitesDir, ConfigName(domain)), RemoveTree(dir), Reload]
            && !ConfigExists(env, r.disk, cfg, domain)
            && (Within(q, dir) ==> q !in r.disk.files && q !in r.disk.dirs)
            && (q != p && !Within(q, dir) ==> FileAt(r.disk, q) == FileAt(d, q))
  {
    var dir, p := CertDir(cfg, domain), ConfigPath(cfg, domain);
    var a := RemoveConfigRun(env, cfg, domain, d);
    var b := RemoveCertsRun(env, cfg, domain, a.disk);
    RemoveConfigClears(env, cfg, domain, d, q);
    RemoveConfigClears(env, cfg, domain, d, p);
    RemoveCertsClears(env, cfg, domain, a.disk, q);
    RemoveCertsClears(env, cfg, domain, a.disk, p);
    ExecuteOne(env, a.disk, RemoveTree(dir));
    ReloadSurfaces(env, cfg, b.disk);
  }

  /** Fail-fast without rollback for `domain.removed` / `cert.revoked`: an
      unlink error other than a missing file ends the event at once with
      that error and nothing changed; a refused certificate removal ends it
      before the reload, with the configuration already gone; a failed
      reload surfaces with its prefix. */
  lemma RemoveFailFast(env: Env, cfg: Config, domain: string, d: Disk)
    requires RemoveRun(env, cfg, domain, d).outcome.Err?
    ensures var r, a, dir := RemoveRun(env, cfg, domain, d), RemoveConfigRun(env, cfg, domain, d), CertDir(cfg, domain);
            var b, u := RemoveCertsRun(env, cfg, domain, a.disk), Unlink(cfg.nginxSitesDir, ConfigName(domain));
            && !cfg.sandboxMode
            && (a.outcome.Err? ==>
                  && Refusal(env, d, u).Some? && Refusal(env, d, u).value.code != MissingCode
                  && r == Run(d, [u], Err(Refusal(env, d, u).value.message)))
            && (a.outcome.Ok? ==> !ConfigExists(env, r.disk, cfg, domain))
            && (a.outcome.Ok? && b.outcome.Err? ==>
                  r.trace == [u, RemoveTree(dir)] && dir in env.faults && r.outcome == Err(env.faults[dir].message))
            && (a.outcome.Ok? && b.outcome.Ok? ==>
                  r.trace == [u, RemoveTree(dir), Reload] && r.outcome == Err(ReloadFailedPrefix + env.reloadError.value.message))
  {
    var dir, p := CertDir(cfg, domain), ConfigPath(cfg, domain);
    var a := RemoveConfigRun(env, cfg, domain, d);
    if a.outcome.Ok? {
      RemoveConfigClears(env, cfg, domain, d, p);
      ExecuteOne(env, a.disk, RemoveTree(dir));
      if RemoveCertsRun(env, cfg, domain, a.disk).outcome.Ok? {
        RemoveCertsClears(env, cfg, domain, a.disk, p);
      }
      ReloadSurfaces(env, cfg, RemoveCertsRun(env, cfg, domain, a.disk).disk);
    }
  }

  // ---------------------------------------------------------------------
  // Sandbox mode and the fields of an event

  /** In sandbox mode no event changes the disk or attempts anything but
      the fetch of an issuing event, and only a failed fetch is an error. */
  lemma SandboxHandles(env: Env, cfg: Config, ev: AgentEvent, reply: FetchReply, parse: string -> Option<CertBundle>,
                       generated: string, d: Disk)
    requires cfg.sandboxMode
    ensures var r, issuing := HandleRun(env, cfg, ev, reply, parse, generated, d), ev.CertIssued? || ev.CertRenewed?;
            && r.disk == d
            && r.trace == (if issuing then [Fetch(ev.domain)] else [])
            && (r.outcome.Err? <==> issuing && FetchOutcome(ev.domain, reply, parse).Failure?)
  {
  }

  /** Only the kind of an event and its domain matter: the certificate id is
      never consulted, issuance and renewal are handled alike, and so are
      removal and revocation. */
  lemma OnlyKindAndDomainMatter(env: Env, cfg: Config, domain: string, id: string, id': string, reply: FetchReply,
                                parse: string -> Option<CertBundle>, generated: string, d: Disk)
    ensures HandleRun(env, cfg, CertIssued(domain, id), reply, parse, generated, d) ==
            HandleRun(env, cfg, CertRenewed(domain, id'), reply, parse, generated, d)
    ensures HandleRun(env, cfg, DomainRemoved(domain), reply, parse, generated, d) ==
            HandleRun(env, cfg, CertRevoked(domain), reply, parse, generated, d)
  {
  }

  /** After a successful `cert.issued` / `cert.renewed` outside sandbox
      mode, the fetch succeeded, the site file holds the active
      configuration for the event's domain (whose text is the active
      rendering, by `SiteTextRenders`), and, when the bundle names that domain, the
      chain and key paths that rendering points nginx at hold the bundle's
      chain and key. */
  lemma IssueServes(env: Env, cfg: Config, ev: AgentEvent, reply: FetchReply, parse: string -> Option<CertBundle>,
                    generated: string, d: Disk)
    requires ev.CertIssued? || ev.CertRenewed?
    requires !cfg.sandboxMode && HandleRun(env, cfg, ev, reply, parse, generated, d).outcome.Ok?
    ensures var r, f, p := HandleRun(env, cfg, ev, reply, parse, generated, d), FetchOutcome(ev.domain, reply, parse),
                           ConfigPath(cfg, ev.domain);
            && f.Success?
            && p in r.disk.files && r.disk.files[p].content == SiteText(cfg, ev.domain, Active, generated)
            && (f.value.domain == ev.domain ==>
                  var paths := CertPaths(ev.domain, cfg.certDir);
                  && FileAt(r.disk, paths.fullchain).Some? && FileAt(r.disk, paths.fullchain).value.content == Literal(f.value.fullChain)
                  && FileAt(r.disk, paths.privkey).Some? && FileAt(r.disk, paths.privkey).value.content == Literal(f.value.privateKey))
  {
    var domain := ev.domain;
    var f := FetchOutcome(domain, reply, parse);
    var content := SiteText(cfg, domain, Active, generated);
    assert f.Success?;
    IssueInstalls(env, cfg, domain, f.value, content, d);
    CertPathsAgree(cfg, domain);
  }
}
