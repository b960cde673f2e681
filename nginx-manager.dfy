/** The site configuration store and the reloader: one file
    `<nginxSitesDir>/<domain>.conf` per domain, written whole, removed
    tolerantly and probed for existence, and the reload command whose
    failure is re-raised with a fixed prefix. In sandbox mode nothing is
    written, removed or reloaded. */
module NginxManager {
  import opened Types
  import opened FileSystem
  import opened Template
  import opened CertManager

  function ConfigName(domain: string): string
  {
    domain + ".conf"
  }

  /** The one path the three configuration operations share. */
  function ConfigPath(cfg: Config, domain: string): Path
  {
    Join(cfg.nginxSitesDir, ConfigName(domain))
  }

  function Options(cfg: Config, domain: string): TemplateOptions
  {
    TemplateOptions(domain, cfg.upstream, cfg.certDir)
  }

  /** A domain's configuration for `mode`, stamped with `generated`. */
  function SiteText(cfg: Config, domain: string, mode: SiteMode, generated: string): Content
  {
    Rendered(mode, Options(cfg, domain), generated)
  }

  /** The text a site file holds is the template rendering for its mode. */
  lemma SiteTextRenders(cfg: Config, domain: string, mode: SiteMode, generated: string)
    ensures TextOf(SiteText(cfg, domain, mode, generated)) ==
            if mode.Active? then RenderActive(Options(cfg, domain), generated)
            else RenderPending(Options(cfg, domain), generated)
  {
  }

  /** `0o644`. */
  const SiteFileMode: nat := 420

  /** The write of a configuration file holding `content`. */
  function WriteSite(cfg: Config, domain: string, content: Content): Effect
  {
    WriteFile(cfg.nginxSitesDir, ConfigName(domain), content, SiteFileMode)
  }

  // ---------------------------------------------------------------------
  // nginxConfigExists

  /** `existsSync`: the path can be stat'ed, whether it is a file or a
      directory; any error makes it report `false`. */
  function ConfigExists(env: Env, d: Disk, cfg: Config, domain: string): (b: bool)
    ensures b <==> ConfigPath(cfg, domain) !in env.faults &&
                   (ConfigPath(cfg, domain) in d.files || ConfigPath(cfg, domain) in d.dirs)
  {
    Refusal(env, d, Stat(cfg.nginxSitesDir, ConfigName(domain))).None?
  }

  // ---------------------------------------------------------------------
  // writeNginxConfig

  /** Writing `content` as the domain's configuration. */
  function WriteConfigRun(env: Env, cfg: Config, domain: string, content: Content, d: Disk): Run
  {
    if cfg.sandboxMode then Idle(d) else Execute(env, d, [WriteSite(cfg, domain, content)])
  }

  /** `writeNginxConfig(domain, mode)`: the content is the rendering for
      `mode`, stamped with `generated`. */
  method WriteNginxConfig(h: Host, cfg: Config, domain: string, mode: SiteMode, generated: string)
    returns (outcome: Outcome)
    modifies h
    ensures var r := WriteConfigRun(h.env, cfg, domain, SiteText(cfg, domain, mode, generated), old(h.disk));
            h.disk == r.disk && h.trace == old(h.trace) + r.trace && outcome == r.outcome
  {
    if cfg.sandboxMode {
      return Ok;
    }
    var content := SiteText(cfg, domain, mode, generated);
    outcome := h.RunAll([WriteSite(cfg, domain, content)]);
  }

  /** A successful write replaces the whole file with `content`, after
      which the configuration exists; a new file gets mode `0o644`, an
      existing one keeps its own; no other file and no directory changes. */
  lemma WriteConfigReplaces(env: Env, cfg: Config, domain: string, content: Content, d: Disk, q: Path)
    requires !cfg.sandboxMode && WriteConfigRun(env, cfg, domain, content, d).outcome.Ok?
    ensures var r, p := WriteConfigRun(env, cfg, domain, content, d), ConfigPath(cfg, domain);
            && r.trace == [WriteSite(cfg, domain, content)]
            && p in r.disk.files && r.disk.files[p].content == content
            && r.disk.files[p].mode == (if p in d.files then d.files[p].mode else SiteFileMode)
            && ConfigExists(env, r.disk, cfg, domain)
            && (q != p ==> FileAt(r.disk, q) == FileAt(d, q))
            && r.disk.dirs == d.dirs
  {
    ExecuteOne(env, d, WriteSite(cfg, domain, content));
  }

  /** The write fails exactly when the machine refuses it; in particular
      it fails, changing nothing, when the sites directory is missing. */
  lemma WriteConfigFails(env: Env, cfg: Config, domain: string, content: Content, d: Disk)
    ensures var r := WriteConfigRun(env, cfg, domain, content, d);
            && (r.outcome.Err? <==> !cfg.sandboxMode && Refusal(env, d, WriteSite(cfg, domain, content)).Some?)
            && (!cfg.sandboxMode && cfg.nginxSitesDir !in d.dirs ==> r.outcome.Err? && r.disk == d)
  {
    ExecuteOne(env, d, WriteSite(cfg, domain, content));
  }

  // ---------------------------------------------------------------------
  // removeNginxConfig

  const MissingCode := "ENOENT"

  /** `unlink`, with a missing file not counted as an error. */
  function RemoveConfigRun(env: Env, cfg: Config, domain: string, d: Disk): Run
  {
    if cfg.sandboxMode then Idle(d)
    else
      var e := Unlink(cfg.nginxSitesDir, ConfigName(domain));
      match Refusal(env, d, e)
      case None => Run(Apply(d, e), [e], Ok)
      case Some(err) => Run(d, [e], if err.code == MissingCode then Ok else Err(err.message))
  }

  method RemoveNginxConfig(h: Host, cfg: Config, domain: string) returns (outcome: Outcome)
    modifies h
    ensures var r := RemoveConfigRun(h.env, cfg, domain, old(h.disk));
            h.disk == r.disk && h.trace == old(h.trace) + r.trace && outcome == r.outcome
  {
    if cfg.sandboxMode {
      return Ok;
    }
    var err := h.Perform(Unlink(cfg.nginxSitesDir, ConfigName(domain)));
    if err.None? || err.value.code == MissingCode {
      outcome := Ok;
    } else {
      outcome := Err(err.value.message);
    }
  }

  /** After a successful removal the configuration no longer exists (the
      file is gone unless the operating system hid it behind an error of
      its own) and everything else is as it was. */
  lemma RemoveConfigClears(env: Env, cfg: Config, domain: string, d: Disk, q: Path)
    requires !cfg.sandboxMode && RemoveConfigRun(env, cfg, domain, d).outcome.Ok?
    ensures var r, p := RemoveConfigRun(env, cfg, domain, d), ConfigPath(cfg, domain);
            && r.trace == [Unlink(cfg.nginxSitesDir, ConfigName(domain))]
            && !ConfigExists(env, r.disk, cfg, domain)
            && (p !in env.faults ==> p !in r.disk.files)
            && (q != p ==> FileAt(r.disk, q) == FileAt(d, q))
            && r.disk.dirs == d.dirs
  {
    var e := Unlink(cfg.nginxSitesDir, ConfigName(domain));
    var p := ConfigPath(cfg, domain);
    if Refusal(env, d, e).None? {
      assert p !in d.dirs && p !in env.faults;
    }
  }

  /** An absent configuration is no error, and removing twice is removing
      once. */
  lemma RemoveConfigTolerant(env: Env, cfg: Config, domain: string, d: Disk)
    ensures var p := ConfigPath(cfg, domain);
            p !in env.faults && p !in d.files && p !in d.dirs ==>
              RemoveConfigRun(env, cfg, domain, d) == Run(d, if cfg.sandboxMode then [] else [Unlink(cfg.nginxSitesDir, ConfigName(domain))], Ok)
    ensures var r := RemoveConfigRun(env, cfg, domain, d);
            r.outcome.Ok? ==> RemoveConfigRun(env, cfg, domain, r.disk).disk == r.disk
  {
    var p := ConfigPath(cfg, domain);
    var r := RemoveConfigRun(env, cfg, domain, d);
    if !cfg.sandboxMode && r.outcome.Ok? {
      RemoveConfigClears(env, cfg, domain, d, p);
    }
  }

  // ---------------------------------------------------------------------
  // reloadNginx

  const ReloadFailedPrefix := "nginx reload failed: "

  function ReloadRun(env: Env, cfg: Config, d: Disk): Run
  {
    if cfg.sandboxMode then Idle(d)
    else match Refusal(env, d, Reload)
      case None => Run(d, [Reload], Ok)
      case Some(err) => Run(d, [Reload], Err(ReloadFailedPrefix + err.message))
  }

  method ReloadNginx(h: Host, cfg: Config) returns (outcome: Outcome)
    modifies h
    ensures var r := ReloadRun(h.env, cfg, old(h.disk));
            h.disk == r.disk && h.trace == old(h.trace) + r.trace && outcome == r.outcome
  {
    if cfg.sandboxMode {
      return Ok;
    }
    var err := h.Perform(Reload);
    if err.Some? {
      return Err(ReloadFailedPrefix + err.value.message);
    }
    outcome := Ok;
  }

  /** A reload never touches the disk; it fails exactly when the command
      does, outside sandbox mode, and then with the command's message after
      the fixed prefix. */
  lemma ReloadSurfaces(env: Env, cfg: Config, d: Disk)
    ensures var r := ReloadRun(env, cfg, d);
            && r.disk == d
            && (r.outcome.Err? <==> !cfg.sandboxMode && env.reloadError.Some?)
            && (r.outcome.Err? ==> r.outcome.message == ReloadFailedPrefix + env.reloadError.value.message)
  {
  }

  /** In sandbox mode the three operations attempt nothing and change
      nothing. */
  lemma SandboxTouchesNothing(env: Env, cfg: Config, domain: string, content: Content, d: Disk)
    requires cfg.sandboxMode
    ensures WriteConfigRun(env, cfg, domain, content, d) == Idle(d)
    ensures RemoveConfigRun(env, cfg, domain, d) == Idle(d)
    ensures ReloadRun(env, cfg, d) == Idle(d)
  {
  }

  // ---------------------------------------------------------------------
  // Agreement with the certificate store

  /** A site file is none of the eight paths of a certificate
      installation, wherever the two directories are: its name ends in
      `.conf`, theirs in `.pem`, `.txt` or `.tmp`. */
  lemma ConfigApart(cfg: Config, domain: string, dir: Path, a: Artifact)
    ensures ConfigPath(cfg, domain) != TempPath(dir, a)
    ensures ConfigPath(cfg, domain) != FinalPath(dir, a)
  {
    var p, t, f := ConfigPath(cfg, domain), TempPath(dir, a), FinalPath(dir, a);
    assert p[|p| - 1] == 'f';
    assert t[|t| - 1] == 'p';
    assert f[|f| - 1] == FinalName(a)[|FinalName(a)| - 1] != 'f';
  }

  /** The paths the active configuration names for the chain and the key
      are the final files `writeCerts` installs for the domain. */
  lemma CertPathsAgree(cfg: Config, domain: string)
    ensures CertPaths(domain, cfg.certDir).fullchain == FinalPath(CertDir(cfg, domain), FullChain)
    ensures CertPaths(domain, cfg.certDir).privkey == FinalPath(CertDir(cfg, domain), PrivKey)
  {
  }
}
