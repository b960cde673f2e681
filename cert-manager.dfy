/** The certificate store: fetching a domain's bundle from the control
    plane, installing it as four files under `<certDir>/<domain>` by writing
    every file under a temporary name before renaming any of them into
    place, and removing a domain's directory. */
module CertManager {
  import opened Types
  import opened Text
  import opened FileSystem

  // ---------------------------------------------------------------------
  // Fetching a bundle

  /** How the request for a bundle ended: a response (its status code and
      the chunks of its body), a socket error, or the ten-second timeout. */
  datatype FetchReply =
    | Answered(statusCode: nat, chunks: seq<string>)
    | Broken(message: string)
    | TimedOut

  const TimeoutMessage := "Request timed out"

  /** What the agent makes of a complete response, given what `JSON.parse`
      made of its body (`None` when parsing failed or produced no object). */
  function DecideFetch(domain: string, statusCode: nat, body: string, parsed: Option<CertBundle>): (r: Result<CertBundle>)
    ensures r.Success? <==> statusCode == 200 && parsed.Some?
    ensures r.Success? ==> r.value == parsed.value.(domain := r.value.domain)
    ensures r.Success? ==> r.value.domain == if parsed.value.domain == "" then domain else parsed.value.domain
    ensures statusCode != 200 ==> r == Failure("Changerawr returned " + NatToString(statusCode) + ": " + body)
    ensures statusCode == 200 && parsed.None? ==> r == Failure("Invalid JSON: " + body)
  {
    if statusCode != 200 then Failure("Changerawr returned " + NatToString(statusCode) + ": " + body)
    else match parsed
      case None => Failure("Invalid JSON: " + body)
      case Some(bundle) => Success(if bundle.domain == "" then bundle.(domain := domain) else bundle)
  }

  /** The outcome of the whole request. */
  function FetchOutcome(domain: string, reply: FetchReply, parse: string -> Option<CertBundle>): Result<CertBundle>
  {
    match reply
    case Broken(message) => Failure(message)
    case TimedOut => Failure(TimeoutMessage)
    case Answered(statusCode, chunks) =>
      var body := Concat(chunks);
      DecideFetch(domain, statusCode, body, parse(body))
  }

  /** A bundle the fetch hands back always names a domain when one was
      asked for. */
  lemma FetchNamesDomain(domain: string, reply: FetchReply, parse: string -> Option<CertBundle>)
    requires domain != ""
    ensures var r := FetchOutcome(domain, reply, parse); r.Success? ==> r.value.domain != ""
  {
  }

  /** `fetchCertBundle`: one request, recorded in the trace; the body is
      accumulated chunk by chunk before it is judged. */
  method FetchCertBundle(h: Host, domain: string, reply: FetchReply, parse: string -> Option<CertBundle>)
    returns (r: Result<CertBundle>)
    modifies h
    ensures h.disk == old(h.disk) && h.trace == old(h.trace) + [Fetch(domain)]
    ensures r == FetchOutcome(domain, reply, parse)
  {
    var _ := h.Perform(Fetch(domain));
    match reply
    case Broken(message) =>
      r := Failure(message);
    case TimedOut =>
      r := Failure(TimeoutMessage);
    case Answered(statusCode, chunks) =>
      var body := "";
      var i := 0;
      while i < |chunks|
        invariant 0 <= i <= |chunks|
        invariant body == Concat(chunks[..i])
      {
        assert chunks[..i + 1][..i] == chunks[..i];
        body := body + chunks[i];
        i := i + 1;
      }
      assert chunks[..i] == chunks;
      if statusCode != 200 {
        r := Failure("Changerawr returned " + NatToString(statusCode) + ": " + body);
      } else {
        var parsed := parse(body);
        if parsed.None? {
          r := Failure("Invalid JSON: " + body);
        } else {
          var bundle := parsed.value;
          if bundle.domain == "" {
            bundle := bundle.(domain := domain);
          }
          r := Success(bundle);
        }
      }
  }

  // ---------------------------------------------------------------------
  // The four files of an installed bundle

  datatype Artifact = PrivKey | FullChain | Cert | Expires

  /** The order in which the files are written and then renamed. */
  const Artifacts: seq<Artifact> := [PrivKey, FullChain, Cert, Expires]

  function Index(a: Artifact): (i: nat)
    ensures i < |Artifacts| && Artifacts[i] == a
  {
    match a
    case PrivKey => 0
    case FullChain => 1
    case Cert => 2
    case Expires => 3
  }

  function FinalName(a: Artifact): string
  {
    match a
    case PrivKey => "privkey.pem"
    case FullChain => "fullchain.pem"
    case Cert => "cert.pem"
    case Expires => "expires.txt"
  }

  function TempName(a: Artifact): string
  {
    FinalName(a) + ".tmp"
  }

  /** The data written for `a`: the bundle's field, or `undefined` for an
      expiry the bundle lacks. */
  function Part(b: CertBundle, a: Artifact): Content
  {
    match a
    case PrivKey => Literal(b.privateKey)
    case FullChain => Literal(b.fullChain)
    case Cert => Literal(b.certificate)
    case Expires => if b.expiresAt.Some? then Literal(b.expiresAt.value) else Undefined
  }

  /** `0o600` for the key, `0o644` for the rest. */
  const PrivateMode: nat := 384
  const PublicMode: nat := 420

  function ModeOf(a: Artifact): nat
  {
    if a == PrivKey then PrivateMode else PublicMode
  }

  /** No two of the eight names coincide. */
  lemma NamesDistinct(a: Artifact, a': Artifact)
    ensures TempName(a) != FinalName(a')
    ensures a != a' ==> TempName(a) != TempName(a') && FinalName(a) != FinalName(a')
  {
    assert |TempName(a)| == |FinalName(a)| + 4;
    assert TempName(a)[0] == FinalName(a)[0] && TempName(a')[0] == FinalName(a')[0];
    assert a != a' ==> FinalName(a)[0] != FinalName(a')[0];
  }

  function WriteTemp(dir: Path, b: CertBundle, a: Artifact): Effect
  {
    WriteFile(dir, TempName(a), Part(b, a), ModeOf(a))
  }

  function RenameTemp(dir: Path, a: Artifact): Effect
  {
    Rename(dir, TempName(a), FinalName(a))
  }

  /** The four temporary files, in the order of `Artifacts`. */
  function TempWrites(dir: Path, b: CertBundle): seq<Effect>
  {
    seq(|Artifacts|, i requires 0 <= i < |Artifacts| => WriteTemp(dir, b, Artifacts[i]))
  }

  /** The four renames, in the same order. */
  function Renames(dir: Path): seq<Effect>
  {
    seq(|Artifacts|, i requires 0 <= i < |Artifacts| => RenameTemp(dir, Artifacts[i]))
  }

  /** Every operation of an installation: the directory, the four
      temporary files, the four renames. */
  function CertSteps(dir: Path, b: CertBundle): seq<Effect>
  {
    [MakeDir(dir)] + TempWrites(dir, b) + Renames(dir)
  }

  /** The directory of a domain's files. */
  function CertDir(cfg: Config, domain: string): Path
  {
    Join(cfg.certDir, domain)
  }

  // ---------------------------------------------------------------------
  // writeCerts

  /** Why a bundle is refused before anything touches the disk, checked in
      the agent's order. */
  function BundleError(cfg: Config, b: CertBundle): (err: Option<string>)
    ensures err.None? <==>
              && cfg.certDir != ""
              && b.privateKey != "" && b.fullChain != "" && b.certificate != ""
              && Contains(b.fullChain, "BEGIN CERTIFICATE")
              && Contains(b.privateKey, "BEGIN")
  {
    if cfg.certDir == "" then
      Some("CERT_DIR is not configured (value: " + cfg.certDir + ")")
    else if b.privateKey == "" || b.fullChain == "" || b.certificate == "" then
      Some("Invalid cert bundle: privateKey=" + BoolText(b.privateKey != "") +
           ", fullChain=" + BoolText(b.fullChain != "") +
           ", certificate=" + BoolText(b.certificate != ""))
    else if !Contains(b.fullChain, "BEGIN CERTIFICATE") then
      Some("Invalid fullChain format - missing BEGIN CERTIFICATE")
    else if !Contains(b.privateKey, "BEGIN") then
      Some("Invalid privateKey format - missing BEGIN marker")
    else None
  }

  const NotWrittenMessage := "Certificate files were not written to disk"

  /** The closing `fs.stat` of the installed chain: any error it raises is
      replaced by one message. */
  function StatCheck(env: Env, d: Disk, dir: Path): Run
  {
    var e := Stat(dir, FinalName(FullChain));
    Run(d, [e], if Refusal(env, d, e).None? then Ok else Err(NotWrittenMessage))
  }

  /** What `writeCerts(b)` does from disk `d`. */
  function WriteCertsRun(env: Env, cfg: Config, b: CertBundle, d: Disk): Run
  {
    if cfg.sandboxMode then Idle(d)
    else match BundleError(cfg, b)
      case Some(message) => Rejected(d, message)
      case None =>
        var dir := CertDir(cfg, b.domain);
        var r := Execute(env, d, CertSteps(dir, b));
        if r.outcome.Err? then r else Then(r, StatCheck(env, r.disk, dir))
  }

  method WriteCerts(h: Host, cfg: Config, b: CertBundle) returns (outcome: Outcome)
    modifies h
    ensures var r := WriteCertsRun(h.env, cfg, b, old(h.disk));
            h.disk == r.disk && h.trace == old(h.trace) + r.trace && outcome == r.outcome
  {
    if cfg.sandboxMode {
      return Ok;
    }
    var invalid := BundleError(cfg, b);
    if invalid.Some? {
      return Err(invalid.value);
    }
    var dir := CertDir(cfg, b.domain);
    outcome := h.RunAll(CertSteps(dir, b));
    if outcome.Err? {
      return;
    }
    var err := h.Perform(Stat(dir, FinalName(FullChain)));
    outcome := if err.None? then Ok else Err(NotWrittenMessage);
  }

  // ---------------------------------------------------------------------
  // removeCerts

  /** What `removeCerts(domain)` does: a forced recursive removal, which
      fails only when the operating system refuses it. */
  function RemoveCertsRun(env: Env, cfg: Config, domain: string, d: Disk): Run
  {
    if cfg.sandboxMode then Idle(d) else Execute(env, d, [RemoveTree(CertDir(cfg, domain))])
  }

  method RemoveCerts(h: Host, cfg: Config, domain: string) returns (outcome: Outcome)
    modifies h
    ensures var r := RemoveCertsRun(h.env, cfg, domain, old(h.disk));
            h.disk == r.disk && h.trace == old(h.trace) + r.trace && outcome == r.outcome
  {
    if cfg.sandboxMode {
      return Ok;
    }
    outcome := h.RunAll([RemoveTree(CertDir(cfg, domain))]);
  }

  // ---------------------------------------------------------------------
  // What an installation does to the disk

  function TempPath(dir: Path, a: Artifact): Path
  {
    Join(dir, TempName(a))
  }

  function FinalPath(dir: Path, a: Artifact): Path
  {
    Join(dir, FinalName(a))
  }

  /** The eight paths of an installation are eight different paths. */
  lemma PathsDistinct(dir: Path, a: Artifact, a': Artifact)
    ensures TempPath(dir, a) != FinalPath(dir, a')
    ensures a != a' ==> TempPath(dir, a) != TempPath(dir, a') && FinalPath(dir, a) != FinalPath(dir, a')
  {
    NamesDistinct(a, a');
    JoinInjective(dir, TempName(a), FinalName(a'));
    JoinInjective(dir, TempName(a), TempName(a'));
    JoinInjective(dir, FinalName(a), FinalName(a'));
  }

  /** The mode a temporary file ends up with: `fs.writeFile` keeps the mode
      of a file that is already there. */
  function TempMode(d: Disk, dir: Path, a: Artifact): nat
  {
    if TempPath(dir, a) in d.files then d.files[TempPath(dir, a)].mode else ModeOf(a)
  }

  /** The directory and the temporary files: steps 0 to 4. */
  function WritePhase(dir: Path, b: CertBundle): seq<Effect>
  {
    [MakeDir(dir)] + TempWrites(dir, b)
  }

  /** After the write phase each temporary file holds its content. */
  lemma TempWritten(d: Disk, dir: Path, b: CertBundle, a: Artifact)
    ensures FileAt(ApplyAll(d, WritePhase(dir, b)), TempPath(dir, a)) == Some(File(Part(b, a), TempMode(d, dir, a)))
  {
    var s, i, q := WritePhase(dir, b), 1 + Index(a), TempPath(dir, a);
    forall j | 0 <= j < |s| && j != i
      ensures Spares(s[j], q)
    {
      if j > 0 {
        PathsDistinct(dir, Artifacts[j - 1], a);
      }
    }
    Isolate(d, s, i, q);
  }

  /** The write phase touches no file but the temporary ones. */
  lemma WritePhaseSpares(d: Disk, dir: Path, b: CertBundle, q: Path)
    requires forall a: Artifact :: q != TempPath(dir, a)
    ensures FileAt(ApplyAll(d, WritePhase(dir, b)), q) == FileAt(d, q)
  {
    var s := WritePhase(dir, b);
    forall j | 0 <= j < |s|
      ensures Spares(s[j], q)
    {
      if j > 0 {
        assert q != TempPath(dir, Artifacts[j - 1]);
      }
    }
    SparedByAll(d, s, q);
  }

  /** A rename moves its temporary file onto the final name. */
  lemma RenameMoves(d1: Disk, dir: Path, a: Artifact)
    requires TempPath(dir, a) in d1.files
    ensures FileAt(ApplyAll(d1, Renames(dir)), FinalPath(dir, a)) == FileAt(d1, TempPath(dir, a))
    ensures FileAt(ApplyAll(d1, Renames(dir)), TempPath(dir, a)) == None
  {
    var s, i := Renames(dir), Index(a);
    forall j | 0 <= j < |s| && j != i
      ensures Spares(s[j], FinalPath(dir, a)) && Spares(s[j], TempPath(dir, a))
    {
      PathsDistinct(dir, Artifacts[j], a);
      PathsDistinct(dir, a, Artifacts[j]);
    }
    Isolate(d1, s, i, FinalPath(dir, a));
    Isolate(d1, s, i, TempPath(dir, a));
    PathsDistinct(dir, a, a);
  }

  /** The rename phase touches none but the eight paths of an installation. */
  lemma RenamesSpare(d1: Disk, dir: Path, q: Path)
    requires forall a: Artifact :: q != TempPath(dir, a) && q != FinalPath(dir, a)
    ensures FileAt(ApplyAll(d1, Renames(dir)), q) == FileAt(d1, q)
  {
    var s := Renames(dir);
    forall j | 0 <= j < |s|
      ensures Spares(s[j], q)
    {
      assert q != TempPath(dir, Artifacts[j]) && q != FinalPath(dir, Artifacts[j]);
    }
    SparedByAll(d1, s, q);
  }

  /** An installation touches none but its eight paths. */
  lemma CertStepsSpare(dir: Path, b: CertBundle, q: Path)
    requires forall a: Artifact :: q != TempPath(dir, a) && q != FinalPath(dir, a)
    ensures forall j | 0 <= j < |CertSteps(dir, b)| :: Spares(CertSteps(dir, b)[j], q)
  {
    var s := CertSteps(dir, b);
    forall j | 0 <= j < |s|
      ensures Spares(s[j], q)
    {
      if 1 <= j < 5 {
        var a := Artifacts[j - 1];
        assert s[j] == WriteTemp(dir, b, a);
        assert q != TempPath(dir, a);
      } else if 5 <= j {
        var a := Artifacts[j - 5];
        assert s[j] == RenameTemp(dir, a);
        assert q != TempPath(dir, a) && q != FinalPath(dir, a);
      }
    }
  }

  /** The only directory an installation creates is the domain's own. */
  lemma InstallDirs(d: Disk, dir: Path, b: CertBundle)
    ensures ApplyAll(d, WritePhase(dir, b)).dirs == d.dirs + {dir}
    ensures ApplyAll(d, CertSteps(dir, b)).dirs == d.dirs + {dir}
  {
    var w := WritePhase(dir, b);
    assert w[0] == MakeDir(dir) && w[1..] == TempWrites(dir, b);
    KeepsDirs(Apply(d, MakeDir(dir)), TempWrites(dir, b));
    ApplyAllAppend(d, w, Renames(dir));
    KeepsDirs(ApplyAll(d, w), Renames(dir));
  }

  /** A successful `writeCerts` attempts the installation's operations in
      their fixed order followed by the closing check; afterwards each final
      file holds its part of the bundle, no temporary file is left, the
      domain's directory exists, and nothing else on the disk has changed.
      Each final file has its artifact's mode unless a stale temporary file
      of the same name was already there, whose mode `fs.writeFile` keeps.
      Only a bundle with an expiry gets this far. */
  lemma WriteCertsInstalls(env: Env, cfg: Config, b: CertBundle, d: Disk)
    requires !cfg.sandboxMode && WriteCertsRun(env, cfg, b, d).outcome.Ok?
    ensures var r, dir := WriteCertsRun(env, cfg, b, d), CertDir(cfg, b.domain);
            && b.expiresAt.Some?
            && r.trace == CertSteps(dir, b) + [Stat(dir, FinalName(FullChain))]
            && (forall a: Artifact :: FileAt(r.disk, FinalPath(dir, a)) == Some(File(Part(b, a), TempMode(d, dir, a))))
            && (forall a: Artifact :: TempPath(dir, a) !in r.disk.files)
            && (forall q | (forall a: Artifact :: q != TempPath(dir, a) && q != FinalPath(dir, a)) :: FileAt(r.disk, q) == FileAt(d, q))
            && r.disk.dirs == d.dirs + {dir}
  {
    var dir := CertDir(cfg, b.domain);
    var s := CertSteps(dir, b);
    ExecuteStops(env, d, s);
    assert s[4] == WriteTemp(dir, b, Expires);
    ExecuteAccepts(env, d, s, 4);
    var d1 := ApplyAll(d, WritePhase(dir, b));
    ApplyAllAppend(d, WritePhase(dir, b), Renames(dir));
    var r := WriteCertsRun(env, cfg, b, d);
    assert r.disk == ApplyAll(d1, Renames(dir));
    forall a: Artifact
      ensures FileAt(r.disk, FinalPath(dir, a)) == Some(File(Part(b, a), TempMode(d, dir, a)))
      ensures TempPath(dir, a) !in r.disk.files
    {
      TempWritten(d, dir, b, a);
      RenameMoves(d1, dir, a);
    }
    forall q | (forall a: Artifact :: q != TempPath(dir, a) && q != FinalPath(dir, a))
      ensures FileAt(r.disk, q) == FileAt(d, q)
    {
      WritePhaseSpares(d, dir, b, q);
      RenamesSpare(d1, dir, q);
    }
    InstallDirs(d, dir, b);
  }

  /** Final files change only in the rename phase: a `writeCerts` that
      fails at the directory or at one of the temporary files (the first
      five operations) leaves every final file as it was. */
  lemma WriteFailureKeepsFinals(env: Env, cfg: Config, b: CertBundle, d: Disk, a: Artifact)
    requires var r := WriteCertsRun(env, cfg, b, d); r.outcome.Err? && |r.trace| <= |WritePhase(CertDir(cfg, b.domain), b)|
    ensures var r, dir := WriteCertsRun(env, cfg, b, d), CertDir(cfg, b.domain);
            FileAt(r.disk, FinalPath(dir, a)) == FileAt(d, FinalPath(dir, a))
  {
    var dir := CertDir(cfg, b.domain);
    if !cfg.sandboxMode && BundleError(cfg, b).None? {
      var s := CertSteps(dir, b);
      ExecuteStops(env, d, s);
      var r := Execute(env, d, s);
      var k := |r.trace| - 1;
      forall j | 0 <= j < |s[..k]|
        ensures Spares(s[..k][j], FinalPath(dir, a))
      {
        if j > 0 {
          PathsDistinct(dir, Artifacts[j - 1], a);
        }
      }
      SparedByAll(d, s[..k], FinalPath(dir, a));
    }
  }

  /** A bundle without an expiry is never installed. The key, chain and
      certificate may reach their temporary files, but `fs.writeFile`
      rejects the missing expiry, so the run fails within the write phase
      and every final file is as it was. When the run reaches the fourth
      write, its error is the argument check's, and the key, chain and
      certificate are left behind in their temporary files. */
  lemma MissingExpiryRefused(env: Env, cfg: Config, b: CertBundle, d: Disk, a: Artifact)
    requires !cfg.sandboxMode && BundleError(cfg, b).None? && b.expiresAt.None?
    ensures var r, dir := WriteCertsRun(env, cfg, b, d), CertDir(cfg, b.domain);
            && r.outcome.Err?
            && r.trace <= WritePhase(dir, b)
            && (|r.trace| == |WritePhase(dir, b)| ==>
                  && r.outcome.message == InvalidData.message
                  && (a != Expires ==> FileAt(r.disk, TempPath(dir, a)) == Some(File(Part(b, a), TempMode(d, dir, a)))))
            && FileAt(r.disk, FinalPath(dir, a)) == FileAt(d, FinalPath(dir, a))
  {
    var dir := CertDir(cfg, b.domain);
    var s := CertSteps(dir, b);
    ExecuteStops(env, d, s);
    var r := Execute(env, d, s);
    assert s[4] == WriteTemp(dir, b, Expires);
    if r.outcome.Ok? || |r.trace| > 5 {
      ExecuteAccepts(env, d, s, 4);
    }
    assert s[..5] == WritePhase(dir, b);
    WriteFailureKeepsFinals(env, cfg, b, d, a);
    if a != Expires {
      assert s[..4] == WritePhase(dir, b)[..4];
      TempBeforeExpiry(d, dir, b, a);
    }
  }

  /** Before the expiry's write, each other temporary file holds its part. */
  lemma TempBeforeExpiry(d: Disk, dir: Path, b: CertBundle, a: Artifact)
    requires a != Expires
    ensures FileAt(ApplyAll(d, WritePhase(dir, b)[..4]), TempPath(dir, a)) == Some(File(Part(b, a), TempMode(d, dir, a)))
  {
    var s, i, q := WritePhase(dir, b)[..4], 1 + Index(a), TempPath(dir, a);
    forall j | 0 <= j < |s| && j != i
      ensures Spares(s[j], q)
    {
      if j > 0 {
        PathsDistinct(dir, Artifacts[j - 1], a);
      }
    }
    Isolate(d, s, i, q);
  }

  /** What an installation into `dir` needs of the disk it starts from:
      the bundle has an expiry; the operating system raises nothing at the
      directory, at a temporary file or at the installed chain; the
      directory is not a file; and no temporary or final name is taken by
      a directory. */
  predicate InstallReady(env: Env, d: Disk, dir: Path, b: CertBundle)
  {
    && b.expiresAt.Some?
    && dir !in env.faults && dir !in d.files
    && FinalPath(dir, FullChain) !in env.faults
    && (forall a: Artifact :: TempPath(dir, a) !in env.faults && TempPath(dir, a) !in d.dirs)
    && (forall a: Artifact :: FinalPath(dir, a) !in d.dirs)
  }

  /** When the machine accepts one temporary write. */
  lemma WriteTempAccepted(env: Env, d: Disk, dir: Path, b: CertBundle, a: Artifact)
    ensures Refusal(env, d, WriteTemp(dir, b, a)).None? <==>
              && (a == Expires ==> b.expiresAt.Some?)
              && TempPath(dir, a) !in env.faults && dir in d.dirs && TempPath(dir, a) !in d.dirs
  {
  }

  /** When the machine accepts one rename. */
  lemma RenameTempAccepted(env: Env, d: Disk, dir: Path, a: Artifact)
    ensures Refusal(env, d, RenameTemp(dir, a)).None? <==>
              TempPath(dir, a) !in env.faults && TempPath(dir, a) in d.files && FinalPath(dir, a) !in d.dirs
  {
  }

  /** From the first operation on, an installation works in a disk whose
      directories are the starting ones plus its own. */
  lemma StepDirs(d: Disk, dir: Path, b: CertBundle, k: nat)
    requires 1 <= k <= |CertSteps(dir, b)|
    ensures ApplyAll(d, CertSteps(dir, b)[..k]).dirs == d.dirs + {dir}
  {
    var s := CertSteps(dir, b);
    assert s[..k] == [MakeDir(dir)] + s[1..k];
    ApplyAllAppend(d, [MakeDir(dir)], s[1..k]);
    assert ApplyAll(d, [MakeDir(dir)]) == Apply(d, MakeDir(dir)) by {
      assert [MakeDir(dir)][1..] == [];
    }
    forall i | 0 <= i < |s[1..k]|
      ensures !s[1..k][i].MakeDir? && !s[1..k][i].RemoveTree?
    {
      assert s[1..k][i] == s[1 + i];
    }
    KeepsDirs(Apply(d, MakeDir(dir)), s[1..k]);
  }

  /** When the renames start, each temporary file is there until its own
      rename moves it. */
  lemma TempBeforeRename(d: Disk, dir: Path, b: CertBundle, i: nat)
    requires i < |Artifacts|
    ensures TempPath(dir, Artifacts[i]) in ApplyAll(d, CertSteps(dir, b)[..5 + i]).files
  {
    var s, w, a := CertSteps(dir, b), WritePhase(dir, b), Artifacts[i];
    var done := Renames(dir)[..i];
    assert s[..5 + i] == w + done;
    ApplyAllAppend(d, w, done);
    TempWritten(d, dir, b, a);
    forall j | 0 <= j < |done|
      ensures Spares(done[j], TempPath(dir, a))
    {
      PathsDistinct(dir, Artifacts[j], a);
      PathsDistinct(dir, a, Artifacts[j]);
    }
    SparedByAll(ApplyAll(d, w), done, TempPath(dir, a));
  }

  /** On a ready disk the `k`-th operation of the installation is accepted. */
  lemma ReadyStep(env: Env, d: Disk, dir: Path, b: CertBundle, k: nat)
    requires InstallReady(env, d, dir, b) && k < |CertSteps(dir, b)|
    ensures Refusal(env, ApplyAll(d, CertSteps(dir, b)[..k]), CertSteps(dir, b)[k]).None?
  {
    var s := CertSteps(dir, b);
    if k == 0 {
      assert s[..0] == [];
    } else if k < 5 {
      StepDirs(d, dir, b, k);
      assert s[k] == WriteTemp(dir, b, Artifacts[k - 1]);
      WriteTempAccepted(env, ApplyAll(d, s[..k]), dir, b, Artifacts[k - 1]);
    } else {
      StepDirs(d, dir, b, k);
      assert s[k] == RenameTemp(dir, Artifacts[k - 5]);
      TempBeforeRename(d, dir, b, k - 5);
      RenameTempAccepted(env, ApplyAll(d, s[..k]), dir, Artifacts[k - 5]);
    }
  }

  /** On a ready disk every operation of the installation is accepted,
      and so is the closing check. */
  lemma ReadyInstalls(env: Env, d: Disk, dir: Path, b: CertBundle)
    requires InstallReady(env, d, dir, b)
    ensures Execute(env, d, CertSteps(dir, b)) == Run(ApplyAll(d, CertSteps(dir, b)), CertSteps(dir, b), Ok)
    ensures Refusal(env, ApplyAll(d, CertSteps(dir, b)), Stat(dir, FinalName(FullChain))).None?
  {
    var s, w := CertSteps(dir, b), WritePhase(dir, b);
    forall k | 0 <= k < |s|
      ensures Refusal(env, ApplyAll(d, s[..k]), s[k]).None?
    {
      ReadyStep(env, d, dir, b, k);
    }
    ExecuteAll(env, d, s);
    ApplyAllAppend(d, w, Renames(dir));
    TempWritten(d, dir, b, FullChain);
    RenameMoves(ApplyAll(d, w), dir, FullChain);
  }

  /** A successful installation started from a ready disk. */
  lemma InstalledFromReady(env: Env, cfg: Config, b: CertBundle, d: Disk)
    requires !cfg.sandboxMode && WriteCertsRun(env, cfg, b, d).outcome.Ok?
    ensures InstallReady(env, d, CertDir(cfg, b.domain), b)
  {
    var dir := CertDir(cfg, b.domain);
    var s := CertSteps(dir, b);
    ExecuteStops(env, d, s);
    ExecuteAccepts(env, d, s, 0);
    assert s[..0] == [];
    forall a: Artifact
      ensures TempPath(dir, a) !in env.faults && TempPath(dir, a) !in d.dirs
      ensures FinalPath(dir, a) !in d.dirs
      ensures a == Expires ==> b.expiresAt.Some?
    {
      AcceptedArtifact(env, d, dir, b, a);
    }
    assert TempPath(dir, Expires) !in env.faults;
  }

  /** What the acceptance of an artifact's write and rename, in a run of
      the whole installation that succeeded, says about the starting disk. */
  lemma AcceptedArtifact(env: Env, d: Disk, dir: Path, b: CertBundle, a: Artifact)
    requires Execute(env, d, CertSteps(dir, b)).outcome.Ok?
    ensures TempPath(dir, a) !in env.faults && TempPath(dir, a) !in d.dirs
    ensures FinalPath(dir, a) !in d.dirs
    ensures a == Expires ==> b.expiresAt.Some?
  {
    var s, i := CertSteps(dir, b), Index(a);
    ExecuteStops(env, d, s);
    ExecuteAccepts(env, d, s, 1 + i);
    ExecuteAccepts(env, d, s, 5 + i);
    StepDirs(d, dir, b, 1 + i);
    StepDirs(d, dir, b, 5 + i);
    assert s[1 + i] == WriteTemp(dir, b, a);
    assert s[5 + i] == RenameTemp(dir, a);
    WriteTempAccepted(env, ApplyAll(d, s[..1 + i]), dir, b, a);
    RenameTempAccepted(env, ApplyAll(d, s[..5 + i]), dir, a);
  }


  /** Outside sandbox mode `writeCerts` succeeds exactly when the bundle
      passes validation and the disk is ready for its installation. */
  lemma WriteCertsSucceeds(env: Env, cfg: Config, b: CertBundle, d: Disk)
    requires !cfg.sandboxMode
    ensures WriteCertsRun(env, cfg, b, d).outcome.Ok? <==>
              BundleError(cfg, b).None? && InstallReady(env, d, CertDir(cfg, b.domain), b)
  {
    if WriteCertsRun(env, cfg, b, d).outcome.Ok? {
      InstalledFromReady(env, cfg, b, d);
    } else if BundleError(cfg, b).None? && InstallReady(env, d, CertDir(cfg, b.domain), b) {
      ReadyInstalls(env, d, CertDir(cfg, b.domain), b);
    }
  }

  /** Nothing is attempted and nothing changes in sandbox mode or when the
      bundle is refused; a refusal is reported with its message. */
  lemma RefusedBeforeAnyChange(env: Env, cfg: Config, b: CertBundle, d: Disk)
    requires cfg.sandboxMode || BundleError(cfg, b).Some?
    ensures var r := WriteCertsRun(env, cfg, b, d);
            && r.disk == d && r.trace == []
            && r.outcome == if cfg.sandboxMode then Ok else Err(BundleError(cfg, b).value)
  {
  }

  /** Only the presence of the certificate is checked, never its form. */
  lemma CertificateNotInspected(cfg: Config, b: CertBundle, certificate: string)
    requires b.certificate != "" && certificate != ""
    ensures BundleError(cfg, b.(certificate := certificate)) == BundleError(cfg, b)
  {
  }

  /** A removal succeeds unless the operating system refuses that directory,
      whether or not the directory exists. */
  lemma RemoveCertsFails(env: Env, cfg: Config, domain: string, d: Disk)
    ensures RemoveCertsRun(env, cfg, domain, d).outcome.Err? <==>
              !cfg.sandboxMode && CertDir(cfg, domain) in env.faults
  {
    ExecuteOne(env, d, RemoveTree(CertDir(cfg, domain)));
  }

  /** After a successful removal nothing is left at or below the domain's
      directory, and everything elsewhere is as it was; in sandbox mode the
      disk is untouched. */
  lemma RemoveCertsClears(env: Env, cfg: Config, domain: string, d: Disk, q: Path)
    requires RemoveCertsRun(env, cfg, domain, d).outcome.Ok?
    ensures var r, dir := RemoveCertsRun(env, cfg, domain, d), CertDir(cfg, domain);
            && (cfg.sandboxMode ==> r.disk == d && r.trace == [])
            && (!cfg.sandboxMode && Within(q, dir) ==> q !in r.disk.files && q !in r.disk.dirs)
            && (!Within(q, dir) ==> FileAt(r.disk, q) == FileAt(d, q) && (q in r.disk.dirs <==> q in d.dirs))
  {
    ExecuteOne(env, d, RemoveTree(CertDir(cfg, domain)));
  }

  /** Removing twice leaves the disk as removing once does. */
  lemma RemoveCertsIdempotent(env: Env, cfg: Config, domain: string, d: Disk)
    ensures var r := RemoveCertsRun(env, cfg, domain, d);
            var r' := RemoveCertsRun(env, cfg, domain, r.disk);
            r'.disk == r.disk && r'.outcome == r.outcome
  {
    var dir := CertDir(cfg, domain);
    ExecuteOne(env, d, RemoveTree(dir));
    var r := RemoveCertsRun(env, cfg, domain, d);
    ExecuteOne(env, r.disk, RemoveTree(dir));
    if !cfg.sandboxMode && dir !in env.faults {
      var r' := RemoveCertsRun(env, cfg, domain, r.disk);
      assert r'.disk.files == r.disk.files;
      assert r'.disk.dirs == r.disk.dirs;
    }
  }
}
