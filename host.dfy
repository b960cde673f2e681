/** The part of the machine the agent acts on: a disk of files and
    directories, the nginx reload command and the outbound certificate
    fetch. `Host` is the one object through which every operation goes; its
    `trace` records each operation attempted, in order, whether or not the
    operating system accepted it. */
module FileSystem {
  import opened Types
  import opened Template

  type Path = string

  /** `path.join(dir, name)`, without the normalisation Node applies: the
      two agree for a `dir` without a trailing separator and a `name` that
      is a single non-empty path component. Nothing here enforces that: an
      empty `name` gives `dir + "/"`, where Node gives `dir`. */
  function Join(dir: Path, name: string): (p: Path)
    ensures dir < p && p[|dir|] == '/'
  {
    dir + "/" + name
  }

  /** Different names in one directory are different paths. */
  lemma JoinInjective(dir: Path, x: string, y: string)
    ensures Join(dir, x) == Join(dir, y) <==> x == y
  {
    if Join(dir, x) == Join(dir, y) {
      assert x == Join(dir, x)[|dir| + 1..];
      assert y == Join(dir, y)[|dir| + 1..];
    }
  }

  /** `p` is `root` itself or lies below it. */
  predicate Within(p: Path, root: Path)
  {
    p == root || root + "/" <= p
  }

  /** The data handed to `fs.writeFile`: text written as it is, a site
      configuration recorded by what it is the rendering of, or the
      JavaScript value `undefined`, which `fs.writeFile` rejects before it
      opens the file (`Refusal`), so that no accepted write stores it. */
  datatype Content =
    | Literal(text: string)
    | Rendered(mode: SiteMode, options: TemplateOptions, generated: string)
    | Undefined

  /** The characters of a file. */
  function TextOf(c: Content): string
  {
    match c
    case Literal(text) => text
    case Rendered(mode, options, generated) => Render(mode, options, generated)
    case Undefined => ""
  }

  datatype File = File(content: Content, mode: nat)

  datatype Disk = Disk(files: map<Path, File>, dirs: set<Path>)

  /** One operation the agent asks of the machine. */
  datatype Effect =
    | Fetch(domain: string)
    | MakeDir(path: Path)
    | WriteFile(dir: Path, name: string, content: Content, mode: nat)
    | Rename(dir: Path, from: string, to: string)
    | Unlink(dir: Path, name: string)
    | RemoveTree(path: Path)
    | Stat(dir: Path, name: string)
    | Reload

  /** An error raised by a system call: its code (`ENOENT`, ...) and message. */
  datatype OsError = OsError(code: string, message: string)

  /** What the agent cannot see: the paths at which the operating system
      raises an error (a permission problem, a full disk, ...) and how the
      reload command fails, if it does. */
  datatype Env = Env(faults: map<Path, OsError>, reloadError: Option<OsError>)

  /** An errno-style error as Node reports it, e.g.
      `ENOENT: no such file or directory, open '/x'`. */
  function Errno(code: string, text: string, syscall: string, p: Path): OsError
  {
    OsError(code, code + ": " + text + ", " + syscall + " '" + p + "'")
  }

  function NoEntry(syscall: string, p: Path): OsError
  {
    Errno("ENOENT", "no such file or directory", syscall, p)
  }

  function IsDirectory(syscall: string, p: Path): OsError
  {
    Errno("EISDIR", "illegal operation on a directory", syscall, p)
  }

  /** The argument check `fs.writeFile` makes on its data before it touches
      the disk. */
  const InvalidData := OsError("ERR_INVALID_ARG_TYPE",
    "The \"data\" argument must be of type string or an instance of Buffer, TypedArray, or DataView. Received undefined")

  /** An injected fault at `p` wins over what the disk itself would say. */
  function Fault(env: Env, p: Path, otherwise: Option<OsError>): Option<OsError>
  {
    if p in env.faults then Some(env.faults[p]) else otherwise
  }

  /** The error, if any, with which the machine refuses `e` on disk `d`. */
  function Refusal(env: Env, d: Disk, e: Effect): (err: Option<OsError>)
    ensures e.Fetch? ==> err.None?
    ensures e.Reload? ==> err == env.reloadError
    ensures e.RemoveTree? ==> (err.Some? <==> e.path in env.faults)
    ensures e.WriteFile? && (Join(e.dir, e.name) in env.faults || e.dir !in d.dirs) ==> err.Some?
    ensures e.Unlink? && Join(e.dir, e.name) !in env.faults ==>
              (err.Some? && err.value.code == "ENOENT" <==> Join(e.dir, e.name) !in d.files && Join(e.dir, e.name) !in d.dirs)
  {
    match e
    case Fetch(_) => None
    case Reload => env.reloadError
    case MakeDir(p) =>
      Fault(env, p, if p in d.files then Some(Errno("EEXIST", "file already exists", "mkdir", p)) else None)
    case WriteFile(dir, name, content, _) =>
      var p := Join(dir, name);
      if content.Undefined? then Some(InvalidData) else
      Fault(env, p,
        if dir !in d.dirs then Some(NoEntry("open", p))
        else if p in d.dirs then Some(IsDirectory("open", p))
        else None)
    case Rename(dir, from, to) =>
      var (src, dst) := (Join(dir, from), Join(dir, to));
      Fault(env, src,
        if src !in d.files then Some(NoEntry("rename", src + "' -> '" + dst))
        else if dst in d.dirs then Some(IsDirectory("rename", src + "' -> '" + dst))
        else None)
    case Unlink(dir, name) =>
      var p := Join(dir, name);
      Fault(env, p,
        if p in d.dirs then Some(IsDirectory("unlink", p))
        else if p !in d.files then Some(NoEntry("unlink", p))
        else None)
    case RemoveTree(p) => Fault(env, p, None)
    case Stat(dir, name) =>
      var p := Join(dir, name);
      Fault(env, p, if p !in d.files && p !in d.dirs then Some(NoEntry("stat", p)) else None)
  }

  /** `fs.writeFile` checks its data before it looks at the disk:
      `undefined` is refused whatever the path. */
  lemma UndefinedDataRefused(env: Env, d: Disk, dir: Path, name: string, mode: nat)
    ensures Refusal(env, d, WriteFile(dir, name, Undefined, mode)) == Some(InvalidData)
  {
  }

  /** The disk after the machine carries out `e`. `fs.writeFile` applies its
      `mode` only when it creates the file; an existing file keeps its mode.
      `MakeDir` creates the directory alone (its ancestors are not modelled). */
  function Apply(d: Disk, e: Effect): Disk
  {
    match e
    case Fetch(_) => d
    case Reload => d
    case Stat(_, _) => d
    case MakeDir(p) => d.(dirs := d.dirs + {p})
    case WriteFile(dir, name, content, mode) =>
      var p := Join(dir, name);
      d.(files := d.files[p := File(content, if p in d.files then d.files[p].mode else mode)])
    case Rename(dir, from, to) =>
      var (src, dst) := (Join(dir, from), Join(dir, to));
      if src in d.files then d.(files := (d.files - {src})[dst := d.files[src]]) else d
    case Unlink(dir, name) => d.(files := d.files - {Join(dir, name)})
    case RemoveTree(p) =>
      Disk(map q | q in d.files && !Within(q, p) :: d.files[q],
           set q | q in d.dirs && !Within(q, p))
  }

  function ApplyAll(d: Disk, steps: seq<Effect>): Disk
    decreases |steps|
  {
    if steps == [] then d else ApplyAll(Apply(d, steps[0]), steps[1..])
  }

  lemma {:induction false} ApplyAllAppend(d: Disk, s: seq<Effect>, t: seq<Effect>)
    ensures ApplyAll(d, s + t) == ApplyAll(ApplyAll(d, s), t)
    decreases |s|
  {
    if s == [] {
      assert s + t == t;
    } else {
      assert (s + t)[0] == s[0] && (s + t)[1..] == s[1..] + t;
      ApplyAllAppend(Apply(d, s[0]), s[1..], t);
    }
  }

  /** The file at `p`, if there is one. */
  function FileAt(d: Disk, p: Path): Option<File>
  {
    if p in d.files then Some(d.files[p]) else None
  }

  /** `e` leaves whatever is at `q` as it is. */
  predicate Spares(e: Effect, q: Path)
  {
    match e
    case WriteFile(dir, name, _, _) => Join(dir, name) != q
    case Rename(dir, from, to) => Join(dir, from) != q && Join(dir, to) != q
    case Unlink(dir, name) => Join(dir, name) != q
    case RemoveTree(p) => !Within(q, p)
    case _ => true
  }

  /** Operations that all spare `q` leave the file at `q` alone. */
  lemma {:induction false} SparedByAll(d: Disk, steps: seq<Effect>, q: Path)
    requires forall i | 0 <= i < |steps| :: Spares(steps[i], q)
    ensures FileAt(ApplyAll(d, steps), q) == FileAt(d, q)
    decreases |steps|
  {
    if steps != [] {
      assert Spares(steps[0], q);
      SparedByAll(Apply(d, steps[0]), steps[1..], q);
    }
  }

  /** When only the `i`-th of `steps` may touch `q`, the file at `q` after
      all of them is what that one operation leaves there, and before it
      runs `q` still holds what it held at the start. */
  lemma Isolate(d: Disk, steps: seq<Effect>, i: nat, q: Path)
    requires i < |steps|
    requires forall j | 0 <= j < |steps| && j != i :: Spares(steps[j], q)
    ensures FileAt(ApplyAll(d, steps[..i]), q) == FileAt(d, q)
    ensures FileAt(ApplyAll(d, steps), q) == FileAt(Apply(ApplyAll(d, steps[..i]), steps[i]), q)
  {
    var pre, post := steps[..i], steps[i + 1..];
    assert forall j | 0 <= j < |pre| :: pre[j] == steps[j];
    SparedByAll(d, pre, q);
    assert steps == pre + [steps[i]] + post;
    ApplyAllAppend(d, pre + [steps[i]], post);
    ApplyAllAppend(d, pre, [steps[i]]);
    assert forall j | 0 <= j < |post| :: post[j] == steps[i + 1 + j];
    SparedByAll(ApplyAll(d, pre + [steps[i]]), post, q);
    assert [steps[i]][1..] == [];
  }

  /** Operations that neither create nor remove directories leave the set
      of directories alone. */
  lemma {:induction false} KeepsDirs(d: Disk, steps: seq<Effect>)
    requires forall i | 0 <= i < |steps| :: !steps[i].MakeDir? && !steps[i].RemoveTree?
    ensures ApplyAll(d, steps).dirs == d.dirs
    decreases |steps|
  {
    if steps != [] {
      assert !steps[0].MakeDir? && !steps[0].RemoveTree?;
      KeepsDirs(Apply(d, steps[0]), steps[1..]);
    }
  }

  /** What a fail-fast run of operations did: the disk it left, the
      operations it attempted, and how it ended. */
  datatype Run = Run(disk: Disk, trace: seq<Effect>, outcome: Outcome)

  /** Nothing attempted, nothing changed. */
  function Idle(d: Disk): Run
  {
    Run(d, [], Ok)
  }

  /** A run that stopped before attempting anything, with an error. */
  function Rejected(d: Disk, message: string): Run
  {
    Run(d, [], Err(message))
  }

  /** `r2` run after `r1`: the second starts where the first left the disk. */
  function Then(r1: Run, r2: Run): Run
  {
    Run(r2.disk, r1.trace + r2.trace, r2.outcome)
  }

  /** `r1` and then, if it succeeded, `r2` from where `r1` left the disk:
      a failure of `r1` ends the sequence with `r1`'s error. */
  function AndThen(r1: Run, r2: Run): Run
  {
    if r1.outcome.Err? then r1 else Then(r1, r2)
  }

  /** No reload among the operations `t`. */
  predicate ReloadFree(t: seq<Effect>)
  {
    forall i | 0 <= i < |t| :: t[i] != Reload
  }

  /** `await`ing `steps` one after another: the first refusal stops the
      run and its message becomes the run's error; nothing is rolled back. */
  function Execute(env: Env, d: Disk, steps: seq<Effect>): Run
    decreases |steps|
  {
    if steps == [] then Idle(d)
    else match Refusal(env, d, steps[0])
      case Some(err) => Run(d, [steps[0]], Err(err.message))
      case None =>
        var r := Execute(env, Apply(d, steps[0]), steps[1..]);
        Run(r.disk, [steps[0]] + r.trace, r.outcome)
  }

  /** Where a run stops: the attempted operations are a prefix of `steps`;
      a successful run attempted all of them and the disk holds their
      effects; a failed one ends with the refused operation, whose refusal is
      the run's error, and the disk holds the effects of those before it. */
  lemma ExecuteStops(env: Env, d: Disk, steps: seq<Effect>)
    ensures var r := Execute(env, d, steps);
            && r.trace <= steps
            && (r.outcome.Ok? ==> r.trace == steps && r.disk == ApplyAll(d, steps))
            && (r.outcome.Err? ==>
                  var k := |r.trace| - 1;
                  0 <= k && r.disk == ApplyAll(d, steps[..k]) &&
                  Refusal(env, r.disk, steps[k]).Some? &&
                  r.outcome.message == Refusal(env, r.disk, steps[k]).value.message)
  {
    ExecutePrefix(env, d, steps);
    if Execute(env, d, steps).outcome.Ok? {
      ExecuteOk(env, d, steps);
    } else {
      ExecuteErr(env, d, steps);
    }
  }

  lemma {:induction false} ExecutePrefix(env: Env, d: Disk, steps: seq<Effect>)
    ensures Execute(env, d, steps).trace <= steps
    decreases |steps|
  {
    if steps != [] && Refusal(env, d, steps[0]).None? {
      ExecutePrefix(env, Apply(d, steps[0]), steps[1..]);
      assert steps == [steps[0]] + steps[1..];
    }
  }

  lemma {:induction false} ExecuteOk(env: Env, d: Disk, steps: seq<Effect>)
    requires Execute(env, d, steps).outcome.Ok?
    ensures Execute(env, d, steps) == Run(ApplyAll(d, steps), steps, Ok)
    decreases |steps|
  {
    if steps != [] {
      ExecuteOk(env, Apply(d, steps[0]), steps[1..]);
      assert steps == [steps[0]] + steps[1..];
    }
  }

  lemma {:induction false} ExecuteErr(env: Env, d: Disk, steps: seq<Effect>)
    requires Execute(env, d, steps).outcome.Err?
    ensures var r := Execute(env, d, steps);
            var k := |r.trace| - 1;
            && 0 <= k < |steps| && r.disk == ApplyAll(d, steps[..k])
            && Refusal(env, r.disk, steps[k]).Some?
            && r.outcome.message == Refusal(env, r.disk, steps[k]).value.message
    decreases |steps|
  {
    if Refusal(env, d, steps[0]).None? {
      var d1 := Apply(d, steps[0]);
      ExecuteErr(env, d1, steps[1..]);
      var k := |Execute(env, d1, steps[1..]).trace|;
      assert steps[..k][0] == steps[0] && steps[..k][1..] == steps[1..][..k - 1];
    } else {
      assert steps[..0] == [];
    }
  }

  /** Every operation a run attempted before its last one was accepted, and
      so was the last one when the run succeeded. */
  lemma {:induction false} ExecuteAccepts(env: Env, d: Disk, steps: seq<Effect>, k: nat)
    requires var r := Execute(env, d, steps); k < |r.trace| && (k < |r.trace| - 1 || r.outcome.Ok?)
    ensures k < |steps| && Refusal(env, ApplyAll(d, steps[..k]), steps[k]).None?
    decreases k
  {
    if k > 0 {
      var d1 := Apply(d, steps[0]);
      ExecuteAccepts(env, d1, steps[1..], k - 1);
      assert steps[..k][0] == steps[0] && steps[..k][1..] == steps[1..][..k - 1];
    }
  }

  /** A run whose every operation is accepted, each on the disk the ones
      before it left, attempts all of them and succeeds. */
  lemma {:induction false} ExecuteAll(env: Env, d: Disk, steps: seq<Effect>)
    requires forall k | 0 <= k < |steps| :: Refusal(env, ApplyAll(d, steps[..k]), steps[k]).None?
    ensures Execute(env, d, steps) == Run(ApplyAll(d, steps), steps, Ok)
    decreases |steps|
  {
    if steps != [] {
      assert steps[..0] == [];
      var d1, rest := Apply(d, steps[0]), steps[1..];
      forall k | 0 <= k < |rest|
        ensures Refusal(env, ApplyAll(d1, rest[..k]), rest[k]).None?
      {
        assert steps[..k + 1][0] == steps[0] && steps[..k + 1][1..] == rest[..k];
        assert Refusal(env, ApplyAll(d, steps[..k + 1]), steps[k + 1]).None?;
      }
      ExecuteAll(env, d1, rest);
      assert [steps[0]] + rest == steps;
    }
  }

  /** A run of `s + t` is a run of `s` followed, if that succeeded, by a run
      of `t` from where it left the disk. */
  lemma {:induction false} ExecuteAppend(env: Env, d: Disk, s: seq<Effect>, t: seq<Effect>)
    ensures var r := Execute(env, d, s);
            Execute(env, d, s + t) == if r.outcome.Err? then r else Then(r, Execute(env, r.disk, t))
    decreases |s|
  {
    if s == [] {
      assert s + t == t;
    } else {
      assert (s + t)[0] == s[0] && (s + t)[1..] == s[1..] + t;
      if Refusal(env, d, s[0]).None? {
        ExecuteAppend(env, Apply(d, s[0]), s[1..], t);
      }
    }
  }

  /** A run of a single operation. */
  lemma ExecuteOne(env: Env, d: Disk, e: Effect)
    ensures Execute(env, d, [e]) ==
              match Refusal(env, d, e)
              case None => Run(Apply(d, e), [e], Ok)
              case Some(err) => Run(d, [e], Err(err.message))
  {
    assert [e][1..] == [];
    assert [e] + [] == [e];
  }

  /** `r` attempted a prefix of `plan`, and the whole of it if it
      succeeded: nothing outside the plan and nothing out of its order. */
  predicate Follows(r: Run, plan: seq<Effect>)
  {
    r.trace <= plan && (r.outcome.Ok? ==> r.trace == plan)
  }

  lemma ExecuteFollows(env: Env, d: Disk, steps: seq<Effect>)
    ensures Follows(Execute(env, d, steps), steps)
  {
    ExecuteStops(env, d, steps);
  }

  /** Fail-fast composition follows the concatenated plan. */
  lemma AndThenFollows(r1: Run, r2: Run, p1: seq<Effect>, p2: seq<Effect>)
    requires Follows(r1, p1) && Follows(r2, p2)
    ensures Follows(AndThen(r1, r2), p1 + p2)
  {
    if r1.outcome.Ok? {
      assert r1.trace + r2.trace == p1 + p2[..|r2.trace|];
    }
  }

  /** A reload, if any, is the last of the operations `t`. */
  predicate ReloadsLast(t: seq<Effect>)
  {
    forall i | 0 <= i < |t| - 1 :: t[i] != Reload
  }

  /** A run that follows a plan reloading only at its end reloads at most
      once, and then as its last operation. */
  lemma PrefixReloadsLast(r: Run, plan: seq<Effect>)
    requires Follows(r, plan) && ReloadsLast(plan)
    ensures ReloadsLast(r.trace)
  {
    assert forall i | 0 <= i < |r.trace| :: r.trace[i] == plan[i];
  }

  // ---------------------------------------------------------------------
  // Following a run step by step inside a method

  /** After `k` accepted steps of `s` from `d0`, at disk `d`, the rest of the
      run is the run of `s[k..]` from `d`. */
  ghost predicate Track(env: Env, d0: Disk, s: seq<Effect>, k: nat, d: Disk)
  {
    k <= |s| && Execute(env, d0, s) == Then(Run(d, s[..k], Ok), Execute(env, d, s[k..]))
  }

  lemma TrackStart(env: Env, d0: Disk, s: seq<Effect>)
    ensures Track(env, d0, s, 0, d0)
  {
    assert s[0..] == s;
  }

  /** One more step of `s`: accepted, the run goes on from `Apply(d, s[k])`;
      refused, the run ends here with that refusal's message. */
  lemma TrackStep(env: Env, d0: Disk, s: seq<Effect>, k: nat, d: Disk, err: Option<OsError>)
    requires Track(env, d0, s, k, d) && k < |s| && err == Refusal(env, d, s[k])
    ensures err.None? ==> Track(env, d0, s, k + 1, Apply(d, s[k]))
    ensures err.Some? ==> Execute(env, d0, s) == Run(d, s[..k + 1], Err(err.value.message))
  {
    assert s[..k] + [s[k]] == s[..k + 1];
    assert s[k..][0] == s[k] && s[k..][1..] == s[k + 1..];
  }

  lemma TrackEnd(env: Env, d0: Disk, s: seq<Effect>, d: Disk)
    requires Track(env, d0, s, |s|, d)
    ensures Execute(env, d0, s) == Run(d, s, Ok)
  {
    assert s[|s|..] == [] && s[..|s|] == s;
  }

  /** The machine. `env` is fixed for the host's lifetime. */
  class Host {
    var disk: Disk
    var trace: seq<Effect>
    const env: Env

    constructor (d: Disk, env: Env)
      ensures disk == d && trace == [] && this.env == env
    {
      disk := d;
      trace := [];
      this.env := env;
    }

    /** Attempt one operation: it is recorded, and it changes the disk
        exactly when the machine accepts it. */
    method Perform(e: Effect) returns (err: Option<OsError>)
      modifies this
      ensures trace == old(trace) + [e]
      ensures err == Refusal(env, old(disk), e)
      ensures disk == if err.None? then Apply(old(disk), e) else old(disk)
    {
      err := Refusal(env, disk, e);
      if err.None? {
        disk := Apply(disk, e);
      }
      trace := trace + [e];
    }

    /** Attempt the `k`-th operation of a run of `s` from `d0` begun with
        trace `t0`: accepted, the run goes on; refused, the run of `s` ends
        here with the refusal's message. */
    method Follow(ghost d0: Disk, ghost t0: seq<Effect>, ghost s: seq<Effect>, ghost k: nat, e: Effect)
      returns (err: Option<OsError>)
      requires Track(env, d0, s, k, disk) && trace == t0 + s[..k] && k < |s| && s[k] == e
      modifies this
      ensures trace == t0 + s[..k + 1]
      ensures err.None? ==> Track(env, d0, s, k + 1, disk)
      ensures err.Some? ==> Execute(env, d0, s) == Run(disk, s[..k + 1], Err(err.value.message))
    {
      ghost var d := disk;
      err := Perform(e);
      TrackStep(env, d0, s, k, d, err);
      assert t0 + s[..k] + [e] == t0 + s[..k + 1];
    }

    /** `await` each operation of `steps` in turn: the first refusal is
        thrown, and nothing after it is attempted. */
    method RunAll(steps: seq<Effect>) returns (outcome: Outcome)
      modifies this
      ensures var r := Execute(env, old(disk), steps);
              disk == r.disk && trace == old(trace) + r.trace && outcome == r.outcome
    {
      ghost var d0, t0 := disk, trace;
      TrackStart(env, d0, steps);
      var i := 0;
      while i < |steps|
        invariant i <= |steps| && Track(env, d0, steps, i, disk) && trace == t0 + steps[..i]
      {
        var err := Follow(d0, t0, steps, i, steps[i]);
        if err.Some? {
          return Err(err.value.message);
        }
        i := i + 1;
      }
      TrackEnd(env, d0, steps, disk);
      assert steps[..i] == steps;
      outcome := Ok;
    }
  }
}
