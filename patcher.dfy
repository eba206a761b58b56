/**
 * The patcher's controller (patcher.py, `process_povs` and `main`): pick the POV files,
 * reproduce each crash, hand all of them to one agent session bracketed by workspace
 * resets, and decide how the process ends.
 *
 * Every effect on the outside world (libCRS, git, the agent, sleeping) is an event in
 * a trace; what the world answers is an oracle value in `World`.
 */
module Patcher {
  import opened Text
  import opened Paths
  import opened CrashReproduction
  import opened Workspace
  import opened CopilotCli

  const PatchesDir: Path := ["patches"]
  const PovDir: Path := ["work", "povs"]
  const DiffDir: Path := ["work", "diffs"]
  const SourceRoot: Path := ["work", "src"]
  const AgentWorkDir: Path := ["work", "agent"]
  /** How long `main` lets the submission watcher flush a patch before exiting. */
  const FlushWaitSeconds: nat := 30

  /** The agent modules of the `agents` package. */
  datatype AgentKind = CopilotCliAgent | TemplateAgent

  /** `load_agent`: the modules `agents.<name>` that import. */
  const Agents: map<string, AgentKind> := map["copilot_cli" := CopilotCliAgent, "template" := TemplateAgent]

  /** What the template agent's `setup` raises. */
  const TemplateSetupError: string := "Implement setup() for your agent"

  /** The arguments `process_povs` passes to `agent.run`. */
  datatype AgentRequest = AgentRequest(
    sourceDir: Path, povs: seq<(Path, string)>, harness: string, patchesDir: Path, workDir: Path,
    language: string, sanitizer: string, builder: string, refDiff: Option<string>)

  datatype Event =
    | InitCrsUtils                                  // init_crs_utils: the libCRS handle
    | StartSubmitWatcher(dir: Path)                 // register_submit_dir, on a daemon thread
    | FetchPovs(dir: Path)
    | FetchDiffs(dir: Path)                         // its failure is only logged
    | DownloadSource(dir: Path)
    | SetupAgent(agent: AgentKind, sourceDir: Path, config: SetupConfig)
    | ResolveBuilder(builder: string)               // get_service_domain
    | RunPov(call: RunPovRequest)
    | Reset(step: ResetStep)                        // a step of `_reset_source` in the project
    | RunAgent(request: AgentRequest)
    | FlushWait(seconds: nat)

  /** How the process ends: `sys.exit(code)` (a normal return is 0), or an exception nothing catches. */
  datatype Termination = Exit(code: nat) | Uncaught(error: string)

  /** The environment settings `main` reads. */
  datatype Config = Config(
    snapshotImage: string, harness: string, language: string, sanitizer: string,
    llmApiUrl: string, llmApiKey: string, builderModule: string, agentName: string)

  datatype PovFetch = PovsFetched | PovFetchRaised(error: string)

  /** What `get_service_domain` does: resolve, raise RuntimeError (handled), or raise anything else. */
  datatype DomainLookup = Resolved(domain: string) | LookupRuntimeError(error: string) | LookupRaised(error: string)

  /** A path `rglob("*")` yields under the POV directory. */
  datatype PovEntry = PovEntry(path: Path, isFile: bool)

  /** Everything the outside world answers during one run of the patcher. */
  datatype World = World(
    crsInit: Option<string>,          // the exception init_crs_utils raises, if any
    povFetch: PovFetch,
    sourceDownloaded: bool,
    sourceEntries: seq<Entry>,        // /work/src after the download, in iterdir order
    home: Path,
    povListing: seq<PovEntry>,        // /work/povs, in rglob order
    refDiffFile: Option<string>,      // /work/diffs/ref.diff, when it is a file
    builderLookup: DomainLookup,
    sidecar: Path -> SidecarRun,      // what run_pov does for each POV
    sourceTree: seq<RelPath>,         // the project's files before the first reset, in glob order
    agentTree: seq<RelPath>,          // ... and after the agent, before the second reset
    agentResult: bool,                // what agent.run returns
    patchesAfter: set<string>)        // the names in /patches once the agent is done

  // ---------------------------------------------------------------------------
  // Counting events

  function CountWhere(s: seq<Event>, p: Event -> bool): nat {
    if s == [] then 0 else CountWhere(s[..|s| - 1], p) + (if p(s[|s| - 1]) then 1 else 0)
  }

  lemma {:induction false} CountWhereAppend(a: seq<Event>, b: seq<Event>, p: Event -> bool)
    ensures CountWhere(a + b, p) == CountWhere(a, p) + CountWhere(b, p)
  {
    if b == [] {
      assert a + b == a;
    } else {
      assert (a + b)[..|a + b| - 1] == a + b[..|b| - 1];
      CountWhereAppend(a, b[..|b| - 1], p);
    }
  }

  lemma {:induction false} CountWhereNone(s: seq<Event>, p: Event -> bool)
    requires forall e :: e in s ==> !p(e)
    ensures CountWhere(s, p) == 0
  {
    if s != [] {
      assert s == s[..|s| - 1] + [s[|s| - 1]];
      CountWhereNone(s[..|s| - 1], p);
    }
  }

  predicate IsAgentRun(e: Event) {
    e.RunAgent?
  }

  /** `git reset --hard HEAD` in the project: one per `_reset_source`. */
  predicate IsHardReset(e: Event) {
    e == Reset(RunGit(ResetHardHead))
  }

  // ---------------------------------------------------------------------------
  // POV files

  predicate IsPovFile(e: PovEntry) {
    e.isFile && !StartsWith(Name(e.path), ".")
  }

  /** The POV files of a listing, in listing order. */
  function PovCandidates(listing: seq<PovEntry>): seq<Path> {
    if listing == [] then []
    else
      var e := listing[|listing| - 1];
      PovCandidates(listing[..|listing| - 1]) + (if IsPovFile(e) then [e.path] else [])
  }

  /** `sorted(f for f in POV_DIR.rglob("*") if f.is_file() and not f.name.startswith("."))` */
  function PovFiles(listing: seq<PovEntry>): (povs: seq<Path>)
    ensures Sorted(povs) && multiset(povs) == multiset(PovCandidates(listing))
  {
    SortPaths(PovCandidates(listing))
  }

  lemma {:induction false} PovCandidatesMembers(listing: seq<PovEntry>, p: Path)
    ensures p in PovCandidates(listing) <==> exists e :: e in listing && e.path == p && IsPovFile(e)
  {
    if listing != [] {
      var init, e := listing[..|listing| - 1], listing[|listing| - 1];
      assert listing == init + [e];
      PovCandidatesMembers(init, p);
    }
  }

  /** A path is a POV exactly when it is a regular file whose own name does not start with ".". */
  lemma PovFilesMembers(listing: seq<PovEntry>, p: Path)
    ensures p in PovFiles(listing) <==> exists e :: e in listing && e.path == p && IsPovFile(e)
  {
    PovCandidatesMembers(listing, p);
    assert p in PovFiles(listing) <==> p in multiset(PovFiles(listing));
  }

  /**
   * The POV list is sorted, holds each selected file as often as the listing does, and
   * is the only sequence that does both: the order is fixed by the paths alone.
   */
  lemma PovFilesCanonical(listing: seq<PovEntry>, r: seq<Path>)
    requires Sorted(r) && multiset(r) == multiset(PovCandidates(listing))
    ensures r == PovFiles(listing)
  {
    SortedPermutationsEqual(r, PovFiles(listing));
  }

  lemma PovFilesEmptyIff(listing: seq<PovEntry>)
    ensures PovFiles(listing) == [] <==> forall e :: e in listing ==> !IsPovFile(e)
  {
    if PovFiles(listing) != [] {
      PovFilesMembers(listing, PovFiles(listing)[0]);
    }
    if e :| e in listing && IsPovFile(e) {
      PovFilesMembers(listing, e.path);
    }
  }

  // ---------------------------------------------------------------------------
  // process_povs

  /** The (path, crash report) pairs of a batch, one per POV, in order. */
  function CrashPairs(povPaths: seq<Path>, harness: string, builder: string, sidecar: Path -> SidecarRun)
    : (pairs: seq<(Path, string)>)
    ensures |pairs| == |povPaths|
    ensures forall i :: 0 <= i < |povPaths| ==>
              pairs[i] == (povPaths[i], ReproduceCrash(harness, builder, povPaths[i], sidecar(povPaths[i])).report)
  {
    seq(|povPaths|, i requires 0 <= i < |povPaths| =>
      (povPaths[i], ReproduceCrash(harness, builder, povPaths[i], sidecar(povPaths[i])).report))
  }

  function RunPovs(requests: seq<RunPovRequest>): (events: seq<Event>)
    ensures |events| == |requests|
    ensures forall i :: 0 <= i < |requests| ==> events[i] == RunPov(requests[i])
  {
    seq(|requests|, i requires 0 <= i < |requests| => RunPov(requests[i]))
  }

  /** The sidecar calls made while reproducing a batch. */
  function ReproductionTrace(povPaths: seq<Path>, harness: string, builder: string, sidecar: Path -> SidecarRun)
    : seq<Event>
  {
    if povPaths == [] then []
    else
      var pov := povPaths[|povPaths| - 1];
      ReproductionTrace(povPaths[..|povPaths| - 1], harness, builder, sidecar)
      + RunPovs(ReproduceCrash(harness, builder, pov, sidecar(pov)).requests)
  }

  function Resets(steps: seq<ResetStep>): (events: seq<Event>)
    ensures |events| == |steps|
    ensures forall i :: 0 <= i < |steps| ==> events[i] == Reset(steps[i])
  {
    seq(|steps|, i requires 0 <= i < |steps| => Reset(steps[i]))
  }

  /** One agent session: reproduce every POV, reset, run the agent, reset. */
  function SessionTrace(povPaths: seq<Path>, harness: string, builder: string, sidecar: Path -> SidecarRun,
                        sourceTree: seq<RelPath>, request: AgentRequest, agentTree: seq<RelPath>): seq<Event>
  {
    ReproductionTrace(povPaths, harness, builder, sidecar)
    + Resets(ResetPlan(sourceTree)) + [RunAgent(request)] + Resets(ResetPlan(agentTree))
  }

  lemma {:induction false} ReproductionWithoutHarness(povPaths: seq<Path>, builder: string, sidecar: Path -> SidecarRun)
    ensures ReproductionTrace(povPaths, "", builder, sidecar) == []
  {
    if povPaths != [] {
      ReproductionWithoutHarness(povPaths[..|povPaths| - 1], builder, sidecar);
      ReproductionLast(povPaths, "", builder, sidecar);
    }
  }

  lemma {:induction false} ReproductionWithHarness(povPaths: seq<Path>, harness: string, builder: string,
                                                   sidecar: Path -> SidecarRun)
    requires harness != ""
    ensures var t := ReproductionTrace(povPaths, harness, builder, sidecar);
            && |t| == |povPaths|
            && forall i :: 0 <= i < |povPaths| ==>
                 t[i] == RunPov(RunPovRequest(povPaths[i], harness, BaseBuild, ResponseDir(povPaths[i]), builder))
  {
    if povPaths != [] {
      var init := povPaths[..|povPaths| - 1];
      ReproductionWithHarness(init, harness, builder, sidecar);
      ReproductionLast(povPaths, harness, builder, sidecar);
      MapSnoc(povPaths, ReproductionTrace(init, harness, builder, sidecar), ReproductionTrace(povPaths, harness, builder, sidecar),
              p => RunPov(RunPovRequest(p, harness, BaseBuild, ResponseDir(p), builder)));
    }
  }

  /** A sequence that maps f over all but the last path, extended by f of the last, maps f over all of them. */
  lemma MapSnoc(ps: seq<Path>, head: seq<Event>, t: seq<Event>, f: Path -> Event)
    requires ps != [] && |head| == |ps| - 1
    requires forall i :: 0 <= i < |head| ==> head[i] == f(ps[..|ps| - 1][i])
    requires t == head + [f(ps[|ps| - 1])]
    ensures |t| == |ps| && forall i :: 0 <= i < |ps| ==> t[i] == f(ps[i])
  {
    forall i | 0 <= i < |head|
      ensures t[i] == f(ps[i])
    {
      assert t[i] == head[i] && ps[..|ps| - 1][i] == ps[i];
    }
  }

  /**
   * With a harness, the sidecar is asked once per POV, in order, for the base build;
   * without one, it is never asked.
   */
  lemma ReproductionRequests(povPaths: seq<Path>, harness: string, builder: string, sidecar: Path -> SidecarRun)
    ensures harness == "" ==> ReproductionTrace(povPaths, harness, builder, sidecar) == []
    ensures harness != "" ==>
              var t := ReproductionTrace(povPaths, harness, builder, sidecar);
              && |t| == |povPaths|
              && forall i :: 0 <= i < |povPaths| ==>
                   t[i] == RunPov(RunPovRequest(povPaths[i], harness, BaseBuild, ResponseDir(povPaths[i]), builder))
  {
    if harness == "" {
      ReproductionWithoutHarness(povPaths, builder, sidecar);
    } else {
      ReproductionWithHarness(povPaths, harness, builder, sidecar);
    }
  }

  /** The last POV of a batch adds its one sidecar call, with a harness, at the end. */
  lemma ReproductionLast(povPaths: seq<Path>, harness: string, builder: string, sidecar: Path -> SidecarRun)
    requires povPaths != []
    ensures var init, last := povPaths[..|povPaths| - 1], povPaths[|povPaths| - 1];
            var t := ReproductionTrace(povPaths, harness, builder, sidecar);
            && (harness == "" ==> t == ReproductionTrace(init, harness, builder, sidecar))
            && (harness != "" ==>
                  t == ReproductionTrace(init, harness, builder, sidecar)
                       + [RunPov(RunPovRequest(last, harness, BaseBuild, ResponseDir(last), builder))])
  {
    var last := povPaths[|povPaths| - 1];
    var requests := ReproduceCrash(harness, builder, last, sidecar(last)).requests;
    if harness != "" {
      assert RunPovs(requests) == [RunPov(RunPovRequest(last, harness, BaseBuild, ResponseDir(last), builder))];
    } else {
      assert RunPovs(requests) == [];
    }
  }

  lemma ReproductionOnlyRunsPovs(povPaths: seq<Path>, harness: string, builder: string, sidecar: Path -> SidecarRun)
    ensures forall e :: e in ReproductionTrace(povPaths, harness, builder, sidecar) ==> e.RunPov?
  {
    ReproductionRequests(povPaths, harness, builder, sidecar);
  }

  /** `_reset_source` runs `git reset --hard HEAD` once and never starts the agent. */
  lemma ResetCounts(tree: seq<RelPath>)
    ensures CountWhere(Resets(ResetPlan(tree)), IsHardReset) == 1
    ensures CountWhere(Resets(ResetPlan(tree)), IsAgentRun) == 0
  {
    var unlinks := Resets(Unlinks(StaleLocks(tree)));
    var git := [Reset(RunGit(ResetHardHead)), Reset(RunGit(CleanForceDirs))];
    assert Resets(ResetPlan(tree)) == unlinks + git;
    CountWhereNone(unlinks, IsHardReset);
    CountWhereNone(unlinks, IsAgentRun);
    CountWhereAppend(unlinks, git, IsHardReset);
    CountWhereAppend(unlinks, git, IsAgentRun);
    assert git[..1] == [Reset(RunGit(ResetHardHead))];
  }

  /** Counting over a session's shape: sidecar calls, a reset, the agent run, a reset. */
  lemma BracketCounts(r: seq<Event>, before: seq<Event>, run: Event, after: seq<Event>)
    requires forall e :: e in r ==> e.RunPov?
    requires forall e :: e in before ==> e.Reset?
    requires forall e :: e in after ==> e.Reset?
    requires run.RunAgent?
    requires CountWhere(before, IsHardReset) == 1 && CountWhere(after, IsHardReset) == 1
    ensures CountWhere(r + before + [run] + after, IsAgentRun) == 1
    ensures CountWhere(r + before, IsHardReset) == 1
  {
    CountWhereNone(r, IsHardReset);
    CountWhereNone(r, IsAgentRun);
    CountWhereNone(before, IsAgentRun);
    CountWhereNone(after, IsAgentRun);
    CountWhereAppend(r, before, IsHardReset);
    CountWhereAppend(r, before, IsAgentRun);
    CountWhereAppend(r + before, [run], IsAgentRun);
    CountWhereAppend(r + before + [run], after, IsAgentRun);
    assert [run][..0] == [];
  }

  /** Positions in a session's shape: every sidecar call precedes every reset step. */
  lemma BracketOrder(r: seq<Event>, before: seq<Event>, run: Event, after: seq<Event>)
    requires forall e :: e in r ==> e.RunPov?
    requires forall e :: e in before ==> e.Reset?
    requires forall e :: e in after ==> e.Reset?
    requires run.RunAgent?
    ensures var t := r + before + [run] + after;
            forall i, j :: 0 <= i < |t| && 0 <= j < |t| && t[i].RunPov? && t[j].Reset? ==> i < j
  {
    var t := r + before + [run] + after;
    var k := |r| + |before|;
    assert forall i :: 0 <= i < |r| ==> t[i] == r[i] && r[i] in r;
    assert forall i :: |r| <= i < k ==> t[i] == before[i - |r|] && before[i - |r|] in before;
    assert forall i :: k < i < |t| ==> t[i] == after[i - k - 1] && after[i - k - 1] in after;
  }

  /**
   * A session runs the agent exactly once, with exactly one reset before it and one
   * after it, and every sidecar call comes before the first reset.
   */
  lemma SessionBracketsAgent(povPaths: seq<Path>, harness: string, builder: string, sidecar: Path -> SidecarRun,
                             sourceTree: seq<RelPath>, request: AgentRequest, agentTree: seq<RelPath>)
    ensures var t := SessionTrace(povPaths, harness, builder, sidecar, sourceTree, request, agentTree);
            && CountWhere(t, IsAgentRun) == 1
            && (exists k :: 0 <= k < |t| && t[k] == RunAgent(request)
                            && CountWhere(t[..k], IsHardReset) == 1 && CountWhere(t[k + 1..], IsHardReset) == 1)
            && forall i, j :: 0 <= i < |t| && 0 <= j < |t| && t[i].RunPov? && t[j].Reset? ==> i < j
  {
    var r := ReproductionTrace(povPaths, harness, builder, sidecar);
    var before, after := Resets(ResetPlan(sourceTree)), Resets(ResetPlan(agentTree));
    ReproductionOnlyRunsPovs(povPaths, harness, builder, sidecar);
    ResetCounts(sourceTree);
    ResetCounts(agentTree);
    BracketShape(r, before, RunAgent(request), after);
  }

  /** A session's shape brackets its one agent run between exactly one hard reset on each side. */
  lemma BracketShape(r: seq<Event>, before: seq<Event>, run: Event, after: seq<Event>)
    requires forall e :: e in r ==> e.RunPov?
    requires forall e :: e in before ==> e.Reset?
    requires forall e :: e in after ==> e.Reset?
    requires run.RunAgent?
    requires CountWhere(before, IsHardReset) == 1 && CountWhere(after, IsHardReset) == 1
    ensures var t := r + before + [run] + after;
            && CountWhere(t, IsAgentRun) == 1
            && (exists k :: 0 <= k < |t| && t[k] == run
                            && CountWhere(t[..k], IsHardReset) == 1 && CountWhere(t[k + 1..], IsHardReset) == 1)
            && forall i, j :: 0 <= i < |t| && 0 <= j < |t| && t[i].RunPov? && t[j].Reset? ==> i < j
  {
    var t := r + before + [run] + after;
    BracketCounts(r, before, run, after);
    BracketOrder(r, before, run, after);
    var k := |r| + |before|;
    assert t[..k] == r + before;
    assert t[k + 1..] == after;
    assert t[k] == run;
  }

  /** A session consists of sidecar calls, reset steps, and its one agent run. */
  lemma SessionEvents(povPaths: seq<Path>, harness: string, builder: string, sidecar: Path -> SidecarRun,
                      sourceTree: seq<RelPath>, request: AgentRequest, agentTree: seq<RelPath>)
    ensures forall e :: e in SessionTrace(povPaths, harness, builder, sidecar, sourceTree, request, agentTree) ==>
              e.RunPov? || e.Reset? || e == RunAgent(request)
  {
    ReproductionOnlyRunsPovs(povPaths, harness, builder, sidecar);
  }

  lemma ReproductionSnoc(povPaths: seq<Path>, i: nat, harness: string, builder: string, sidecar: Path -> SidecarRun)
    requires i < |povPaths|
    ensures var r := ReproduceCrash(harness, builder, povPaths[i], sidecar(povPaths[i]));
            && CrashPairs(povPaths[..i + 1], harness, builder, sidecar)
               == CrashPairs(povPaths[..i], harness, builder, sidecar) + [(povPaths[i], r.report)]
            && ReproductionTrace(povPaths[..i + 1], harness, builder, sidecar)
               == ReproductionTrace(povPaths[..i], harness, builder, sidecar) + RunPovs(r.requests)
  {
    CrashPairsSnoc(povPaths, i, harness, builder, sidecar);
    assert povPaths[..i + 1][..i] == povPaths[..i];
  }

  lemma CrashPairsSnoc(povPaths: seq<Path>, i: nat, harness: string, builder: string, sidecar: Path -> SidecarRun)
    requires i < |povPaths|
    ensures CrashPairs(povPaths[..i + 1], harness, builder, sidecar)
            == CrashPairs(povPaths[..i], harness, builder, sidecar)
               + [(povPaths[i], ReproduceCrash(harness, builder, povPaths[i], sidecar(povPaths[i])).report)]
  {
    var a := CrashPairs(povPaths[..i + 1], harness, builder, sidecar);
    var b := CrashPairs(povPaths[..i], harness, builder, sidecar);
    assert forall k :: 0 <= k < i ==> a[k] == b[k];
  }

  /**
   * `process_povs`: reproduce each POV in order, reset the project, run the agent on
   * all of them in one session, reset again; the batch is patched exactly when
   * /patches then holds a `*.diff`, whatever the agent returned.
   */
  method ProcessPovs(povPaths: seq<Path>, sourceDir: Path, cfg: Config, refDiff: Option<string>,
                     sidecar: Path -> SidecarRun, sourceTree: seq<RelPath>, agentTree: seq<RelPath>,
                     agentResult: bool, patchesAfter: set<string>)
    returns (patched: bool, povs: seq<(Path, string)>, trace: seq<Event>)
    ensures povs == CrashPairs(povPaths, cfg.harness, cfg.builderModule, sidecar)
    ensures trace == SessionTrace(povPaths, cfg.harness, cfg.builderModule, sidecar, sourceTree,
                                  AgentRequest(sourceDir, povs, cfg.harness, PatchesDir, AgentWorkDir,
                                               cfg.language, cfg.sanitizer, cfg.builderModule, refDiff),
                                  agentTree)
    ensures patched <==> HasDiff(patchesAfter)
  {
    povs, trace := [], [];
    var i := 0;
    while i < |povPaths|
      invariant 0 <= i <= |povPaths|
      invariant povs == CrashPairs(povPaths[..i], cfg.harness, cfg.builderModule, sidecar)
      invariant trace == ReproductionTrace(povPaths[..i], cfg.harness, cfg.builderModule, sidecar)
    {
      var pov := povPaths[i];
      var reproduction := ReproduceCrash(cfg.harness, cfg.builderModule, pov, sidecar(pov));
      trace := trace + RunPovs(reproduction.requests);
      povs := povs + [(pov, reproduction.report)];
      ReproductionSnoc(povPaths, i, cfg.harness, cfg.builderModule, sidecar);
      i := i + 1;
    }
    assert povPaths[..i] == povPaths;
    var _, before := ResetSource(sourceTree);
    trace := trace + Resets(before);
    var request := AgentRequest(sourceDir, povs, cfg.harness, PatchesDir, AgentWorkDir,
                                cfg.language, cfg.sanitizer, cfg.builderModule, refDiff);
    trace := trace + [RunAgent(request)];
    var _, after := ResetSource(agentTree);
    trace := trace + Resets(after);
    patched := HasDiff(patchesAfter);
  }

  // ---------------------------------------------------------------------------
  // main

  /** `setup_source` found a project with `.git`. */
  predicate SourceFound(w: World) {
    w.sourceDownloaded && ProjectFound(w.sourceEntries)
  }

  /** `main` gets past `init_crs_utils`. */
  predicate Initialised(cfg: Config, w: World) {
    cfg.snapshotImage != "" && w.crsInit.None?
  }

  /** `main` gets past agent setup. */
  predicate SetupCompletes(cfg: Config, w: World) {
    && Initialised(cfg, w)
    && w.povFetch.PovsFetched?
    && SourceFound(w)
    && cfg.agentName in Agents
    && Agents[cfg.agentName] == CopilotCliAgent
  }

  /** `main` reaches `process_povs`. */
  predicate SessionRuns(cfg: Config, w: World) {
    SetupCompletes(cfg, w) && PovFiles(w.povListing) != [] && w.builderLookup.Resolved?
  }

  /** What `main` relies on about a session: one agent run, with the given request, and no flush wait. */
  lemma SessionFacts(povPaths: seq<Path>, harness: string, builder: string, sidecar: Path -> SidecarRun,
                     sourceTree: seq<RelPath>, request: AgentRequest, agentTree: seq<RelPath>, session: seq<Event>)
    requires session == SessionTrace(povPaths, harness, builder, sidecar, sourceTree, request, agentTree)
    ensures CountWhere(session, IsAgentRun) == 1
    ensures forall e :: e in session && e.RunAgent? ==> e == RunAgent(request)
    ensures FlushWait(FlushWaitSeconds) !in session
  {
    SessionBracketsAgent(povPaths, harness, builder, sidecar, sourceTree, request, agentTree);
    SessionEvents(povPaths, harness, builder, sidecar, sourceTree, request, agentTree);
  }

  /** The events `main` records before it looks at the POVs. */
  predicate IsStartUpEvent(e: Event) {
    e.InitCrsUtils? || e.StartSubmitWatcher? || e.FetchPovs? || e.FetchDiffs? || e.DownloadSource? || e.SetupAgent?
  }

  /**
   * The first part of `main`, up to agent setup. It stops with exit 1 on a missing
   * snapshot, a missing source or an unknown agent; with the exception `init_crs_utils`,
   * the POV fetch or the agent's `setup` raises; and otherwise goes on in the project it found.
   */
  method StartUp(cfg: Config, w: World) returns (stop: Option<Termination>, sourceDir: Path, trace: seq<Event>)
    ensures stop.None? <==> SetupCompletes(cfg, w)
    ensures stop == Some(Exit(1)) <==>
              || cfg.snapshotImage == ""
              || (Initialised(cfg, w) && w.povFetch.PovsFetched? && (!SourceFound(w) || cfg.agentName !in Agents))
    ensures stop.Some? && stop.value.Uncaught? <==>
              && cfg.snapshotImage != ""
              && (|| w.crsInit.Some?
                  || (w.crsInit.None? && w.povFetch.PovFetchRaised?)
                  || (w.crsInit.None? && w.povFetch.PovsFetched? && SourceFound(w)
                      && cfg.agentName in Agents && Agents[cfg.agentName] == TemplateAgent))
    ensures cfg.snapshotImage != "" && w.crsInit.Some? ==> stop == Some(Uncaught(w.crsInit.value)) && trace == [InitCrsUtils]
    ensures stop.Some? ==> stop.value == Exit(1) || stop.value.Uncaught?
    ensures stop.None? ==> exists name :: sourceDir == SourceRoot + [name] && Entry(name, Directory(true)) in w.sourceEntries
    ensures cfg.snapshotImage == "" <==> trace == []
    ensures cfg.snapshotImage != "" ==> trace[0] == InitCrsUtils
    ensures Initialised(cfg, w) ==> |trace| >= 3 && trace[..3] == [InitCrsUtils, StartSubmitWatcher(PatchesDir), FetchPovs(PovDir)]
    ensures forall e :: e in trace ==> IsStartUpEvent(e)
  {
    sourceDir := SourceRoot;
    if cfg.snapshotImage == "" {
      return Some(Exit(1)), sourceDir, [];
    }
    trace := [InitCrsUtils];
    if w.crsInit.Some? {
      return Some(Uncaught(w.crsInit.value)), sourceDir, trace;
    }
    trace := trace + [StartSubmitWatcher(PatchesDir), FetchPovs(PovDir)];
    if w.povFetch.PovFetchRaised? {
      return Some(Uncaught(w.povFetch.error)), sourceDir, trace;
    }
    trace := trace + [FetchDiffs(DiffDir), DownloadSource(SourceRoot)];
    var project := SetupSource(w.sourceDownloaded, w.sourceEntries);
    if project.None? {
      return Some(Exit(1)), sourceDir, trace;
    }
    sourceDir := SourceRoot + [project.value];
    if cfg.agentName !in Agents {
      return Some(Exit(1)), sourceDir, trace;
    }
    var agent := Agents[cfg.agentName];
    var setup := SetupConfig(cfg.llmApiUrl, cfg.llmApiKey, Some(w.home + [".copilot"]));
    trace := trace + [SetupAgent(agent, sourceDir, setup)];
    if agent == TemplateAgent {
      return Some(Uncaught(TemplateSetupError)), sourceDir, trace;
    }
    stop := None;
  }

  /** `process_povs` on every POV, then the flush wait when the batch was patched. */
  method RunBatch(cfg: Config, w: World, sourceDir: Path, povFiles: seq<Path>) returns (batch: seq<Event>)
    ensures CountWhere(batch, IsAgentRun) == 1
    ensures forall e :: e in batch && e.RunAgent? ==>
              e.request.povs == CrashPairs(povFiles, cfg.harness, cfg.builderModule, w.sidecar)
    ensures FlushWait(FlushWaitSeconds) in batch <==> HasDiff(w.patchesAfter)
    ensures FlushWait(FlushWaitSeconds) in batch ==> batch[|batch| - 1] == FlushWait(FlushWaitSeconds)
  {
    var patched, povs, session := ProcessPovs(povFiles, sourceDir, cfg, w.refDiffFile, w.sidecar,
                                              w.sourceTree, w.agentTree, w.agentResult, w.patchesAfter);
    var request := AgentRequest(sourceDir, povs, cfg.harness, PatchesDir, AgentWorkDir,
                                cfg.language, cfg.sanitizer, cfg.builderModule, w.refDiffFile);
    SessionFacts(povFiles, cfg.harness, cfg.builderModule, w.sidecar, w.sourceTree, request, w.agentTree, session);
    batch := session;
    if patched {
      CountWhereAppend(batch, [FlushWait(FlushWaitSeconds)], IsAgentRun);
      assert [FlushWait(FlushWaitSeconds)][..0] == [];
      batch := batch + [FlushWait(FlushWaitSeconds)];
    }
  }

  /**
   * The last part of `main`, once there are POVs: look the builder up (exit 1 on a
   * RuntimeError), run the session, and wait for the watcher to flush when it patched.
   */
  method RunSession(cfg: Config, w: World, sourceDir: Path, povFiles: seq<Path>)
    returns (term: Termination, trace: seq<Event>)
    ensures term == Exit(1) <==> w.builderLookup.LookupRuntimeError?
    ensures term == Exit(0) <==> w.builderLookup.Resolved?
    ensures term.Uncaught? <==> w.builderLookup.LookupRaised?
    ensures |trace| >= 1 && trace[0] == ResolveBuilder(cfg.builderModule)
    ensures CountWhere(trace, IsAgentRun) == (if w.builderLookup.Resolved? then 1 else 0)
    ensures forall e :: e in trace && e.RunAgent? ==>
              e.request.povs == CrashPairs(povFiles, cfg.harness, cfg.builderModule, w.sidecar)
    ensures FlushWait(FlushWaitSeconds) in trace <==> w.builderLookup.Resolved? && HasDiff(w.patchesAfter)
    ensures FlushWait(FlushWaitSeconds) in trace ==> trace[|trace| - 1] == FlushWait(FlushWaitSeconds)
  {
    trace := [ResolveBuilder(cfg.builderModule)];
    CountWhereNone(trace, IsAgentRun);
    match w.builderLookup {
      case LookupRuntimeError(_) =>
        return Exit(1), trace;
      case LookupRaised(e) =>
        return Uncaught(e), trace;
      case Resolved(_) =>
    }
    var batch := RunBatch(cfg, w, sourceDir, povFiles);
    CountWhereAppend(trace, batch, IsAgentRun);
    trace := trace + batch;
    term := Exit(0);
  }

  /** The session's events are the only non-start-up events of `main`'s trace. */
  lemma StartUpThenSession(start: seq<Event>, rest: seq<Event>)
    requires forall e :: e in start ==> IsStartUpEvent(e)
    ensures forall e :: e in start + rest && !IsStartUpEvent(e) ==> e in rest
  {
  }

  /**
   * `main`. Exit 1 on a missing snapshot, a missing source, an unknown agent or an
   * unresolvable builder; an uncaught exception where libCRS or the agent's setup raises; exit 0 when there are no POVs, before the builder is looked
   * up; otherwise one agent session, and the 30 s flush wait only when it patched.
   */
  method RunPatcher(cfg: Config, w: World) returns (term: Termination, trace: seq<Event>)
    ensures term == Exit(1) <==>
              || cfg.snapshotImage == ""
              || (Initialised(cfg, w) && w.povFetch.PovsFetched? && (!SourceFound(w) || cfg.agentName !in Agents))
              || (SetupCompletes(cfg, w) && PovFiles(w.povListing) != [] && w.builderLookup.LookupRuntimeError?)
    ensures term == Exit(0) <==> SetupCompletes(cfg, w) && (PovFiles(w.povListing) == [] || w.builderLookup.Resolved?)
    ensures term.Uncaught? <==>
              && cfg.snapshotImage != ""
              && (|| w.crsInit.Some?
                  || (w.crsInit.None? && w.povFetch.PovFetchRaised?)
                  || (w.crsInit.None? && w.povFetch.PovsFetched? && SourceFound(w)
                      && cfg.agentName in Agents && Agents[cfg.agentName] == TemplateAgent)
                  || (SetupCompletes(cfg, w) && PovFiles(w.povListing) != [] && w.builderLookup.LookupRaised?))
    ensures cfg.snapshotImage == "" <==> trace == []
    ensures cfg.snapshotImage != "" ==> trace[0] == InitCrsUtils
    ensures Initialised(cfg, w) ==> |trace| >= 3 && trace[..3] == [InitCrsUtils, StartSubmitWatcher(PatchesDir), FetchPovs(PovDir)]
    ensures ResolveBuilder(cfg.builderModule) in trace <==> SetupCompletes(cfg, w) && PovFiles(w.povListing) != []
    ensures CountWhere(trace, IsAgentRun) == (if SessionRuns(cfg, w) then 1 else 0)
    ensures forall e :: e in trace && e.RunAgent? ==>
              e.request.povs == CrashPairs(PovFiles(w.povListing), cfg.harness, cfg.builderModule, w.sidecar)
    ensures FlushWait(FlushWaitSeconds) in trace <==> SessionRuns(cfg, w) && HasDiff(w.patchesAfter)
    ensures FlushWait(FlushWaitSeconds) in trace ==> trace[|trace| - 1] == FlushWait(FlushWaitSeconds)
  {
    var stop, sourceDir, start := StartUp(cfg, w);
    CountWhereNone(start, IsAgentRun);
    trace := start;
    if stop.Some? {
      return stop.value, trace;
    }
    var povFiles := PovFiles(w.povListing);
    if povFiles == [] {
      return Exit(0), trace;
    }
    var rest;
    term, rest := RunSession(cfg, w, sourceDir, povFiles);
    CountWhereAppend(start, rest, IsAgentRun);
    StartUpThenSession(start, rest);
    trace := start + rest;
    assert trace[..3] == start[..3];
    assert trace[|start|] == ResolveBuilder(cfg.builderModule);
  }
}
