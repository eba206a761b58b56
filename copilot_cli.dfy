/**
 * The Copilot CLI patching agent (agents/copilot_cli.py): the AGENT_TIMEOUT setting,
 * one-time `setup`, and `run`, which writes the session's instructions, launches the
 * CLI in its own process group and supervises it under the timeout.
 *
 * The process environment, the files written and the commands run are values: `setup`
 * returns the new environment and the host actions, `run` the actions and the
 * supervision events. The CLI process itself is an oracle (`AgentProcess`).
 */
module CopilotCli {
  import opened Text
  import opened Paths

  // ---------------------------------------------------------------------------
  // AGENT_TIMEOUT

  /**
   * The whitespace int() strips from both ends: ASCII \t \n \v \f \r and space, plus
   * the non-ASCII characters str.isspace() accepts. The ASCII separators U+001C..U+001F
   * are isspace() but not stripped: int() rejects them.
   */
  predicate IsPySpace(c: char) {
    || c == ' ' || ('\t' <= c <= '\r')
    || c == '\U{85}' || c == '\U{A0}' || c == '\U{1680}' || ('\U{2000}' <= c <= '\U{200A}')
    || c == '\U{2028}' || c == '\U{2029}' || c == '\U{202F}' || c == '\U{205F}' || c == '\U{3000}'
  }

  function TrimStart(s: string): (r: string)
    ensures |r| <= |s| && r == s[|s| - |r|..]
    ensures r == [] || !IsPySpace(r[0])
    ensures forall k :: 0 <= k < |s| - |r| ==> IsPySpace(s[k])
    ensures DigitCount(r) == DigitCount(s)
  {
    if s != [] && IsPySpace(s[0]) then DigitCountFront(s); TrimStart(s[1..]) else s
  }

  function TrimEnd(s: string): (r: string)
    ensures |r| <= |s| && r == s[..|r|]
    ensures r == [] || !IsPySpace(r[|r| - 1])
    ensures forall k :: |r| <= k < |s| ==> IsPySpace(s[k])
    ensures DigitCount(r) == DigitCount(s)
  {
    if s != [] && IsPySpace(s[|s| - 1]) then TrimEnd(s[..|s| - 1]) else s
  }

  function Strip(s: string): string {
    TrimEnd(TrimStart(s))
  }

  /**
   * CPython's default `sys.get_int_max_str_digits()`: int() refuses a decimal string of
   * more digits than this with ValueError (separators and the sign do not count).
   */
  const MaxStrDigits: nat := 4300

  /** Digits, with single '_' separators only between two digits ("1_000", not "_1", "1_", "1__0"). */
  predicate WellFormedDigits(d: string) {
    && |d| > 0
    && DigitsOrSeparators(d)
    && IsDigit(d[0])
    && IsDigit(d[|d| - 1])
    && forall i :: 0 <= i < |d| - 1 && d[i] == '_' ==> IsDigit(d[i + 1])
  }

  /** Well-formed digits that int() also accepts in length. */
  predicate AcceptedDigits(d: string) {
    WellFormedDigits(d) && DigitCount(d) <= MaxStrDigits
  }

  /** A stripped numeral: an optional sign, then digits. */
  function ParseNumeral(t: string): (r: Option<int>)
    ensures r.Some? ==> 0 < DigitCount(t) <= MaxStrDigits
  {
    if |t| > 0 && (t[0] == '+' || t[0] == '-') then
      if AcceptedDigits(t[1..]) then
        DigitCountFront(t);
        DigitCountFront(t[1..]);
        Some(if t[0] == '-' then -(DigitsValue(t[1..]) as int) else DigitsValue(t[1..]) as int)
      else None
    else if AcceptedDigits(t) then
      DigitCountFront(t);
      Some(DigitsValue(t) as int)
    else None
  }

  /**
   * Python's `int(s)` in base 10; None where it raises ValueError. Only a string holding
   * at least one and at most `MaxStrDigits` digits can be read.
   */
  function ParseInt(s: string): (r: Option<int>)
    ensures r.Some? ==> 0 < DigitCount(s) <= MaxStrDigits
  {
    ParseNumeral(Strip(s))
  }

  /**
   * AGENT_TIMEOUT in seconds, from the raw environment value: unset reads as "0", and
   * a value int() rejects also becomes 0. 0 means no timeout.
   */
  function ParseTimeout(raw: Option<string>): (timeout: int)
    ensures raw.None? ==> timeout == 0
    ensures raw.Some? && ParseInt(raw.value).None? ==> timeout == 0
    ensures raw.Some? && ParseInt(raw.value).Some? ==> timeout == ParseInt(raw.value).value
  {
    assert ParseInt("0") == Some(0) by {
      assert NatToString(0) == "0";
      ParseNatString(0);
    }
    match ParseInt(raw.GetOr("0"))
    case Some(n) => n
    case None => 0
  }

  function Magnitude(n: int): nat {
    if n < 0 then -n else n
  }

  /** Whether int() can read `n` back from its decimal rendering: at most `MaxStrDigits` digits. */
  predicate WithinDigitLimit(n: int) {
    |NatToString(Magnitude(n))| <= MaxStrDigits
  }

  lemma StripUnpadded(s: string)
    requires s != [] && !IsPySpace(s[0]) && !IsPySpace(s[|s| - 1])
    ensures Strip(s) == s
  {
  }

  lemma WellFormedNatString(n: nat)
    ensures WellFormedDigits(NatToString(n))
    ensures DigitCount(NatToString(n)) == |NatToString(n)|
  {
    DigitCountAllDigits(NatToString(n));
  }

  /** A rendered natural number, unsigned or with a minus sign, carries no padding for int() to strip. */
  lemma NumeralsUnpadded(n: nat)
    ensures Strip(NatToString(n)) == NatToString(n)
    ensures Strip("-" + NatToString(n)) == "-" + NatToString(n)
  {
    var d := NatToString(n);
    StripUnpadded(d);
    var s := "-" + d;
    assert s[|s| - 1] == d[|d| - 1];
    StripUnpadded(s);
  }

  lemma ParseNumeralNat(n: nat)
    ensures ParseNumeral(NatToString(n)) == if |NatToString(n)| <= MaxStrDigits then Some(n) else None
    ensures ParseNumeral("-" + NatToString(n)) == if |NatToString(n)| <= MaxStrDigits then Some(-(n as int)) else None
  {
    var d := NatToString(n);
    WellFormedNatString(n);
    DigitsValueOfNatToString(n);
    assert ("-" + d)[1..] == d;
  }

  lemma ParseNatString(n: nat)
    ensures ParseInt(NatToString(n)) == if |NatToString(n)| <= MaxStrDigits then Some(n) else None
  {
    NumeralsUnpadded(n);
    ParseNumeralNat(n);
  }

  lemma ParseNegativeString(n: nat)
    ensures ParseInt("-" + NatToString(n)) == if |NatToString(n)| <= MaxStrDigits then Some(-(n as int)) else None
  {
    NumeralsUnpadded(n);
    ParseNumeralNat(n);
  }

  /**
   * An integer written in decimal is read back as itself when it has at most
   * `MaxStrDigits` digits, and refused when it has more.
   */
  lemma ParseIntRoundTrip(n: int)
    ensures WithinDigitLimit(n) ==> ParseInt(IntToString(n)) == Some(n)
    ensures !WithinDigitLimit(n) ==> ParseInt(IntToString(n)) == None
  {
    var m := Magnitude(n);
    if n < 0 {
      assert IntToString(n) == "-" + NatToString(m);
      ParseNegativeString(m);
      assert -(m as int) == n;
    } else {
      assert IntToString(n) == NatToString(m);
      ParseNatString(m);
    }
  }

  /** An integer setting is honoured exactly, unless it has too many digits for int(): then it reads as 0. */
  lemma TimeoutRoundTrip(n: int)
    ensures WithinDigitLimit(n) ==> ParseTimeout(Some(IntToString(n))) == n
    ensures !WithinDigitLimit(n) ==> ParseTimeout(Some(IntToString(n))) == 0
  {
    ParseIntRoundTrip(n);
  }

  /** A setting without a single digit ("", "abc", "ten") is not an integer and reads as 0. */
  lemma TimeoutWithoutDigitsIsZero(raw: string)
    requires forall i :: 0 <= i < |raw| ==> !IsDigit(raw[i])
    ensures ParseTimeout(Some(raw)) == 0
  {
    assert DigitCount(raw) == 0 by {
      DigitCountNone(raw);
    }
  }

  lemma {:induction false} DigitCountNone(s: string)
    requires forall i :: 0 <= i < |s| ==> !IsDigit(s[i])
    ensures DigitCount(s) == 0
  {
    if s != [] {
      DigitCountNone(s[..|s| - 1]);
    }
  }

  /**
   * The file, group and record separators U+001C..U+001F are whitespace to str.isspace()
   * but not to int(): a timeout padded with one is rejected and reads as 0.
   */
  lemma SeparatorControlsRejected()
    ensures ParseInt("\U{1C}5").None? && ParseInt("5\U{1F}").None?
    ensures ParseTimeout(Some("\U{1C}5")) == 0
  {
    AnySeparatorRejected("\U{1C}5", 0);
    AnySeparatorRejected("5\U{1F}", 1);
  }

  /** A character int() does not strip survives stripping, wherever it stands. */
  lemma StripKeeps(s: string, i: int) returns (j: int)
    requires 0 <= i < |s| && !IsPySpace(s[i])
    ensures 0 <= j < |Strip(s)| && Strip(s)[j] == s[i]
  {
    var front := TrimStart(s);
    var k := i - (|s| - |front|);
    assert 0 <= k < |front| && front[k] == s[i];
    var back := TrimEnd(front);
    assert k < |back|;
    j := k;
  }

  /** A string holding any of U+001C..U+001F, anywhere, is rejected by int(). */
  lemma AnySeparatorRejected(s: string, i: int)
    requires 0 <= i < |s| && '\U{1C}' <= s[i] <= '\U{1F}'
    ensures ParseInt(s).None?
  {
    var j := StripKeeps(s, i);
    var t := Strip(s);
    if |t| > 0 && (t[0] == '+' || t[0] == '-') {
      assert t[1..][j - 1] == s[i];
      assert !DigitsOrSeparators(t[1..]);
    } else {
      assert !DigitsOrSeparators(t);
    }
  }

  /** Whitespace int() strips, on both sides of an unpadded string, leaves its value unchanged. */
  lemma PaddingIgnored(w1: string, s: string, w2: string)
    requires forall k :: 0 <= k < |w1| ==> IsPySpace(w1[k])
    requires forall k :: 0 <= k < |w2| ==> IsPySpace(w2[k])
    requires s == [] || (!IsPySpace(s[0]) && !IsPySpace(s[|s| - 1]))
    ensures ParseInt(w1 + s + w2) == ParseNumeral(s)
  {
    if s == [] {
      var w := w1 + s + w2;
      assert w == w1 + w2 && w + [] == w;
      TrimStartPadding(w, []);
    } else {
      assert w1 + s + w2 == w1 + (s + w2);
      TrimStartPadding(w1, s + w2);
      TrimEndPadding(s, w2);
    }
  }

  lemma {:induction false} TrimStartPadding(w: string, t: string)
    requires forall k :: 0 <= k < |w| ==> IsPySpace(w[k])
    requires t == [] || !IsPySpace(t[0])
    ensures TrimStart(w + t) == t
  {
    if w == [] {
      assert w + t == t;
    } else {
      assert (w + t)[1..] == w[1..] + t;
      TrimStartPadding(w[1..], t);
    }
  }

  lemma {:induction false} TrimEndPadding(t: string, w: string)
    requires forall k :: 0 <= k < |w| ==> IsPySpace(w[k])
    requires t != [] && !IsPySpace(t[|t| - 1])
    ensures TrimEnd(t + w) == t
  {
    if w == [] {
      assert t + w == t;
    } else {
      assert (t + w)[..|t + w| - 1] == t + w[..|w| - 1];
      TrimEndPadding(t, w[..|w| - 1]);
    }
  }

  /** The bound `proc.wait` gets: `AGENT_TIMEOUT or None`, so 0 waits without limit. */
  function WaitBound(timeout: int): (bound: Option<int>)
    ensures bound.None? <==> timeout == 0
  {
    if timeout == 0 then None else Some(timeout)
  }

  // ---------------------------------------------------------------------------
  // Host actions

  /** The content of `config.json`; its JSON text is not modelled. */
  datatype CopilotConfig = CopilotConfig(model: string, baseUrl: string)

  /** The named arguments AGENTS.md is formatted with; the template text is not modelled. */
  datatype AgentsMd = AgentsMd(
    language: string, sanitizer: string, workDir: Path, harness: string, patchesDir: Path,
    povList: string, povCount: nat, builder: string, diffSection: string)

  datatype FileContent = PlainText(text: string) | ConfigJson(config: CopilotConfig) | Instructions(md: AgentsMd)

  datatype HostAction =
    | MakeDirs(dir: Path)
    | WriteFile(path: Path, content: FileContent)
    | Chmod(path: Path, mode: nat)
    | RunCommand(argv: seq<string>)

  // ---------------------------------------------------------------------------
  // setup

  const SandboxVar: string := "IS_SANDBOX"
  const TokenVars: set<string> := {"COPILOT_GITHUB_TOKEN", "GH_TOKEN", "GITHUB_TOKEN"}
  /** 0o600 */
  const ConfigFileMode: nat := 384
  const GlobalGitignore: string := "AGENTS.md\n"

  /** The settings `setup` receives from the controller; copilot_home may be absent. */
  datatype SetupConfig = SetupConfig(llmApiUrl: string, llmApiKey: string, copilotHome: Option<Path>)

  /** Both the LLM URL and key are set (non-empty). */
  predicate HasCredentials(cfg: SetupConfig) {
    cfg.llmApiUrl != "" && cfg.llmApiKey != ""
  }

  /**
   * `setup`: IS_SANDBOX is always "1"; the three token variables, `config.json` and
   * its 0o600 mode only when both URL and key are set; the global gitignore always
   * holds exactly "AGENTS.md\n" and is registered with git. No other variable changes.
   */
  method Setup(env: map<string, string>, cfg: SetupConfig, model: string, home: Path)
    returns (env': map<string, string>, actions: seq<HostAction>)
    ensures SandboxVar in env' && env'[SandboxVar] == "1"
    ensures HasCredentials(cfg) ==> forall v :: v in TokenVars ==> v in env' && env'[v] == cfg.llmApiKey
    ensures env'.Keys == env.Keys + {SandboxVar} + (if HasCredentials(cfg) then TokenVars else {})
    ensures forall k :: k in env && k != SandboxVar && (k !in TokenVars || !HasCredentials(cfg)) ==> env'[k] == env[k]
    ensures var configPath := cfg.copilotHome.GetOr(home + [".copilot"]) + ["config.json"];
            && (WriteFile(configPath, ConfigJson(CopilotConfig(model, cfg.llmApiUrl))) in actions <==> HasCredentials(cfg))
            && (Chmod(configPath, ConfigFileMode) in actions <==> HasCredentials(cfg))
    ensures WriteFile(home + [".gitignore"], PlainText(GlobalGitignore)) in actions
    ensures var copilotHome := cfg.copilotHome.GetOr(home + [".copilot"]);
            var configPath := copilotHome + ["config.json"];
            actions == [MakeDirs(copilotHome)]
                       + (if HasCredentials(cfg)
                          then [WriteFile(configPath, ConfigJson(CopilotConfig(model, cfg.llmApiUrl))), Chmod(configPath, ConfigFileMode)]
                          else [])
                       + [WriteFile(home + [".gitignore"], PlainText(GlobalGitignore)),
                          RunCommand(["git", "config", "--global", "core.excludesFile", Str(home + [".gitignore"])])]
    ensures |actions| >= 3
            && actions[|actions| - 2] == WriteFile(home + [".gitignore"], PlainText(GlobalGitignore))
            && actions[|actions| - 1] == RunCommand(["git", "config", "--global", "core.excludesFile", Str(home + [".gitignore"])])
  {
    var copilotHome := cfg.copilotHome.GetOr(home + [".copilot"]);
    actions := [MakeDirs(copilotHome)];
    env' := env[SandboxVar := "1"];
    if cfg.llmApiUrl != "" && cfg.llmApiKey != "" {
      env' := env'["COPILOT_GITHUB_TOKEN" := cfg.llmApiKey];
      env' := env'["GH_TOKEN" := cfg.llmApiKey];
      env' := env'["GITHUB_TOKEN" := cfg.llmApiKey];
      var configPath := copilotHome + ["config.json"];
      actions := actions + [WriteFile(configPath, ConfigJson(CopilotConfig(model, cfg.llmApiUrl))),
                            Chmod(configPath, ConfigFileMode)];
    }
    var gitignore := home + [".gitignore"];
    actions := actions + [WriteFile(gitignore, PlainText(GlobalGitignore)),
                          RunCommand(["git", "config", "--global", "core.excludesFile", Str(gitignore)])];
  }

  // ---------------------------------------------------------------------------
  // Supervising the CLI process

  datatype Signal = SIGTERM | SIGKILL

  /** What `os.killpg` did. */
  datatype SignalResult =
    | Delivered
    | GroupGone                    // ProcessLookupError: tolerated
    | SignalFailed(error: string)  // any other OSError: escapes to run's handler

  /** How the launched CLI behaves; the model's stand-in for the real process. */
  datatype AgentProcess = AgentProcess(
    launchError: Option<string>,  // Popen (or opening a log file) raised this
    exitsInTime: bool,            // exits before a bounded wait's deadline
    term: SignalResult,           // what killpg(SIGTERM) does
    kill: SignalResult,           // what killpg(SIGKILL) does
    exitCode: int)

  datatype ProcEvent =
    | Spawn(argv: seq<string>, cwd: Path)   // in a new session: its own process group
    | SpawnFailed(error: string)
    | WaitExited(bound: Option<int>)        // proc.wait returned: the process was reaped
    | WaitTimedOut(limit: int)              // proc.wait raised TimeoutExpired
    | SignalGroup(signal: Signal, result: SignalResult)
    | Grace(seconds: nat)                   // time.sleep between TERM and KILL
    | WaitRaised(error: string)             // proc.wait raised something other than TimeoutExpired

  /** Seconds `run` sleeps between SIGTERM and SIGKILL. */
  const GraceSeconds: nat := 2

  /**
   * 2**1024 - 2**970: the least magnitude of an int that Python cannot convert to a
   * float (it would round to 2**1024, beyond the largest double), so `time() + timeout`
   * inside `proc.wait` raises OverflowError from this bound on.
   */
  const FloatOverflowBound: int :=
    179769313486231580793728971405303415079934132710037826936173778980444968292764750946649017977587207096330286416692887910946555547851940402630657488671505820681908902000708383676273854845817711531764475730270069855571366959622842914819860834936475292719074168444365510704342711559699508093042880177904174497792

  /** The message of the OverflowError int-to-float conversion raises. */
  const FloatOverflowMessage: string := "int too large to convert to float"

  /** Whether `proc.wait(timeout=timeout)` raises before waiting at all. */
  predicate WaitOverflows(timeout: int) {
    timeout >= FloatOverflowBound || timeout <= -FloatOverflowBound
  }

  /** Supervision's result: the exit status, or the exception that ends it. */
  datatype Supervision = Finished(returnCode: int) | Raised(error: string)

  /** The abstract states of the agent process as the supervisor sees it. */
  datatype ProcState = NotStarted | Running | Overdue | Terminating | Graced | Doomed | Reaped

  /**
   * The supervisor's state machine: the state after an event, if the event is allowed.
   * Nothing leads back to NotStarted, only a wait reaps, and a failed signal or a
   * raising wait stops the machine.
   */
  function Next(s: ProcState, e: ProcEvent): (r: Option<ProcState>)
    ensures r.Some? ==> r.value != NotStarted
    ensures r == Some(Reaped) ==> e.WaitExited?
    ensures e.SignalGroup? && e.result.SignalFailed? ==> r.None?
    ensures e.WaitRaised? || e.SpawnFailed? ==> r.None?
    ensures e.Grace? && e.seconds != GraceSeconds ==> r.None?
  {
    match (s, e)
    case (NotStarted, Spawn(_, _)) => Some(Running)
    case (Running, WaitExited(_)) => Some(Reaped)
    case (Running, WaitTimedOut(t)) => if t != 0 then Some(Overdue) else None
    case (Overdue, SignalGroup(SIGTERM, Delivered)) => Some(Terminating)
    case (Overdue, SignalGroup(SIGTERM, GroupGone)) => Some(Doomed)
    case (Terminating, Grace(t)) => if t == GraceSeconds then Some(Graced) else None
    case (Graced, SignalGroup(SIGKILL, r)) => if r.SignalFailed? then None else Some(Doomed)
    case (Doomed, WaitExited(None)) => Some(Reaped)
    case _ => None
  }

  /** The state a sequence of events leads to, if the machine allows every step. */
  function Drive(s: ProcState, events: seq<ProcEvent>): (r: Option<ProcState>)
    ensures s == NotStarted ==> (r == Some(NotStarted) <==> events == [])
    ensures events != [] && r == Some(Reaped) ==> events[|events| - 1].WaitExited?
  {
    if events == [] then Some(s)
    else match Drive(s, events[..|events| - 1])
      case Some(s') => Next(s', events[|events| - 1])
      case None => None
  }

  lemma DriveSnoc(s: ProcState, events: seq<ProcEvent>, e: ProcEvent)
    ensures Drive(s, events + [e]) == match Drive(s, events) case Some(t) => Next(t, e) case None => None
  {
    assert (events + [e])[..|events|] == events;
  }

  ghost predicate SignalledTerm(events: seq<ProcEvent>) {
    exists r :: SignalGroup(SIGTERM, r) in events
  }

  ghost predicate TimedOut(events: seq<ProcEvent>) {
    exists t :: WaitTimedOut(t) in events
  }

  /** What the events leading from launch to each state must have included. */
  ghost predicate History(s: ProcState, events: seq<ProcEvent>) {
    match s
    case NotStarted => events == []
    case Running => |events| == 1 && events[0].Spawn?
    case Overdue => TimedOut(events) && !SignalledTerm(events)
    case Terminating | Graced | Doomed => TimedOut(events) && SignalledTerm(events)
    case Reaped =>
      && events != [] && events[|events| - 1].WaitExited?
      && (TimedOut(events) ==> SignalledTerm(events) && events[|events| - 1] == WaitExited(None))
  }

  lemma {:induction false} DriveHistory(events: seq<ProcEvent>, s: ProcState)
    requires Drive(NotStarted, events) == Some(s)
    ensures History(s, events)
  {
    if events != [] {
      var prefix, e := events[..|events| - 1], events[|events| - 1];
      assert events == prefix + [e];
      var p := Drive(NotStarted, prefix).value;
      DriveHistory(prefix, p);
      assert forall x :: x in events <==> x in prefix || x == e;
      if s == Reaped && p == Running {
        assert events == [prefix[0], e];
      }
    }
  }

  /**
   * Whenever the process is reaped after its wait timed out, the group was sent
   * SIGTERM and the last step was an unbounded wait: no timed-out agent is left unreaped.
   */
  lemma TimedOutRunsEndInTermAndWait(events: seq<ProcEvent>)
    requires Drive(NotStarted, events) == Some(Reaped)
    requires TimedOut(events)
    ensures SignalledTerm(events)
    ensures events != [] && events[|events| - 1] == WaitExited(None)
  {
    DriveHistory(events, Reaped);
  }

  /** Driving through two stretches of events is driving through the first, then the second. */
  lemma {:induction false} DriveAppend(s: ProcState, a: seq<ProcEvent>, b: seq<ProcEvent>)
    ensures Drive(s, a + b) == match Drive(s, a) case Some(t) => Drive(t, b) case None => None
  {
    if b == [] {
      assert a + b == a;
    } else {
      var init, e := b[..|b| - 1], b[|b| - 1];
      DriveAppend(s, a, init);
      assert (a + b)[..|a + b| - 1] == a + init;
    }
  }

  /** Both shapes of a kill sequence that signalled without error end in the reaped state. */
  lemma KillSequenceReaps(events: seq<ProcEvent>, term: SignalResult, kill: SignalResult)
    requires term == GroupGone ==> events == [SignalGroup(SIGTERM, term)]
    requires term == Delivered ==> events == [SignalGroup(SIGTERM, term), Grace(GraceSeconds), SignalGroup(SIGKILL, kill)] && !kill.SignalFailed?
    requires !term.SignalFailed?
    ensures Drive(Overdue, events + [WaitExited(None)]) == Some(Reaped)
  {
    var e1 := SignalGroup(SIGTERM, term);
    DriveSnoc(Overdue, [], e1);
    assert [] + [e1] == [e1];
    if term == Delivered {
      var e2, e3 := Grace(GraceSeconds), SignalGroup(SIGKILL, kill);
      DriveSnoc(Overdue, [e1], e2);
      assert [e1] + [e2] == [e1, e2];
      DriveSnoc(Overdue, [e1, e2], e3);
      assert [e1, e2] + [e3] == events;
    }
    DriveSnoc(Overdue, events, WaitExited(None));
  }

  /**
   * The events of the kill sequence: SIGTERM; then, if it was delivered, the grace sleep
   * and SIGKILL; then the unbounded wait, unless a signal failed.
   */
  function KillEvents(term: SignalResult, kill: SignalResult): seq<ProcEvent> {
    match term
    case SignalFailed(_) => [SignalGroup(SIGTERM, term)]
    case GroupGone => [SignalGroup(SIGTERM, term), WaitExited(None)]
    case Delivered =>
      [SignalGroup(SIGTERM, term), Grace(GraceSeconds), SignalGroup(SIGKILL, kill)]
      + (if kill.SignalFailed? then [] else [WaitExited(None)])
  }

  /**
   * How supervision ends (agents/copilot_cli.py:186-207): the launch error; the overflow
   * of a timeout no float holds; the exit code when there is no timeout or the CLI
   * exits in time; otherwise the error of a failed SIGTERM, or of a failed SIGKILL
   * after a delivered SIGTERM, and the exit code when the kill sequence completes.
   */
  function SuperviseOutcome(timeout: int, proc: AgentProcess): Supervision {
    if proc.launchError.Some? then Raised(proc.launchError.value)
    else if timeout != 0 && WaitOverflows(timeout) then Raised(FloatOverflowMessage)
    else if timeout == 0 || proc.exitsInTime then Finished(proc.exitCode)
    else match proc.term
      case SignalFailed(error) => Raised(error)
      case GroupGone => Finished(proc.exitCode)
      case Delivered => if proc.kill.SignalFailed? then Raised(proc.kill.error) else Finished(proc.exitCode)
  }

  /** The events of supervision, case by case as in `SuperviseOutcome`. */
  function SuperviseEvents(argv: seq<string>, cwd: Path, timeout: int, proc: AgentProcess): seq<ProcEvent> {
    if proc.launchError.Some? then [SpawnFailed(proc.launchError.value)]
    else if timeout != 0 && WaitOverflows(timeout) then [Spawn(argv, cwd), WaitRaised(FloatOverflowMessage)]
    else if timeout == 0 || proc.exitsInTime then [Spawn(argv, cwd), WaitExited(WaitBound(timeout))]
    else [Spawn(argv, cwd), WaitTimedOut(timeout)] + KillEvents(proc.term, proc.kill)
  }

  /**
   * Supervision returns normally exactly when its events drive the process to the
   * reaped state: every error leaves the machine stuck, every normal end reaps.
   */
  lemma SupervisionEndsIffReaped(argv: seq<string>, cwd: Path, timeout: int, proc: AgentProcess)
    ensures SuperviseOutcome(timeout, proc).Finished? <==> Drive(NotStarted, SuperviseEvents(argv, cwd, timeout, proc)) == Some(Reaped)
  {
    var events := SuperviseEvents(argv, cwd, timeout, proc);
    if proc.launchError.Some? {
      DriveSnoc(NotStarted, [], events[0]);
      assert [] + [events[0]] == events;
    } else {
      var spawn := Spawn(argv, cwd);
      DriveSnoc(NotStarted, [], spawn);
      assert [] + [spawn] == [spawn];
      DriveSnoc(NotStarted, [spawn], events[1]);
      assert [spawn] + [events[1]] == events[..2];
      if !(timeout != 0 && WaitOverflows(timeout)) && !(timeout == 0 || proc.exitsInTime) {
        var tail := KillEvents(proc.term, proc.kill);
        assert events == events[..2] + tail;
        DriveAppend(NotStarted, events[..2], tail);
        KillEventsDrive(proc.term, proc.kill);
      } else {
        assert events == events[..2];
      }
    }
  }

  /** The kill sequence reaps the process exactly when no signal fails. */
  lemma KillEventsDrive(term: SignalResult, kill: SignalResult)
    ensures Drive(Overdue, KillEvents(term, kill)) == Some(Reaped)
            <==> !term.SignalFailed? && !(term == Delivered && kill.SignalFailed?)
  {
    var e1 := SignalGroup(SIGTERM, term);
    DriveSnoc(Overdue, [], e1);
    assert [] + [e1] == [e1];
    if term == Delivered {
      var e2, e3 := Grace(GraceSeconds), SignalGroup(SIGKILL, kill);
      DriveSnoc(Overdue, [e1], e2);
      assert [e1] + [e2] == [e1, e2];
      DriveSnoc(Overdue, [e1, e2], e3);
      assert [e1, e2] + [e3] == [e1, e2, e3];
      if !kill.SignalFailed? {
        DriveSnoc(Overdue, [e1, e2, e3], WaitExited(None));
        assert [e1, e2, e3] + [WaitExited(None)] == KillEvents(term, kill);
      } else {
        assert [e1, e2, e3] == KillEvents(term, kill);
      }
    } else if term == GroupGone {
      DriveSnoc(Overdue, [e1], WaitExited(None));
      assert [e1] + [WaitExited(None)] == KillEvents(term, kill);
    }
  }

  /**
   * The kill sequence after the wait timed out: SIGTERM to the group, 2 s of grace,
   * SIGKILL, then an unbounded wait; a group already gone skips straight to the wait,
   * and any other failure to signal ends supervision with that error.
   */
  method KillGroup(proc: AgentProcess) returns (error: Option<string>, events: seq<ProcEvent>)
    ensures |events| >= 1 && events[0] == SignalGroup(SIGTERM, proc.term)
    ensures proc.term.SignalFailed? ==> events == [SignalGroup(SIGTERM, proc.term)]
    ensures proc.term == GroupGone ==> events == [SignalGroup(SIGTERM, GroupGone), WaitExited(None)]
    ensures proc.term == Delivered ==>
              && |events| >= 3
              && events[..3] == [SignalGroup(SIGTERM, Delivered), Grace(GraceSeconds), SignalGroup(SIGKILL, proc.kill)]
              && events[3..] == (if proc.kill.SignalFailed? then [] else [WaitExited(None)])
    ensures error.None? <==> !proc.term.SignalFailed? && !(proc.term == Delivered && proc.kill.SignalFailed?)
    ensures error.Some? ==> error.value == (if proc.term.SignalFailed? then proc.term.error else proc.kill.error)
    ensures error.None? ==> Drive(Overdue, events) == Some(Reaped)
    ensures forall e :: e in events ==> !e.WaitTimedOut?
    ensures events == KillEvents(proc.term, proc.kill)
  {
    events := [SignalGroup(SIGTERM, proc.term)];
    if proc.term.SignalFailed? {
      return Some(proc.term.error), events;
    }
    if proc.term == Delivered {
      events := events + [Grace(GraceSeconds)];
      events := events + [SignalGroup(SIGKILL, proc.kill)];
      if proc.kill.SignalFailed? {
        return Some(proc.kill.error), events;
      }
    }
    KillSequenceReaps(events, proc.term, proc.kill);
    events := events + [WaitExited(None)];
    error := None;
  }

  /**
   * Launch the CLI and wait for it: with a timeout, on expiry run the kill sequence,
   * which always reaps the process unless signalling fails. Errors become `Raised`.
   * A timeout too large for a float makes the wait itself raise: supervision then
   * ends at once and the CLI is left running, unsignalled and unreaped.
   */
  method Supervise(argv: seq<string>, cwd: Path, timeout: int, proc: AgentProcess)
    returns (result: Supervision, events: seq<ProcEvent>)
    ensures proc.launchError.Some? ==> result == Raised(proc.launchError.value) && events == [SpawnFailed(proc.launchError.value)]
    ensures proc.launchError.None? ==>
              && |events| >= 2 && events[0] == Spawn(argv, cwd)
              && (|| events[1] == WaitExited(WaitBound(timeout))
                  || events[1] == WaitTimedOut(timeout)
                  || events[1] == WaitRaised(FloatOverflowMessage))
    ensures proc.launchError.None? && timeout != 0 && WaitOverflows(timeout) ==>
              && result == Raised(FloatOverflowMessage)
              && events == [Spawn(argv, cwd), WaitRaised(FloatOverflowMessage)]
              && Drive(NotStarted, events[..1]) == Some(Running)
    ensures result.Finished? ==> result.returnCode == proc.exitCode && Drive(NotStarted, events) == Some(Reaped)
    ensures result.Raised? ==>
              || proc.launchError.Some? || proc.term.SignalFailed? || proc.kill.SignalFailed?
              || (timeout != 0 && WaitOverflows(timeout))
    ensures timeout == 0 ==> forall e :: e in events ==> !e.SignalGroup? && !e.WaitTimedOut?
    ensures (exists t :: WaitTimedOut(t) in events)
            <==> proc.launchError.None? && timeout != 0 && !WaitOverflows(timeout) && !proc.exitsInTime
    ensures result == SuperviseOutcome(timeout, proc)
    ensures events == SuperviseEvents(argv, cwd, timeout, proc)
  {
    if proc.launchError.Some? {
      return Raised(proc.launchError.value), [SpawnFailed(proc.launchError.value)];
    }
    var bound := WaitBound(timeout);
    if bound.Some? && WaitOverflows(timeout) {
      events := [Spawn(argv, cwd), WaitRaised(FloatOverflowMessage)];
      DriveSnoc(NotStarted, [], Spawn(argv, cwd));
      assert events[..1] == [] + [Spawn(argv, cwd)];
      return Raised(FloatOverflowMessage), events;
    }
    if bound.None? || proc.exitsInTime {
      events := [Spawn(argv, cwd), WaitExited(bound)];
      DriveSnoc(NotStarted, [], Spawn(argv, cwd));
      DriveSnoc(NotStarted, [Spawn(argv, cwd)], WaitExited(bound));
      assert [Spawn(argv, cwd)] + [WaitExited(bound)] == events;
      return Finished(proc.exitCode), events;
    }
    var head := [Spawn(argv, cwd), WaitTimedOut(timeout)];
    DriveSnoc(NotStarted, [], Spawn(argv, cwd));
    DriveSnoc(NotStarted, [Spawn(argv, cwd)], WaitTimedOut(timeout));
    assert [Spawn(argv, cwd)] + [WaitTimedOut(timeout)] == head;
    var error, tail := KillGroup(proc);
    events := head + tail;
    assert WaitTimedOut(timeout) in events;
    if error.Some? {
      return Raised(error.value), events;
    }
    DriveAppend(NotStarted, head, tail);
    result := Finished(proc.exitCode);
  }

  // ---------------------------------------------------------------------------
  // run

  function CrashLogPath(workDir: Path, i: nat): Path {
    workDir + ["crash_log_" + NatToString(i) + ".txt"]
  }

  /** Each POV's crash log has a file of its own. */
  lemma CrashLogPathsDistinct(workDir: Path, i: nat, j: nat)
    requires i != j
    ensures CrashLogPath(workDir, i) != CrashLogPath(workDir, j)
  {
    if CrashLogPath(workDir, i) == CrashLogPath(workDir, j) {
      var a, b := CrashLogPath(workDir, i), CrashLogPath(workDir, j);
      assert a[|workDir|] == b[|workDir|];
      FramedEqual("crash_log_", NatToString(i), NatToString(j), ".txt");
      NatToStringInjective(i, j);
    }
  }

  /** A POV and the file its crash log was written to. */
  datatype PovLog = PovLog(pov: Path, crashLog: Path)

  /** One POV's entry in AGENTS.md's POV list: it names the POV, its crash-log file, the harness and the builder. */
  function PovSection(e: PovLog, harness: string, builder: string): (section: string)
    ensures Contains(section, Str(e.pov)) && Contains(section, Str(e.crashLog))
    ensures Contains(section, "--harness " + harness) && Contains(section, "--builder " + builder)
  {
    PovLines(Str(e.pov), Str(e.crashLog), harness, builder)
  }

  const PovMarker: string := "- POV: `"
  const CrashLogMarker: string := "` \U{2014} crash log: `"
  const TestMarker: string := "`\n  Test: `libCRS run-pov "

  /**
   * The two lines of a POV entry, from the rendered paths: the first names the POV and
   * its crash log, the second is the command that replays the POV.
   */
  function PovLines(pov: string, crashLog: string, harness: string, builder: string): (lines: string)
    ensures Contains(lines, pov) && Contains(lines, crashLog)
    ensures Contains(lines, "--harness " + harness) && Contains(lines, "--builder " + builder)
  {
    var s0 := PovMarker;
    var s1 := s0 + pov;
    var s2 := s1 + CrashLogMarker;
    var s3 := s2 + crashLog;
    var s4 := s3 + TestMarker;
    var s5 := s4 + pov;
    var s6 := s5 + " <response_dir> ";
    var s7 := s6 + ("--harness " + harness);
    var s8 := s7 + " --build-id <build_id> ";
    var s9 := s8 + ("--builder " + builder);
    var s10 := s9 + "`";
    ContainsLast(s0, pov);
    ContainsLast(s2, crashLog);
    ContainsLast(s6, "--harness " + harness);
    ContainsLast(s8, "--builder " + builder);
    ContainsExtended(s1, pov, s10);
    ContainsExtended(s3, crashLog, s10);
    ContainsExtended(s7, "--harness " + harness, s10);
    ContainsExtended(s9, "--builder " + builder, s10);
    s10
  }

  const DiffHeading: string :=
    "\n## Reference Diff (Delta Mode)\n\nThis diff shows the code change that introduced the vulnerability:\n\n"
  const FenceOpen: string := "```diff\n"
  const FenceClose: string := "\n```\n"

  /** The delta-mode section: empty without a (non-empty) reference diff, else the diff verbatim in a fence. */
  function DiffSection(refDiff: Option<string>): (section: string)
    ensures section == "" <==> refDiff.None? || refDiff.value == ""
    ensures section != "" ==>
              && StartsWith(section, DiffHeading + FenceOpen)
              && EndsWith(section, FenceClose)
              && |section| == |DiffHeading + FenceOpen| + |refDiff.value| + |FenceClose|
              && section[|DiffHeading + FenceOpen|..|section| - |FenceClose|] == refDiff.value
  {
    if refDiff.Some? && refDiff.value != "" then
      var section := DiffHeading + FenceOpen + refDiff.value + FenceClose;
      assert section[|DiffHeading + FenceOpen|..|section| - |FenceClose|] == refDiff.value;
      section
    else ""
  }

  const PromptLead: string := "Fix the vulnerability. There are "

  const LogGlob: string := "/crash_log_*.txt"

  const CountNoun: string := " POV variant(s) \U{2014} crash logs are in "
  const PromptClose: string := ". See AGENTS.md for tools and POV details."

  function PromptTail(workDir: Path): (tail: string)
    ensures Contains(tail, Str(workDir) + LogGlob)
  {
    var globbed := CountNoun + (Str(workDir) + LogGlob);
    ContainsLast(CountNoun, Str(workDir) + LogGlob);
    ContainsExtended(globbed, Str(workDir) + LogGlob, globbed + PromptClose);
    globbed + PromptClose
  }

  /** The one-line prompt: it opens with the number of POVs and points at the crash-log files by glob. */
  function Prompt(povCount: nat, workDir: Path): (prompt: string)
    ensures StartsWith(prompt, PromptLead + NatToString(povCount))
    ensures Contains(prompt, Str(workDir) + LogGlob)
  {
    ContainsPrefixed(PromptLead + NatToString(povCount), PromptTail(workDir), Str(workDir) + LogGlob);
    PromptLead + NatToString(povCount) + PromptTail(workDir)
  }

  /** The prompt determines the POV count it was built with. */
  lemma PromptDeterminesCount(m: nat, n: nat, workDir: Path)
    requires Prompt(m, workDir) == Prompt(n, workDir)
    ensures m == n
  {
    FramedEqual(PromptLead, NatToString(m), NatToString(n), PromptTail(workDir));
    NatToStringInjective(m, n);
  }

  /** The non-interactive CLI invocation: one prompt, the configured model, every tool allowed. */
  function CopilotCommand(prompt: string, model: string): (argv: seq<string>)
    ensures |argv| == 6 && argv[0] == "copilot" && argv[5] == "--yolo"
    ensures argv[1] == "-p" && argv[2] == prompt && argv[3] == "--model" && argv[4] == model
  {
    ["copilot", "-p", prompt, "--model", model, "--yolo"]
  }

  /** The crash-log files of a session, one per POV, in order. */
  function CrashLogWrites(povs: seq<(Path, string)>, workDir: Path): (writes: seq<HostAction>)
    ensures |writes| == |povs|
    ensures forall i :: 0 <= i < |povs| ==> writes[i] == WriteFile(CrashLogPath(workDir, i), PlainText(povs[i].1))
  {
    seq(|povs|, i requires 0 <= i < |povs| => WriteFile(CrashLogPath(workDir, i), PlainText(povs[i].1)))
  }

  /** The i-th POV with `crash_log_{i}.txt`, for every POV in order. */
  function PovLogs(povs: seq<(Path, string)>, workDir: Path): (entries: seq<PovLog>)
    ensures |entries| == |povs|
    ensures forall i :: 0 <= i < |povs| ==> entries[i] == PovLog(povs[i].0, CrashLogPath(workDir, i))
  {
    seq(|povs|, i requires 0 <= i < |povs| => PovLog(povs[i].0, CrashLogPath(workDir, i)))
  }

  /** The POV sections of AGENTS.md, one per entry, in order. */
  function PovSections(entries: seq<PovLog>, harness: string, builder: string): (sections: seq<string>)
    ensures |sections| == |entries|
    ensures forall i :: 0 <= i < |entries| ==> sections[i] == PovSection(entries[i], harness, builder)
  {
    seq(|entries|, i requires 0 <= i < |entries| => PovSection(entries[i], harness, builder))
  }

  lemma PrefixSnoc(povs: seq<(Path, string)>, i: nat, workDir: Path, harness: string, builder: string)
    requires i < |povs|
    ensures CrashLogWrites(povs[..i + 1], workDir)
            == CrashLogWrites(povs[..i], workDir) + [WriteFile(CrashLogPath(workDir, i), PlainText(povs[i].1))]
    ensures PovLogs(povs[..i + 1], workDir) == PovLogs(povs[..i], workDir) + [PovLog(povs[i].0, CrashLogPath(workDir, i))]
    ensures PovSections(PovLogs(povs[..i + 1], workDir), harness, builder)
            == PovSections(PovLogs(povs[..i], workDir), harness, builder)
               + [PovSection(PovLog(povs[i].0, CrashLogPath(workDir, i)), harness, builder)]
  {
    CrashLogWritesSnoc(povs, i, workDir);
    var entries := PovLogs(povs[..i], workDir);
    var e := PovLog(povs[i].0, CrashLogPath(workDir, i));
    assert PovLogs(povs[..i + 1], workDir) == entries + [e];
    PovSectionsSnoc(entries, e, harness, builder);
  }

  lemma PovSectionsSnoc(entries: seq<PovLog>, e: PovLog, harness: string, builder: string)
    ensures PovSections(entries + [e], harness, builder) == PovSections(entries, harness, builder) + [PovSection(e, harness, builder)]
  {
  }

  lemma CrashLogWritesSnoc(povs: seq<(Path, string)>, i: nat, workDir: Path)
    requires i < |povs|
    ensures CrashLogWrites(povs[..i + 1], workDir)
            == CrashLogWrites(povs[..i], workDir) + [WriteFile(CrashLogPath(workDir, i), PlainText(povs[i].1))]
  {
    var a := CrashLogWrites(povs[..i + 1], workDir);
    var b := CrashLogWrites(povs[..i], workDir);
    assert forall k :: 0 <= k < i ==> a[k] == b[k];
  }

  /** The files under the paths written, after a run of host actions; other actions do not touch file content. */
  function ApplyWrites(files: map<Path, FileContent>, actions: seq<HostAction>): map<Path, FileContent> {
    if actions == [] then files
    else
      var before := ApplyWrites(files, actions[..|actions| - 1]);
      match actions[|actions| - 1]
      case WriteFile(path, content) => before[path := content]
      case _ => before
  }

  function CrashLogPaths(workDir: Path, n: nat): set<Path> {
    set i | 0 <= i < n :: CrashLogPath(workDir, i)
  }

  /**
   * After the crash-log writes of a session, `crash_log_{i}.txt` holds exactly the i-th
   * POV's crash log, no later POV overwrites an earlier one's file, and no other file
   * is created or changed.
   */
  lemma CrashLogFilesHoldLogs(povs: seq<(Path, string)>, workDir: Path, files: map<Path, FileContent>)
    ensures ApplyWrites(files, CrashLogWrites(povs, workDir)).Keys == files.Keys + CrashLogPaths(workDir, |povs|)
    ensures forall i :: 0 <= i < |povs| ==>
              ApplyWrites(files, CrashLogWrites(povs, workDir))[CrashLogPath(workDir, i)] == PlainText(povs[i].1)
    ensures forall p :: p in files && p !in CrashLogPaths(workDir, |povs|) ==>
              ApplyWrites(files, CrashLogWrites(povs, workDir))[p] == files[p]
  {
    var paths, contents := CrashLogPathSeq(workDir, |povs|), Logs(povs);
    CrashLogPathSeqDistinct(workDir, |povs|);
    CrashLogWritesIndexed(povs, workDir);
    ApplyIndexedWrites(files, paths, contents);
    OverwriteDistinct(files, paths, contents);
    assert CrashLogPaths(workDir, |povs|) == set p | p in paths;
  }

  /** `crash_log_0.txt` up to `crash_log_{n-1}.txt` under the work directory. */
  function CrashLogPathSeq(workDir: Path, n: nat): (paths: seq<Path>)
    ensures |paths| == n && forall i :: 0 <= i < n ==> paths[i] == CrashLogPath(workDir, i)
  {
    seq(n, i requires 0 <= i < n => CrashLogPath(workDir, i))
  }

  /** The crash logs as file contents. */
  function Logs(povs: seq<(Path, string)>): (contents: seq<FileContent>)
    ensures |contents| == |povs| && forall i :: 0 <= i < |povs| ==> contents[i] == PlainText(povs[i].1)
  {
    seq(|povs|, i requires 0 <= i < |povs| => PlainText(povs[i].1))
  }

  lemma CrashLogPathSeqDistinct(workDir: Path, n: nat)
    ensures forall i, j :: 0 <= i < j < n ==> CrashLogPathSeq(workDir, n)[i] != CrashLogPathSeq(workDir, n)[j]
  {
    forall i, j | 0 <= i < j < n
      ensures CrashLogPath(workDir, i) != CrashLogPath(workDir, j)
    {
      CrashLogPathsDistinct(workDir, i, j);
    }
  }

  lemma CrashLogWritesIndexed(povs: seq<(Path, string)>, workDir: Path)
    ensures CrashLogWrites(povs, workDir) == IndexedWrites(CrashLogPathSeq(workDir, |povs|), Logs(povs))
  {
  }

  /** The writes of `contents[i]` to `paths[i]`, in order. */
  function IndexedWrites(paths: seq<Path>, contents: seq<FileContent>): (writes: seq<HostAction>)
    requires |paths| == |contents|
    ensures |writes| == |paths|
    ensures forall i :: 0 <= i < |paths| ==> writes[i] == WriteFile(paths[i], contents[i])
  {
    seq(|paths|, i requires 0 <= i < |paths| => WriteFile(paths[i], contents[i]))
  }

  /** `m` with `keys[i]` set to `values[i]`, one after the other. */
  function Overwrite<K, V>(m: map<K, V>, keys: seq<K>, values: seq<V>): map<K, V>
    requires |keys| == |values|
  {
    if keys == [] then m
    else Overwrite(m, keys[..|keys| - 1], values[..|keys| - 1])[keys[|keys| - 1] := values[|keys| - 1]]
  }

  /** Writing distinct keys: each holds its value, and every other key is as it was. */
  lemma {:induction false} OverwriteDistinct<K, V>(m: map<K, V>, keys: seq<K>, values: seq<V>)
    requires |keys| == |values|
    requires forall i, j :: 0 <= i < j < |keys| ==> keys[i] != keys[j]
    ensures Overwrite(m, keys, values).Keys == m.Keys + (set k | k in keys)
    ensures forall i :: 0 <= i < |keys| ==> Overwrite(m, keys, values)[keys[i]] == values[i]
    ensures forall k :: k in m && k !in keys ==> Overwrite(m, keys, values)[k] == m[k]
  {
    if keys != [] {
      var n := |keys| - 1;
      var ks, vs := keys[..n], values[..n];
      OverwriteDistinct(m, ks, vs);
      assert (set k | k in keys) == (set k | k in ks) + {keys[n]};
      forall i | 0 <= i < n
        ensures Overwrite(m, keys, values)[keys[i]] == values[i]
      {
        assert ks[i] == keys[i] && vs[i] == values[i];
      }
      forall k | k in m && k !in keys
        ensures Overwrite(m, keys, values)[k] == m[k]
      {
        assert k !in ks;
      }
    }
  }

  /** Applying a run of writes is overwriting their paths with their contents. */
  lemma {:induction false} ApplyIndexedWrites(files: map<Path, FileContent>, paths: seq<Path>, contents: seq<FileContent>)
    requires |paths| == |contents|
    ensures ApplyWrites(files, IndexedWrites(paths, contents)) == Overwrite(files, paths, contents)
  {
    if paths != [] {
      var n := |paths| - 1;
      ApplyIndexedWrites(files, paths[..n], contents[..n]);
      assert IndexedWrites(paths, contents) == IndexedWrites(paths[..n], contents[..n]) + [WriteFile(paths[n], contents[n])];
      ApplyWritesSnoc(files, IndexedWrites(paths[..n], contents[..n]), paths[n], contents[n]);
    }
  }

  lemma ApplyWritesSnoc(files: map<Path, FileContent>, actions: seq<HostAction>, path: Path, content: FileContent)
    ensures ApplyWrites(files, actions + [WriteFile(path, content)]) == ApplyWrites(files, actions)[path := content]
  {
    assert (actions + [WriteFile(path, content)])[..|actions|] == actions;
  }

  /** The loop of `run`: write the i-th crash log to `crash_log_{i}.txt` and build the i-th POV section. */
  method WriteCrashLogs(povs: seq<(Path, string)>, workDir: Path, harness: string, builder: string)
    returns (writes: seq<HostAction>, sections: seq<string>)
    ensures writes == CrashLogWrites(povs, workDir)
    ensures sections == PovSections(PovLogs(povs, workDir), harness, builder)
  {
    writes, sections := [], [];
    var i := 0;
    while i < |povs|
      invariant 0 <= i <= |povs|
      invariant writes == CrashLogWrites(povs[..i], workDir)
      invariant sections == PovSections(PovLogs(povs[..i], workDir), harness, builder)
    {
      var (pov, crashLog) := povs[i];
      var crashLogPath := CrashLogPath(workDir, i);
      writes := writes + [WriteFile(crashLogPath, PlainText(crashLog))];
      sections := sections + [PovSection(PovLog(pov, crashLogPath), harness, builder)];
      PrefixSnoc(povs, i, workDir, harness, builder);
      i := i + 1;
    }
    assert povs[..i] == povs;
  }

  /**
   * `run`: write `crash_log_{i}.txt` for the i-th POV and one POV section per POV in
   * order, write AGENTS.md, launch the CLI and supervise it. The result is true exactly
   * when supervision raised nothing and `patches_dir` then holds a `*.diff`; the exit
   * code plays no part.
   */
  method Run(sourceDir: Path, povs: seq<(Path, string)>, harness: string, patchesDir: Path, workDir: Path,
             language: string, sanitizer: string, builder: string, refDiff: Option<string>,
             model: string, timeout: int, proc: AgentProcess, patchesAfter: set<string>)
    returns (produced: bool, actions: seq<HostAction>, md: AgentsMd, supervision: Supervision, events: seq<ProcEvent>)
    ensures actions == [MakeDirs(workDir)] + CrashLogWrites(povs, workDir) + [WriteFile(sourceDir + ["AGENTS.md"], Instructions(md))]
    ensures md == AgentsMd(language, sanitizer, workDir, harness, patchesDir,
                           Join(PovSections(PovLogs(povs, workDir), harness, builder), "\n"), |povs|, builder, DiffSection(refDiff))
    ensures proc.launchError.None? ==>
              |events| >= 1 && events[0] == Spawn(CopilotCommand(Prompt(|povs|, workDir), model), sourceDir)
    ensures proc.launchError.Some? ==> supervision == Raised(proc.launchError.value)
    ensures supervision.Finished? ==> supervision.returnCode == proc.exitCode && Drive(NotStarted, events) == Some(Reaped)
    ensures produced <==> supervision.Finished? && HasDiff(patchesAfter)
    ensures supervision == SuperviseOutcome(timeout, proc)
    ensures events == SuperviseEvents(CopilotCommand(Prompt(|povs|, workDir), model), sourceDir, timeout, proc)
  {
    var writes, sections := WriteCrashLogs(povs, workDir, harness, builder);
    md := AgentsMd(language, sanitizer, workDir, harness, patchesDir, Join(sections, "\n"), |povs|, builder,
                   DiffSection(refDiff));
    actions := [MakeDirs(workDir)] + writes + [WriteFile(sourceDir + ["AGENTS.md"], Instructions(md))];
    supervision, events := Supervise(CopilotCommand(Prompt(|povs|, workDir), model), sourceDir, timeout, proc);
    produced := supervision.Finished? && HasDiff(patchesAfter);
  }
}
