/**
 * Crash reproduction (patcher.py, `reproduce_crash`): ask the builder sidecar to run
 * one POV against the unpatched ("base") build and render what it left behind as a
 * single crash report. The sidecar is an oracle: what it did for this POV is a value.
 */
module CrashReproduction {
  import opened Text
  import opened Paths

  /** Crash logs keep at most this many characters, from the tail. */
  const MaxCrashLogChars: nat := 16384
  const TruncationMarker: string := "[...truncated...]\n"
  const NoHarnessReport: string := "No harness configured"
  const NoOutputReport: string := "No crash output captured"
  const ErrorReportPrefix: string := "Error reproducing crash: "

  /** The build the sidecar runs POVs against: the unpatched one. */
  const BaseBuild: string := "base"
  const WorkDir: Path := ["work"]

  /** One `run_pov` call to the builder sidecar. */
  datatype RunPovRequest = RunPovRequest(pov: Path, harness: string, buildId: string, responseDir: Path, builder: string)

  /** What `pov_stderr.log` in the response directory turned out to be. */
  datatype StderrLog =
    | Missing
    | Unreadable(error: string)   // read_text raised; the message is str(exception)
    | Captured(text: string)

  /** What the sidecar did when asked to run one POV. */
  datatype SidecarRun =
    | RunPovRaised(error: string)  // run_pov raised; the message is str(exception)
    | RunPovReturned(exitCode: int, stderr: StderrLog)

  /** The sidecar requests made and the crash report produced. */
  datatype Reproduction = Reproduction(requests: seq<RunPovRequest>, report: string)

  /** /work/pov-{stem}/reproduce */
  function ResponseDir(pov: Path): (dir: Path)
    ensures |dir| == |WorkDir| + 2 && dir[..|WorkDir|] == WorkDir && dir[|WorkDir| + 1] == "reproduce"
    ensures StartsWith(dir[|WorkDir|], "pov-")
  {
    WorkDir + ["pov-" + Stem(Name(pov)), "reproduce"]
  }

  /**
   * Two POVs share a response directory exactly when their names have the same stem:
   * `a.bin` and `a.txt`, or two `a.bin` in different subdirectories, reproduce into
   * the same place.
   */
  lemma ResponseDirSharedIff(p: Path, q: Path)
    ensures ResponseDir(p) == ResponseDir(q) <==> Stem(Name(p)) == Stem(Name(q))
  {
    if ResponseDir(p) == ResponseDir(q) {
      assert ResponseDir(p)[|WorkDir|] == ResponseDir(q)[|WorkDir|];
      FramedEqual("pov-", Stem(Name(p)), Stem(Name(q)), "");
    }
  }

  /** Tail truncation of a crash log behind a fixed marker. */
  function TruncateTail(log: string): (r: string)
    ensures |r| <= MaxCrashLogChars + |TruncationMarker|
    ensures |log| <= MaxCrashLogChars ==> r == log
    ensures |log| > MaxCrashLogChars ==>
              && StartsWith(r, TruncationMarker)
              && |r| == |TruncationMarker| + MaxCrashLogChars
              && EndsWith(log, r[|TruncationMarker|..])
  {
    if |log| > MaxCrashLogChars then TruncationMarker + log[|log| - MaxCrashLogChars..] else log
  }

  /**
   * The crash report for one POV. With no harness configured the sidecar is never
   * asked; otherwise it is asked once, for the base build, and every failure it
   * reports becomes text: the function is total, nothing escapes to the caller.
   */
  function ReproduceCrash(harness: string, builder: string, pov: Path, run: SidecarRun): (r: Reproduction)
    ensures r.requests == [] <==> harness == ""
    ensures harness == "" ==> r.report == NoHarnessReport
    ensures harness != "" ==>
              r.requests == [RunPovRequest(pov, harness, BaseBuild, ResponseDir(pov), builder)]
    ensures harness != "" && run.RunPovRaised? ==> r.report == ErrorReportPrefix + run.error
    ensures harness != "" && run.RunPovReturned? ==>
              match run.stderr
              case Missing => r.report == NoOutputReport
              case Unreadable(e) => r.report == ErrorReportPrefix + e
              case Captured(log) => r.report == TruncateTail(log)
  {
    if harness == "" then
      Reproduction([], NoHarnessReport)
    else
      var request := RunPovRequest(pov, harness, BaseBuild, ResponseDir(pov), builder);
      match run
      case RunPovRaised(e) => Reproduction([request], ErrorReportPrefix + e)
      case RunPovReturned(_, Missing) => Reproduction([request], NoOutputReport)
      case RunPovReturned(_, Unreadable(e)) => Reproduction([request], ErrorReportPrefix + e)
      case RunPovReturned(_, Captured(log)) => Reproduction([request], TruncateTail(log))
  }

  /**
   * Whatever tail of the log fits the budget survives truncation: the last k
   * characters of the report are the last k characters of the log.
   */
  lemma TruncateKeepsTail(log: string, k: nat)
    requires k <= MaxCrashLogChars && k <= |log|
    ensures EndsWith(TruncateTail(log), log[|log| - k..])
  {
    var r := TruncateTail(log);
    if |log| > MaxCrashLogChars {
      var tail := log[|log| - MaxCrashLogChars..];
      assert r[|r| - k..] == tail[|tail| - k..];
      assert tail[|tail| - k..] == log[|log| - k..];
    }
  }

  /**
   * A truncated report is a fixed point: truncating it again gives it back, because
   * the marker is exactly as long as what the second pass cuts off.
   */
  lemma TruncateIdempotent(log: string)
    ensures TruncateTail(TruncateTail(log)) == TruncateTail(log)
  {
    var r := TruncateTail(log);
    if |log| > MaxCrashLogChars {
      assert r[|r| - MaxCrashLogChars..] == log[|log| - MaxCrashLogChars..];
    }
  }

  /**
   * A captured log is reported unchanged exactly when it fits the budget, or when
   * it already has the shape of a truncated report.
   */
  lemma CapturedLogUnchangedIff(harness: string, builder: string, pov: Path, code: int, log: string)
    requires harness != ""
    ensures ReproduceCrash(harness, builder, pov, RunPovReturned(code, Captured(log))).report == log
            <==> |log| <= MaxCrashLogChars
                 || (|log| == |TruncationMarker| + MaxCrashLogChars && StartsWith(log, TruncationMarker))
  {
    if |log| == |TruncationMarker| + MaxCrashLogChars {
      assert log == log[..|TruncationMarker|] + log[|log| - MaxCrashLogChars..];
    }
  }
}
