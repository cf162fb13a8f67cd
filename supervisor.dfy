/**
  Turning one line of ffmpeg's output into progress messages
  (processor.py:96-103).
*/
module Progress {
  import opened Wrappers
  import opened Text
  import opened Timestamps
  import opened Messages

  /**
    `int(current / total * 100)` computed exactly: the floor of the percentage.
    It is not clamped, so an elapsed time past the probed length gives more than 100.
  */
  function Percent(elapsed: nat, total: nat): (p: nat)
    requires total > 0
    ensures p * total <= 100 * elapsed < (p + 1) * total
  {
    (100 * elapsed) / total
  }

  /**
    The messages for one output line: for a line with a `time=HH:MM:SS.hh`
    field, the percentage and then the elapsed and total times; for any other
    line, nothing.
  */
  function ProgressMessages(line: string, total: Duration): (r: seq<string>)
    requires total.centis > 0
    ensures r == [] <==> FirstStamp(line, TimeTag).None?
    ensures r != [] ==> |r| == 2 && StartsWith(r[0], ProgressTag) && StartsWith(r[1], TimeInfoTag)
  {
    match FirstStamp(line, TimeTag)
    case None => []
    case Some(t) =>
      var elapsed := Centis(t);
      [ProgressMessage(Percent(elapsed, total.centis)), TimeInfoMessage(FormatTime(elapsed), total.display)]
  }

  /** The progress messages of a run of lines, in order. */
  function ProgressOf(lines: seq<string>, total: Duration): seq<string>
    requires total.centis > 0
    decreases |lines|
  {
    if lines == [] then [] else ProgressMessages(lines[0], total) + ProgressOf(lines[1..], total)
  }

  lemma {:induction false} ProgressOfConcat(a: seq<string>, b: seq<string>, total: Duration)
    requires total.centis > 0
    ensures ProgressOf(a + b, total) == ProgressOf(a, total) + ProgressOf(b, total)
    decreases |a|
  {
    if a == [] {
      assert a + b == b;
    } else {
      assert (a + b)[0] == a[0] && (a + b)[1..] == a[1..] + b;
      ProgressOfConcat(a[1..], b, total);
    }
  }
}

/**
  `run_processing_logic` (processor.py:38-115): validation, probing, building
  the command, launching ffmpeg, reading its output line by line with the
  pause and cancel checks, and reporting how the run ended.  The process, the
  file system and the cancel flag are oracles collected in Env.
*/
module Supervisor {
  import opened Wrappers
  import opened Text
  import opened Timestamps
  import opened Messages
  import opened Command
  import opened Progress

  /** Everything the routine learns from outside itself. */
  datatype Env = Env(
    onWindows: bool,              // sys.platform == "win32"
    exePath: string,              // get_ffmpeg_path()
    exeExists: bool,              // os.path.exists(exePath)
    probe: Option<string>,        // the probe's diagnostic output; None when running it raised
    launchError: Option<string>,  // the text of the exception Popen raised, if it did
    lines: seq<string>,           // the merged output of the process, line by line
    exitCode: int,                // process.returncode after the output ends
    cancelAt: nat -> bool,        // the value of the cancel flag at its k-th reading
    exitsInGrace: bool,           // the process exits within 5 s of terminate()
    timeoutText: string,          // the text of the TimeoutExpired raised otherwise
    outputExists: bool,           // os.path.exists(output_path) after cancelling
    removeError: Option<string>)  // the text of the OSError os.remove raised, if it did

  /** How a run ended. */
  datatype Ending = CompletedRun | FailedRun | CancelledRun | UnreportedExit

  /** The keys read with `params[key]` after the executable has been found. */
  const RequiredKeys: seq<string> := ["video_path", "logo_path", "subtitle_path", "codec"]

  /** The first of the keys that is missing, the one whose KeyError is reported. */
  function FirstMissing(params: Params, keys: seq<string>): (r: Option<string>)
    ensures r.None? <==> forall i :: 0 <= i < |keys| ==> keys[i] in params
    ensures r.Some? ==> r.value in keys && r.value !in params
    ensures r.Some? ==> exists i :: 0 <= i < |keys| && keys[i] == r.value && forall j :: 0 <= j < i ==> keys[j] in params
    decreases |keys|
  {
    if keys == [] then None
    else if keys[0] !in params then Some(keys[0])
    else FirstMissing(params, keys[1..])
  }

  /** `params.get('output_path', '')`. */
  function OutputPath(params: Params): string
  {
    if "output_path" in params then params["output_path"] else ""
  }

  const ZeroClock: string := "00:00:00"

  /** The three messages of a run whose checks and probe succeeded, before the launch is announced. */
  function Announced(total: Duration): seq<string>
  {
    [Probing, TimeInfoMessage(ZeroClock, total.display), Building]
  }

  /** The four messages of a run that reaches the launch. */
  function Preamble(total: Duration): seq<string>
  {
    Announced(total) + [Starting]
  }

  /** The result of reading the output from line k on. */
  datatype ScanResult = ScanResult(msgs: seq<string>, cancelledAt: Option<nat>)

  /** What the loop does with one output line that it reads while not cancelled. */
  function LineReport(total: Duration): (report: string -> seq<string>)
    requires total.centis > 0
  {
    line => ProgressMessages(line, total)
  }

  /**
    Reading lines k.. of the output, each turned into messages by `report`:
    before each line the cancel flag is read (after the pause wait, which
    changes nothing here); a set flag stops the reading before that line is
    handled.
  */
  function Scan(lines: seq<string>, k: nat, cancelAt: nat -> bool, report: string -> seq<string>): (r: ScanResult)
    ensures r.cancelledAt.Some? ==> k <= r.cancelledAt.value < |lines| && cancelAt(r.cancelledAt.value)
    decreases |lines| - k
  {
    if k >= |lines| then ScanResult([], None)
    else if cancelAt(k) then ScanResult([], Some(k))
    else
      var rest := Scan(lines, k + 1, cancelAt, report);
      ScanResult(report(lines[k]) + rest.msgs, rest.cancelledAt)
  }

  /** One uncancelled step of Scan. */
  lemma ScanStep(lines: seq<string>, k: nat, cancelAt: nat -> bool, report: string -> seq<string>)
    requires k < |lines| && !cancelAt(k)
    ensures Scan(lines, k, cancelAt, report).msgs == report(lines[k]) + Scan(lines, k + 1, cancelAt, report).msgs
    ensures Scan(lines, k, cancelAt, report).cancelledAt == Scan(lines, k + 1, cancelAt, report).cancelledAt
  {
  }

  /** The message after `Đang hủy bỏ...`, once terminate() has been called. */
  function CancelOutcome(env: Env): string
  {
    if !env.exitsInGrace then Failure(env.timeoutText)
    else if !env.outputExists then CancelledByUser
    else if env.removeError.None? then CancelledRemoved
    else CancelledNotRemoved(env.removeError.value)
  }

  /** The messages after the output has been read to its end. */
  function ExitOutcome(env: Env, outputPath: string): seq<string>
  {
    if env.exitCode == 0 then [Completed(outputPath)]
    else if !env.cancelAt(|env.lines|) then [Failure(ExitStatus(env.exitCode))]
    else []
  }

  /** The messages from the first output line on, once the process has been started. */
  function AfterLaunch(env: Env, total: Duration, outputPath: string): seq<string>
    requires total.centis > 0
  {
    var scan := Scan(env.lines, 0, env.cancelAt, LineReport(total));
    if scan.cancelledAt.Some? then scan.msgs + [Cancelling, CancelOutcome(env)]
    else scan.msgs + ExitOutcome(env, outputPath)
  }

  /** How a run that started the process ends. */
  function LaunchEnding(env: Env, total: Duration): Ending
    requires total.centis > 0
  {
    if Scan(env.lines, 0, env.cancelAt, LineReport(total)).cancelledAt.Some? then
      if env.exitsInGrace then CancelledRun else FailedRun
    else if env.exitCode == 0 then CompletedRun
    else if !env.cancelAt(|env.lines|) then FailedRun
    else UnreportedExit
  }

  /** A run whose checks and probe succeeded: the options, the probed length and the output path. */
  datatype Launch = Launch(opts: Options, total: Duration, outputPath: string)

  /** The messages up to building the command, and the launch if nothing failed before it. */
  datatype Setup = Setup(msgs: seq<string>, launch: Option<Launch>)

  /** A setup as Prepare leaves it: a launch comes with a positive length, announced by Announced. */
  predicate Ready(setup: Setup)
  {
    setup.launch.Some? ==> setup.launch.value.total.centis > 0 && setup.msgs == Announced(setup.launch.value.total)
  }

  /** The checks in the order the routine makes them; the failure message of the first that fails. */
  function Preflight(params: Params, env: Env): (r: Result<Options, string>)
    ensures r.Ok? ==> ValidateOptions(params) == Ok(r.value)
    ensures r.Ok? ==> forall i :: 0 <= i < |RequiredKeys| ==> RequiredKeys[i] in params
    ensures r.Ok? <==> ValidateOptions(params).Ok? && env.exeExists && FirstMissing(params, RequiredKeys).None?
  {
    match ValidateOptions(params)
    case Err(e) => Err(e)
    case Ok(opts) =>
      if !env.exeExists then Err(NotFound(env.exePath))
      else if FirstMissing(params, RequiredKeys).Some? then Err(MissingKey(FirstMissing(params, RequiredKeys).value))
      else Ok(opts)
  }

  /** The checks and the probe, with the messages they report. */
  function Prepare(params: Params, env: Env): (s: Setup)
    ensures s.launch.Some? ==> Preflight(params, env) == Ok(s.launch.value.opts)
    ensures s.launch.Some? <==> Preflight(params, env).Ok? && ProbeDuration(env.probe).centis > 0
    ensures Ready(s)
  {
    match Preflight(params, env)
    case Err(e) => Setup([Failure(e)], None)
    case Ok(opts) =>
      var total := ProbeDuration(env.probe);
      if total.centis == 0 then Setup([Probing, Failure(DurationUnknown)], None)
      else Setup(Announced(total), Some(Launch(opts, total, OutputPath(params))))
  }

  /** The argument vector built from the parameters once the checks have passed. */
  function CommandFor(params: Params, env: Env, opts: Options): seq<string>
    requires Preflight(params, env).Ok?
  {
    assert RequiredKeys[0] in params && RequiredKeys[1] in params;
    assert RequiredKeys[2] in params && RequiredKeys[3] in params;
    BuildCommand(env.exePath, params["video_path"], params["logo_path"], params["subtitle_path"],
                 params["codec"], OutputPath(params), opts, env.onWindows)
  }

  /** The messages of a run that was set up as `setup` describes. */
  function RunFrom(setup: Setup, env: Env): seq<string>
    requires Ready(setup)
  {
    match setup.launch
    case None => setup.msgs
    case Some(launch) =>
      var started := setup.msgs + [Starting];
      if env.launchError.Some? then started + [Failure(env.launchError.value)]
      else started + AfterLaunch(env, launch.total, launch.outputPath)
  }

  /** How a run that was set up as `setup` describes ends. */
  function EndingFrom(setup: Setup, env: Env): Ending
    requires Ready(setup)
  {
    if setup.launch.None? || env.launchError.Some? then FailedRun
    else LaunchEnding(env, setup.launch.value.total)
  }

  /** The messages `run_processing_logic` passes to the callback, in order. */
  function RunMessages(params: Params, env: Env): seq<string>
  {
    RunFrom(Prepare(params, env), env)
  }

  /** The argument vector of the process the routine starts, if it starts one. */
  function Launched(params: Params, env: Env): Option<seq<string>>
  {
    var setup := Prepare(params, env);
    if setup.launch.None? || env.launchError.Some? then None
    else Some(CommandFor(params, env, setup.launch.value.opts))
  }

  /** How the run ends. */
  function RunEnding(params: Params, env: Env): Ending
  {
    EndingFrom(Prepare(params, env), env)
  }

  /**
    The routine itself.  `msgs` collects what is passed to `status_callback`;
    the ghost `launched` is the argument vector of the process started, if
    any, and `alive` is true while that process has been neither waited for
    nor sent terminate().  Whether it has exited after terminate() is not
    tracked.
  */
  method RunProcessing(params: Params, env: Env) returns (msgs: seq<string>, ghost launched: Option<seq<string>>, ghost alive: bool)
    ensures msgs == RunMessages(params, env)
    ensures launched == Launched(params, env)
    ensures !alive
  {
    launched, alive := None, false;
    var launch;
    msgs, launch := PrepareRun(params, env);
    if launch.None? {
      return;
    }
    var cmd := CommandFor(params, env, launch.value.opts);
    msgs := msgs + [Starting];
    if env.launchError.Some? {
      msgs := msgs + [Failure(env.launchError.value)];
      return;
    }
    launched, alive := Some(cmd), true;
    var rest;
    rest, alive := ReadOutput(env, launch.value.total, launch.value.outputPath);
    msgs := msgs + rest;
  }

  /** The checks and the probe, with the message each step reports. */
  method PrepareRun(params: Params, env: Env) returns (msgs: seq<string>, launch: Option<Launch>)
    ensures msgs == Prepare(params, env).msgs && launch == Prepare(params, env).launch
  {
    var outputPath := OutputPath(params);
    var checked := Preflight(params, env);
    if checked.Err? {
      return [Failure(checked.error)], None;
    }
    msgs := [Probing];
    var total := ProbeDuration(env.probe);
    if total.centis == 0 {
      msgs := msgs + [Failure(DurationUnknown)];
      return msgs, None;
    }
    msgs := msgs + [TimeInfoMessage(ZeroClock, total.display)];
    msgs := msgs + [Building];
    launch := Some(Launch(checked.value, total, outputPath));
  }

  /**
    What happens after the process has been started: the supervision loop,
    then either the cancellation branch or the report of the exit status.
    The ghost `alive` is cleared once the process has been waited for or
    sent terminate(), which every path does; after terminate() the process
    may still be running when the 5-second wait runs out.
  */
  method ReadOutput(env: Env, total: Duration, outputPath: string) returns (msgs: seq<string>, ghost alive: bool)
    requires total.centis > 0
    ensures msgs == AfterLaunch(env, total, outputPath)
    ensures !alive
  {
    alive := true;
    var cancelled;
    msgs, cancelled := ReadLines(env.lines, env.cancelAt, LineReport(total));
    if cancelled {
      var tail := CancelRun(env);
      alive := false;
      msgs := msgs + tail;
    } else {
      alive := false;
      if env.exitCode == 0 {
        msgs := msgs + [Completed(outputPath)];
      } else if !env.cancelAt(|env.lines|) {
        msgs := msgs + [Failure(ExitStatus(env.exitCode))];
      }
    }
  }

  /**
    The supervision loop: before each output line, wait while paused and read
    the cancel flag; stop at the first set flag, otherwise turn the line into
    progress messages.
  */
  method ReadLines(lines: seq<string>, cancelAt: nat -> bool, report: string -> seq<string>)
    returns (msgs: seq<string>, cancelled: bool)
    ensures msgs == Scan(lines, 0, cancelAt, report).msgs
    ensures cancelled <==> Scan(lines, 0, cancelAt, report).cancelledAt.Some?
  {
    ghost var scan := Scan(lines, 0, cancelAt, report);
    msgs, cancelled := [], false;
    var i := 0;
    while i < |lines|
      invariant 0 <= i <= |lines|
      invariant msgs + Scan(lines, i, cancelAt, report).msgs == scan.msgs
      invariant Scan(lines, i, cancelAt, report).cancelledAt == scan.cancelledAt
    {
      // pause_event.wait() blocks here while paused; it changes nothing the model observes.
      if cancelAt(i) {
        assert msgs == scan.msgs;
        cancelled := true;
        return;
      }
      ScanStep(lines, i, cancelAt, report);
      var progress := report(lines[i]);
      ghost var rest := Scan(lines, i + 1, cancelAt, report).msgs;
      assert (msgs + progress) + rest == msgs + (progress + rest);
      msgs := msgs + progress;
      i := i + 1;
    }
  }

  /**
    The cancellation branch of the loop: announce it, terminate the process and
    wait up to five seconds, then delete the partial output if there is one.
  */
  method CancelRun(env: Env) returns (msgs: seq<string>)
    ensures msgs == [Cancelling, CancelOutcome(env)]
  {
    msgs := [Cancelling];
    if !env.exitsInGrace {
      msgs := msgs + [Failure(env.timeoutText)];
    } else if env.outputExists {
      if env.removeError.None? {
        msgs := msgs + [CancelledRemoved];
      } else {
        msgs := msgs + [CancelledNotRemoved(env.removeError.value)];
      }
    } else {
      msgs := msgs + [CancelledByUser];
    }
  }
}
