/**
  What every run of `run_processing_logic` (processor.py:38-115) reports:
  the fixed steps before the launch, progress only for lines read before a
  cancel, and exactly one message that ends the run.
*/
module RunFacts {
  import opened Wrappers
  import opened Text
  import opened Timestamps
  import opened Messages
  import opened Command
  import opened Progress
  import opened Supervisor

  /** A message that cannot be mistaken for the end of a run by its first character. */
  lemma HeadNotTerminal(m: string)
    requires |m| > 0 && m[0] != 'L' && m[0] != '4' && m[0] != 'Đ'
    ensures !IsTerminal(m)
  {
    assert FailureHead[0] == 'L' && CompletedHead[0] == '4' && CancelledHead[0] == 'Đ';
    assert m[..1] != FailureHead[..1] && m[..1] != CompletedHead[..1] && m[..1] != CancelledHead[..1];
  }

  lemma PrefixStarts(a: string, b: string)
    ensures StartsWith(a + b, a)
  {
    assert (a + b)[..|a|] == a;
  }

  /** The announcements before the launch and `Đang hủy bỏ...` do not end a run. */
  lemma AnnouncementsNotTerminal()
    ensures !IsTerminal(Probing) && !IsTerminal(Building) && !IsTerminal(Starting)
    ensures !IsTerminal(Cancelling)
    ensures forall a, b :: !IsTerminal(TimeInfoMessage(a, b))
  {
    HeadNotTerminal(Probing);
    HeadNotTerminal(Building);
    HeadNotTerminal(Starting);
    forall a, b ensures !IsTerminal(TimeInfoMessage(a, b)) {
      assert TimeInfoMessage(a, b)[0] == 'T';
      HeadNotTerminal(TimeInfoMessage(a, b));
    }
    assert Cancelling[1] == 'a' && CancelledHead[1] == 'ã';
    assert Cancelling[..2] != CancelledHead[..2];
    assert Cancelling[0] == 'Đ' && FailureHead[0] == 'L' && CompletedHead[0] == '4';
    assert Cancelling[..1] != FailureHead[..1] && Cancelling[..1] != CompletedHead[..1];
  }

  /** None of the four messages before the output is read ends a run. */
  lemma PreambleNotTerminal(total: Duration)
    ensures NoTerminal(Preamble(total))
  {
    AnnouncementsNotTerminal();
    var p := Preamble(total);
    assert p[0] == Probing && p[1] == TimeInfoMessage(ZeroClock, total.display);
    assert p[2] == Building && p[3] == Starting;
  }

  /** Every message that can end a run does. */
  lemma EndingsTerminal(env: Env, outputPath: string)
    ensures forall e :: IsTerminal(Failure(e))
    ensures IsTerminal(Completed(outputPath))
    ensures IsTerminal(CancelOutcome(env))
  {
    forall e ensures IsTerminal(Failure(e)) {
      PrefixStarts(FailureHead, e);
    }
    assert Completed(outputPath) == CompletedHead + ("Hoàn thành!" + " Video đã được " + "lưu tại " + outputPath);
    PrefixStarts(CompletedHead, "Hoàn thành!" + " Video đã được " + "lưu tại " + outputPath);
    assert CancelledRemoved == CancelledHead + (" bỏ và xóa " + "file output.");
    PrefixStarts(CancelledHead, " bỏ và xóa " + "file output.");
    assert CancelledByUser == CancelledHead + (" bỏ bởi " + "người dùng.");
    PrefixStarts(CancelledHead, " bỏ bởi " + "người dùng.");
    if env.removeError.Some? {
      var reason := env.removeError.value;
      assert CancelledNotRemoved(reason) == CancelledHead + (", nhưng không " + "thể xóa file: " + reason);
      PrefixStarts(CancelledHead, ", nhưng không " + "thể xóa file: " + reason);
    }
  }

  /** Each message a progress line produces starts with one of the two protocol tags. */
  lemma {:induction false} ProgressOfTagged(lines: seq<string>, total: Duration)
    requires total.centis > 0
    ensures forall i :: 0 <= i < |ProgressOf(lines, total)| ==>
      StartsWith(ProgressOf(lines, total)[i], ProgressTag) || StartsWith(ProgressOf(lines, total)[i], TimeInfoTag)
    decreases |lines|
  {
    if lines != [] {
      ProgressOfTagged(lines[1..], total);
      TaggedConcat(ProgressMessages(lines[0], total), ProgressOf(lines[1..], total));
    }
  }

  lemma TaggedConcat(a: seq<string>, b: seq<string>)
    requires forall i :: 0 <= i < |a| ==> StartsWith(a[i], ProgressTag) || StartsWith(a[i], TimeInfoTag)
    requires forall i :: 0 <= i < |b| ==> StartsWith(b[i], ProgressTag) || StartsWith(b[i], TimeInfoTag)
    ensures forall i :: 0 <= i < |a + b| ==> StartsWith((a + b)[i], ProgressTag) || StartsWith((a + b)[i], TimeInfoTag)
  {
  }

  /** Progress messages do not end a run. */
  lemma TaggedNotTerminal(m: string)
    requires StartsWith(m, ProgressTag) || StartsWith(m, TimeInfoTag)
    ensures !IsTerminal(m)
  {
    assert ProgressTag[0] == 'P' && TimeInfoTag[0] == 'T';
    if StartsWith(m, ProgressTag) { assert m[0] == ProgressTag[0]; }
    else { assert m[0] == TimeInfoTag[0]; }
    HeadNotTerminal(m);
  }

  /**
    Reading from line k: the lines handled are exactly those before the first
    line at which the cancel flag is set (or all of them), and what they
    produce is their progress messages in order.
  */
  lemma {:induction false} ScanFrom(lines: seq<string>, k: nat, cancelAt: nat -> bool, total: Duration)
    requires total.centis > 0 && k <= |lines|
    ensures var r := Scan(lines, k, cancelAt, LineReport(total));
      var stop := if r.cancelledAt.Some? then r.cancelledAt.value else |lines|;
      && k <= stop <= |lines|
      && r.msgs == ProgressOf(lines[k..stop], total)
      && (forall j :: k <= j < stop ==> !cancelAt(j))
    decreases |lines| - k
  {
    var r := Scan(lines, k, cancelAt, LineReport(total));
    if k == |lines| {
      assert lines[k..k] == [];
    } else if cancelAt(k) {
      assert lines[k..k] == [];
    } else {
      ScanFrom(lines, k + 1, cancelAt, total);
      var rest := Scan(lines, k + 1, cancelAt, LineReport(total));
      var stop := if rest.cancelledAt.Some? then rest.cancelledAt.value else |lines|;
      assert r.msgs == ProgressMessages(lines[k], total) + rest.msgs;
      assert lines[k..stop][0] == lines[k] && lines[k..stop][1..] == lines[k + 1..stop];
    }
  }

  /** The first line at which the cancel flag is read set. */
  predicate FirstCancelAt(env: Env, k: nat)
  {
    k < |env.lines| && env.cancelAt(k) && forall j :: 0 <= j < k ==> !env.cancelAt(j)
  }

  /** Reading the output when the flag is first read set before line k. */
  lemma CancelledOutput(env: Env, total: Duration, outputPath: string, k: nat)
    requires total.centis > 0 && FirstCancelAt(env, k)
    ensures AfterLaunch(env, total, outputPath) == ProgressOf(env.lines[..k], total) + [Cancelling, CancelOutcome(env)]
    ensures LaunchEnding(env, total) == (if env.exitsInGrace then CancelledRun else FailedRun)
  {
    ScanFrom(env.lines, 0, env.cancelAt, total);
    var r := Scan(env.lines, 0, env.cancelAt, LineReport(total));
    var stop := if r.cancelledAt.Some? then r.cancelledAt.value else |env.lines|;
    assert stop <= k by {
      assert env.cancelAt(k);
    }
    assert r.cancelledAt.Some?;
    assert env.cancelAt(r.cancelledAt.value);
    assert r.cancelledAt.value == k;
    assert env.lines[0..k] == env.lines[..k];
  }

  /** Reading the output when the flag is never read set before a line. */
  lemma UncancelledOutput(env: Env, total: Duration, outputPath: string)
    requires total.centis > 0
    requires forall j :: 0 <= j < |env.lines| ==> !env.cancelAt(j)
    ensures AfterLaunch(env, total, outputPath) == ProgressOf(env.lines, total) + ExitOutcome(env, outputPath)
    ensures LaunchEnding(env, total)
         == if env.exitCode == 0 then CompletedRun
            else if !env.cancelAt(|env.lines|) then FailedRun
            else UnreportedExit
  {
    ScanFrom(env.lines, 0, env.cancelAt, total);
    var r := Scan(env.lines, 0, env.cancelAt, LineReport(total));
    assert r.cancelledAt.None?;
    assert env.lines[0..|env.lines|] == env.lines;
  }

  /** A run whose checks and probe succeeded and whose process was started. */
  predicate Started(setup: Setup, env: Env)
  {
    setup.launch.Some? && env.launchError.None?
  }

  /**
    Cancellation takes effect at a line boundary: when the flag is first read
    set before line k, lines before k produce their progress, line k and later
    lines produce nothing, and `Đang hủy bỏ...` is followed by exactly one of
    the outcomes of terminating and cleaning up.
  */
  lemma CancelAtLine(setup: Setup, env: Env, k: nat)
    requires Ready(setup) && Started(setup, env) && FirstCancelAt(env, k)
    ensures var total := setup.launch.value.total;
      RunFrom(setup, env) == Preamble(total) + ProgressOf(env.lines[..k], total) + [Cancelling, CancelOutcome(env)]
    ensures EndingFrom(setup, env) == (if env.exitsInGrace then CancelledRun else FailedRun)
  {
    var total := setup.launch.value.total;
    CancelledOutput(env, total, setup.launch.value.outputPath, k);
  }

  /**
    Without a cancel before any line, every line produces its progress and the
    exit status decides the end: completion for code 0, an error for another
    code unless the flag is set after the loop, and nothing in that last case.
  */
  lemma UncancelledRun(setup: Setup, env: Env)
    requires Ready(setup) && Started(setup, env)
    requires forall j :: 0 <= j < |env.lines| ==> !env.cancelAt(j)
    ensures var launch := setup.launch.value;
      RunFrom(setup, env) == Preamble(launch.total) + ProgressOf(env.lines, launch.total) + ExitOutcome(env, launch.outputPath)
    ensures env.exitCode == 0 ==> EndingFrom(setup, env) == CompletedRun
    ensures env.exitCode != 0 && !env.cancelAt(|env.lines|) ==> EndingFrom(setup, env) == FailedRun
    ensures env.exitCode != 0 && env.cancelAt(|env.lines|) ==> EndingFrom(setup, env) == UnreportedExit
  {
    var launch := setup.launch.value;
    UncancelledOutput(env, launch.total, launch.outputPath);
  }

  /**
    A started run first announces the probe, reports the zero elapsed time
    against the probed length, then announces building and starting.
  */
  lemma StartedAnnouncements(setup: Setup, env: Env)
    requires Ready(setup) && setup.launch.Some?
    ensures var total := setup.launch.value.total;
      RunFrom(setup, env)[..4] == [Probing, TimeInfoMessage("00:00:00", total.display), Building, Starting]
  {
    var total := setup.launch.value.total;
    var rest := if env.launchError.Some? then [Failure(env.launchError.value)]
                else AfterLaunch(env, total, setup.launch.value.outputPath);
    assert RunFrom(setup, env) == Preamble(total) + rest;
    assert (Preamble(total) + rest)[..4] == Preamble(total);
  }

  /** No message of a sequence ends a run. */
  predicate NoTerminal(msgs: seq<string>)
  {
    forall i :: 0 <= i < |msgs| ==> !IsTerminal(msgs[i])
  }

  /** Exactly one message ends the run, and it is the last one. */
  predicate EndsOnce(msgs: seq<string>)
  {
    |msgs| > 0 && IsTerminal(msgs[|msgs| - 1]) && NoTerminal(msgs[..|msgs| - 1])
  }

  lemma TaggedSeqNotTerminal(msgs: seq<string>)
    requires forall i :: 0 <= i < |msgs| ==> StartsWith(msgs[i], ProgressTag) || StartsWith(msgs[i], TimeInfoTag)
    ensures NoTerminal(msgs)
  {
    forall i | 0 <= i < |msgs| ensures !IsTerminal(msgs[i]) {
      TaggedNotTerminal(msgs[i]);
    }
  }

  lemma EndsOnceAfter(before: seq<string>, last: string)
    requires NoTerminal(before) && IsTerminal(last)
    ensures EndsOnce(before + [last])
  {
    assert (before + [last])[..|before|] == before;
  }

  lemma NoTerminalConcat(a: seq<string>, b: seq<string>)
    requires NoTerminal(a) && NoTerminal(b)
    ensures NoTerminal(a + b)
  {
    forall i | 0 <= i < |a + b| ensures !IsTerminal((a + b)[i]) {
      if i >= |a| { assert (a + b)[i] == b[i - |a|]; }
    }
  }

  lemma EndsOnceConcat(a: seq<string>, b: seq<string>)
    requires NoTerminal(a) && EndsOnce(b)
    ensures EndsOnce(a + b)
  {
    var c := a + b;
    assert c[|c| - 1] == b[|b| - 1];
    assert c[..|c| - 1] == a + b[..|b| - 1];
    NoTerminalConcat(a, b[..|b| - 1]);
  }

  /** The progress messages produced before the output stops being read never end a run. */
  lemma ScanNotTerminal(env: Env, total: Duration)
    requires total.centis > 0
    ensures NoTerminal(Scan(env.lines, 0, env.cancelAt, LineReport(total)).msgs)
  {
    var r := Scan(env.lines, 0, env.cancelAt, LineReport(total));
    ScanFrom(env.lines, 0, env.cancelAt, total);
    var stop := if r.cancelledAt.Some? then r.cancelledAt.value else |env.lines|;
    ProgressOfTagged(env.lines[0..stop], total);
    TaggedSeqNotTerminal(r.msgs);
  }

  /** Reading the output reports one ending, last, unless the exit goes unreported. */
  lemma {:induction false} OutputEndsOnce(env: Env, total: Duration, outputPath: string)
    requires total.centis > 0
    ensures LaunchEnding(env, total) == UnreportedExit ==> NoTerminal(AfterLaunch(env, total, outputPath))
    ensures LaunchEnding(env, total) != UnreportedExit ==> EndsOnce(AfterLaunch(env, total, outputPath))
  {
    var r := Scan(env.lines, 0, env.cancelAt, LineReport(total));
    ScanNotTerminal(env, total);
    AnnouncementsNotTerminal();
    EndingsTerminal(env, outputPath);
    if r.cancelledAt.Some? {
      assert NoTerminal([Cancelling]);
      NoTerminalConcat(r.msgs, [Cancelling]);
      assert AfterLaunch(env, total, outputPath) == (r.msgs + [Cancelling]) + [CancelOutcome(env)];
      EndsOnceAfter(r.msgs + [Cancelling], CancelOutcome(env));
    } else if env.exitCode == 0 {
      EndsOnceAfter(r.msgs, Completed(outputPath));
    } else if !env.cancelAt(|env.lines|) {
      EndsOnceAfter(r.msgs, Failure(ExitStatus(env.exitCode)));
    } else {
      assert AfterLaunch(env, total, outputPath) == r.msgs + [];
    }
  }

  /** A started run (or one whose start failed) reports one ending, last, unless the exit goes unreported. */
  lemma StartedEndsOnce(setup: Setup, env: Env)
    requires Ready(setup) && setup.launch.Some?
    ensures EndingFrom(setup, env) == UnreportedExit ==> NoTerminal(RunFrom(setup, env))
    ensures EndingFrom(setup, env) != UnreportedExit ==> EndsOnce(RunFrom(setup, env))
  {
    var launch := setup.launch.value;
    PreambleNotTerminal(launch.total);
    if env.launchError.Some? {
      PrefixStarts(FailureHead, env.launchError.value);
      EndsOnceAfter(Preamble(launch.total), Failure(env.launchError.value));
    } else {
      var after := AfterLaunch(env, launch.total, launch.outputPath);
      OutputEndsOnce(env, launch.total, launch.outputPath);
      if LaunchEnding(env, launch.total) == UnreportedExit {
        NoTerminalConcat(Preamble(launch.total), after);
      } else {
        EndsOnceConcat(Preamble(launch.total), after);
      }
    }
  }

  /** A failed check is reported by its one `Lỗi: ` message, and nothing else happens. */
  lemma PreflightFailed(params: Params, env: Env)
    requires Preflight(params, env).Err?
    ensures Prepare(params, env) == Setup([Failure(Preflight(params, env).error)], None)
    ensures EndsOnce(Prepare(params, env).msgs)
  {
    var e := Preflight(params, env).error;
    PrefixStarts(FailureHead, e);
    EndsOnceAfter([], Failure(e));
  }

  /** A length that cannot be determined stops the run right after the probe announcement. */
  lemma UnknownLengthReported(params: Params, env: Env)
    requires Preflight(params, env).Ok? && ProbeDuration(env.probe).centis == 0
    ensures Prepare(params, env) == Setup([Probing, Failure(DurationUnknown)], None)
    ensures EndsOnce(Prepare(params, env).msgs)
  {
    AnnouncementsNotTerminal();
    PrefixStarts(FailureHead, DurationUnknown);
    assert NoTerminal([Probing]);
    EndsOnceAfter([Probing], Failure(DurationUnknown));
  }

  /**
    Every run reports exactly one ending message, and it is its last message,
    except a run whose process exits with a non-zero code while the cancel flag
    is set after the loop: that run reports no ending at all.
  */
  lemma OneEndingPerRun(params: Params, env: Env)
    ensures RunEnding(params, env) == UnreportedExit ==> NoTerminal(RunMessages(params, env))
    ensures RunEnding(params, env) != UnreportedExit ==> EndsOnce(RunMessages(params, env))
  {
    var setup := Prepare(params, env);
    if setup.launch.Some? {
      StartedEndsOnce(setup, env);
    } else if Preflight(params, env).Err? {
      PreflightFailed(params, env);
    } else {
      UnknownLengthReported(params, env);
    }
  }

  /**
    No process is started when a check, the probe or the launch fails; such a
    run ends with a `Lỗi: ` message.
  */
  lemma FailedBeforeLaunch(params: Params, env: Env)
    requires Prepare(params, env).launch.None? || env.launchError.Some?
    ensures Launched(params, env).None?
    ensures RunEnding(params, env) == FailedRun
    ensures var msgs := RunMessages(params, env); |msgs| > 0 && StartsWith(msgs[|msgs| - 1], FailureHead)
  {
    var setup := Prepare(params, env);
    if setup.launch.Some? {
      PrefixStarts(FailureHead, env.launchError.value);
    } else if Preflight(params, env).Err? {
      PreflightFailed(params, env);
      PrefixStarts(FailureHead, Preflight(params, env).error);
    } else {
      UnknownLengthReported(params, env);
      PrefixStarts(FailureHead, DurationUnknown);
    }
  }

  /**
    Any invalid option, whether unparsable, missing, a non-positive width or
    bitrate or a negative margin, ends the run with the one generic message
    before anything else is done.
  */
  lemma InvalidOptionsReported(params: Params, env: Env)
    requires ValidateOptions(params).Err?
    ensures RunMessages(params, env) == [Failure(InvalidOptions)]
    ensures Launched(params, env).None? && RunEnding(params, env) == FailedRun
  {
  }

  /** A missing executable is reported by its path, and nothing is probed. */
  lemma MissingExecutableReported(params: Params, env: Env)
    requires ValidateOptions(params).Ok? && !env.exeExists
    ensures RunMessages(params, env) == [Failure(NotFound(env.exePath))]
    ensures Launched(params, env).None? && RunEnding(params, env) == FailedRun
  {
  }

  /** The process started is the one given the argument vector built from the parameters. */
  lemma LaunchedCommand(params: Params, env: Env)
    ensures Launched(params, env).Some? <==>
      && ValidateOptions(params).Ok?
      && env.exeExists
      && FirstMissing(params, RequiredKeys).None?
      && ProbeDuration(env.probe).centis > 0
      && env.launchError.None?
    ensures Launched(params, env).Some? ==>
      && Preflight(params, env).Ok?
      && Launched(params, env).value == CommandFor(params, env, Preflight(params, env).value)
  {
  }
}
