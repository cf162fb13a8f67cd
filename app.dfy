/**
  The run controls of the window (app.py): the pause and cancel flags the
  worker polls, the numeric field validator, the check that all four paths
  are filled in before a run starts, and the settings merge.
*/
module Controls {
  import opened Wrappers
  import opened Text
  import opened Command
  import opened Supervisor

  /** `is_paused`, whether `pause_event` is set, and `cancel_requested`. */
  datatype Flags = Flags(isPaused: bool, eventSet: bool, cancelRequested: bool)

  /** Paused exactly when the event is cleared: the state pausing and resuming keep. */
  predicate Exact(f: Flags)
  {
    f.eventSet == !f.isPaused
  }

  /** The worker is blocked only while the user has paused. */
  predicate Coherent(f: Flags)
  {
    !f.isPaused ==> f.eventSet
  }

  /** Not paused, event set, no cancel: the state at start-up and at the start of every run. */
  const Idle: Flags := Flags(false, true, false)

  /** `_toggle_pause_resume`: pausing clears the event, resuming sets it. */
  function Toggle(f: Flags): (g: Flags)
    ensures g.isPaused == !f.isPaused && g.cancelRequested == f.cancelRequested
    ensures Exact(g)
  {
    if !f.isPaused then f.(isPaused := true, eventSet := false)
    else f.(isPaused := false, eventSet := true)
  }

  /** `_cancel_processing`: sets the flag, and wakes a paused worker so it can see it. */
  function Cancel(f: Flags): (g: Flags)
    ensures g.cancelRequested && g.isPaused == f.isPaused
    ensures Coherent(f) ==> g.eventSet
  {
    f.(cancelRequested := true, eventSet := if f.isPaused then true else f.eventSet)
  }

  /** Two toggles give back the state toggling started from. */
  lemma ToggleTwice(f: Flags)
    requires Exact(f)
    ensures Toggle(Toggle(f)) == f
  {
    if f.isPaused {
      assert !f.eventSet;
    } else {
      assert f.eventSet;
    }
  }

  /** Cancelling a second time changes nothing. */
  lemma CancelTwice(f: Flags)
    ensures Cancel(Cancel(f)) == Cancel(f)
  {
  }

  /**
    Neither control clears a cancel request; but resuming and pausing again
    after a cancel clears the event once more, so a worker that reaches its
    pause wait then blocks with the cancel pending until the next resume.
  */
  lemma PauseAfterCancel(f: Flags)
    requires f.isPaused
    ensures var g := Toggle(Toggle(Cancel(f)));
            g.cancelRequested && g.isPaused && !g.eventSet
  {
    var c := Cancel(f);
    assert c.isPaused && c.cancelRequested;
    var once := Toggle(c);
    assert !once.isPaused && once.cancelRequested;
  }

  /** `P.isdigit() or P == ""`, with ASCII digits. */
  function ValidateNumericInput(p: string): bool
  {
    p == "" || AllDigits(p)
  }

  /**
    The field accepts a non-empty text exactly when it reads as an integer
    and starts with a digit (no sign), and then reads as its digits' value.
  */
  lemma AcceptedReadsBack(p: string)
    requires p != ""
    ensures ValidateNumericInput(p) <==> ParseInt(p).Some? && IsDigit(p[0])
    ensures ValidateNumericInput(p) ==> ParseInt(p) == Some(DigitsValue(p))
  {
    if ValidateNumericInput(p) {
      DigitsParse(p);
    }
  }

  /** An option field left empty, which the validator lets through, makes the worker report invalid options. */
  lemma EmptyOptionRejected(params: Params, key: string)
    requires key == "logo_width" || key == "margin_top" || key == "margin_right" || key == "bitrate"
    requires key in params && params[key] == ""
    ensures ValidateOptions(params) == Err(InvalidOptions)
  {
    assert ReadOption(params, key) == None;
  }

  const PathKeys: set<string> := {"video_path", "logo_path", "subtitle_path", "output_path"}
  const OptionKeys: set<string> := {"logo_width", "margin_top", "margin_right", "bitrate", "codec"}

  /** The option fields as the window first shows them. */
  const Defaults: map<string, string> :=
    map["logo_width" := "110", "margin_top" := "10", "margin_right" := "10", "bitrate" := "3000", "codec" := "libx264"]

  const EmptyPaths: map<string, string> :=
    map["video_path" := "", "logo_path" := "", "subtitle_path" := "", "output_path" := ""]

  /** The default options pass the worker's validation. */
  lemma DefaultsValid()
    ensures ValidateOptions(Defaults) == Ok(Options(110, 10, 10, 3000))
  {
    assert ParseInt("110") == Some(110) by { DigitsParse("110"); }
    assert ParseInt("10") == Some(10) by { DigitsParse("10"); }
    assert ParseInt("3000") == Some(3000) by {
      DigitsParse("3000");
      assert "3000"[..3] == "300" && "300"[..2] == "30" && "30"[..1] == "3";
      assert DigitsValue("30") == 30;
      assert DigitsValue("300") == 300;
    }
  }

  /** The paths then the options, a later key replacing an earlier one: the `params` a run is given. */
  function RunParams(paths: map<string, string>, options: map<string, string>): (p: Params)
    ensures p.Keys == paths.Keys + options.Keys
    ensures forall k :: k in options ==> p[k] == options[k]
    ensures forall k :: k in paths && k !in options ==> p[k] == paths[k]
  {
    paths + options
  }

  /** No path is empty: the condition under which a run starts. */
  predicate PathsFilled(params: Params)
  {
    forall k :: k in PathKeys ==> k in params && params[k] != ""
  }

  /**
    A run the window starts finds every key the worker reads: the worker
    never reports a KeyError, and writes to the output path the user gave.
  */
  lemma StartedRunHasKeys(paths: map<string, string>, options: map<string, string>)
    requires paths.Keys == PathKeys && options.Keys == OptionKeys
    requires PathsFilled(RunParams(paths, options))
    ensures FirstMissing(RunParams(paths, options), RequiredKeys).None?
    ensures OutputPath(RunParams(paths, options)) == paths["output_path"] != ""
  {
    var p := RunParams(paths, options);
    assert "output_path" in PathKeys && "output_path" !in OptionKeys;
    assert "video_path" in p && "logo_path" in p && "subtitle_path" in p;
    assert "codec" in OptionKeys;
    assert forall i :: 0 <= i < |RequiredKeys| ==> RequiredKeys[i] in p;
  }

  /**
    The options after a settings file is read: only keys the window already
    has are taken from the file, and the others are ignored.
  */
  function MergeSettings(options: map<string, string>, loaded: map<string, string>): (r: map<string, string>)
    ensures r.Keys == options.Keys
    ensures forall k :: k in options && k in loaded ==> r[k] == loaded[k]
    ensures forall k :: k in options && k !in loaded ==> r[k] == options[k]
  {
    map k | k in options :: if k in loaded then loaded[k] else options[k]
  }

  /** Reading the same settings twice is reading them once. */
  lemma MergeTwice(options: map<string, string>, loaded: map<string, string>)
    ensures MergeSettings(MergeSettings(options, loaded), loaded) == MergeSettings(options, loaded)
  {
    var once := MergeSettings(options, loaded);
    assert forall k :: k in once ==> MergeSettings(once, loaded)[k] == once[k];
  }

  /** Logged at INFO once the widgets exist. */
  const ReadyNote: string := "Ứng dụng đã sẵn sàng."
  const PausedNote: string := "Quá trình xử lý " + "đã tạm dừng."
  const ResumedNote: string := "Quá trình xử lý " + "được tiếp tục."
  const PathsMissing: string := "Lỗi: Vui lòng " + "điền đầy đủ các " + "đường dẫn file."
}

/**
  The window's state as the main thread changes it: the flags shared with the
  worker, the FIFO queue the worker's status callback fills, and what the
  window shows.
*/
module App {
  import opened Wrappers
  import opened Command
  import opened Status
  import opened Window
  import opened Controls

  class VideoApp {
    var isPaused: bool
    var pauseEventSet: bool
    var cancelRequested: bool
    /** Messages posted by the worker and not yet handled. */
    var logQueue: seq<string>
    var display: Display
    var paths: map<string, string>
    var options: map<string, string>
    /** Every message ever posted, and those handled so far. */
    ghost var sent: seq<string>
    ghost var delivered: seq<string>

    function FlagsOf(): Flags
      reads this
    {
      Flags(isPaused, pauseEventSet, cancelRequested)
    }

    /**
      The queue holds exactly the posted messages not yet handled, in the
      order they were posted; the flags are coherent; the path and option
      fields are the window's.
    */
    ghost predicate Valid()
      reads this
    {
      && delivered + logQueue == sent
      && Coherent(FlagsOf())
      && paths.Keys == PathKeys
      && options.Keys == OptionKeys
    }

    /**
      The window as `__init__` leaves it before the settings file is read:
      the bar at zero, the idle time label, and the readiness note as the
      only log line.
    */
    constructor ()
      ensures Valid()
      ensures FlagsOf() == Idle && logQueue == [] && sent == [] && delivered == []
      ensures display == Display(0, IdleTimeLabel, [LogEntry(ReadyNote, Info)])
      ensures paths == EmptyPaths && options == Defaults
    {
      isPaused := false;
      pauseEventSet := true;
      cancelRequested := false;
      logQueue := [];
      display := Display(0, IdleTimeLabel, [LogEntry(ReadyNote, Info)]);
      paths := EmptyPaths;
      options := Defaults;
      sent := [];
      delivered := [];
    }

    /** `status_callback`: the worker's message joins the back of the queue. */
    method StatusCallback(m: string)
      requires Valid()
      modifies this
      ensures Valid()
      ensures logQueue == old(logQueue) + [m] && sent == old(sent) + [m]
      ensures delivered == old(delivered) && display == old(display)
      ensures FlagsOf() == old(FlagsOf()) && paths == old(paths) && options == old(options)
    {
      logQueue := logQueue + [m];
      sent := sent + [m];
      assert delivered + logQueue == (delivered + old(logQueue)) + [m];
    }

    /**
      `_process_log_queue`: every queued message is handled, first posted
      first, and the queue is left empty.
    */
    method ProcessLogQueue()
      requires Valid()
      modifies this
      ensures Valid()
      ensures logQueue == [] && delivered == old(delivered) + old(logQueue)
      ensures display == HandleAll(old(display), old(logQueue))
      ensures sent == old(sent) && FlagsOf() == old(FlagsOf())
      ensures paths == old(paths) && options == old(options)
    {
      while logQueue != []
        invariant Valid()
        invariant delivered + logQueue == old(delivered) + old(logQueue)
        invariant HandleAll(display, logQueue) == HandleAll(old(display), old(logQueue))
        invariant sent == old(sent) && FlagsOf() == old(FlagsOf())
        invariant paths == old(paths) && options == old(options)
        decreases |logQueue|
      {
        var m := logQueue[0];
        assert logQueue == [m] + logQueue[1..];
        assert (delivered + [m]) + logQueue[1..] == delivered + logQueue;
        display := Handle(display, m);
        delivered := delivered + [m];
        logQueue := logQueue[1..];
      }
    }

    /** `_toggle_pause_resume`: flips the pause, and logs the change. */
    method TogglePauseResume()
      requires Valid()
      modifies this
      ensures Valid()
      ensures FlagsOf() == Toggle(old(FlagsOf()))
      ensures isPaused ==> display == old(display).(log := old(display.log) + [LogEntry(PausedNote, Warning)])
      ensures !isPaused ==> display == old(display).(log := old(display.log) + [LogEntry(ResumedNote, Info)])
      ensures logQueue == old(logQueue) && sent == old(sent) && delivered == old(delivered)
      ensures paths == old(paths) && options == old(options)
    {
      isPaused := !isPaused;
      if isPaused {
        pauseEventSet := false;
        display := display.(log := display.log + [LogEntry(PausedNote, Warning)]);
      } else {
        pauseEventSet := true;
        display := display.(log := display.log + [LogEntry(ResumedNote, Info)]);
      }
    }

    /** `_cancel_processing`. */
    method CancelProcessing()
      requires Valid()
      modifies this
      ensures Valid()
      ensures FlagsOf() == Cancel(old(FlagsOf()))
      ensures display == old(display) && logQueue == old(logQueue)
      ensures sent == old(sent) && delivered == old(delivered)
      ensures paths == old(paths) && options == old(options)
    {
      cancelRequested := true;
      if isPaused {
        pauseEventSet := true;
      }
    }

    /**
      `start_processing_thread`: clears the log and resets the flags; then,
      when a path is empty, logs one error and starts nothing, and otherwise
      resets the bar and the label and starts the worker on the returned
      parameters.
    */
    method StartProcessing() returns (started: Option<Params>)
      requires Valid()
      modifies this
      ensures Valid()
      ensures FlagsOf() == Idle
      ensures started.Some? <==> PathsFilled(RunParams(paths, options))
      ensures started.Some? ==> started.value == RunParams(paths, options) && display == Display(0, IdleTimeLabel, [])
      ensures started.None? ==> display == old(display).(log := [LogEntry(PathsMissing, Error)])
      ensures logQueue == old(logQueue) && sent == old(sent) && delivered == old(delivered)
      ensures paths == old(paths) && options == old(options)
    {
      display := display.(log := []);
      cancelRequested := false;
      isPaused := false;
      pauseEventSet := true;
      var params := RunParams(paths, options);
      if !PathsFilled(params) {
        display := display.(log := display.log + [LogEntry(PathsMissing, Error)]);
        return None;
      }
      display := display.(progress := 0, timeLabel := IdleTimeLabel);
      return Some(params);
    }

    /** `load_settings`: each key of the file that names an option field sets that field. */
    method LoadSettings(loaded: map<string, string>)
      requires Valid()
      modifies this
      ensures Valid()
      ensures options == MergeSettings(old(options), loaded)
      ensures FlagsOf() == old(FlagsOf()) && display == old(display) && paths == old(paths)
      ensures logQueue == old(logQueue) && sent == old(sent) && delivered == old(delivered)
    {
      var todo := loaded.Keys;
      while todo != {}
        invariant Valid()
        invariant todo <= loaded.Keys
        invariant options.Keys == old(options).Keys
        invariant forall k :: k in options ==> options[k] == (if k in loaded && k !in todo then loaded[k] else old(options)[k])
        invariant FlagsOf() == old(FlagsOf()) && display == old(display) && paths == old(paths)
        invariant logQueue == old(logQueue) && sent == old(sent) && delivered == old(delivered)
        decreases todo
      {
        var k :| k in todo;
        if k in options {
          options := options[k := loaded[k]];
        }
        todo := todo - {k};
      }
    }
  }
}
