/**
  The receiving side of the status protocol (`_handle_status_update`,
  app.py:58-82): a `PROGRESS|n` message moves the progress bar, a
  `TIME_INFO|current|total` message sets the time label, and every other
  message is logged with a level found by substring tests in a fixed order.
*/
module Status {
  import opened Wrappers
  import opened Text
  import opened Messages

  datatype Level = Info | Success | Warning | Error

  /** What one message does to the window. */
  datatype Update =
    | Progress(percent: int)                   // the progress bar is set to percent / 100
    | TimeInfo(current: string, total: string) // the time label shows `current / total`
    | Ignored                                  // a protocol message whose fields do not read
    | Log(text: string, level: Level)          // the message is appended to the log

  const SuccessMarker: string := "Hoàn thành!"
  const ErrorMarker: string := "Lỗi:"
  const WarningMarker: string := "Cảnh báo:"
  const CancelMarker: string := "Đã hủy bỏ"

  /** The level of a logged message: the first marker it contains decides. */
  function Classify(m: string): Level
  {
    if Contains(m, SuccessMarker) then Success
    else if Contains(m, ErrorMarker) then Error
    else if Contains(m, WarningMarker) then Warning
    else if Contains(m, CancelMarker) then Warning
    else Info
  }

  /** `m.split("|")[i]`, None where that raises IndexError. */
  function Field(m: string, i: nat): (r: Option<string>)
    ensures r.Some? ==> '|' !in r.value
  {
    var f := Split(m, '|');
    if i < |f| then Some(f[i]) else None
  }

  /** How `_handle_status_update` reads a message. */
  function Decode(m: string): (u: Update)
    ensures u.Log? <==> !StartsWith(m, ProgressTag) && !StartsWith(m, TimeInfoTag)
    ensures u.Log? ==> u.text == m && u.level == Classify(m)
    ensures u.Progress? <==> StartsWith(m, ProgressTag) && Field(m, 1).Some? && ParseInt(Field(m, 1).value).Some?
    ensures u.TimeInfo? <==> StartsWith(m, TimeInfoTag) && Field(m, 2).Some?
    ensures u.Progress? ==> StartsWith(m, ProgressTag) && Field(m, 1).Some? && ParseInt(Field(m, 1).value) == Some(u.percent)
    ensures u.TimeInfo? ==> StartsWith(m, TimeInfoTag) && Field(m, 1) == Some(u.current) && Field(m, 2) == Some(u.total)
  {
    if StartsWith(m, ProgressTag) then
      match Field(m, 1)
      case None => Ignored
      case Some(f) => if ParseInt(f).Some? then Progress(ParseInt(f).value) else Ignored
    else if StartsWith(m, TimeInfoTag) then
      var f := Split(m, '|');
      if |f| >= 3 then TimeInfo(f[1], f[2]) else Ignored
    else Log(m, Classify(m))
  }

  /** A message made of a tag word, `|` and a tail splits into the word and the tail's fields. */
  lemma TagFields(word: string, tail: string)
    requires '|' !in word
    ensures Split(word + "|" + tail, '|') == [word] + Split(tail, '|')
  {
    assert word + "|" + tail == word + ['|'] + tail;
    SplitFirst(word, '|', tail);
  }

  /** Decoding `PROGRESS|n` as the worker writes it gives back n. */
  lemma DecodeProgress(percent: int)
    ensures Decode(ProgressMessage(percent)) == Progress(percent)
  {
    var digits := IntToString(percent);
    var m := ProgressMessage(percent);
    assert ProgressTag == "PROGRESS" + "|";
    assert m == "PROGRESS" + "|" + digits;
    TagFields("PROGRESS", digits);
    SplitNoSeparator(digits, '|');
    assert StartsWith(m, ProgressTag) by {
      assert m[..|ProgressTag|] == ProgressTag;
    }
  }

  /**
    Decoding `TIME_INFO|current|total` as the worker writes it gives back the
    two texts when neither holds a `|`.
  */
  lemma DecodeTimeInfo(current: string, total: string)
    requires '|' !in current && '|' !in total
    ensures Decode(TimeInfoMessage(current, total)) == TimeInfo(current, total)
  {
    var m := TimeInfoMessage(current, total);
    assert TimeInfoTag == "TIME_INFO" + "|";
    assert m == "TIME_INFO" + "|" + (current + "|" + total);
    TagFields("TIME_INFO", current + "|" + total);
    TagFields(current, total);
    SplitNoSeparator(total, '|');
    assert StartsWith(m, TimeInfoTag) by {
      assert m[..|TimeInfoTag|] == TimeInfoTag;
    }
    assert !StartsWith(m, ProgressTag) by {
      assert m[0] == 'T' && ProgressTag[0] == 'P';
      assert m[..1] != ProgressTag[..1];
    }
  }

  /** Fields after the third are ignored; fewer than three make the message ignored. */
  lemma TimeInfoFieldCount(m: string)
    requires StartsWith(m, TimeInfoTag) && !StartsWith(m, ProgressTag)
    ensures Decode(m).TimeInfo? <==> |Split(m, '|')| >= 3
    ensures Decode(m).Ignored? <==> |Split(m, '|')| < 3
  {
  }

  /**
    A message free of `à`, `ỗ` and `ả` (one letter each of the success, error
    and warning markers) and of the k-th letter of the cancel marker.
  */
  predicate Unmarked(s: string, k: nat)
  {
    k < |CancelMarker| && 'à' !in s && 'ỗ' !in s && 'ả' !in s && CancelMarker[k] !in s
  }

  /** Unmarked text stays unmarked when joined. */
  lemma UnmarkedConcat(a: string, b: string, k: nat)
    requires Unmarked(a, k) && Unmarked(b, k)
    ensures Unmarked(a + b, k)
  {
  }

  /** A string missing a letter of each marker contains none of the markers. */
  lemma UnmarkedHasNoMarker(s: string, k: nat)
    requires Unmarked(s, k)
    ensures !Contains(s, SuccessMarker) && !Contains(s, ErrorMarker)
    ensures !Contains(s, WarningMarker) && !Contains(s, CancelMarker)
  {
    assert SuccessMarker[2] == 'à';
    AbsentCharNotContained(s, SuccessMarker, 2);
    assert ErrorMarker[1] == 'ỗ';
    AbsentCharNotContained(s, ErrorMarker, 1);
    assert WarningMarker[1] == 'ả';
    AbsentCharNotContained(s, WarningMarker, 1);
    AbsentCharNotContained(s, CancelMarker, k);
  }

  /** Text without a marker is logged as INFO. */
  lemma UnmarkedIsInfo(s: string, k: nat)
    requires Unmarked(s, k)
    ensures Classify(s) == Info
  {
    UnmarkedHasNoMarker(s, k);
  }

  /** A successful run's last message is logged as SUCCESS, whatever the output path. */
  lemma CompletedIsSuccess(outputPath: string)
    ensures Classify(Completed(outputPath)) == Success
  {
    var m := Completed(outputPath);
    var rest := " Video đã được " + "lưu tại " + outputPath;
    assert m == CompletedHead + SuccessMarker + rest;
    assert m[5..16] == SuccessMarker;
    ContainsAt(m, SuccessMarker, 5);
  }

  /** A failure is logged as ERROR unless its reason mentions completion. */
  lemma FailureIsError(reason: string)
    requires 'à' !in reason
    ensures Classify(Failure(reason)) == Error
  {
    var m := Failure(reason);
    assert SuccessMarker[2] == 'à';
    assert 'à' !in FailureHead;
    AbsentCharNotContained(m, SuccessMarker, 2);
    assert m[0..4] == ErrorMarker;
    ContainsAt(m, ErrorMarker, 0);
  }

  /**
    Text that holds `Đã hủy bỏ` at its start and lacks `!`, `ỗ` and `ả` is
    logged as WARNING.
  */
  lemma CancelMarkerIsWarning(s: string)
    requires '!' !in s && 'ỗ' !in s && 'ả' !in s
    requires |s| >= 9 && s[0..9] == CancelMarker
    ensures Classify(s) == Warning
  {
    assert SuccessMarker[10] == '!' && ErrorMarker[1] == 'ỗ' && WarningMarker[1] == 'ả';
    AbsentCharNotContained(s, SuccessMarker, 10);
    AbsentCharNotContained(s, ErrorMarker, 1);
    AbsentCharNotContained(s, WarningMarker, 1);
    ContainsAt(s, CancelMarker, 0);
  }

  /** A cancellation that deleted the partial output is logged as WARNING. */
  lemma RemovedIsWarning()
    ensures Classify(CancelledRemoved) == Warning
  {
    assert '!' !in CancelledRemoved && 'ỗ' !in CancelledRemoved && 'ả' !in CancelledRemoved;
    assert CancelledRemoved[0..9] == CancelMarker;
    CancelMarkerIsWarning(CancelledRemoved);
  }

  /** A cancellation with no file to delete is logged as WARNING. */
  lemma ByUserIsWarning()
    ensures Classify(CancelledByUser) == Warning
  {
    assert '!' !in CancelledByUser && 'ỗ' !in CancelledByUser && 'ả' !in CancelledByUser;
    assert CancelledByUser[0..9] == CancelMarker;
    CancelMarkerIsWarning(CancelledByUser);
  }

  /**
    The third outcome, a cancellation whose output could not be deleted, does
    not contain `Đã hủy bỏ` and is logged as INFO when the error text has no
    marker letter.
  */
  lemma UndeletedIsInfo(reason: string)
    requires Unmarked(reason, 8)
    ensures Classify(CancelledNotRemoved(reason)) == Info
  {
    assert CancelMarker[8] == 'ỏ';
    assert Unmarked(CancelledHead, 8);
    assert Unmarked(", nhưng không ", 8);
    assert Unmarked("thể xóa file: ", 8);
    UnmarkedConcat(CancelledHead, ", nhưng không ", 8);
    UnmarkedConcat(CancelledHead + ", nhưng không ", "thể xóa file: ", 8);
    var head := CancelledHead + ", nhưng không " + "thể xóa file: ";
    UnmarkedConcat(head, reason, 8);
    assert CancelledNotRemoved(reason) == head + reason;
    UnmarkedIsInfo(head + reason, 8);
  }

  /**
    The `Đang hủy bỏ...` announcement is not the `Đã hủy bỏ` of an outcome and
    is logged as INFO: it holds the `ỏ` of the cancel marker but not its `ã`.
  */
  lemma CancellingIsInfo()
    ensures Classify(Cancelling) == Info
  {
    assert CancelMarker[1] == 'ã';
    assert Unmarked(Cancelling, 1);
    UnmarkedIsInfo(Cancelling, 1);
  }

  /** The step announcement `1/4` is logged as INFO. */
  lemma ProbingIsInfo()
    ensures Classify(Probing) == Info
  {
    assert CancelMarker[8] == 'ỏ';
    assert Unmarked(Probing, 8);
    UnmarkedIsInfo(Probing, 8);
  }

  /** The step announcement `2/4` is logged as INFO. */
  lemma BuildingIsInfo()
    ensures Classify(Building) == Info
  {
    assert CancelMarker[8] == 'ỏ';
    assert Unmarked(Building, 8);
    UnmarkedIsInfo(Building, 8);
  }

  /** The step announcement `3/4` is logged as INFO. */
  lemma StartingIsInfo()
    ensures Classify(Starting) == Info
  {
    assert CancelMarker[8] == 'ỏ';
    assert Unmarked("3/4: ", 8) && Unmarked("Bắt đầu xử lý...", 8);
    UnmarkedConcat("3/4: ", "Bắt đầu xử lý...", 8);
    UnmarkedIsInfo(Starting, 8);
  }
}

/**
  What the window shows as the messages are handled: the progress bar, the
  time label and the log.
*/
module Window {
  import opened Wrappers
  import opened Text
  import opened Timestamps
  import opened Messages
  import opened Progress
  import opened Status

  datatype LogEntry = LogEntry(text: string, level: Level)

  /** The progress bar (as a percentage), the time label and the log. */
  datatype Display = Display(progress: int, timeLabel: string, log: seq<LogEntry>)

  const IdleTimeLabel: string := "00:00:00 / 00:00:00"

  /** `_handle_status_update` applied to the window. */
  function Handle(d: Display, m: string): Display
  {
    match Decode(m)
    case Progress(p) => d.(progress := p)
    case TimeInfo(current, total) => d.(timeLabel := current + " / " + total)
    case Ignored => d
    case Log(text, level) => d.(log := d.log + [LogEntry(text, level)])
  }

  /** The messages handled one after another, first to last. */
  function HandleAll(d: Display, ms: seq<string>): Display
    decreases |ms|
  {
    if ms == [] then d else HandleAll(Handle(d, ms[0]), ms[1..])
  }

  /** The log entries a sequence of messages produces, in order. */
  function LogsOf(ms: seq<string>): seq<LogEntry>
    decreases |ms|
  {
    if ms == [] then []
    else
      (match Decode(ms[0])
       case Log(text, level) => [LogEntry(text, level)]
       case _ => [])
      + LogsOf(ms[1..])
  }

  /** Handling two batches is handling their concatenation. */
  lemma {:induction false} HandleAllConcat(d: Display, a: seq<string>, b: seq<string>)
    ensures HandleAll(d, a + b) == HandleAll(HandleAll(d, a), b)
    decreases |a|
  {
    if a == [] {
      assert a + b == b;
    } else {
      assert (a + b)[0] == a[0] && (a + b)[1..] == a[1..] + b;
      HandleAllConcat(Handle(d, a[0]), a[1..], b);
    }
  }

  /**
    The log grows by exactly the entries of the non-protocol messages, in the
    order the messages were handled; nothing already logged changes.
  */
  lemma {:induction false} HandleAllLog(d: Display, ms: seq<string>)
    ensures HandleAll(d, ms).log == d.log + LogsOf(ms)
    decreases |ms|
  {
    if ms != [] {
      HandleAllLog(Handle(d, ms[0]), ms[1..]);
    }
  }

  /** A `PROGRESS|n` from the worker moves the bar to n and changes nothing else. */
  lemma ShowsProgress(d: Display, percent: int)
    ensures Handle(d, ProgressMessage(percent)) == d.(progress := percent)
  {
    DecodeProgress(percent);
  }

  /** A `TIME_INFO` from the worker sets the label to `current / total` and changes nothing else. */
  lemma ShowsTimeInfo(d: Display, current: string, total: string)
    requires '|' !in current && '|' !in total
    ensures Handle(d, TimeInfoMessage(current, total)) == d.(timeLabel := current + " / " + total)
  {
    DecodeTimeInfo(current, total);
  }

  /**
    An ffmpeg line with a `time=` field, once reported and handled, sets the
    bar to the floor percentage of the elapsed time and the label to
    `elapsed / total`; the log is untouched.
  */
  lemma ShowsLine(d: Display, line: string, total: Duration)
    requires total.centis > 0 && Consistent(total)
    requires FirstStamp(line, TimeTag).Some?
    ensures var elapsed := Centis(FirstStamp(line, TimeTag).value);
            HandleAll(d, ProgressMessages(line, total))
            == d.(progress := Percent(elapsed, total.centis), timeLabel := FormatTime(elapsed) + " / " + total.display)
  {
    var elapsed := Centis(FirstStamp(line, TimeTag).value);
    var p := Percent(elapsed, total.centis);
    var clock := FormatTime(elapsed);
    assert ProgressMessages(line, total) == [ProgressMessage(p), TimeInfoMessage(clock, total.display)];
    HandleTwo(d, ProgressMessage(p), TimeInfoMessage(clock, total.display));
    ShowsProgress(d, p);
    ShowsTimeInfo(d.(progress := p), clock, total.display);
  }

  lemma HandleTwo(d: Display, m1: string, m2: string)
    ensures HandleAll(d, [m1, m2]) == Handle(Handle(d, m1), m2)
  {
    var once := Handle(d, m1);
    assert [m1, m2][0] == m1 && [m1, m2][1..] == [m2];
    assert HandleAll(d, [m1, m2]) == HandleAll(once, [m2]);
    assert [m2][0] == m2 && [m2][1..] == [];
    assert HandleAll(once, [m2]) == HandleAll(Handle(once, m2), []);
  }

  /** The progress stream of a run never reaches the log. */
  lemma {:induction false} ProgressNotLogged(lines: seq<string>, total: Duration)
    requires total.centis > 0
    ensures LogsOf(ProgressOf(lines, total)) == []
    decreases |lines|
  {
    if lines != [] {
      ProgressNotLogged(lines[1..], total);
      LogsOfConcat(ProgressMessages(lines[0], total), ProgressOf(lines[1..], total));
      LineNotLogged(lines[0], total);
    }
  }

  /** What one output line produces does not reach the log either. */
  lemma LineNotLogged(line: string, total: Duration)
    requires total.centis > 0
    ensures LogsOf(ProgressMessages(line, total)) == []
  {
    var head := ProgressMessages(line, total);
    TaggedNotLogged(head);
  }

  /** Messages that carry one of the two protocol tags never reach the log. */
  lemma {:induction false} TaggedNotLogged(ms: seq<string>)
    requires forall i :: 0 <= i < |ms| ==> StartsWith(ms[i], ProgressTag) || StartsWith(ms[i], TimeInfoTag)
    ensures LogsOf(ms) == []
    decreases |ms|
  {
    if ms != [] {
      assert !Decode(ms[0]).Log?;
      TaggedNotLogged(ms[1..]);
    }
  }

  lemma {:induction false} LogsOfConcat(a: seq<string>, b: seq<string>)
    ensures LogsOf(a + b) == LogsOf(a) + LogsOf(b)
    decreases |a|
  {
    if a == [] {
      assert a + b == b;
    } else {
      assert (a + b)[0] == a[0] && (a + b)[1..] == a[1..] + b;
      LogsOfConcat(a[1..], b);
    }
  }
}
