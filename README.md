# Subtitle merger: a verified model of the processing core

Subtitle merger is a desktop tool that runs ffmpeg to overlay a logo on a
video and burn subtitles into it. This project models its processing core
in Dafny and proves properties of that model.

The worker is `run_processing_logic` in `processor.py`. It:

- validates the numeric options;
- finds the ffmpeg executable;
- probes the video's length;
- builds a 17-element argument vector;
- starts the process and reads its output line by line;
- reports progress, a cancellation or the exit status through a status callback.

The window (`app.py`) does the following:

- queues those messages and drains the queue;
- decodes the two protocol shapes `PROGRESS|n` and `TIME_INFO|current|total`;
- logs every other message with a severity level found by substring tests;
- keeps the pause and cancel flags the worker polls;
- validates numeric fields;
- refuses to start a run while a path is empty.

## Layout

- `text.dfy`: two modules.
  - `Wrappers`: the `Option` and `Result` types.
  - `Text`: decimal digits, `int()` and `f"{n}"`, `:02` padding, prefixes and substrings, and `str.split`.
- `filter_path.dfy` (`FilterPath`): escaping a subtitle path for ffmpeg's filter syntax, and its inverse.
- `timestamps.dfy` (`Timestamps`): the `Duration:` and `time=` stamps, `format_time` and the length probe.
- `command.dfy` (`Command`): option validation, the filter string, and the argument vector. It also holds a parser that reads a vector back, used to state what the vector contains.
- `messages.dfy` (`Messages`): every status message the worker sends.
- `supervisor.dfy`: two modules.
  - `Progress`: the messages made from one output line.
  - `Supervisor`: the whole routine.
    - Specification functions: `Prepare`, `Scan`, `RunFrom`, `RunMessages`, `Launched`, `RunEnding`.
    - The imperative routine: `RunProcessing` and the methods it calls, with the per-line loop in `ReadLines`.
- `run_facts.dfy` (`RunFacts`): what every run reports and when cancellation takes effect.
- `status.dfy`: two modules.
  - `Status`: decoding and classifying a message.
  - `Window`: the effect of handled messages on the progress bar, the time label and the log.
- `app.dfy`: two modules.
  - `Controls`: the flag transitions, the validator, the path check and the settings merge.
  - `App`: the `VideoApp` class, whose methods change the flags, the queue and the display in place.

### How the outside world is modelled

Everything the worker learns from outside itself is one `Env` value:

- the platform;
- the executable path and whether it exists;
- the probe's output, or `None` when running the probe raised;
- the text of a launch error;
- the output lines;
- the exit code;
- the value of the cancel flag at each of its readings;
- whether the process exits within the 5-second grace period;
- whether the output file exists, and the error that deleting it raises.

Times are whole hundredths of a second. The percentage is the exact floor of
`100 * elapsed / total`.

The ghost out-parameter `alive` of `RunProcessing` is true while a started
process has been neither waited for nor sent `terminate()`. It is always
false at the end: every started process has been waited for or sent
`terminate()`. Whether the process has actually exited after `terminate()`
is not tracked.

### Behaviour worth noting

- The percentage is not clamped to 100 (processor.py:100).
- A cancellation whose output could not be deleted is logged at INFO, because `Đã hủy, nhưng…` contains none of the four markers (app.py:71-82).
- An empty path is stopped by the window before a run starts (app.py:301-305). The worker itself only reports a missing key, as `Lỗi: '<key>'`.

## Model

| member | source | states |
|---|---|---|
| Text.IntToString | processor.py:102 | `f"{n}"` is non-empty, contains no field separator, and `int()` reads it back as n |
| Text.Pad2 | processor.py:36 | `:02` gives at least two digits, exactly two below 100, with value n; the first digit is a padding zero exactly when n is below 10 |
| Text.DigitsParse | processor.py:43-46 | a non-empty run of ASCII digits reads as its decimal value |
| Text.Pad2Parses | processor.py:26 | a zero-padded field reads back as the number padded |
| Text.ContainsAt | app.py:74-81 | `sub in s` holds when sub occurs at some index |
| Text.AbsentCharNotContained | app.py:74-81 | `sub in s` fails when one of sub's characters is absent from s |
| Text.Split | app.py:61 | `str.split` gives at least one field, and no field contains the separator |
| Text.SplitNoSeparator | app.py:61 | a text without the separator splits into itself alone |
| Text.SplitFirst | app.py:66 | a separator after a separator-free head splits off exactly that head |
| Text.SplitJoin | app.py:66 | splitting undoes joining with the separator, for separator-free fields |
| Text.ReplaceChar | processor.py:10-11 | `str.replace` of one character by a text without it removes every occurrence |
| Text.ReplaceCharConcat | processor.py:10-11 | replacing distributes over concatenation |
| FilterPath.Escape | processor.py:8-12 | identity off Windows; on Windows the length grows by the backslash and colon counts and unescaping gives the path back |
| FilterPath.TwoPassesAreOnePass | processor.py:10-11 | doubling backslashes, then prefixing colons, escapes each character independently |
| FilterPath.EscapeEachLength | processor.py:10-11 | one extra character per backslash and per colon |
| FilterPath.UnescapeEscapeEach | processor.py:10-11 | the Windows escaping is undone exactly by unescaping |
| Timestamps.PairValue | processor.py:24 | a two-digit group is below 100 |
| Timestamps.RawPair | processor.py:26 | re-padding a two-digit group gives the raw group, so the display keeps the raw digits |
| Timestamps.Search | processor.py:22 | `re.search` finds the leftmost position where the tag and the `DD:DD:DD.DD` shape match, and none before it |
| Timestamps.ShowClock | processor.py:26 | the `HH:MM:SS` text has no field separator, reads back as its three numbers, and its three `:` fields are exactly the `:02` renderings of the numbers |
| Timestamps.FormatTime | processor.py:32-36 | `format_time` has no field separator; minutes and seconds are below 60; H*3600+M*60+S is the whole seconds; the three `:` fields are the `:02` renderings of H, M and S, so minutes and seconds take exactly two digits |
| Timestamps.ClockArithmetic | processor.py:33-35 | the hour, minute and second split recomposes the seconds |
| Timestamps.ProbeDuration | processor.py:14-30 | the length and its display agree to the second; no match (or a raising probe) gives 0 and `00:00:00` |
| Timestamps.ProbeDurationMatched | processor.py:22-27 | a match gives the length of the first `Duration:` stamp and its raw `HH:MM:SS` |
| Timestamps.DurationAt | processor.py:23-27 | the length is h*360000+m*6000+s*100+hh hundredths and the display is the raw eight characters |
| Timestamps.UnknownConsistent | processor.py:30 | the fallback `(0, "00:00:00")` agrees with itself |
| Command.ValidateOptions | processor.py:42-50 | accepted iff all four options read as integers with positive width and bitrate and non-negative margins; every failure is the one generic message |
| Command.BuildCommand | processor.py:70-72 | 17 arguments that read back to the given executable, paths and codec, the filter from the options and escaped subtitle path, rates `{b}k`, `{b}k`, `{2b}k`; unescaping gives the subtitle path |
| Command.Vector | processor.py:72 | the fixed 17-element layout reads back to its fields |
| Command.LeadingDigits | processor.py:71 | the count of leading digits stops at the first non-digit |
| Command.KbpsRoundTrip | processor.py:72 | `{n}k` reads back as n |
| Command.TakeNumberOf | processor.py:71 | a number written in the filter is read back up to the next non-digit |
| Command.LeadingDigitsOf | processor.py:71 | the digits of a written number are exactly its leading digits |
| Command.StripPrefixOf | processor.py:71 | a fixed filter piece is recognised and removed |
| Command.FilterRoundTrip | processor.py:71 | the filter reads back to the width, right margin, top margin and escaped path |
| Command.ParseWidthRoundTrip | processor.py:71 | the `scale=` width reads back |
| Command.ParseMarginsRoundTrip | processor.py:71 | the `overlay=W-w-` right margin reads back |
| Command.ParseTopRoundTrip | processor.py:71 | the top margin and the quoted subtitle path read back |
| Messages.ProgressMessage | processor.py:102 | a progress message starts with the `PROGRESS` tag |
| Messages.TimeInfoMessage | processor.py:103 | a time message starts with the `TIME_INFO` tag |
| Progress.Percent | processor.py:100 | the floor percentage: p*total <= 100*elapsed < (p+1)*total |
| Progress.ProgressMessages | processor.py:96-103 | a line yields messages iff it has a `time=` stamp, and then exactly a `PROGRESS` and a `TIME_INFO` message |
| Progress.ProgressOfConcat | processor.py:81-103 | the progress of two runs of lines is their concatenation |
| Supervisor.FirstMissing | processor.py:56-59 | none missing iff all keys are present; otherwise the reported key is absent and every key before it is present, so it is the first missing one |
| Supervisor.Scan | processor.py:81-83 | a reported cancel is at a line index where the flag was read set |
| Supervisor.ScanStep | processor.py:81-103 | an uncancelled line contributes its messages, then the loop continues with the next line |
| Supervisor.Preflight | processor.py:42-59 | passing iff the options validated, the executable exists and no required key is missing; when passing, the options are the validated ones |
| Supervisor.Prepare | processor.py:61-65 | a launch iff the checks passed and the probed length is positive; with it the validated options and the three announcements before the launch |
| Supervisor.PrepareRun | processor.py:40-67 | the checks and the probe report exactly the messages and the launch of `Prepare` |
| Supervisor.ReadLines | processor.py:81-103 | the loop emits the scan's messages and stops iff a cancel was read |
| Supervisor.CancelRun | processor.py:83-95 | `Đang hủy bỏ...` followed by exactly one cleanup outcome |
| Supervisor.ReadOutput | processor.py:81-109 | the messages after the launch are those of the specification, and at the end the process has been waited for or sent terminate() |
| Supervisor.RunProcessing | processor.py:38-115 | the routine emits `RunMessages`, starts exactly the `Launched` command, and at the end every started process has been waited for or sent terminate() |
| RunFacts.HeadNotTerminal | processor.py:112 | a message whose first character is not that of an ending head is not an ending |
| RunFacts.PrefixStarts | processor.py:112 | a message starts with its head |
| RunFacts.AnnouncementsNotTerminal | processor.py:61-84 | the announcements, `Đang hủy bỏ...` and every `TIME_INFO` are not endings |
| RunFacts.PreambleNotTerminal | processor.py:61-74 | none of the four messages before the output is read is an ending |
| RunFacts.EndingsTerminal | processor.py:87-112 | every `Lỗi:`, completion and cancellation outcome is an ending |
| RunFacts.ProgressOfTagged | processor.py:102-103 | every progress message carries one of the two protocol tags |
| RunFacts.TaggedNotTerminal | processor.py:102-103 | a tagged message is not an ending |
| RunFacts.TaggedSeqNotTerminal | processor.py:102-103 | a sequence of tagged messages holds no ending |
| RunFacts.ScanFrom | processor.py:81-103 | the lines handled are exactly those before the first set flag, and they yield their progress in order |
| RunFacts.ScanNotTerminal | processor.py:96-103 | the messages of the loop never end a run |
| RunFacts.CancelledOutput | processor.py:81-95 | a cancel first read at line k: the progress of lines before k, then the cancellation messages; cancelled, or failed on timeout |
| RunFacts.UncancelledOutput | processor.py:104-109 | no cancel during the loop: every line's progress, then the exit report |
| RunFacts.CancelAtLine | processor.py:81-95 | cancellation takes effect at a line boundary; line k and later lines produce nothing |
| RunFacts.UncancelledRun | processor.py:104-109 | exit 0 completes, another code fails unless the flag is set after the loop, in which case nothing is reported |
| RunFacts.StartedAnnouncements | processor.py:61-74 | a launched run begins `1/4…`, `TIME_INFO` with 00:00:00 and the total, `2/4…`, `3/4…` |
| RunFacts.EndsOnceAfter | processor.py:110-112 | an ending appended after non-endings is the only ending, and last |
| RunFacts.NoTerminalConcat | processor.py:81-103 | joining two ending-free sequences gives one |
| RunFacts.EndsOnceConcat | processor.py:81-112 | prefixing non-endings keeps the single last ending |
| RunFacts.OutputEndsOnce | processor.py:81-112 | after launch, exactly one ending, last, unless the exit is unreported |
| RunFacts.StartedEndsOnce | processor.py:61-115 | a run that reached the launch ends once, last, unless the exit is unreported |
| RunFacts.PreflightFailed | processor.py:42-59 | a failed check gives exactly one `Lỗi:` message and no launch |
| RunFacts.UnknownLengthReported | processor.py:61-64 | an unknown length gives `1/4…` then the one `Lỗi:` message, with no launch |
| RunFacts.OneEndingPerRun | processor.py:38-115 | every run reports exactly one ending, as its last message, except an unreported non-zero exit, which reports none |
| RunFacts.FailedBeforeLaunch | processor.py:41-80 | when a check, the probe or the launch fails, no process is started and the last message is `Lỗi:` |
| RunFacts.InvalidOptionsReported | processor.py:42-50 | any invalid option gives exactly `[Lỗi: <generic message>]` and no launch |
| RunFacts.MissingExecutableReported | processor.py:52-54 | a missing executable gives exactly `[Lỗi: Không tìm thấy <path>.]` and no launch |
| RunFacts.LaunchedCommand | processor.py:42-80 | a process is started iff the options validate, the executable exists, no required key is missing, the probed length is positive and Popen does not raise; it gets the vector built from the parameters |
| Status.Field | app.py:61 | `split` field i holds no field separator; None stands for IndexError |
| Status.Decode | app.py:58-82 | a message is logged iff it is untagged, with its text unchanged and the level Classify gives; a progress update iff the `PROGRESS` tag is followed by an integer field 1, carrying it; a time update iff the `TIME_INFO` tag has fields 1 and 2, carrying them |
| Status.TagFields | app.py:61 | a tag word, the separator and a tail split into the word and the tail's fields |
| Status.DecodeProgress | app.py:59-64 | decoding the worker's `PROGRESS` n gives back n |
| Status.DecodeTimeInfo | app.py:65-70 | decoding the worker's `TIME_INFO` a b gives back a and b when they hold no field separator |
| Status.TimeInfoFieldCount | app.py:65-70 | a time message is used iff it has at least three fields and ignored otherwise |
| Status.UnmarkedConcat | app.py:71-82 | text lacking a letter of each marker stays so when joined |
| Status.UnmarkedHasNoMarker | app.py:71-82 | text lacking a letter of each marker contains none of the four markers |
| Status.UnmarkedIsInfo | app.py:71-82 | text without markers is INFO |
| Status.CompletedIsSuccess | app.py:74-75 | the completion message is SUCCESS for any output path |
| Status.FailureIsError | app.py:76-77 | `Lỗi: e` is ERROR unless e contains `à` |
| Status.CancelMarkerIsWarning | app.py:80-81 | text starting `Đã hủy bỏ` without the earlier markers' letters is WARNING |
| Status.RemovedIsWarning | app.py:80-81 | `Đã hủy bỏ và xóa file output.` is WARNING |
| Status.ByUserIsWarning | app.py:80-81 | `Đã hủy bỏ bởi người dùng.` is WARNING |
| Status.UndeletedIsInfo | app.py:71-82 | `Đã hủy, nhưng không thể xóa file: e` is INFO when e has no marker letter |
| Status.CancellingIsInfo | app.py:71-82 | `Đang hủy bỏ...` is INFO |
| Status.ProbingIsInfo | app.py:71-82 | `1/4…` is INFO |
| Status.BuildingIsInfo | app.py:71-82 | `2/4…` is INFO |
| Status.StartingIsInfo | app.py:71-82 | `3/4…` is INFO |
| Window.HandleAllConcat | app.py:48-56 | handling two batches is handling their concatenation |
| Window.HandleTwo | app.py:48-56 | handling two messages is handling them one after the other |
| Window.HandleAllLog | app.py:58-82 | the log grows by exactly the untagged messages, in order; earlier entries stay |
| Window.LogsOfConcat | app.py:58-82 | the entries of two batches are those of each, in order |
| Window.ShowsProgress | app.py:59-64 | the worker's `PROGRESS` n sets the bar to n and changes nothing else |
| Window.ShowsTimeInfo | app.py:65-70 | the worker's `TIME_INFO` a b sets the label to `a / b` and changes nothing else |
| Window.ShowsLine | app.py:58-70 | a `time=` line sets the bar to the floor percentage and the label to `elapsed / total` |
| Window.ProgressNotLogged | app.py:58-70 | no progress message reaches the log |
| Window.TaggedNotLogged | app.py:58-70 | messages that carry either protocol tag add nothing to the log |
| Controls.Toggle | app.py:87-98 | flips the pause, keeps the cancel flag, and sets the event exactly when not paused |
| Controls.Cancel | app.py:100-103 | sets the cancel flag, keeps the pause, and leaves the event set |
| Controls.ToggleTwice | app.py:87-98 | two toggles restore a state where the event is set exactly when not paused |
| Controls.CancelTwice | app.py:100-103 | cancelling again changes nothing |
| Controls.PauseAfterCancel | app.py:87-103 | resuming and pausing after a cancel clears the event with the cancel still pending |
| Controls.AcceptedReadsBack | app.py:143-144 | non-empty text is accepted iff it reads as an integer and starts with a digit, and then reads as its digits' value |
| Controls.EmptyOptionRejected | app.py:143-144 | an empty option field, which the validator accepts, makes the worker report invalid options |
| Controls.DefaultsValid | app.py:241-243 | the default options 110, 10, 10, 3000 pass validation |
| Controls.RunParams | app.py:300-301 | the run gets every path and option key, each option replacing a path of the same name |
| Controls.StartedRunHasKeys | app.py:300-305 | a run the window starts finds every key the worker reads, and a non-empty output path |
| Controls.MergeSettings | app.py:320-326 | loading keeps the option keys; keys in the file replace values; other file keys are ignored |
| Controls.MergeTwice | app.py:320-326 | loading the same settings twice is loading them once |
| App.VideoApp.constructor | app.py:36-42 | not paused, event set, no cancel, empty queue, bar 0, idle label, the readiness note as the one INFO log line, empty paths, default options |
| App.VideoApp.StatusCallback | app.py:84-85 | the message joins the back of the queue; nothing else changes |
| App.VideoApp.ProcessLogQueue | app.py:48-56 | the queue is emptied; its messages are handled once each, in posting order, and nothing else changes |
| App.VideoApp.TogglePauseResume | app.py:87-98 | the flags follow `Toggle`; one log entry is added, WARNING on pause and INFO on resume |
| App.VideoApp.CancelProcessing | app.py:100-103 | the flags follow `Cancel`; nothing else changes |
| App.VideoApp.StartProcessing | app.py:287-312 | resets the flags and clears the log; starts iff all four paths are filled, resetting bar and label; otherwise logs exactly the one error |
| App.VideoApp.LoadSettings | app.py:320-326 | the options become the merge of the old options and the file |

## Left out

- The GUI: widget construction, layout, styling, `_on_codec_select`, `_reset_ui_to_idle` and the timestamp that `_log_message` adds. The log is modelled as a sequence of text and level.
- File dialogs and the OS helpers `_play_video` and `_open_output_folder`.
- `get_settings_path`, `save_settings`, and the JSON reading of `load_settings`. `LoadSettings` takes the file's contents as a map of texts; a non-text JSON value is not modelled.
- `on_closing`: it joins a thread and destroys the window.
- `get_ffmpeg_path`, `subprocess.run`, `Popen`, `os.path.exists`, `os.remove` and `time.sleep` are not modelled. They are replaced by the fields of `Env`.
- Threads and blocking:
  - the blocking of `pause_event.wait()`: a pause changes no output;
  - the worker thread, the 100 ms polling of `check_thread` and `_process_log_queue`, and the timed waits.
  - The queue and the flags are modelled sequentially. The worker's flag readings are the `cancelAt` oracle rather than the class's field.
- Floating point: seconds are whole hundredths. `Progress.Percent` is the exact floor. Python's float `int(current / total * 100)` can be one lower at exact boundaries. The progress bar's `percentage / 100` is kept as the integer percentage.
- The regex engine: the `DD:DD:DD.DD` shape is stated directly, with ASCII digits.
- Python `int()` also accepts surrounding spaces and `_` separators. `str.isdigit` also accepts non-ASCII digits. The model reads only an optional sign followed by ASCII digits.
- Unicode normalisation: texts are compared code point by code point.
- Status.FailureIsError, Status.UndeletedIsInfo: these hold only for exception texts without the marker letters. A path or an OS error text that happened to contain a marker would be classified by that marker, exactly as the code does.
- Supervisor.ReadLines and Supervisor.Scan are stated for any per-line handler. The run uses them with the progress parser.
- ffmpeg's own parsing of the filter string is not modelled. `FilterPath.Unescape` is the inverse of the escaping, not ffmpeg's unescaper.
- Supervisor.RunProcessing, Supervisor.ReadOutput: the ghost `alive` only records that every started process was waited for or sent `terminate()`. The process is not tracked after `terminate()`, so on the cancel path, when the 5-second wait runs out (processor.py:85-86), and on the `finally` path (processor.py:113-115), the model does not say whether the process has exited.
