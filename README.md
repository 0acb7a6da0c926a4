# Record timers, disks and IceTV bookkeeping of an Enigma2 image, in Dafny

This project models the recording-timer scheduler of an Enigma2 set-top-box
image and a few smaller components beside it, and proves properties of the
model.

- **TimerEntry** (`timer_entry.dfy`) covers one record timer, `RecordTimerEntry`.
  - Its state machine runs Waiting 0, Prepared 1, Running 2, Ended 3, Failed 4. `activate` is one step of it.
  - The disk-check retry counter, the exponential backoff and the failure truncation of the end time are part of it.
  - So are the auto-increase of the end, the tuner-priority switch and the clamping of the window at construction.
  - The front-panel recording counter (`RecordingsState`/`SetIconDisplay`) is here too.
- **TimerRegistry** (`timer_registry.dfy`) covers the `RecordTimer` registry.
  - It keeps two lists: `timer_list`, sorted by next activation, and `processed_timers`.
  - It models `doActivate`, `record`, `removeEntry` and the time queries.
- **TimerOverlap** (`timer_overlap.dfy`) models `isInTimer`. It classifies how a timer overlaps an EPG event.
- **TimerCodec** (`timer_codec.dfy`) models the two halves of `timers.xml`.
  - `createTimer` reads one parsed `<timer>` element. `saveTimer` writes the text.
  - The round trip between them is proved.
- **Harddisk** (`harddisk.dfy`) models device-name splitting and the partition list of the hard-disk manager. It also covers the idle/sleep poll of one disk and its capacity text.
- **IceTV** (`icetv.dfy`) models the bookkeeping of the IceTV plugin's `EPGFetcher`:
  - recording events become timer statuses;
  - statuses are queued until a timer has its IceTV id, and expire after a day;
  - shows and timers from the server are range-checked;
  - the channel-to-service map is built;
  - a local timer is updated from an IceTV timer;
  - the EPG batch size is computed.
- **UsageConfig** (`usage_config.dfy`) covers `updateChoices`, `preferredPath` and the notifiers that normalise the remote-fallback URL and the default path.
- **AudioSelection** (`audio_selection.dfy`) covers the static helpers of the audio/subtitle screen and the number-key shortcut.
- **Shared helpers**:
  - `wrappers.dfy` holds Option and Result;
  - `text.dfy` holds split, join, strip and upper-casing;
  - `numbers.dfy` holds Python's `str(int)`, `int(str)`, `%x` and floor division;
  - `lists.dfy` holds `list.remove` and distinctness.

Code that works by changing state is modelled as classes with `modifies` clauses:
- the timer entry and the registry;
- the partition list and the disk's idle fields;
- the IceTV dictionaries;
- the config elements and the screen.

Each such method is proved against a function of the old state. Pure code is modelled as functions. The properties are proved as lemmas about those functions.

Time is always an explicit `now` parameter. What the environment answers is collected in an input of the caller. This covers the disk probe, the recording service, the timer sanity check, EPG lookups, the zap decisions of the user interface and the weekday arithmetic of `localtime`.

Notes on the code's behaviour:
- The disk check fails a timer on its fourth failing probe: the retry counter runs 0..3 and the test is `< 3` before the increment.
- `end >= begin` holds after construction (`RecordTimerEntry.constructor`, `ClampWindow`). It is not preserved afterwards:
  - a failed disk check sets `end := now + 5`, which may lie before `begin`;
  - a start error sets `begin := now + backoff`, which may pass `end`.

## Model

| member | source | states |
|---|---|---|
| TimerEntry.DiskCheck.ErrorNumber | RecordTimer.py:293-349 | freespace's outcome is an error number in 0..3, 0 exactly for a usable disk |
| TimerEntry.NextBackoff | RecordTimer.py:457-464 | the first failure backs off 5 s, each further one doubles the wait, capped at 100 s; a backoff within the cap stays within it |
| TimerEntry.BackoffSchedule | RecordTimer.py:457-464 | after n failures from a reset the backoff is 5·2^(n-1) capped at 100 (0 for none) |
| TimerEntry.BackoffScheduleStart | RecordTimer.py:457-464 | the schedule starts 5, 10, 20, 40, 80, 100 |
| TimerEntry.BackoffSaturates | RecordTimer.py:457-464 | from the sixth failure on the backoff stays at 100 |
| TimerEntry.PreferredTuner | RecordTimer.py:788-799 | a request is made exactly when a change is needed and the recording tuner is not yet set (set) or is set (reset); nothing changes when no change is needed |
| TimerEntry.TunerSetThenReset | RecordTimer.py:788-799 | set then reset asks for the advanced or recording priority, then the default one, and leaves no advanced priority |
| TimerEntry.TunerStepIdempotent | RecordTimer.py:788-799 | repeating a set or a reset asks for nothing more |
| TimerEntry.AutoincreaseEnd | RecordTimer.py:765-786 | no new end without auto-increase; a new end always lies after now; it is the following timer's begin − 30, or now + autoincreasetime, or the second simultaneous timer's begin − 30 after a failed sanity check |
| TimerEntry.SetTuner | RecordTimer.py:517-519 | the zap before a recording switches only the tuner fields, to the recording tuner when a change is needed |
| TimerEntry.ResetTuner | RecordTimer.py:788-799 | a reset switches only the tuner fields, back to the default when a change is needed |
| TimerEntry.BackoffPrepare | RecordTimer.py:392-393 | a failed prepare changes only the backoff and start_prepare; the backoff is do_backoff's next value, within 1..100 when the old one was within 0..100, and start_prepare lies that many seconds after now |
| TimerEntry.TryPrepareSpec | RecordTimer.py:387-455 | tryPrepare succeeds exactly for a zap timer or a prepared recording; it changes only the backoff (by at most one step), start_prepare and the tuner fields |
| TimerEntry.PrepareStep | RecordTimer.py:484-573 | the step to Prepared (disk check, then tryPrepare) never changes the state itself and never stops a recording |
| TimerEntry.PrepareRecording | RecordTimer.py:500-573 | after the disk check the step keeps the state and stops nothing |
| TimerEntry.AfterTryPrepare | RecordTimer.py:521-573 | the step is accepted exactly when tryPrepare succeeded, and then the next activation is begin and the backoff 0; a failure with stream clients stops there; otherwise on the first try, or once the zap dialog over a running timeshift has been answered (line 549), first_try_prepare is cleared and the tuner may be switched |
| TimerEntry.RunStep | RecordTimer.py:575-636 | the step to Running changes at most backoff, begin and the tuner fields and stops nothing |
| TimerEntry.EndStep | RecordTimer.py:637-652 | the step to Ended is always accepted and changes only the end and the state |
| TimerEntry.DiskRefused | RecordTimer.py:485-498 | a failed disk check keeps the state and begin and records the error number; the step is accepted exactly when the disk is full or three retries were made; a refused step counts a retry and retries in 5 s with the end kept; an accepted one fails the timer, keeps the end in lastend, ends in 5 s, activates now and resets the backoff |
| TimerEntry.ActivateSpec | RecordTimer.py:480-700 | activate keeps the state, except that an accepted auto-increase at the end step sends it back one; only the end step stops a recording, and then it accepts it and keeps the state; before the end step the end changes only when the timer fails; a state outside Waiting..Running changes nothing and is refused |
| TimerEntry.ActivateKeepsBounds | RecordTimer.py:480-700 | activate keeps a known state, the backoff within 0..100 and the retry counter within 0..3; the state after the caller's increment is a known state |
| TimerEntry.DiskCheckAtPrepare | RecordTimer.py:485-498 | a failed disk check below error 3 and retry 3 counts a retry, retries in 5 s and refuses the step; otherwise the timer fails: lastend keeps the end, end = now + 5, backoff 0, accepted |
| TimerEntry.FourthDiskFailureFails | RecordTimer.py:485-498 | repeated "not mounted" answers are refused three times and the fourth fails the timer |
| TimerEntry.StartErrorBacksOff | RecordTimer.py:626-633 | a start error backs off, moves begin to now + backoff, keeps the end and refuses the step |
| TimerEntry.PrepareWaitsForBegin | RecordTimer.py:521-543 | a successful prepare is accepted with the next activation at begin and the backoff reset |
| TimerEntry.FailedTimerRestoresEnd | RecordTimer.py:493-498 | a timer failed by a full disk passes Running and, when it stops, gets its original end back from lastend |
| TimerEntry.AutoincreaseSendsBack | RecordTimer.py:637-652 | at the end step an accepted auto-increase moves the end past now and sends the state back one step; otherwise the recording is stopped |
| TimerEntry.IconText | RecordTimer.py:94-111 | nothing is written without the symbol device; 0 and any negative count write "0"; a count up to max_states writes itself; a larger one writes max_states |
| TimerEntry.Tally | RecordTimer.py:121-136 | the recordings count never goes negative; 0 resets it, +1 and −1 count a start and a stop |
| TimerEntry.TallyStartStop | RecordTimer.py:121-136 | a start followed by a stop leaves the count as it was |
| TimerEntry.RecordingsTally.constructor | RecordTimer.py:139 | start-up resets the count to 0 |
| TimerEntry.RecordingsTally.RecordingsState | RecordTimer.py:121-136 | an alter outside −1..1 changes nothing; otherwise the count becomes Tally and its text is written to the symbol |
| TimerEntry.RecordingsTally.SetIconDisplay | RecordTimer.py:94-111 | writes IconText for the count |
| TimerEntry.ClampWindow | RecordTimer.py:157-163 | end ≥ begin after construction; a begin over two weeks old moves to now when asked; an end not before begin is kept |
| TimerEntry.RecordTimerEntry.constructor | RecordTimer.py:156-258 | the window is ClampWindow's, so end ≥ begin; an unrecordable service becomes the empty reference; the timer starts Waiting with backoff, retry counter, error number and lastend 0; name, description and eit are FillFromEpg's; descramble and record_ecm are EcmFlags' |
| TimerEntry.FillFromEpg | RecordTimer.py:174-187 | a given description, name or eit is kept; a missing one comes from the EPG event when there is one, the description from its short text or else its extended text |
| TimerEntry.EcmFlags | RecordTimer.py:209-221 | both 'notset': the configured ecm_data decides the pair; otherwise each keeps its given value |
| TimerEntry.RecordTimerEntry.NextActivation | RecordTimer.py:870-884 | the next transition time is start_prepare before Prepared, begin before Running, end afterwards |
| TimerEntry.RecordTimerEntry.GetNextActivation | RecordTimer.py:870-884 | returns NextActivation; isStillRecording holds exactly when the timer is at or past Running and its end is after now |
| TimerEntry.RecordTimerEntry.TimeChanged | RecordTimer.py:894-897 | start_prepare becomes begin − prepare_time and the backoff resets |
| TimerEntry.RecordTimerEntry.Abort | RecordTimer.py:1446-1449 | abort moves the end to now and marks the timer cancelled |
| TimerEntry.RecordTimerEntry.DoBackoff | RecordTimer.py:457-464 | the backoff becomes NextBackoff of the old one |
| TimerEntry.RecordTimerEntry.SetAutoincreaseEnd | RecordTimer.py:765-786 | returns true exactly when the end moved, and then to AutoincreaseEnd; otherwise the end is untouched |
| TimerEntry.RecordTimerEntry.SetRecordingPreferredTuner | RecordTimer.py:788-799 | the tuner fields and the priority requested are PreferredTuner's |
| TimerEntry.RecordTimerEntry.ZapTuner | RecordTimer.py:517-519 | the zap's tuner switch is SetTuner (or ResetTuner) of the timer's fields |
| TimerEntry.RecordTimerEntry.StartBackoff | RecordTimer.py:392-393 | backs off once and sets start_prepare to now + backoff |
| TimerEntry.RecordTimerEntry.TryPrepare | RecordTimer.py:387-455 | the new fields and the result are TryPrepareSpec's |
| TimerEntry.RecordTimerEntry.Activate | RecordTimer.py:480-700 | the new fields and acceptance are ActivateSpec's; a stopped recording is taken off the recordings count |
| TimerEntry.RecordTimerEntry.ActivatePrepare | RecordTimer.py:484-573 | the step to Prepared is PrepareStep |
| TimerEntry.RecordTimerEntry.ActivateDiskRefused | RecordTimer.py:485-498 | the failed disk check is DiskRefused |
| TimerEntry.RecordTimerEntry.ActivatePrepareRecording | RecordTimer.py:500-573 | the rest of the prepare step is PrepareRecording |
| TimerEntry.RecordTimerEntry.ActivateAfterTryPrepare | RecordTimer.py:521-573 | the handling of tryPrepare's answer is AfterTryPrepare, including the retry through an answered timeshift dialog |
| TimerEntry.RecordTimerEntry.ActivateRun | RecordTimer.py:575-636 | the step to Running is RunStep |
| TimerEntry.RecordTimerEntry.ActivateEnd | RecordTimer.py:637-700 | the step to Ended is EndStep; a stopped recording is taken off the count |
| TimerRegistry.InsortByMultiset | RecordTimer.py:1059 | insort adds exactly one copy of the new timer and loses none |
| TimerRegistry.InsortByMembers | RecordTimer.py:1059 | after insort the list holds the old timers and the new one, nothing else |
| TimerRegistry.InsortBySorted | RecordTimer.py:1059 | insort keeps a list sorted by next activation sorted |
| TimerRegistry.SlotsInsort | RecordTimer.py:1059 | the keys of the insorted timers are the keys insorted by the same scan |
| TimerRegistry.SlotsRemove | RecordTimer.py:1051-1054 | list.remove drops exactly the first occurrence's key |
| TimerRegistry.FileActiveValid | RecordTimer.py:1057-1059 | filing a new unfinished timer into timer_list keeps both lists sorted, duplicate-free, disjoint and each timer on its side of Ended |
| TimerRegistry.FileProcessedValid | RecordTimer.py:1072 | filing a finished timer into processed_timers keeps the same invariant |
| TimerRegistry.DetachValid | RecordTimer.py:1051-1054 | removing a timer from timer_list keeps the invariant and leaves no copy of it behind |
| TimerRegistry.DropValid | RecordTimer.py:1465-1466 | removing a timer from processed_timers keeps the invariant and leaves no copy behind |
| TimerRegistry.ResortMultiset | RecordTimer.py:1025-1026 | re-sorting a timer within timer_list keeps the same timers |
| TimerRegistry.InsortByRemove | RecordTimer.py:1059 | list.remove undoes insort of a timer that was not in the list |
| TimerRegistry.FirstZap | RecordTimer.py:1188-1194 | the first zap timer of the list that does not begin before the reference time |
| TimerRegistry.FirstRecording | RecordTimer.py:1208-1215 | the first recording timer whose next activation is not before the reference time |
| TimerRegistry.NextRecordingIsEarliest | RecordTimer.py:1208-1215 | on a sorted timer_list, a recording is found exactly when one is due, and the time found is the earliest next activation of any recording due |
| TimerRegistry.Abs | RecordTimer.py:1236-1240 | Python's abs |
| TimerRegistry.TimeshiftAdjusted | RecordTimer.py:1217-1227 | while timeshift records, a next recording within 300 s is kept and anything else becomes now + 300; otherwise the time is kept |
| TimerRegistry.AskNextRecording | RecordTimer.py:1208-1215 | the loop asks each timer for its next activation and returns the first recording due, or −1 |
| TimerRegistry.RecordTimer.constructor | RecordTimer.py:1011-1023 | an empty registry that keeps the invariant |
| TimerRegistry.RecordTimer.AddTimerEntry | RecordTimer.py:1062-1066 | a timer the base class skips (the skip verdict) or one that has finished is set to Ended and insorted into processed_timers; any other keeps its state and is insorted into timer_list; the other list is unchanged; the timer ends in exactly one list and the invariant is kept |
| TimerRegistry.RecordTimer.FileActive | RecordTimer.py:1057-1059 | insort into timer_list, keeping the invariant |
| TimerRegistry.RecordTimer.FileProcessed | RecordTimer.py:1072 | insort into processed_timers, keeping the invariant |
| TimerRegistry.RecordTimer.Detach | RecordTimer.py:1051-1054 | timer_list.remove; an absent timer leaves the list as it was |
| TimerRegistry.RecordTimer.TimeChanged | RecordTimer.py:1025-1028 | the preparation time restarts; an Ended timer of processed_timers leaves it, becomes Waiting and is filed again by AddTimerEntry; an unfinished timer of timer_list is taken out and filed again the same way, so a skipped one goes to processed_timers as Ended; an Ended timer missing from processed_timers raises, any other missing timer stays where it was |
| TimerRegistry.RecordTimer.EndedChanged | RecordTimer.py:1025-1028 | an Ended timer leaves processed_timers and is filed again: Ended into processed_timers when skipped, Waiting into timer_list otherwise |
| TimerRegistry.RecordTimer.Refile | RecordTimer.py:1025-1028 | a timer in neither list restarts its preparation, becomes Waiting, and AddTimerEntry files it |
| TimerRegistry.RecordTimer.ActiveChanged | RecordTimer.py:1025-1028 | an unfinished timer leaves timer_list and AddTimerEntry files it again: as Ended into processed_timers when skipped, re-sorted into timer_list otherwise |
| TimerRegistry.RecordTimer.DoActivate | RecordTimer.py:1038-1073 | the timer's fields become Activated of its old fields: activate's changes (none when skipped), the state reached, a repeating timer restarted Waiting in its next window; it is taken out of timer_list and insorted into processed_timers exactly when GoesToProcessed, otherwise back into timer_list; it ends in exactly one list; the recordings count drops exactly when activate stops a recording |
| TimerRegistry.RecordTimer.StepAndFile | RecordTimer.py:1042-1073 | on a timer already out of timer_list: the fields become Activated's and the timer is insorted into processed_timers exactly when GoesToProcessed, otherwise into timer_list |
| TimerRegistry.RecordTimer.FileStepped | RecordTimer.py:1056-1071 | the stepped timer ends in exactly one list: a finished one-shot timer (or a repeating one the base class files as processed) is insorted into processed_timers and timer_list is untouched; otherwise it is insorted into timer_list; its fields stay except a refiled repeating timer, which becomes Ended |
| TimerRegistry.RecordTimer.Step | RecordTimer.py:1042-1066 | the timer's fields become Stepped of its old fields, its bounds are kept, it reports whether the state reached is Ended or later, and the recordings count follows activate |
| TimerRegistry.RecordTimer.Advance | RecordTimer.py:1042-1049 | the fields become Advanced's: Ended when skipped, otherwise activate's fields with the state one up when accepted |
| TimerRegistry.RecordTimer.RestartRepeat | RecordTimer.py:1062-1065 | a repeating timer takes its next window, becomes Waiting and retries preparation from the first try |
| TimerRegistry.Advanced | RecordTimer.py:1042-1049 | the state is the one reached; a skipped timer changes nothing but its state, which becomes Ended |
| TimerRegistry.Stepped | RecordTimer.py:1042-1065 | a repeating timer that reached Ended is Waiting again in its next window with first_try_prepare set; any other has the state reached; a skipped timer keeps its preparation time, backoff and tuner |
| TimerRegistry.SteppedKeepsBounds | RecordTimer.py:1042-1065 | a well-formed timer before Ended stays well-formed through the step |
| TimerRegistry.ActivatedFiling | RecordTimer.py:1038-1073 | the timer ends at Ended or later exactly when it is filed into processed_timers, and stays well-formed |
| TimerRegistry.RecordTimer.Record | RecordTimer.py:1250-1273 | a conflict without ignoreTSC returns the simultaneous timers and changes nothing; a double timer is dropped and changes nothing; otherwise the preparation time restarts and the timer is filed as AddTimerEntry says: as Ended into processed_timers when skipped or finished, into timer_list otherwise |
| TimerRegistry.RecordTimer.IsRecording | RecordTimer.py:1078-1083 | true exactly when some timer of timer_list is running and is a recording |
| TimerRegistry.RecordTimer.GetNextZapTime | RecordTimer.py:1188-1194 | the begin of the first zap timer not before from_time (now when absent), or −1 |
| TimerRegistry.RecordTimer.GetStillRecording | RecordTimer.py:1196-1206 | true exactly when some timer is flagged still recording or begins within 10 s of now |
| TimerRegistry.RecordTimer.GetNextRecordingTimeOld | RecordTimer.py:1208-1215 | the next activation of the first recording timer due, or −1; every timer asked has its still-recording flag refreshed |
| TimerRegistry.RecordTimer.GetNextRecordingTime | RecordTimer.py:1217-1227 | getNextRecordingTimeOld adjusted for a recording timeshift |
| TimerRegistry.RecordTimer.RecordingsActive | RecordTimer.py:1232-1240 | recording now (or still recording), or the next recording or zap within margin of now |
| TimerRegistry.RecordTimer.NearActivation | RecordTimer.py:1236-1240 | the next recording or the next zap lies within margin of now |
| TimerRegistry.RecordTimer.RemoveEntry | RecordTimer.py:1440-1472 | the timer stops repeating and auto-increasing and is aborted at now, its preparation restarted unless it had Ended; it leaves processed_timers; a timer of timer_list that the base class then skips becomes Ended and leaves timer_list too, one it does not skip stays in timer_list; timer_list keeps its other timers and, without the auto-increase pass, is exactly the re-filed list |
| TimerRegistry.RecordTimer.Finish | RecordTimer.py:1458-1466 | the auto-increase pass unless the timer is not saved, then processed_timers.remove; the removed timer itself is untouched and timer_list keeps its timers |
| TimerRegistry.RecordTimer.Withdraw | RecordTimer.py:1443-1466 | the removed timer is withdrawn; a timer of timer_list is taken out and filed again, as Ended into processed_timers when skipped; a timer outside it leaves processed_timers |
| TimerRegistry.RecordTimer.StopRepeating | RecordTimer.py:1443-1449 | after the two assignments the timer no longer repeats nor auto-increases, and the registry invariant still holds |
| TimerRegistry.RecordTimer.WithdrawActive | RecordTimer.py:1446-1452 | a timer of timer_list is aborted, its preparation restarted, and AddTimerEntry files it again: as Ended into processed_timers when skipped, re-sorted into timer_list otherwise |
| TimerRegistry.RecordTimer.WithdrawInactive | RecordTimer.py:1446-1466 | a timer outside timer_list is aborted, restarted unless Ended, and dropped from processed_timers |
| TimerRegistry.RecordTimer.DropProcessed | RecordTimer.py:1465-1466 | processed_timers.remove when the timer is there; a timer that was there is valid, finished and not in timer_list |
| TimerRegistry.RecordTimer.AbortDetached | RecordTimer.py:1446-1452 | abort, and the timer's own time change when asked |
| TimerRegistry.RecordTimer.AutoincreasePass | RecordTimer.py:1458-1461 | the pass over timer_list keeps its timers; every other timer keeps its end or gets one after now |
| TimerRegistry.RecordTimer.Extend | RecordTimer.py:1459-1461 | an extended timer gets AutoincreaseEnd's end and its preparation restarts; timer_list keeps its timers |
| TimerRegistry.RecordTimer.ExtendDetached | RecordTimer.py:1459-1461 | the same on a timer outside the lists |
| TimerOverlap.ServiceKeyIdempotent | RecordTimer.py:1284-1291 | cutting a reference down to its first eleven fields twice cuts nothing more |
| TimerOverlap.ServiceKey | RecordTimer.py:1284-1291 | a reference of at most eleven fields is its own key |
| TimerOverlap.Window | RecordTimer.py:1322-1333 | the window isInTimer compares for a one-off timer; WindowEdges states how its edges may snap |
| TimerOverlap.WindowEdges | RecordTimer.py:1322-1333 | without margins for a one-off timer the window is the timer's own, with 60 s added to a zap timer of at most a second; otherwise at most one edge snaps to the event: the begin only to an event beginning less than a minute earlier, the end only to an event ending less than a minute later |
| TimerOverlap.Flags | RecordTimer.py:1286-1290 | bit 1 marks an AutoTimer, bit 2 an IceTV timer, nothing else |
| TimerOverlap.KindOffset | RecordTimer.py:1322-1333 | 0 for a recording, 5 for a zap timer, 10 for an always-zap timer |
| TimerOverlap.Overlap | RecordTimer.py:1415-1431 | an overlap is found exactly when the window and the event intersect; the match is the intersection's length; the kind says which ends of the event the timer covers |
| TimerOverlap.Match | RecordTimer.py:1291-1437 | a hit only for a timer on the event's service, with a non-zero match and the timer's flags |
| TimerOverlap.HitsAt | RecordTimer.py:1291-1437 | the hit list holds, position by position, each timer's own hit |
| TimerOverlap.IsInTimer | RecordTimer.py:1275-1438 | none exactly when no timer matches; otherwise the hit of a timer before which none covers the whole event, and which covers it or after which none matches |
| TimerOverlap.IsInTimerAsWritten | RecordTimer.py:1275-1438 | the loop as written, with time_match and kind carried across timers |
| TimerOverlap.StaleMatchReported | RecordTimer.py:1278-1280 | as written, a later non-overlapping AutoTimer re-reports the earlier timer's match with its own flag |
| TimerCodec.AfterEventNamed | RecordTimer.py:966-971 | exactly the four stored names are actions, and each names its action |
| TimerCodec.AfterEventNameReadsBack | RecordTimer.py:1132-1137 | every action is written under a name that reads back as that action |
| TimerCodec.TimerAttributes | RecordTimer.py:956-999 | decoding succeeds exactly for a loadable element; the missing optional numbers take their defaults (rename_repeat 1, disabled 0, justplay 0, always_zap 0, descramble 1, record_ecm 0, isAutoTimer 0, afterevent "nothing"); eit, location and tags that are missing, empty or "None" become none |
| TimerCodec.LogOf | RecordTimer.py:1002-1006 | a log child reads as its time, its code and its stripped text, failing when one is missing or malformed |
| TimerCodec.LogsOf | RecordTimer.py:1002-1006 | one entry per log child, in order |
| TimerCodec.CreateTimerSpec | RecordTimer.py:955-1008 | createTimer succeeds exactly when the attributes and every log child read, and then holds them |
| TimerCodec.CreateTimer | RecordTimer.py:955-1008 | the attributes, then the log children, give exactly CreateTimerSpec's result |
| TimerCodec.ReadLogs | RecordTimer.py:1002-1006 | the loop over the log children computes LogsOf, stopping at the first that does not read |
| TimerCodec.LogErrorStops | RecordTimer.py:1002-1006 | a log child that does not read fails every longer run of children with the same error |
| TimerCodec.InOrder | RecordTimer.py:1124-1151 | only attributes the timer has are written, each with its value, and every attribute it has is written |
| TimerCodec.Kept | RecordTimer.py:1157-1164 | the kept log entries are no older than ignore_before |
| TimerCodec.SaveLog | RecordTimer.py:1162-1170 | the log children written are those of the kept entries |
| TimerCodec.SaveTimer | RecordTimer.py:1118-1174 | the pieces are the document of the timers of both lists, skipping those not to be saved |
| TimerCodec.RenderTimer | RecordTimer.py:1124-1170 | a <timer> element opens and closes around its attributes and log children |
| TimerCodec.Body | RecordTimer.py:1118-1174 | the timers are skipped exactly as dontSave says; with none to save the body is empty |
| TimerCodec.Document | RecordTimer.py:1118-1186 | timers.xml starts with the XML declaration and <timers>, ends with </timers>, and holds nothing else when no timer is saved |
| TimerCodec.LogReadsBack | RecordTimer.py:1002-1006 | a log child written for an entry with a clean message reads back as that entry |
| TimerCodec.LogsReadBack | RecordTimer.py:1002-1006 | log entries with clean messages read back as themselves |
| TimerCodec.CleanKept | RecordTimer.py:1162-1164 | pruning keeps messages clean |
| TimerCodec.KeptAllRecent | RecordTimer.py:1157-1164 | with no entry older than the limit, nothing is pruned |
| TimerCodec.TagsReadBack | RecordTimer.py:982-986 | plain-word tags joined with spaces split back into the same tags |
| TimerCodec.NumbersWritten | RecordTimer.py:1125-1145 | begin, end, repeated, rename_repeat, disabled and justplay are written in decimal under their names |
| TimerCodec.FlagsWritten | RecordTimer.py:1146-1149 | always_zap, descramble, record_ecm and isAutoTimer are written in decimal |
| TimerCodec.EventIdWritten | RecordTimer.py:1138-1139 | eit is written exactly when the timer has one |
| TimerCodec.TextsWritten | RecordTimer.py:1127-1137 | serviceref, name, description and the after-event name are written |
| TimerCodec.ExtrasWritten | RecordTimer.py:1140-1151 | tags are written joined; location and ice_timer_id exactly when present |
| TimerCodec.SavedWritten | RecordTimer.py:1125-1151 | the attributes written for a timer are all of the above |
| TimerCodec.WrittenHolds | RecordTimer.py:956-999 | every number written reads back as itself |
| TimerCodec.HeldLoadable | RecordTimer.py:956-999 | createTimer accepts every element written by saveTimer |
| TimerCodec.ArgsReadBack | RecordTimer.py:955-1008 | the attributes written read back as the timer's numbers, flags, texts and action |
| TimerCodec.ElementReadsBack | RecordTimer.py:955-1008 | an element written for a timer, with clean log messages, reads back as that timer |
| TimerCodec.SavedTimerReadsBack | RecordTimer.py:955-1186 | save then load gives back every number, flag, text and the action, the log as pruning kept it, the directory when it is a real name and the tags when plain words |
| Harddisk.NewPartition | lib/python/Components/Harddisk.py:603-611 | force_mounted only with a mountpoint; an empty short description falls back to the description |
| Harddisk.AnyMountPrefix | lib/python/Components/Harddisk.py:659-662 | some mount path is a prefix of the mountpoint |
| Harddisk.Mounted | lib/python/Components/Harddisk.py:652-663 | mounted when forced, else exactly when the mountpoint is set and some mount path is its prefix |
| Harddisk.FirstFsType | lib/python/Components/Harddisk.py:665-676 | the type of the first mount entry naming the mountpoint, "" when none does |
| Harddisk.Filesystem | lib/python/Components/Harddisk.py:665-677 | "" without a mountpoint, otherwise FirstFsType |
| Harddisk.FsUserFriendlyType | lib/python/Components/Harddisk.py:648-650 | the table's name for a known type, the type itself otherwise, "Unknown" for none |
| Harddisk.SplitDeviceName | lib/python/Components/Harddisk.py:1033-1047 | the whole-disk name is a prefix of the name; names of at most three characters stay whole with 0; an "mmcblkN" name splits into "mmcblkN" and the number after "p" (0 without one); other names split after three letters when only digits follow, the number being their decimal value (0 for "sda0"); "ram" names and non-digit suffixes stay whole with 0 |
| Harddisk.SplitDeviceNameExamples | lib/python/Components/Harddisk.py:1033-1047 | "sda1" → ("sda",1), "sda" → ("sda",0), "mmcblk0p2" → ("mmcblk0",2), "ram0" and "sdax" stay whole |
| Harddisk.Candidates | lib/python/Components/Harddisk.py:1021 | exactly the mounted partitions, only hotplug ones if asked, in their order (a subsequence) and with every copy of a kept partition |
| Harddisk.KeepListed | lib/python/Components/Harddisk.py:1031 | exactly the partitions without a device or with a device left in the set, in their order (a subsequence) and with every copy of a kept partition |
| Harddisk.KeepListedIff | lib/python/Components/Harddisk.py:1018-1031 | the result holds exactly the mounted candidates that have no device or are not a whole disk of a listed partition |
| Harddisk.WithTrailingSlash | lib/python/Components/Harddisk.py:1091-1092 | a non-empty path gets a trailing '/', one with it is kept |
| Harddisk.WithTrailingSlashIdempotent | lib/python/Components/Harddisk.py:1091-1092 | normalising twice is normalising once |
| Harddisk.FilterMembers | lib/python/Components/Harddisk.py:1099-1105 | the partitions kept are exactly those with another mountpoint, the ones removed exactly those with that mountpoint |
| Harddisk.HarddiskManager.constructor | lib/python/Components/Harddisk.py:818-833 | the partition list as enumerated |
| Harddisk.HarddiskManager.GetMountedPartitions | lib/python/Components/Harddisk.py:1018-1031 | only mounted partitions; a whole disk is dropped when one of its numbered partitions is listed; entries with no device are kept |
| Harddisk.HarddiskManager.AddMountedPartition | lib/python/Components/Harddisk.py:1089-1097 | appends a partition for the normalised mountpoint unless one has it; the list never gains a duplicate mountpoint |
| Harddisk.HarddiskManager.RemoveMountedPartition | lib/python/Components/Harddisk.py:1099-1105 | removes every partition with the normalised mountpoint, keeps all others in order, and returns the removed ones |
| Harddisk.IdleStepProperties | lib/python/Components/Harddisk.py:548-566 | no effect when disabled; an access resets last_access and wakes the disk; sleep is requested when idle long enough and not asleep |
| Harddisk.IdleStep | lib/python/Components/Harddisk.py:548-566 | a sleep request leaves the disk asleep; last_access stays or becomes now; the disk is asleep afterwards only when it was or sleep was just requested |
| Harddisk.SleepRequestedOnce | lib/python/Components/Harddisk.py:561-566 | after a sleep request no further request comes until the next access |
| Harddisk.Harddisk.constructor | lib/python/Components/Harddisk.py:106-109 | last_access now, last_stat 0, not sleeping |
| Harddisk.Harddisk.RunIdle | lib/python/Components/Harddisk.py:548-566 | the new fields and the sleep request are IdleStep's |
| Harddisk.CapacityReadsBack | lib/python/Components/Harddisk.py:198-204 | "" for 0; three digits reading back as the size, then " MB", below 1000; otherwise GB and three-digit MB parts reading back as the size |
| Harddisk.Capacity | lib/python/Components/Harddisk.py:198-204 | the text is empty exactly for size 0 and otherwise ends in " MB" or " GB" |
| IceTV.StatusOfEvent | lib/python/Plugins/SystemPlugins/IceTV/plugin.py:622-649 | exactly one status for every start, end or write-error event and none otherwise; an error on start or end fails; a clean start runs; a clean end completes unless flagged |
| IceTV.Classify | lib/python/Plugins/SystemPlugins/IceTV/plugin.py:622-649 | a status exactly for a start, end or write-error event; running only for a clean start |
| IceTV.EventStep | lib/python/Plugins/SystemPlugins/IceTV/plugin.py:622-654 | at most one status is posted, after those posted before, exactly when the timer has its IceTV id and the event reports one; the flags change only under the flag key; only the timer's own queue can appear |
| IceTV.FailedKey | lib/python/Plugins/SystemPlugins/IceTV/plugin.py:632-644 | the flag key the comment describes: the timer's id |
| IceTV.FailedKeyAsWritten | lib/python/Plugins/SystemPlugins/IceTV/plugin.py:632-644 | the flag key the code uses: the event's id |
| IceTV.FailedKeys | lib/python/Plugins/SystemPlugins/IceTV/plugin.py:632-644 | the comment's key is the same for every event of a timer; the key as written differs between events and from the comment's |
| IceTV.StatusGoesOneWay | lib/python/Plugins/SystemPlugins/IceTV/plugin.py:647-654 | a status is posted when the timer has its IceTV id and queued at the end of its own queue otherwise; nothing else changes |
| IceTV.WriteErrorThenEndFails | lib/python/Plugins/SystemPlugins/IceTV/plugin.py:632-644 | with the flag kept per timer, a write error followed by a clean end reports failed and clears the flag |
| IceTV.WriteErrorForgottenAsWritten | lib/python/Plugins/SystemPlugins/IceTV/plugin.py:632-644 | as written, the flag is keyed by the event, so a clean end after a write error reports completed |
| IceTV.AsWrittenKeysOnlyWriteError | lib/python/Plugins/SystemPlugins/IceTV/plugin.py:640-644 | as written, the only key failed ever holds is the write-error event's |
| IceTV.RecentMembers | lib/python/Plugins/SystemPlugins/IceTV/plugin.py:660 | the filter keeps exactly the entries not older than the timeout, and all of them when none is |
| IceTV.TimedOutProperties | lib/python/Plugins/SystemPlugins/IceTV/plugin.py:657-662 | no surviving entry is older than the timeout; a key goes exactly when its list had entries and all were stale; no key is left with an empty list |
| IceTV.TimedOut | lib/python/Plugins/SystemPlugins/IceTV/plugin.py:657-662 | doTimeouts as a function of the dictionary; TimedOutProperties states what it keeps |
| IceTV.PushThenPop | lib/python/Plugins/SystemPlugins/IceTV/plugin.py:673-678 | the queue is first-in first-out: a pop after a push yields the oldest status, and a key whose queue is empty is removed |
| IceTV.PopsDrainQueue | lib/python/Plugins/SystemPlugins/IceTV/plugin.py:673-678 | n pops post a queue of n statuses in order and remove its key |
| IceTV.EPGFetcher.constructor | lib/python/Plugins/SystemPlugins/IceTV/plugin.py:530-548 | the timers already recording get a running status queued under id(None) |
| IceTV.EPGFetcher.ProcessEvent | lib/python/Plugins/SystemPlugins/IceTV/plugin.py:622-654 | the new queues, flags and posts are EventStep with the flag kept per timer |
| IceTV.EPGFetcher.DoTimeouts | lib/python/Plugins/SystemPlugins/IceTV/plugin.py:657-662 | the dictionary after the loop is TimedOut |
| IceTV.EPGFetcher.StatusCleanup | lib/python/Plugins/SystemPlugins/IceTV/plugin.py:656-667 | both dictionaries are cut to the last 24 hours; nothing is posted |
| IceTV.EPGFetcher.DeferredPostStatus | lib/python/Plugins/SystemPlugins/IceTV/plugin.py:673-678 | the oldest queued status of the timer is posted and its queue popped |
| IceTV.ShowEventId | lib/python/Plugins/SystemPlugins/IceTV/plugin.py:855-857 | a valid 16-bit eit_id is kept, any other is replaced by showIdToEventId |
| IceTV.ConvertedShow | lib/python/Plugins/SystemPlugins/IceTV/plugin.py:855-877 | a deleted record becomes start 999, duration 10; other shows are kept exactly when start and stop lie in the EPG range and 0 < duration ≤ 14 days |
| IceTV.ConvertedShowsMembers | lib/python/Plugins/SystemPlugins/IceTV/plugin.py:853-877 | every event comes from a show of the list and every show that passes gives its event |
| IceTV.ConvertedShows | lib/python/Plugins/SystemPlugins/IceTV/plugin.py:853-877 | never more events than shows |
| IceTV.ConvertChanShows | lib/python/Plugins/SystemPlugins/IceTV/plugin.py:850-877 | the loop computes ConvertedShows |
| IceTV.TimerWindowClosedForm | lib/python/Plugins/SystemPlugins/IceTV/plugin.py:981-988 | a timer passes exactly when it starts a day after TIME_MIN, stops a day before TIME_MAX and lasts 1 s to 14 days |
| IceTV.TimerTimeError | lib/python/Plugins/SystemPlugins/IceTV/plugin.py:981-988 | a timer that passes lasts between one second and 14 days; one starting outside the EPG range never passes |
| IceTV.PaddedWindowInRange | lib/python/Plugins/SystemPlugins/IceTV/plugin.py:981-988 | a passing timer with margins of at most a day stays inside the EPG range |
| IceTV.TimersPartitioned | lib/python/Plugins/SystemPlugins/IceTV/plugin.py:968-992 | each timer is either rejected with the illegal-time reply or passed on, never both |
| IceTV.ScreenTimers | lib/python/Plugins/SystemPlugins/IceTV/plugin.py:968-992 | the update queue holds the rejected timers and the others are passed on |
| IceTV.ValidTriplets | lib/python/Plugins/SystemPlugins/IceTV/plugin.py:812-819 | exactly the triplets whose three ids lie in 1..0xFFFF |
| IceTV.AddNewProperties | lib/python/Plugins/SystemPlugins/IceTV/plugin.py:831-833 | appending only absent triplets keeps the list as a prefix, adds every new one, and each appended one is new |
| IceTV.ChannelNamesDistinct | lib/python/Plugins/SystemPlugins/IceTV/plugin.py:821-829 | the names start with the channel's upper-cased stripped name and hold no repeats |
| IceTV.ChannelNamesMembers | lib/python/Plugins/SystemPlugins/IceTV/plugin.py:821-829 | the names are the canonical name, short name and known names |
| IceTV.Canonical | lib/python/Plugins/SystemPlugins/IceTV/plugin.py:821-829 | the name stripped and upper-cased; CanonicalProperties states what it gives |
| IceTV.CanonicalProperties | lib/python/Plugins/SystemPlugins/IceTV/plugin.py:821-829 | the canonical name is no longer than the name, has no whitespace at either end, and is its own canonical form |
| IceTV.MatchedMembers | lib/python/Plugins/SystemPlugins/IceTV/plugin.py:831 | the triplets matched by name are those listed under one of the names |
| IceTV.ChannelListMembers | lib/python/Plugins/SystemPlugins/IceTV/plugin.py:805-833 | a channel's list holds what it had plus the channel's valid and name-matched triplets |
| IceTV.ChanServMapNonEmpty | lib/python/Plugins/SystemPlugins/IceTV/plugin.py:800-833 | no channel id maps to an empty list |
| IceTV.ChanServMapMembers | lib/python/Plugins/SystemPlugins/IceTV/plugin.py:800-833 | a triplet is listed under an id exactly when some channel with that id contributes it |
| IceTV.ChanServMap | lib/python/Plugins/SystemPlugins/IceTV/plugin.py:800-833 | no channel id maps to an empty list |
| IceTV.AppendValid | lib/python/Plugins/SystemPlugins/IceTV/plugin.py:812-819 | the loop appends the valid triplets in order |
| IceTV.AppendNew | lib/python/Plugins/SystemPlugins/IceTV/plugin.py:832-833 | the loop appends the triplets not listed yet |
| IceTV.AppendMatched | lib/python/Plugins/SystemPlugins/IceTV/plugin.py:831-833 | the loop appends the name-matched triplets not listed yet |
| IceTV.AddChannel | lib/python/Plugins/SystemPlugins/IceTV/plugin.py:805-833 | one channel's pass computes WithChannel |
| IceTV.MakeChanServMap | lib/python/Plugins/SystemPlugins/IceTV/plugin.py:800-834 | the loop computes ChanServMap |
| IceTV.FirstValid | lib/python/Plugins/SystemPlugins/IceTV/plugin.py:1103-1111 | the first service found valid, none exactly when none is |
| IceTV.UpToDate | lib/python/Plugins/SystemPlugins/IceTV/plugin.py:1100-1124 | nothing changes exactly when every given value already agrees; an update is idempotent; an empty name, a falsy eit and no valid service are never written |
| IceTV.Updated | lib/python/Plugins/SystemPlugins/IceTV/plugin.py:1100-1124 | the window becomes the given one; the name, the eit and the service each stay or become the given value (a service from the list) |
| IceTV.UpdateTimer | lib/python/Plugins/SystemPlugins/IceTV/plugin.py:1100-1124 | the timer's fields become Updated's; the result is true exactly when a field changed |
| IceTV.FetchDaysCeiling | lib/python/Plugins/SystemPlugins/IceTV/plugin.py:410-414 | the days fetched are the ceiling of the elapsed time in days, capped at 7 for Australia and 14 elsewhere |
| IceTV.FetchDays | lib/python/Plugins/SystemPlugins/IceTV/plugin.py:410-414 | never more days than the country's maximum, and at least one once time has passed since the last update |
| IceTV.BatchForBounds | lib/python/Plugins/SystemPlugins/IceTV/plugin.py:427-429 | the batch size is at least 1, at most a positive maximum, the floor of the free memory over 250 kB per channel and day, and 1 when memory is short |
| IceTV.BatchFor | lib/python/Plugins/SystemPlugins/IceTV/plugin.py:427-429 | the division by zero happens exactly with no days to fetch; otherwise the size is at least 1 and at most a positive max_batchsize |
| IceTV.BatchsizeOutcomes | lib/python/Plugins/SystemPlugins/IceTV/plugin.py:409-433 | without a reading the configured maximum; the division by zero happens exactly when a reading is found and the last update lies less than a day ahead of now |
| IceTV.Batchsize | lib/python/Plugins/SystemPlugins/IceTV/plugin.py:409-433 | an error needs a MemAvailable reading; the not-a-number error happens exactly when that reading is not a number |
| IceTV.GetBatchsize | lib/python/Plugins/SystemPlugins/IceTV/plugin.py:409-433 | the loop with its break computes Batchsize |
| UsageConfig.ConfigSelection.constructor | lib/python/Components/UsageConfig.py:1288-1299 | a selection with its value, choices and default |
| UsageConfig.ConfigSelection.UpdateChoices | lib/python/Components/UsageConfig.py:1288-1299 | an empty list and a non-numeric value change nothing, the latter failing; otherwise the choices become the numbers' text and the default is none when the value is a choice, else the last choice below it |
| UsageConfig.Reversed | lib/python/Components/UsageConfig.py:1293-1294 | the reversed copy of the choices |
| UsageConfig.LastBelow | lib/python/Components/UsageConfig.py:1295-1298 | the rightmost choice below the value, none exactly when there is none |
| UsageConfig.LastBelowFromScan | lib/python/Components/UsageConfig.py:1295-1298 | the backward scan with break finds exactly LastBelow |
| UsageConfig.PreferredPath | lib/python/Components/UsageConfig.py:1301-1309 | "<default>" or a setup level below 2 gives none; "<current>" and "<timer>" give the last directories; any other path is itself |
| UsageConfig.NormaliseRemoteFallback | lib/python/Components/UsageConfig.py:272-275 | a non-empty URL gets "http://" first and a port, so it never keeps exactly one colon |
| UsageConfig.RemoteFallbackIdempotent | lib/python/Components/UsageConfig.py:272-275 | normalising twice is normalising once |
| UsageConfig.WithTrailingSlash | lib/python/Components/UsageConfig.py:151-155 | the path ends in '/', gaining one only when missing |
| UsageConfig.TrailingSlashIdempotent | lib/python/Components/UsageConfig.py:151-155 | normalising twice is normalising once |
| UsageConfig.ConfigText.constructor | lib/python/Components/UsageConfig.py:272-277 | a text setting with its value and saved value |
| UsageConfig.ConfigText.RemoteFallbackChanged | lib/python/Components/UsageConfig.py:272-275 | the value becomes its normalised URL |
| UsageConfig.ConfigText.DefaultPathChanged | lib/python/Components/UsageConfig.py:151-155 | the value gains a trailing '/' and is then saved; a value with one is left alone |
| AudioSelection.Language | lib/python/Screens/AudioSelection.py:75-81 | "und" gives the undetermined text when supplied; otherwise the table's name, or the code itself |
| AudioSelection.SubtitleDescription | lib/python/Screens/AudioSelection.py:88-107 | DVB with the pid in hex; teletext; a file type's table name or "unknown: n" with number pid + 1; none for any other type |
| AudioSelection.DvbNumberReadsBack | lib/python/Screens/AudioSelection.py:90-92 | a DVB number reads back as the pid in hex |
| AudioSelection.TeletextNumberReadsBack | lib/python/Screens/AudioSelection.py:93-95 | a teletext number reads back as the magazine (8 for 0) followed by the page in two hex digits |
| AudioSelection.FileNumberReadsBack | lib/python/Screens/AudioSelection.py:105 | a file subtitle's number reads back as pid + 1 |
| AudioSelection.HexPageWidth | lib/python/Screens/AudioSelection.py:95 | a page below 256 takes at most two hex digits |
| AudioSelection.MapLanguages | lib/python/Screens/AudioSelection.py:110 | one name per code, in order |
| AudioSelection.AudioLanguagePerCode | lib/python/Screens/AudioSelection.py:109-110 | when no name contains '/', the text splits back into one name per code, in order |
| AudioSelection.AudioLanguage | lib/python/Screens/AudioSelection.py:109-110 | the codes named and rejoined; AudioLanguagePerCode states what the text holds |
| AudioSelection.HideUndeterminedTeletext | lib/python/Screens/AudioSelection.py:291-292 | drops exactly the teletext tracks of undetermined language; the rest keep their order (a subsequence) and their copies |
| AudioSelection.AudioSelectionScreen.constructor | lib/python/Screens/AudioSelection.py:25-28 | the stream list with the first stream current and no subtitle selected |
| AudioSelection.AudioSelectionScreen.GetSubtitleList | lib/python/Screens/AudioSelection.py:285-301 | the service's tracks, filtered when hiding; a selected (0,0,0,0) becomes none; a selected subtitle missing from the list by its first four fields is appended once |
| AudioSelection.AudioSelectionScreen.KeyNumberGlobal | lib/python/Screens/AudioSelection.py:476-479 | number n picks stream n − 1 exactly when there are at least n streams; otherwise nothing changes |

## Left out

- EcmFlags: when only one of descramble and record_ecm is 'notset', the source stores that string, which every later use reads as true; the model stores 1 for it. An ecm_data value outside the three choices leaves both attributes unset in the source; the model's configuration has only the three.
- The base classes `timer.TimerEntry` and `timer.Timer` are not part of this model. Their `shouldSkip`, `processRepeated` (the next window of a repeating timer) and `abort` are inputs or are modelled from how the code here uses them.
- `cleanupDisabled` and `cleanupDaily` (called by doActivate) are base-class code and are not modelled.
- `AddTimerEntry`: `addTimerEntry` is base-class code. Its decision to file a timer into processed_timers is modelled from its uses: the `skip` verdict (shouldSkip, or Waiting while disabled) is an input, and so is `refiled`, the verdict for a repeating timer restarted by doActivate. A timer that finished, or that the base class skips, is set to Ended and goes to processed_timers.
- `RemoveEntry`: after the abort, a timer of timer_list that the base class does not skip (one Prepared or Running, whose end is now) is filed back into timer_list by the time change, as the code does, and stays there until its next doActivate; the comment at RecordTimer.py:1463 expects it in processed_timers, which holds only when the base class skips it.
- `TimerRegistry.RecordTimer.Withdraw`, `TimerRegistry.RecordTimer.WithdrawActive`: for the same reason a withdrawn timer of timer_list that is not skipped is re-sorted into timer_list, not moved to processed_timers; only a skipped one is filed as Ended into processed_timers.
- `Extend`: the extended timer is filed back with FileActive, not AddTimerEntry, because its new end lies after now and it is not Ended.
- The timer sanity check, the EPG, the recording service, `setPreferredTuner`, the stream server and the zap decisions of the user interface are inputs of each call.
- Popups, notifications, the standby and deep-standby decisions after a recording, `_zapToTimerService` and key binding are user-interface plumbing and are not modelled.
- freespace's threaded mount probes are concurrency; `freespace()` is an input outcome whose error number is 1..3.
- The log lines written by `activate` are not modelled; the log entries read and written by the codec are.
- The XML parser, `stringToXML` (Tools/XMLTools.py is not part of this model), the file writing, fsync and rename of `saveTimer` are left out. The writer takes the escaping as a parameter and the reader takes a parsed element.
- `long()`: Python 2 integers are unbounded here; the trailing "L" some Python versions print is not modelled.
- `SavedTimerReadsBack`: a directory of "" or "None" and tags that are not plain words do not read back; the lemma says which do. It also requires every log message to be clean (`CleanMessages`): non-empty and without whitespace at either end. A message with surrounding whitespace reads back stripped. An empty message is written as `<log ...></log>`, whose text createTimer reads as None, so `l.text.strip()` at RecordTimer.py:1005 raises and the whole load fails; the model's reader reports that element as an error instead of raising.
- `saveTimer` reads the clock once per timer; the model takes one `now` for the whole save.
- The clock is in whole seconds (`now: int`). In the code `time()` is a float stored as it is: `start_prepare = time() + backoff` (RecordTimer.py:393, 428, 449), `end = time() + 5` (496, 913) and `begin = time() + backoff` (632). Such fractional begin and end values are written as `str(int(...))` (1125-1126) and come back truncated; the round trip of `SavedTimerReadsBack` covers whole-second times only.
- Service references are plain strings; `ServiceReference` and `isRecordable` are inputs.
- TimerOverlap: the subservice lookup and the repeated-timer weekday branch of `isInTimer` depend on the EPG and on `localtime`; they are inputs of each timer.
- `RemoveEntry`: the order in which the auto-increase pass meets timers after re-sorting is not stated; timer_list is stated by its timers (a multiset) when timers move.
- `IceTV.EPGFetcher.DeferredPostStatus`: the IndexError of popping an empty queue cannot happen in the model, because the invariant keeps no key with an empty queue.
- IceTV: the REST calls, the reactor threads, the EPG import, genres, ratings and the login and setup screens are not modelled.
- IceTV: status messages are the event and error code they are made of, not the translated texts.
- IceTV: `ice.showIdToEventId` and `db.searchReference` are inputs; the scanned channel-name map is given already upper-cased.
- `IceTV.Canonical`, `IceTV.ChannelNamesDistinct`, `IceTV.ChannelNamesMembers`: Python's `str.upper()` and `str.strip()` work on all of Unicode; the model upper-cases ASCII letters only and strips ASCII whitespace (space, tab to carriage return). Names with other letters or other whitespace are compared differently.
- IceTV: `/proc/meminfo` is given as its lines already split into fields (none when unreadable); Python's `int()` is modelled by the decimal parser, so a non-number is the `NotANumber` error.
- IceTV: the other actions of `processTimers` after the range check (create, update, delete of local timers) call the recording framework and are not modelled.
- Harddisk: /proc and /sys reads, subprocesses, initialise, fsck and ext4 jobs, and device enumeration are left out. The mount table and the stat counters are inputs.
- Harddisk: the Python None of a device name or mountpoint is the empty string; the code only tests them for truthiness.
- Harddisk, AudioSelection: the translated texts (`_("Unknown")`, the capacity units, the `_("unknown")` of a subtitle description at AudioSelection.py:104 and the like) are the untranslated English strings.
- AudioSelection: the ISO 639 table is a parameter; screen and focus handling and `getFps` (floating point) are left out.
- UsageConfig: the option definitions of `InitUsageConfig` are configuration wiring and are left out.
- `UsageConfig.ConfigSelection.UpdateChoices`: `ConfigSelection.setChoices` (Components/config.py) is not part of this model. The model stores the choices and the default passed to it and leaves the value as it is; what setChoices does to a value that is no longer a choice is not modelled.

## Findings

| source | as written | input that shows it | evidently intended | confidence | as-written member | corrected member |
|---|---|---|---|---|---|---|
| lib/python/Plugins/SystemPlugins/IceTV/plugin.py:632-644 | the write-error flag is stored and looked up under `id(event)`, the id of the event code, although the comment beside it speaks of `id(entry)` | a timer without a prior flag receives evRecordWriteError, then evEnd with NoError | the end reports "failed" and clears the flag of that timer | not executed | IceTV.WriteErrorForgottenAsWritten | IceTV.WriteErrorThenEndFails |
| RecordTimer.py:1278-1437 | `time_match` and `kind` are set once before the loop and not reset per timer, so a later timer on the same service that overlaps nothing re-reports the previous timer's match with its own AutoTimer flags | timers [100,200] and [1000,1100] (an AutoTimer) on the event's service, event 150 + 100 s, with a recording margin configured (check_offset_time false) | the answer is the first timer's own hit (50 s, kind 4, flags 0) | not executed | TimerOverlap.IsInTimerAsWritten | TimerOverlap.IsInTimer |
