/**
 * One record timer: its per-timer state machine (Waiting, Prepared, Running,
 * Ended, Failed), the retry and backoff rules applied on the way, the
 * auto-increase of the end time and the tuner-priority switching.
 *
 * What the recording environment answers at an activation (the disk probe,
 * the recording service, the sanity check, the zap decisions of the user
 * interface) is collected in an ActivationEnv supplied by the caller.
 */
module TimerEntry {
  import opened Wrappers
  import opened Numbers

  const StateWaiting := 0
  const StatePrepared := 1
  const StateRunning := 2
  const StateEnded := 3
  const StateFailed := 4

  /** What to do once a timer has finished. */
  datatype AfterEvent = AfterEventNone | Standby | DeepStandby | Auto {
    function Code(): int {
      match this
      case AfterEventNone => 0
      case Standby => 1
      case DeepStandby => 2
      case Auto => 3
    }
  }

  /** One line of a timer's log: time, code and message. */
  datatype LogEntry = LogEntry(time: int, code: int, message: string)

  /** freespace(): the recording directory is usable, or MountPathErrorNumber 1, 2 or 3. */
  datatype DiskCheck = DiskOk | NotMounted | NotWritable | NoSpace {
    function ErrorNumber(): (n: int)
      ensures 0 <= n <= 3 && (n == 0 <==> this == DiskOk)
    {
      match this
      case DiskOk => 0
      case NotMounted => 1
      case NotWritable => 2
      case NoSpace => 3
    }
  }

  /** How tryPrepare's calls into the recording service turn out, one case per exit of the method. */
  datatype PrepareOutcome =
    | FilenameFailed         // calculateFilename() found no file name
    | GroupUnresolved        // no playable member of a service group
    | NoRecordService        // recordService() gave nothing
    | RenamedFilenameFailed  // a repeated timer renamed from the EPG found no file name
    | PrepareRefused         // record_service.prepare() returned an error
    | Prepared

  /** The timer sanity check's verdict on a timer with a proposed end, with the begins of the simultaneous timers. */
  datatype SanityVerdict = SanityVerdict(passes: bool, simulBegins: Option<seq<int>>)

  /** change_frontend and setAdvancedPriorityFrontend. */
  datatype TunerState = TunerState(changeFrontend: bool, advanced: Option<int>)

  /** The answers of the environment to one activate() call. */
  datatype ActivationEnv = ActivationEnv(
    now: int,
    disk: DiskCheck,
    zapBeforePrepare: bool,   // an always-zap timer outside standby on a live service without timeshift zaps first
    prepare: PrepareOutcome,
    streamClients: bool,      // the stream server has connected clients
    timeshiftAnswered: bool,  // the zap dialog opened over a running timeshift exists and timeshift no longer runs
    zapAfterFailure: bool,    // after a failed prepare on a live service: in standby, or zapping without asking
    zapDeferred: bool,        // a zap timer meets an executing MoviePlayer outside standby and timeshift
    startError: int,          // record_service.start()
    sanity: SanityVerdict,    // for the auto-increased end
    recordingPriority: int,   // config.usage.recording_frontend_priority
    defaultPriority: int)     // config.usage.frontend_priority

  /** The fields activate() changes. */
  datatype Lifecycle = Lifecycle(
    state: int,
    begin: int,
    end: int,
    startPrepare: int,
    nextActivation: int,
    backoff: int,
    lastend: int,
    retryCounter: int,
    errorNumber: int,
    failed: bool,
    firstTryPrepare: bool,
    tuner: TunerState)

  /** The fields activate() reads but does not change. */
  datatype EntryFlags = EntryFlags(
    justplay: bool,
    alwaysZap: bool,
    cancelled: bool,
    autoincrease: bool,
    autoincreaseTime: int,
    needChangePriority: bool)

  /** The result of one activate() call: the new fields, whether the step is accepted, whether the recording was stopped. */
  datatype Activation = Activation(lc: Lifecycle, accepted: bool, stopped: bool)

  ////////////////////////////////////////////////////////////////////////////
  // do_backoff

  /** The backoff after one more failure: 5 s first, doubling up to 100 s. */
  function NextBackoff(backoff: int): (r: int)
    ensures 0 <= backoff <= 100 ==> 0 < r <= 100
    ensures backoff == 0 ==> r == 5
    ensures backoff > 0 ==> r == (if 2 * backoff > 100 then 100 else 2 * backoff)
  {
    if backoff == 0 then 5
    else if backoff * 2 > 100 then 100
    else backoff * 2
  }

  function Pow2(n: nat): nat {
    if n == 0 then 1 else 2 * Pow2(n - 1)
  }

  /** The backoff after n consecutive failures from a reset. */
  function BackoffAfter(n: nat): int {
    if n == 0 then 0 else NextBackoff(BackoffAfter(n - 1))
  }

  /** The schedule 0, 5, 10, 20, 40, 80, 100, 100, ...: 5 * 2^(n-1) capped at 100. */
  lemma {:induction false} BackoffSchedule(n: nat)
    ensures n == 0 ==> BackoffAfter(n) == 0
    ensures n > 0 ==> BackoffAfter(n) == (if 5 * Pow2(n - 1) > 100 then 100 else 5 * Pow2(n - 1))
  {
    if n > 1 {
      BackoffSchedule(n - 1);
      assert Pow2(n - 1) == 2 * Pow2(n - 2);
    }
  }

  lemma BackoffScheduleStart()
    ensures BackoffAfter(1) == 5 && BackoffAfter(2) == 10 && BackoffAfter(3) == 20
    ensures BackoffAfter(4) == 40 && BackoffAfter(5) == 80 && BackoffAfter(6) == 100
  {
  }

  /** From six failures on the backoff stays at its cap. */
  lemma {:induction false} BackoffSaturates(n: nat)
    requires n >= 6
    ensures BackoffAfter(n) == 100
  {
    if n > 6 {
      BackoffSaturates(n - 1);
    }
  }

  ////////////////////////////////////////////////////////////////////////////
  // setRecordingPreferredTuner

  /**
   * One setRecordingPreferredTuner call: the new tuner state and the priority
   * passed to setPreferredTuner, if any.  Switching to the recording priority
   * happens once until a reset switches back to the default.
   */
  function PreferredTuner(t: TunerState, need: bool, setdefault: bool,
                          recordingPriority: int, defaultPriority: int): (r: (TunerState, Option<int>))
    ensures !need ==> r == (t, None)
    ensures need && !setdefault ==> r.0.changeFrontend
    ensures need && setdefault ==> !r.0.changeFrontend
    ensures r.1.Some? <==> need && t.changeFrontend == setdefault
  {
    if !need then (t, None)
    else if !t.changeFrontend && !setdefault then
      (TunerState(true, t.advanced), Some(t.advanced.GetOr(recordingPriority)))
    else if t.changeFrontend && setdefault then
      (TunerState(false, None), Some(defaultPriority))
    else (t, None)
  }

  /** A set followed by a reset asks for the recording tuner, then the default, and leaves no advanced priority. */
  lemma TunerSetThenReset(t: TunerState, rec: int, def: int)
    requires !t.changeFrontend
    ensures var (t1, a) := PreferredTuner(t, true, false, rec, def);
      var (t2, b) := PreferredTuner(t1, true, true, rec, def);
      a == Some(t.advanced.GetOr(rec)) && b == Some(def) && t2 == TunerState(false, None)
  {
  }

  /** Repeating a set (or a reset) asks for nothing more. */
  lemma TunerStepIdempotent(t: TunerState, need: bool, setdefault: bool, rec: int, def: int)
    ensures var (t1, _) := PreferredTuner(t, need, setdefault, rec, def);
      PreferredTuner(t1, need, setdefault, rec, def) == (t1, None)
  {
  }

  ////////////////////////////////////////////////////////////////////////////
  // setAutoincreaseEnd

  /**
   * The new end an auto-increasing timer would take: a day (autoincreasetime)
   * from now, or 30 s before a following entry; on a conflict, 30 s before the
   * second simultaneous timer.  None when auto-increase is off or the end would
   * not lie after now.
   */
  function AutoincreaseEnd(autoincrease: bool, autoincreaseTime: int, now: int,
                           following: Option<int>, sanity: SanityVerdict): (r: Option<int>)
    ensures !autoincrease ==> r.None?
    ensures r.Some? ==> r.value > now
    ensures r.Some? && sanity.passes && following.Some? ==> r.value == following.value - 30
    ensures r.Some? && sanity.passes && following.None? ==> r.value == now + autoincreaseTime
    ensures r.Some? && !sanity.passes && sanity.simulBegins.Some? && |sanity.simulBegins.value| > 1
      ==> r.value == sanity.simulBegins.value[1] - 30
  {
    if !autoincrease then None
    else
      var candidate := match following case None => now + autoincreaseTime case Some(b) => b - 30;
      var newEnd :=
        if !sanity.passes && sanity.simulBegins.Some? && |sanity.simulBegins.value| > 1
        then sanity.simulBegins.value[1] - 30 else candidate;
      if newEnd <= now then None else Some(newEnd)
  }

  ////////////////////////////////////////////////////////////////////////////
  // activate

  function SetTuner(lc: Lifecycle, f: EntryFlags, env: ActivationEnv): (r: Lifecycle)
    ensures r == lc.(tuner := r.tuner) && (f.needChangePriority ==> r.tuner.changeFrontend)
  {
    lc.(tuner := PreferredTuner(lc.tuner, f.needChangePriority, false, env.recordingPriority, env.defaultPriority).0)
  }

  function ResetTuner(lc: Lifecycle, f: EntryFlags, env: ActivationEnv): (r: Lifecycle)
    ensures r == lc.(tuner := r.tuner) && (f.needChangePriority ==> !r.tuner.changeFrontend)
  {
    lc.(tuner := PreferredTuner(lc.tuner, f.needChangePriority, true, env.recordingPriority, env.defaultPriority).0)
  }

  /** do_backoff() followed by start_prepare = now + backoff. */
  function BackoffPrepare(lc: Lifecycle, now: int): (r: Lifecycle)
    ensures r == lc.(backoff := r.backoff, startPrepare := r.startPrepare)
    ensures r.startPrepare - now == r.backoff
    ensures 0 <= lc.backoff <= 100 ==> 0 < r.backoff <= 100
    ensures r.backoff == NextBackoff(lc.backoff)
  {
    var b := NextBackoff(lc.backoff);
    lc.(backoff := b, startPrepare := now + b)
  }

  /** tryPrepare: the new fields and whether the recording is prepared. */
  function TryPrepareSpec(lc: Lifecycle, f: EntryFlags, env: ActivationEnv): (r: (Lifecycle, bool))
    ensures r.0 == lc.(backoff := r.0.backoff, startPrepare := r.0.startPrepare, tuner := r.0.tuner)
    ensures r.0.backoff == lc.backoff || r.0.backoff == NextBackoff(lc.backoff)
    ensures r.1 <==> f.justplay || env.prepare == Prepared
  {
    if f.justplay then (lc, true)
    else match env.prepare
      case FilenameFailed => (BackoffPrepare(lc, env.now), false)
      case GroupUnresolved => (lc, false)
      case NoRecordService => (ResetTuner(SetTuner(lc, f, env), f, env), false)
      case RenamedFilenameFailed => (BackoffPrepare(SetTuner(lc, f, env), env.now), false)
      case PrepareRefused => (ResetTuner(BackoffPrepare(SetTuner(lc, f, env), env.now), f, env), false)
      case Prepared => (SetTuner(lc, f, env), true)
  }

  /** The step to Prepared: the disk check, then tryPrepare. */
  function PrepareStep(lc: Lifecycle, f: EntryFlags, env: ActivationEnv): (a: Activation)
    ensures a.lc.state == lc.state && !a.stopped
  {
    if !f.justplay && env.disk != DiskOk then DiskRefused(lc, env)
    else PrepareRecording(if f.justplay then lc else lc.(retryCounter := 0, errorNumber := 0), f, env)
  }

  /** A failed disk check: retried in 5 s while retries remain and the disk is not full, else the timer fails. */
  function DiskRefused(lc: Lifecycle, env: ActivationEnv): (a: Activation)
    ensures !a.stopped && a.lc.state == lc.state && a.lc.begin == lc.begin
    ensures a.lc.errorNumber == env.disk.ErrorNumber()
    ensures a.accepted <==> (env.disk.ErrorNumber() == 3 || lc.retryCounter >= 3)
    ensures !a.accepted ==> (a.lc.retryCounter, a.lc.startPrepare, a.lc.end, a.lc.failed)
                            == (lc.retryCounter + 1, env.now + 5, lc.end, lc.failed)
    ensures a.accepted ==> (a.lc.failed, a.lc.lastend, a.lc.end, a.lc.nextActivation, a.lc.backoff, a.lc.retryCounter)
                           == (true, lc.end, env.now + 5, env.now, 0, lc.retryCounter)
  {
    var errNo := env.disk.ErrorNumber();
    if errNo < 3 && lc.retryCounter < 3 then
      Activation(lc.(retryCounter := lc.retryCounter + 1, errorNumber := errNo, startPrepare := env.now + 5), false, false)
    else
      Activation(lc.(errorNumber := errNo, failed := true, nextActivation := env.now,
                     lastend := lc.end, end := env.now + 5, backoff := 0), true, false)
  }

  /** After the disk check: the optional zap, tryPrepare, and the handling of a failed prepare. */
  function PrepareRecording(lc1: Lifecycle, f: EntryFlags, env: ActivationEnv): (a: Activation)
    ensures a.lc.state == lc1.state && !a.stopped
  {
    var lc2 := if f.alwaysZap && env.zapBeforePrepare then SetTuner(lc1, f, env) else lc1;
    var (lc3, ok) := TryPrepareSpec(lc2, f, env);
    AfterTryPrepare(lc3, ok, f, env)
  }

  /**
   * A prepared recording waits for its begin; a failed prepare may zap to the
   * recording service on the first try, or once the timeshift dialog has been
   * answered.
   */
  function AfterTryPrepare(lc3: Lifecycle, ok: bool, f: EntryFlags, env: ActivationEnv): (a: Activation)
    ensures a.lc.state == lc3.state && !a.stopped && a.accepted == ok
  {
    if ok then Activation(lc3.(nextActivation := lc3.begin, backoff := 0), true, false)
    else if env.streamClients || !(lc3.firstTryPrepare || env.timeshiftAnswered) then Activation(lc3, false, false)
    else
      var lc4 := lc3.(firstTryPrepare := false);
      Activation(if !f.alwaysZap && env.zapAfterFailure then SetTuner(lc4, f, env) else lc4, false, false)
  }

  /** The step to Running: a cancelled or failed timer passes, a zap timer zaps, a recording starts. */
  function RunStep(lc: Lifecycle, f: EntryFlags, env: ActivationEnv): (a: Activation)
    ensures a.lc == lc.(backoff := a.lc.backoff, begin := a.lc.begin, tuner := a.lc.tuner) && !a.stopped
  {
    if f.cancelled || lc.failed then Activation(lc, true, false)
    else if f.justplay then Activation(lc, !env.zapDeferred, false)
    else
      var lc1 := ResetTuner(lc, f, env);
      if env.startError != 0 then
        var b := NextBackoff(lc1.backoff);
        Activation(lc1.(backoff := b, begin := env.now + b), false, false)
      else Activation(lc1, true, false)
  }

  /** The step to Ended: an auto-increase sends the timer one state back, otherwise it stops. */
  function EndStep(lc: Lifecycle, f: EntryFlags, env: ActivationEnv): (a: Activation)
    ensures a.lc == lc.(end := a.lc.end, state := a.lc.state) && a.accepted
  {
    match AutoincreaseEnd(f.autoincrease, f.autoincreaseTime, env.now, None, env.sanity)
    case Some(e) => Activation(lc.(end := e, state := lc.state - 1), true, false)
    case None => Activation(if lc.lastend != 0 && lc.failed then lc.(end := lc.lastend) else lc, true, true)
  }

  /**
   * activate(): the step from the current state to the next one.  The state
   * field itself only changes when an auto-increase sends the timer back one
   * step; the caller adds 1 when the step is accepted.
   */
  function ActivateSpec(lc: Lifecycle, f: EntryFlags, env: ActivationEnv): (a: Activation)
    ensures a.lc.state == lc.state
      || (a.lc.state == lc.state - 1 && lc.state + 1 >= StateEnded && a.accepted && !a.stopped)
    ensures a.stopped ==> a.accepted && a.lc.state == lc.state && lc.state + 1 >= StateEnded
    ensures lc.state + 1 < StateEnded ==> a.lc.end == lc.end || (a.accepted && a.lc.failed)
    ensures !(StateWaiting <= lc.state < StateFailed) ==> a == Activation(lc, false, false)
  {
    var next := lc.state + 1;
    if next == StatePrepared then PrepareStep(lc, f, env)
    else if next == StateRunning then RunStep(lc, f, env)
    else if next == StateEnded || next == StateFailed then EndStep(lc, f, env)
    else Activation(lc, false, false)
  }

  /** The bounds a timer keeps: a known state, backoff within its cap, retry counter at most 3. */
  predicate WellFormed(lc: Lifecycle) {
    StateWaiting <= lc.state <= StateFailed && 0 <= lc.backoff <= 100 && 0 <= lc.retryCounter <= 3
  }

  /** activate() keeps the bounds, and the state after the caller's increment is a known state. */
  lemma ActivateKeepsBounds(lc: Lifecycle, f: EntryFlags, env: ActivationEnv)
    requires WellFormed(lc)
    ensures var a := ActivateSpec(lc, f, env);
      WellFormed(a.lc) && a.lc.state <= lc.state
      && StateWaiting <= a.lc.state + (if a.accepted then 1 else 0) <= StateFailed
  {
  }

  /**
   * The disk check at the Prepared step: while the error is not "no space" and
   * fewer than three retries were made, the step is refused and retried in 5 s;
   * otherwise the timer fails, keeping its end in lastend and ending in 5 s.
   */
  lemma DiskCheckAtPrepare(lc: Lifecycle, f: EntryFlags, env: ActivationEnv)
    requires lc.state == StateWaiting && !f.justplay && env.disk != DiskOk
    ensures var a := ActivateSpec(lc, f, env);
      if env.disk.ErrorNumber() < 3 && lc.retryCounter < 3 then
        !a.accepted && a.lc == lc.(retryCounter := lc.retryCounter + 1,
                                   errorNumber := env.disk.ErrorNumber(), startPrepare := env.now + 5)
      else
        a.accepted && a.lc.failed && a.lc.lastend == lc.end && a.lc.end == env.now + 5
        && a.lc.backoff == 0 && a.lc.nextActivation == env.now && a.lc.begin == lc.begin
  {
  }

  /** Repeated "not mounted" answers are refused three times; the fourth fails the timer. */
  lemma {:induction false} FourthDiskFailureFails(lc: Lifecycle, f: EntryFlags, env: ActivationEnv)
    requires lc.state == StateWaiting && lc.retryCounter == 0 && !f.justplay && env.disk == NotMounted
    ensures var a1 := ActivateSpec(lc, f, env);
      var a2 := ActivateSpec(a1.lc, f, env);
      var a3 := ActivateSpec(a2.lc, f, env);
      var a4 := ActivateSpec(a3.lc, f, env);
      !a1.accepted && !a2.accepted && !a3.accepted && a4.accepted && a4.lc.failed
      && a4.lc.lastend == lc.end
  {
    DiskCheckAtPrepare(lc, f, env);
    var a1 := ActivateSpec(lc, f, env);
    DiskCheckAtPrepare(a1.lc, f, env);
    var a2 := ActivateSpec(a1.lc, f, env);
    DiskCheckAtPrepare(a2.lc, f, env);
    var a3 := ActivateSpec(a2.lc, f, env);
    DiskCheckAtPrepare(a3.lc, f, env);
  }

  /** A start error at the Running step backs off, moves begin to now + backoff and refuses the step. */
  lemma StartErrorBacksOff(lc: Lifecycle, f: EntryFlags, env: ActivationEnv)
    requires lc.state == StatePrepared && !f.cancelled && !lc.failed && !f.justplay && env.startError != 0
    ensures var a := ActivateSpec(lc, f, env);
      !a.accepted && a.lc.state == lc.state && a.lc.backoff == NextBackoff(lc.backoff)
      && a.lc.begin == env.now + a.lc.backoff && a.lc.end == lc.end
  {
  }

  /** A successful prepare waits for the begin time with the backoff reset. */
  lemma PrepareWaitsForBegin(lc: Lifecycle, f: EntryFlags, env: ActivationEnv)
    requires lc.state == StateWaiting && (f.justplay || env.disk == DiskOk) && (f.justplay || env.prepare == Prepared)
    ensures var a := ActivateSpec(lc, f, env);
      a.accepted && a.lc.nextActivation == lc.begin && a.lc.backoff == 0 && !a.stopped
  {
  }

  /**
   * A timer failed at the disk check runs straight through: the Running step is
   * accepted, and the Ended step (without auto-increase) stops it and restores
   * the end the failure had replaced.
   */
  lemma FailedTimerRestoresEnd(lc: Lifecycle, f: EntryFlags, env1: ActivationEnv, env2: ActivationEnv, env3: ActivationEnv)
    requires lc.state == StateWaiting && !f.justplay && !f.autoincrease && env1.disk == NoSpace && lc.end != 0
    ensures var a1 := ActivateSpec(lc, f, env1);
      var a2 := ActivateSpec(a1.lc.(state := a1.lc.state + 1), f, env2);
      var a3 := ActivateSpec(a2.lc.(state := a2.lc.state + 1), f, env3);
      a1.accepted && a1.lc.end == env1.now + 5 && a2.accepted && a3.accepted && a3.stopped
      && a3.lc.end == lc.end
  {
  }

  /** An accepted auto-increase moves the end past now and sends the state back one step. */
  lemma AutoincreaseSendsBack(lc: Lifecycle, f: EntryFlags, env: ActivationEnv)
    requires lc.state == StateRunning
    ensures var a := ActivateSpec(lc, f, env);
      var e := AutoincreaseEnd(f.autoincrease, f.autoincreaseTime, env.now, None, env.sanity);
      a.accepted
      && (e.Some? ==> a.lc.state == StatePrepared && a.lc.end == e.value && a.lc.end > env.now && !a.stopped)
      && (e.None? ==> a.lc.state == StateRunning && a.stopped)
  {
  }

  ////////////////////////////////////////////////////////////////////////////
  // RecordingsState and SetIconDisplay

  /** The front-panel recording symbol: absent, or a device with the highest symbol state it shows. */
  datatype IconDevice = NoIcon | Icon(maxStates: int)

  /** The text SetIconDisplay writes for a number of recordings, if the box has the symbol. */
  function IconText(icon: IconDevice, nrec: int): (r: Option<string>)
    ensures icon.NoIcon? <==> r.None?
    ensures icon.Icon? && nrec == 0 ==> r == Some("0")
    ensures icon.Icon? && 0 < nrec <= icon.maxStates ==> r == Some(IntToString(nrec))
    ensures icon.Icon? && nrec > icon.maxStates >= 0 ==> r == Some(IntToString(icon.maxStates))
    ensures icon.Icon? && nrec < 0 ==> r == Some("0")
    ensures icon.Icon? && icon.maxStates >= 0 ==> exists k :: 0 <= k <= icon.maxStates && r == Some(IntToString(k))
  {
    match icon
    case NoIcon => None
    case Icon(maxStates) =>
      assert IntToString(0) == "0";
      if nrec == 0 then Some("0")
      else
        var sym := if nrec > maxStates then maxStates else nrec;
        var sym' := if sym < 0 then 0 else sym;
        Some(IntToString(sym'))
  }

  /** The recordings counter after RecordingsState(alter) with alter in -1..1: 0 resets, never negative. */
  function Tally(n: int, alter: int): (r: int)
    ensures r >= 0
    ensures alter == 0 ==> r == 0
    ensures alter == 1 && n >= 0 ==> r == n + 1
    ensures alter == -1 && n > 0 ==> r == n - 1
    ensures alter == -1 && n <= 0 ==> r == 0
  {
    var m := if alter == 0 then 0 else n + alter;
    if m < 0 then 0 else m
  }

  /** Starting and then stopping a recording leaves the count as it was. */
  lemma TallyStartStop(n: nat)
    ensures Tally(Tally(n, 1), -1) == n
  {
  }

  /** The module-global n_recordings with the box's recording symbol. */
  class RecordingsTally {
    var nRecordings: int
    const icon: IconDevice

    /** RecordingsState(0) at start-up. */
    constructor(icon: IconDevice)
      ensures nRecordings == 0 && this.icon == icon
    {
      this.icon := icon;
      nRecordings := 0;
    }

    /** Adjusts the count by alter (ignored outside -1..1) and returns the text written to the symbol device. */
    method RecordingsState(alter: int) returns (written: Option<string>)
      modifies this`nRecordings
      ensures !(-1 <= alter <= 1) ==> nRecordings == old(nRecordings) && written.None?
      ensures -1 <= alter <= 1 ==> nRecordings == Tally(old(nRecordings), alter) && written == IconText(icon, nRecordings)
    {
      if !(-1 <= alter <= 1) {
        return None;
      }
      if alter == 0 {
        nRecordings := 0;
      } else {
        nRecordings := nRecordings + alter;
      }
      if nRecordings < 0 {
        nRecordings := 0;
      }
      written := SetIconDisplay(nRecordings);
    }

    method SetIconDisplay(nrec: int) returns (written: Option<string>)
      ensures written == IconText(icon, nrec)
    {
      if icon.NoIcon? {
        return None;
      }
      if nrec == 0 {
        return Some("0");
      }
      var sym := nrec;
      if sym > icon.maxStates {
        sym := icon.maxStates;
      }
      if sym < 0 {
        sym := 0;
      }
      written := Some(IntToString(sym));
    }
  }

  ////////////////////////////////////////////////////////////////////////////
  // The timer entry

  /** record_ecm/descramble 'notset': config.recording.ecm_data decides both. */
  datatype EcmData = DescrambledEcm | ScrambledEcm | Normal

  /** The EPG event found for a timer lacking a name, description or event id. */
  datatype EpgEvent = EpgEvent(name: string, shortDescription: string, extendedDescription: string, eventId: int)

  /** The begin and end after construction: a begin over two weeks old moves to now, an end before begin to begin. */
  function ClampWindow(begin: int, end: int, checkOldTimers: bool, now: int): (r: (int, int))
    ensures r.1 >= r.0
    ensures checkOldTimers && begin < now - 1209600 ==> r.0 == now
    ensures !(checkOldTimers && begin < now - 1209600) ==> r.0 == begin
    ensures end >= r.0 ==> r.1 == end
  {
    var b := if checkOldTimers && begin < now - 1209600 then now else begin;
    (b, if end < b then b else end)
  }

  /**
   * The description, name and event id after construction: when one of them is
   * missing and the EPG has an event, each missing one is taken from it, the
   * description from the short text or else the extended one.
   */
  function FillFromEpg(description: string, name: string, eit: Option<int>, epg: Option<EpgEvent>)
    : (r: (string, string, Option<int>))
    ensures epg.None? ==> r == (description, name, eit)
    ensures description != "" ==> r.0 == description
    ensures name != "" ==> r.1 == name
    ensures eit.Some? && eit.value != 0 ==> r.2 == eit
    ensures epg.Some? && description == "" ==>
      r.0 == if epg.value.shortDescription != "" then epg.value.shortDescription else epg.value.extendedDescription
    ensures epg.Some? && name == "" ==> r.1 == epg.value.name
    ensures epg.Some? && (eit.None? || eit.value == 0) ==> r.2 == Some(epg.value.eventId)
  {
    if epg.None? || (description != "" && name != "" && eit.Some? && eit.value != 0) then
      (description, name, eit)
    else
      var e := epg.value;
      var desc := if description != "" then description
                  else if e.shortDescription != "" then e.shortDescription
                  else e.extendedDescription;
      (desc, if name != "" then name else e.name,
       if eit.Some? && eit.value != 0 then eit else Some(e.eventId))
  }

  /**
   * descramble and record_ecm after construction: when both are 'notset'
   * (None), config.recording.ecm_data decides them; otherwise each keeps its
   * given value.
   */
  function EcmFlags(descramble: Option<int>, recordEcm: Option<int>, ecmData: EcmData): (r: (int, int))
    ensures descramble.None? && recordEcm.None? ==>
      r == match ecmData case DescrambledEcm => (1, 1) case ScrambledEcm => (0, 1) case Normal => (1, 0)
    ensures descramble.Some? ==> r.0 == descramble.value
    ensures recordEcm.Some? ==> r.1 == recordEcm.value
  {
    if descramble.None? && recordEcm.None? then
      match ecmData
      case DescrambledEcm => (1, 1)
      case ScrambledEcm => (0, 1)
      case Normal => (1, 0)
    else
      (descramble.GetOr(1), recordEcm.GetOr(1))
  }

  class RecordTimerEntry {
    // What is recorded
    var serviceRef: string
    var name: string
    var description: string
    var eit: Option<int>
    var dirname: Option<string>
    var tags: seq<string>
    var disabled: int
    var justplay: int
    var alwaysZap: int
    var afterEvent: AfterEvent
    var descramble: int
    var recordEcm: int
    var isAutoTimer: int
    var iceTimerId: Option<string>
    var renameRepeat: int
    var repeated: int
    var dontSave: bool
    var logEntries: seq<LogEntry>

    // Where it is in its life
    var state: int
    var begin: int
    var end: int
    var prepareTime: int
    var startPrepare: int
    var nextActivation: int
    var backoff: int
    var lastend: int
    var mountPathRetryCounter: int
    var mountPathErrorNumber: int
    var failed: bool
    var cancelled: bool
    var firstTryPrepare: bool
    var autoincrease: bool
    var autoincreaseTime: int
    var isStillRecording: bool
    var needChangePriorityFrontend: bool
    var changeFrontend: bool
    var advancedPriorityFrontend: Option<int>

    /**
     * RecordTimerEntry(...): clamps the window, keeps the service only when it is
     * recordable, fills a missing description, name or event id from the EPG, and
     * settles descramble/record_ecm from the configuration when both are unset.
     * The base-class part (not part of this model) is taken to start the timer
     * Waiting, not failed or cancelled, with zero backoff and no repeats.
     */
    constructor(serviceRef: string, recordable: bool, begin: int, end: int, name: string,
                description: string, eit: Option<int>, epg: Option<EpgEvent>,
                disabled: int, justplay: int, afterEvent: AfterEvent,
                checkOldTimers: bool, now: int, dirname: Option<string>, tags: seq<string>,
                descramble: Option<int>, recordEcm: Option<int>, ecmData: EcmData,
                isAutoTimer: int, iceTimerId: Option<string>, alwaysZap: int, renameRepeat: int,
                advancedPriority: Option<int>, recordingPriority: int, frontendPriority: int,
                prepareTime: int)
      ensures (this.begin, this.end) == ClampWindow(begin, end, checkOldTimers, now)
      ensures this.end >= this.begin && Valid()
      ensures this.serviceRef == (if recordable then serviceRef else "")
      ensures (state, backoff, failed, cancelled, repeated) == (StateWaiting, 0, false, false, 0)
      ensures (mountPathRetryCounter, mountPathErrorNumber, lastend) == (0, 0, 0)
      ensures (autoincrease, autoincreaseTime, changeFrontend, dontSave) == (false, 86400, false, false)
      ensures needChangePriorityFrontend
        <==> advancedPriority.Some? || (recordingPriority != -2 && recordingPriority != frontendPriority)
      ensures (this.descramble, this.recordEcm) == EcmFlags(descramble, recordEcm, ecmData)
      ensures (this.description, this.name, this.eit) == FillFromEpg(description, name, eit, epg)
      ensures (logEntries, this.tags, this.afterEvent, this.dirname) == ([], tags, afterEvent, dirname)
      ensures (this.justplay, this.alwaysZap, this.disabled, this.isAutoTimer, this.renameRepeat, this.prepareTime)
           == (justplay, alwaysZap, disabled, isAutoTimer, renameRepeat, prepareTime)
      ensures this.iceTimerId == iceTimerId
    {
      var window := ClampWindow(begin, end, checkOldTimers, now);
      this.begin := window.0;
      this.end := window.1;
      this.serviceRef := if recordable then serviceRef else "";
      dontSave := false;
      var filled := FillFromEpg(description, name, eit, epg);
      this.description, this.name, this.eit := filled.0, filled.1, filled.2;
      this.disabled := disabled;
      this.justplay := justplay;
      this.alwaysZap := alwaysZap;
      this.afterEvent := afterEvent;
      this.dirname := dirname;
      autoincrease := false;
      autoincreaseTime := 3600 * 24;
      this.tags := tags;
      mountPathRetryCounter := 0;
      mountPathErrorNumber := 0;
      lastend := 0;
      var ecm := EcmFlags(descramble, recordEcm, ecmData);
      this.descramble, this.recordEcm := ecm.0, ecm.1;
      this.renameRepeat := renameRepeat;
      advancedPriorityFrontend := advancedPriority;
      needChangePriorityFrontend := advancedPriority.Some?
        || (recordingPriority != -2 && recordingPriority != frontendPriority);
      changeFrontend := false;
      this.isAutoTimer := isAutoTimer;
      this.iceTimerId := iceTimerId;
      logEntries := [];
      this.prepareTime := prepareTime;
      state := StateWaiting;
      failed := false;
      cancelled := false;
      firstTryPrepare := true;
      repeated := 0;
      backoff := 0;
      startPrepare := window.0 - prepareTime;
      nextActivation := window.0 - prepareTime;
      isStillRecording := false;
    }

    function Snapshot(): Lifecycle
      reads this`state, this`begin, this`end, this`startPrepare, this`nextActivation,
            this`backoff, this`lastend, this`mountPathRetryCounter, this`mountPathErrorNumber,
            this`failed, this`firstTryPrepare, this`changeFrontend, this`advancedPriorityFrontend
    {
      Lifecycle(state, begin, end, startPrepare, nextActivation, backoff, lastend,
                mountPathRetryCounter, mountPathErrorNumber, failed, firstTryPrepare,
                TunerState(changeFrontend, advancedPriorityFrontend))
    }

    function Flags(): EntryFlags
      reads this`justplay, this`alwaysZap, this`cancelled, this`autoincrease, this`autoincreaseTime,
            this`needChangePriorityFrontend
    {
      EntryFlags(justplay != 0, alwaysZap != 0, cancelled, autoincrease, autoincreaseTime,
                 needChangePriorityFrontend)
    }

    /** The bounds activate() keeps: WellFormed of the snapshot. */
    predicate Valid()
      reads this`state, this`backoff, this`mountPathRetryCounter
    {
      StateWaiting <= state <= StateFailed && 0 <= backoff <= 100 && 0 <= mountPathRetryCounter <= 3
    }

    /** The base class's isRunning(). */
    predicate IsRunning()
      reads this`state
    {
      state == StateRunning
    }

    /**
     * The time of the next transition: the prepare time, then the begin, then
     * the end.  Only the five states occur; the key getNextActivation looks up
     * for any other one does not exist.
     */
    function NextActivation(): (t: int)
      reads this`state, this`startPrepare, this`begin, this`end
      ensures state == StateWaiting ==> t == startPrepare
      ensures state == StatePrepared ==> t == begin
      ensures state >= StateRunning ==> t == end
    {
      if state == StateWaiting then startPrepare
      else if state == StatePrepared then begin
      else end
    }

    /** getNextActivation: NextActivation, noting whether a recording still runs past now. */
    method GetNextActivation(now: int) returns (t: int)
      requires StateWaiting <= state <= StateFailed
      modifies this`isStillRecording
      ensures t == NextActivation()
      ensures isStillRecording <==> state >= StateRunning && end > now
    {
      isStillRecording := false;
      if state == StateEnded || state == StateFailed {
        if end > now {
          isStillRecording := true;
        }
        return end;
      }
      var nextState := state + 1;
      if nextState == StateEnded || nextState == StateFailed {
        if end > now {
          isStillRecording := true;
        }
      }
      if nextState == StatePrepared {
        t := startPrepare;
      } else if nextState == StateRunning {
        t := begin;
      } else {
        t := end;
      }
    }

    /** timeChanged: preparation restarts prepare_time before begin, with the backoff reset. */
    method TimeChanged()
      modifies this`startPrepare, this`backoff
      ensures startPrepare == begin - prepareTime && backoff == 0
    {
      startPrepare := begin - prepareTime;
      backoff := 0;
    }

    /**
     * abort(), from the base class (not part of this model): the end moves to
     * now, so that the timer stops, and the timer is marked cancelled.
     */
    method Abort(now: int)
      modifies this`end, this`cancelled
      ensures end == now && cancelled
    {
      end := now;
      cancelled := true;
    }

    method DoBackoff()
      modifies this`backoff
      ensures backoff == NextBackoff(old(backoff))
    {
      if backoff == 0 {
        backoff := 5;
      } else {
        backoff := backoff * 2;
        if backoff > 100 {
          backoff := 100;
        }
      }
    }

    /** setAutoincreaseEnd: true exactly when the end was moved, to AutoincreaseEnd. */
    method SetAutoincreaseEnd(now: int, following: Option<int>, sanity: SanityVerdict) returns (changed: bool)
      modifies this`end
      ensures var e := AutoincreaseEnd(autoincrease, autoincreaseTime, now, following, sanity);
        changed == e.Some? && end == (if changed then e.value else old(end))
    {
      if !autoincrease {
        return false;
      }
      var newEnd := match following case None => now + autoincreaseTime case Some(b) => b - 30;
      if !sanity.passes {
        if sanity.simulBegins.Some? && |sanity.simulBegins.value| > 1 {
          newEnd := sanity.simulBegins.value[1] - 30;
        }
      }
      if newEnd <= now {
        return false;
      }
      end := newEnd;
      changed := true;
    }

    /** setRecordingPreferredTuner: returns the priority handed to setPreferredTuner, if any. */
    method SetRecordingPreferredTuner(setdefault: bool, recordingPriority: int, defaultPriority: int)
      returns (request: Option<int>)
      modifies this`changeFrontend, this`advancedPriorityFrontend
      ensures (TunerState(changeFrontend, advancedPriorityFrontend), request)
        == PreferredTuner(old(TunerState(changeFrontend, advancedPriorityFrontend)),
                          needChangePriorityFrontend, setdefault, recordingPriority, defaultPriority)
    {
      request := None;
      if needChangePriorityFrontend {
        if !changeFrontend && !setdefault {
          request := Some(advancedPriorityFrontend.GetOr(recordingPriority));
          changeFrontend := true;
        } else if changeFrontend && setdefault {
          request := Some(defaultPriority);
          changeFrontend := false;
          advancedPriorityFrontend := None;
        }
      }
    }

    /** setRecordingPreferredTuner(setdefault), seen on the snapshot. */
    method ZapTuner(setdefault: bool, env: ActivationEnv)
      modifies this`changeFrontend, this`advancedPriorityFrontend
      ensures Snapshot() == if setdefault then ResetTuner(old(Snapshot()), Flags(), env)
                            else SetTuner(old(Snapshot()), Flags(), env)
    {
      var _ := SetRecordingPreferredTuner(setdefault, env.recordingPriority, env.defaultPriority);
    }

    /** do_backoff(), then the next try backoff seconds from now. */
    method StartBackoff(now: int)
      modifies this`backoff, this`startPrepare
      ensures Snapshot() == BackoffPrepare(old(Snapshot()), now)
    {
      DoBackoff();
      startPrepare := now + backoff;
    }

    method TryPrepare(env: ActivationEnv) returns (ok: bool)
      modifies this`backoff, this`startPrepare, this`changeFrontend, this`advancedPriorityFrontend
      ensures (Snapshot(), ok) == TryPrepareSpec(old(Snapshot()), Flags(), env)
    {
      if justplay != 0 {
        return true;
      }
      match env.prepare
      case FilenameFailed =>
        StartBackoff(env.now);
        return false;
      case GroupUnresolved =>
        return false;
      case NoRecordService =>
        ZapTuner(false, env);
        ZapTuner(true, env);
        return false;
      case RenamedFilenameFailed =>
        ZapTuner(false, env);
        StartBackoff(env.now);
        return false;
      case PrepareRefused =>
        ZapTuner(false, env);
        StartBackoff(env.now);
        ZapTuner(true, env);
        return false;
      case Prepared =>
        ZapTuner(false, env);
        return true;
    }

    /**
     * activate(): one step of the state machine, exactly as ActivateSpec says;
     * a stopped recording is taken off the recordings counter.
     */
    method Activate(env: ActivationEnv, tally: RecordingsTally) returns (accepted: bool)
      modifies this`state, this`begin, this`end, this`startPrepare, this`nextActivation,
               this`backoff, this`lastend, this`mountPathRetryCounter, this`mountPathErrorNumber,
               this`failed, this`firstTryPrepare, this`changeFrontend, this`advancedPriorityFrontend,
               tally`nRecordings
      ensures var a := ActivateSpec(old(Snapshot()), Flags(), env);
        Snapshot() == a.lc && accepted == a.accepted
        && tally.nRecordings == (if a.stopped then Tally(old(tally.nRecordings), -1) else old(tally.nRecordings))
    {
      var nextState := state + 1;
      if nextState == StatePrepared {
        accepted := ActivatePrepare(env);
      } else if nextState == StateRunning {
        accepted := ActivateRun(env);
      } else if nextState == StateEnded || nextState == StateFailed {
        accepted := ActivateEnd(env, tally);
      } else {
        accepted := false;
      }
    }

    method ActivatePrepare(env: ActivationEnv) returns (accepted: bool)
      modifies this`end, this`startPrepare, this`nextActivation,
               this`backoff, this`lastend, this`mountPathRetryCounter, this`mountPathErrorNumber,
               this`failed, this`firstTryPrepare, this`changeFrontend, this`advancedPriorityFrontend
      ensures var a := PrepareStep(old(Snapshot()), Flags(), env);
        Snapshot() == a.lc && accepted == a.accepted
    {
      if justplay == 0 && env.disk != DiskOk {
        accepted := ActivateDiskRefused(env);
        return;
      }
      if justplay == 0 {
        mountPathRetryCounter := 0;
        mountPathErrorNumber := 0;
      }
      accepted := ActivatePrepareRecording(env);
    }

    /** The disk check failed: count the retry or fail the timer. */
    method ActivateDiskRefused(env: ActivationEnv) returns (accepted: bool)
      modifies this`end, this`startPrepare, this`nextActivation, this`backoff, this`lastend,
               this`mountPathRetryCounter, this`mountPathErrorNumber, this`failed
      ensures var a := DiskRefused(old(Snapshot()), env);
        Snapshot() == a.lc && accepted == a.accepted
    {
      mountPathErrorNumber := env.disk.ErrorNumber();
      if mountPathErrorNumber < 3 && mountPathRetryCounter < 3 {
        mountPathRetryCounter := mountPathRetryCounter + 1;
        startPrepare := env.now + 5;
        return false;
      }
      failed := true;
      nextActivation := env.now;
      lastend := end;
      end := env.now + 5;
      backoff := 0;
      return true;
    }

    method ActivatePrepareRecording(env: ActivationEnv) returns (accepted: bool)
      modifies this`startPrepare, this`nextActivation, this`backoff,
               this`firstTryPrepare, this`changeFrontend, this`advancedPriorityFrontend
      ensures var a := PrepareRecording(old(Snapshot()), Flags(), env);
        Snapshot() == a.lc && accepted == a.accepted
    {
      ghost var lc1 := Snapshot();
      if alwaysZap != 0 && env.zapBeforePrepare {
        ZapTuner(false, env);
      }
      ghost var lc2 := Snapshot();
      assert lc2 == if Flags().alwaysZap && env.zapBeforePrepare then SetTuner(lc1, Flags(), env) else lc1;
      var ok := TryPrepare(env);
      assert (Snapshot(), ok) == TryPrepareSpec(lc2, Flags(), env);
      accepted := ActivateAfterTryPrepare(ok, env);
    }

    method ActivateAfterTryPrepare(ok: bool, env: ActivationEnv) returns (accepted: bool)
      modifies this`nextActivation, this`backoff, this`firstTryPrepare, this`changeFrontend,
               this`advancedPriorityFrontend
      ensures var a := AfterTryPrepare(old(Snapshot()), ok, Flags(), env);
        Snapshot() == a.lc && accepted == a.accepted
    {
      if ok {
        nextActivation := begin;
        backoff := 0;
        return true;
      }
      if env.streamClients {
        return false;
      }
      if firstTryPrepare || env.timeshiftAnswered {
        firstTryPrepare := false;
        if alwaysZap == 0 && env.zapAfterFailure {
          var _ := SetRecordingPreferredTuner(false, env.recordingPriority, env.defaultPriority);
        }
      }
      return false;
    }

    method ActivateRun(env: ActivationEnv) returns (accepted: bool)
      modifies this`begin, this`backoff, this`changeFrontend, this`advancedPriorityFrontend
      ensures var a := RunStep(old(Snapshot()), Flags(), env);
        Snapshot() == a.lc && accepted == a.accepted
    {
      if cancelled {
        return true;
      }
      if failed {
        return true;
      }
      if justplay != 0 {
        return !env.zapDeferred;
      }
      var _ := SetRecordingPreferredTuner(true, env.recordingPriority, env.defaultPriority);
      if env.startError != 0 {
        DoBackoff();
        begin := env.now + backoff;
        return false;
      }
      return true;
    }

    method ActivateEnd(env: ActivationEnv, tally: RecordingsTally) returns (accepted: bool)
      modifies this`state, this`end, tally`nRecordings
      ensures var a := EndStep(old(Snapshot()), Flags(), env);
        Snapshot() == a.lc && accepted == a.accepted
        && tally.nRecordings == (if a.stopped then Tally(old(tally.nRecordings), -1) else old(tally.nRecordings))
    {
      var extended := SetAutoincreaseEnd(env.now, None, env.sanity);
      if extended {
        state := state - 1;
        return true;
      }
      var _ := tally.RecordingsState(-1);
      if lastend != 0 && failed {
        end := lastend;
      }
      return true;
    }
  }
}
