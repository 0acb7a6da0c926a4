/**
 * The bookkeeping of the IceTV plugin's EPGFetcher: how recording events
 * become timer statuses, the queues of statuses that wait for a timer's IceTV
 * id and their expiry after a day, the range checks on the shows and timers
 * the IceTV server sends, the channel-to-service map, the field update of a
 * local timer from an IceTV timer, and the EPG batch size.  The REST calls,
 * the reactor threads and the translated texts are not part of this model: a
 * call of postStatus is recorded in a list, and a status message is the event
 * and error code whose texts it is made of.
 */
module IceTV {
  import opened Wrappers
  import opened Text
  import opened Numbers
  import opened Lists
  import opened TimerEntry

  const TimeMin := 946684800       // 2000-01-01 00:00:00 UTC
  const TimeMax := 2147483647      // the end of 32-bit Unix time
  const DurationMax := 1209600     // 14 days
  const Id16Min := 1
  const Id16Max := 0xFFFF
  const PaddingAllowance := 86400  // 1 day
  const NoError := 0

  ////////////////////////////////////////////////////////////////////////////
  // Recording events and the status they report

  /** The iRecordableService events the plugin tells apart; the others are OtherEvent. */
  datatype RecordEvent = Start | End | GstRecordEnded | RecordWriteError | RecordFailed | OtherEvent(code: int)

  predicate IsStartEvent(e: RecordEvent) { e == Start }
  predicate IsEndEvent(e: RecordEvent) { e == End || e == GstRecordEnded }
  predicate IsErrorEvent(e: RecordEvent) { e == RecordWriteError }

  datatype Status = Running | Completed | Failed

  /**
   * A status message: the text EVENT_CODES gives the event ("Unknown recording
   * event" for one it lacks), followed for a non-zero error code by ": " and
   * the text ERROR_CODES gives the error.
   */
  datatype Message = Message(event: RecordEvent, err: int)

  /** What postStatus is called with: the timer (by identity), its state and the message. */
  datatype Report = Report(entry: int, status: Status, message: Message)

  /** An entry of deferred_status or failed: an item and the time it was stored. */
  datatype Timed<T> = Timed(item: T, time: int)

  /** The keys of the two dictionaries: id() of a timer, of None, or of an event code. */
  datatype Ref = EntryRef(id: int) | NoEntry | EventRef(event: RecordEvent)

  /** What processEvent reads of the timer: its identity and whether it has an IceTV id. */
  datatype TimerRef = TimerRef(id: int, hasIceTimerId: bool)

  /**
   * The status a recording event reports, if any; flagged says whether the
   * timer has been marked failed by an earlier write error.
   */
  function Classify(event: RecordEvent, err: int, flagged: bool): (r: Option<(Status, Message)>)
    ensures r.Some? <==> IsStartEvent(event) || IsEndEvent(event) || IsErrorEvent(event)
    ensures r.Some? && r.value.0 == Running ==> err == NoError && IsStartEvent(event)
  {
    if err != NoError && (IsStartEvent(event) || IsEndEvent(event)) then Some((Failed, Message(RecordFailed, err)))
    else if IsStartEvent(event) then Some((Running, Message(event, err)))
    else if IsEndEvent(event) then Some((if flagged then Failed else Completed, Message(event, err)))
    else if IsErrorEvent(event) then Some((Failed, Message(event, err)))
    else None
  }

  /**
   * Every start, end and write-error event reports exactly one status and
   * every other event none: a start or end with an error fails, a clean start
   * runs, a clean end completes unless the timer was flagged, and a write
   * error fails.
   */
  lemma StatusOfEvent(event: RecordEvent, err: int, flagged: bool)
    ensures var c := Classify(event, err, flagged);
      (c.Some? <==> IsStartEvent(event) || IsEndEvent(event) || IsErrorEvent(event))
      && (c.Some? && err != NoError && !IsErrorEvent(event) ==> c.value == (Failed, Message(RecordFailed, err)))
      && (IsStartEvent(event) && err == NoError ==> c == Some((Running, Message(Start, NoError))))
      && (IsEndEvent(event) && err == NoError ==>
            c.Some? && (c.value.0 == Completed <==> !flagged) && c.value.0 != Running)
      && (IsErrorEvent(event) ==> c.Some? && c.value.0 == Failed)
      && (c.Some? && c.value.0 == Running ==> err == NoError)
  {
  }

  /** The state processEvent changes. */
  datatype Books = Books(deferred: map<Ref, seq<Timed<Report>>>,
                         failed: map<Ref, seq<Timed<Ref>>>,
                         posted: seq<Report>)

  function Queue<T>(d: map<Ref, seq<T>>, k: Ref): seq<T> {
    if k in d then d[k] else []
  }

  /** No key of deferred_status or failed holds an empty list. */
  predicate NoEmptyLists<T>(d: map<Ref, seq<T>>) {
    forall k | k in d :: d[k] != []
  }

  /**
   * processEvent with the write-error flag kept under key: the code keys it
   * by id(event) (FailedKeyAsWritten), the comment beside it by id(entry)
   * (FailedKey).  A clean end clears the flag; a write error sets it, holding
   * the key's object and the time, unless it is set already.
   */
  function EventStep(b: Books, entry: TimerRef, event: RecordEvent, err: int, now: int, key: Ref): (r: Books)
    ensures |b.posted| <= |r.posted| <= |b.posted| + 1 && r.posted[..|b.posted|] == b.posted
    ensures |r.posted| == |b.posted| + 1 <==> entry.hasIceTimerId && Classify(event, err, key in b.failed).Some?
    ensures forall k | k != key :: (k in r.failed <==> k in b.failed)
    ensures r.deferred.Keys <= b.deferred.Keys + {EntryRef(entry.id)}
  {
    var flagged := key in b.failed;
    var failed :=
      if err == NoError && IsEndEvent(event) && flagged then b.failed - {key}
      else if event == RecordWriteError && !flagged then b.failed[key := [Timed(key, now)]]
      else b.failed;
    match Classify(event, err, flagged)
    case None => b.(failed := failed)
    case Some(v) =>
      var report := Report(entry.id, v.0, v.1);
      if entry.hasIceTimerId then b.(failed := failed, posted := b.posted + [report])
      else
        var k := EntryRef(entry.id);
        b.(failed := failed, deferred := b.deferred[k := Queue(b.deferred, k) + [Timed(report, now)]])
  }

  function FailedKey(entry: TimerRef, event: RecordEvent): Ref { EntryRef(entry.id) }
  function FailedKeyAsWritten(entry: TimerRef, event: RecordEvent): Ref { EventRef(event) }

  /**
   * The comment's key is the same for every event of a timer; the key as
   * written differs from one event to the next, so a flag set on the write
   * error is never found at the end event.
   */
  lemma FailedKeys(entry: TimerRef, e1: RecordEvent, e2: RecordEvent)
    ensures FailedKey(entry, e1) == FailedKey(entry, e2)
    ensures e1 != e2 ==> FailedKeyAsWritten(entry, e1) != FailedKeyAsWritten(entry, e2)
    ensures FailedKeyAsWritten(entry, e1) != FailedKey(entry, e2)
  {
  }

  /**
   * A status goes to postStatus when the timer has its IceTV id and is queued
   * for the timer otherwise, after what is queued already; no other queue
   * changes, and the flags change only under key.  An event that reports no
   * status changes neither the queues nor what was posted.
   */
  lemma {:induction false} StatusGoesOneWay(b: Books, entry: TimerRef, event: RecordEvent, err: int, now: int, key: Ref)
    requires NoEmptyLists(b.deferred) && NoEmptyLists(b.failed)
    ensures var b2 := EventStep(b, entry, event, err, now, key);
      var c := Classify(event, err, key in b.failed);
      var k := EntryRef(entry.id);
      NoEmptyLists(b2.deferred) && NoEmptyLists(b2.failed)
      && (forall r | r != key :: (r in b2.failed <==> r in b.failed) && (r in b.failed ==> b2.failed[r] == b.failed[r]))
      && (forall r | r != k :: Queue(b2.deferred, r) == Queue(b.deferred, r))
      && (c.None? ==> b2.posted == b.posted && b2.deferred == b.deferred)
      && (c.Some? && entry.hasIceTimerId ==>
            b2.posted == b.posted + [Report(entry.id, c.value.0, c.value.1)] && b2.deferred == b.deferred)
      && (c.Some? && !entry.hasIceTimerId ==>
            b2.posted == b.posted && Queue(b2.deferred, k) == Queue(b.deferred, k) + [Timed(Report(entry.id, c.value.0, c.value.1), now)])
  {
    var b2 := EventStep(b, entry, event, err, now, key);
    var k := EntryRef(entry.id);
    forall r | r != k
      ensures Queue(b2.deferred, r) == Queue(b.deferred, r)
    {
    }
  }

  /**
   * With the flag kept per timer, a write error followed by an end without an
   * error reports the timer failed, and the end clears the flag.
   */
  lemma WriteErrorThenEndFails(b: Books, entry: TimerRef, errOfWrite: int, end: RecordEvent, t1: int, t2: int)
    requires IsEndEvent(end)
    ensures var e := RecordWriteError;
      var b1 := EventStep(b, entry, e, errOfWrite, t1, FailedKey(entry, e));
      var b2 := EventStep(b1, entry, end, NoError, t2, FailedKey(entry, end));
      FailedKey(entry, end) in b1.failed && FailedKey(entry, end) !in b2.failed
      && Classify(end, NoError, FailedKey(entry, end) in b1.failed) == Some((Failed, Message(end, NoError)))
  {
  }

  /**
   * As written, the same two events report the recording completed: the flag
   * is stored under the write-error event's code and looked up under the end
   * event's, so whatever the flags held before, an end finds none.
   */
  lemma WriteErrorForgottenAsWritten(b: Books, entry: TimerRef, errOfWrite: int, end: RecordEvent, t1: int, t2: int)
    requires IsEndEvent(end) && EventRef(end) !in b.failed
    ensures var e := RecordWriteError;
      var b1 := EventStep(b, entry, e, errOfWrite, t1, FailedKeyAsWritten(entry, e));
      var b2 := EventStep(b1, entry, end, NoError, t2, FailedKeyAsWritten(entry, end));
      FailedKeyAsWritten(entry, end) !in b1.failed
      && Classify(end, NoError, FailedKeyAsWritten(entry, end) in b1.failed) == Some((Completed, Message(end, NoError)))
  {
  }

  /** As written, only the write-error event's code is ever a key of failed. */
  lemma {:induction false} AsWrittenKeysOnlyWriteError(b: Books, entry: TimerRef, event: RecordEvent, err: int, now: int)
    requires forall r | r in b.failed :: r == EventRef(RecordWriteError)
    ensures var b2 := EventStep(b, entry, event, err, now, FailedKeyAsWritten(entry, event));
      forall r | r in b2.failed :: r == EventRef(RecordWriteError)
  {
  }

  ////////////////////////////////////////////////////////////////////////////
  // statusCleanup: doTimeouts

  /** The entries of a list stored at timeout or later, in their order. */
  function Recent<T>(w: seq<Timed<T>>, timeout: int): seq<Timed<T>> {
    if w == [] then []
    else (if w[0].time >= timeout then [w[0]] else []) + Recent(w[1..], timeout)
  }

  lemma {:induction false} RecentMembers<T>(w: seq<Timed<T>>, timeout: int)
    ensures forall x: Timed<T> :: x in Recent(w, timeout) <==> x in w && x.time >= timeout
    ensures (forall i | 0 <= i < |w| :: w[i].time >= timeout) ==> Recent(w, timeout) == w
  {
    if w != [] {
      RecentMembers(w[1..], timeout);
      assert w == [w[0]] + w[1..];
    }
  }

  predicate HasStale<T>(w: seq<Timed<T>>, timeout: int) {
    exists i | 0 <= i < |w| :: w[i].time < timeout
  }

  /**
   * doTimeouts(status, timeout): a list holding an entry older than timeout
   * keeps only its entries from timeout on, and goes when none is left.
   */
  function TimedOut<T>(status: map<Ref, seq<Timed<T>>>, timeout: int): map<Ref, seq<Timed<T>>> {
    map k | k in status && (status[k] == [] || Recent(status[k], timeout) != []) :: Recent(status[k], timeout)
  }

  /**
   * After doTimeouts every entry left is no older than timeout, every entry
   * that recent is left, and a key goes exactly when its list held entries
   * and all were older.
   */
  lemma TimedOutProperties<T>(status: map<Ref, seq<Timed<T>>>, timeout: int)
    ensures var r := TimedOut(status, timeout);
      (forall k | k in r :: forall x | x in r[k] :: x.time >= timeout)
      && (forall k | k in r :: r[k] == Recent(status[k], timeout))
      && (forall k :: k in r <==> k in status && (status[k] == [] || exists x | x in status[k] :: x.time >= timeout))
      && (NoEmptyLists(status) ==> NoEmptyLists(r))
  {
    var r := TimedOut(status, timeout);
    forall k | k in status {
      RecentFacts(status[k], timeout);
    }
    forall k | k in r
      ensures forall x: Timed<T> | x in r[k] :: x.time >= timeout
    {
      assert k in status && r[k] == Recent(status[k], timeout);
      RecentFacts(status[k], timeout);
      forall x: Timed<T> | x in r[k]
        ensures x.time >= timeout
      {
        RecentMember(status[k], timeout, x);
      }
    }
  }

  lemma RecentMember<T>(w: seq<Timed<T>>, timeout: int, x: Timed<T>)
    requires x in Recent(w, timeout)
    ensures x.time >= timeout
  {
    RecentMembers(w, timeout);
  }

  lemma RecentFacts<T>(w: seq<Timed<T>>, timeout: int)
    ensures Recent(w, timeout) == [] <==> !exists x | x in w :: x.time >= timeout
    ensures !HasStale(w, timeout) ==> Recent(w, timeout) == w
    ensures forall x: Timed<T> :: x in Recent(w, timeout) <==> x in w && x.time >= timeout
  {
    RecentMembers(w, timeout);
    var kept := Recent(w, timeout);
    if kept != [] {
      assert kept[0] in kept;
    }
    if exists x | x in w :: x.time >= timeout {
      var x :| x in w && x.time >= timeout;
      assert x in kept;
    }
  }

  ////////////////////////////////////////////////////////////////////////////
  // deferredPostStatus

  /** Pop the oldest queued status of key k, dropping the key once its queue is empty. */
  function Popped(d: map<Ref, seq<Timed<Report>>>, k: Ref): (map<Ref, seq<Timed<Report>>>, Option<Report>)
    requires NoEmptyLists(d)
  {
    if k !in d then (d, None)
    else if |d[k]| == 1 then (d - {k}, Some(d[k][0].item))
    else (d[k := d[k][1..]], Some(d[k][0].item))
  }

  /**
   * Statuses queued for a timer come out in the order they went in: popping
   * after a push gives the oldest queued status, or the pushed one when the
   * queue was empty, and leaves the pushed one last in the queue.
   */
  lemma PushThenPop(d: map<Ref, seq<Timed<Report>>>, k: Ref, x: Timed<Report>)
    requires NoEmptyLists(d)
    ensures var d2 := d[k := Queue(d, k) + [x]];
      NoEmptyLists(d2)
      && var (d3, p) := Popped(d2, k);
      NoEmptyLists(d3)
      && p == Some(if k in d then d[k][0].item else x.item)
      && (k in d ==> Queue(d3, k) == d[k][1..] + [x] && |Queue(d3, k)| == |d[k]|)
      && (k !in d ==> k !in d3)
      && (forall r | r != k :: Queue(d3, r) == Queue(d, r))
  {
  }

  /** A queue of n statuses is emptied, and its key dropped, by n pops. */
  lemma {:induction false} PopsDrainQueue(d: map<Ref, seq<Timed<Report>>>, k: Ref, n: nat)
    requires NoEmptyLists(d) && k in d && |d[k]| == n
    ensures Drained(d, k, n).0 == d - {k}
    ensures Drained(d, k, n).1 == seq(n, i requires 0 <= i < n => d[k][i].item)
    decreases n
  {
    var (d1, p) := Popped(d, k);
    if n == 1 {
    } else {
      PopsDrainQueue(d1, k, n - 1);
      assert d1 - {k} == d - {k};
    }
  }

  /** n pops of key k, with what they post. */
  function Drained(d: map<Ref, seq<Timed<Report>>>, k: Ref, n: nat): (map<Ref, seq<Timed<Report>>>, seq<Report>)
    requires NoEmptyLists(d)
    decreases n
  {
    if n == 0 then (d, [])
    else
      var (d1, p) := Popped(d, k);
      var (d2, ps) := Drained(d1, k, n - 1);
      (d2, (if p.Some? then [p.value] else []) + ps)
  }

  ////////////////////////////////////////////////////////////////////////////
  // The fetcher's status state

  class EPGFetcher {
    var deferredStatus: map<Ref, seq<Timed<Report>>>
    var failed: map<Ref, seq<Timed<Ref>>>
    /** The calls of postStatus made so far, each with its timer, state and message. */
    var posted: seq<Report>

    function State(): Books
      reads this
    {
      Books(deferredStatus, failed, posted)
    }

    /** No queue and no flag list is empty, so deferredPostStatus always has a status to pop. */
    predicate Valid()
      reads this
    {
      NoEmptyLists(deferredStatus) && NoEmptyLists(failed)
    }

    /**
     * EPGFetcher(): each timer recording at startup that the plugin handles
     * (given by identity, in timer_list order) gets a "running" status queued
     * under id(None).
     */
    constructor(running: seq<int>, now: int)
      ensures Valid() && failed == map[] && posted == []
      ensures running == [] ==> deferredStatus == map[]
      ensures running != [] ==>
        deferredStatus == map[NoEntry := seq(|running|, i requires 0 <= i < |running| =>
                                               Timed(Report(running[i], Running, Message(Start, NoError)), now))]
    {
      var queued: seq<Timed<Report>> := [];
      var i := 0;
      while i < |running|
        invariant i <= |running|
        invariant queued == seq(i, j requires 0 <= j < i => Timed(Report(running[j], Running, Message(Start, NoError)), now))
      {
        queued := queued + [Timed(Report(running[i], Running, Message(Start, NoError)), now)];
        i := i + 1;
      }
      deferredStatus := if queued == [] then map[] else map[NoEntry := queued];
      failed := map[];
      posted := [];
    }

    /** processEvent(entry, event, err), with the flag kept per timer. */
    method ProcessEvent(entry: TimerRef, event: RecordEvent, err: int, now: int)
      requires Valid()
      modifies this
      ensures Valid()
      ensures State() == EventStep(old(State()), entry, event, err, now, FailedKey(entry, event))
    {
      var key := FailedKey(entry, event);
      var state: Option<Status> := None;
      var message: Option<Message> := None;
      if err != NoError && (IsStartEvent(event) || IsEndEvent(event)) {
        state := Some(Failed);
        message := Some(Message(RecordFailed, err));
      } else if IsStartEvent(event) {
        state := Some(if err == NoError then Running else Failed);
      } else if IsEndEvent(event) {
        if err == NoError && key !in failed {
          state := Some(Completed);
        } else {
          state := Some(Failed);
          if key in failed {
            failed := failed - {key};
          }
        }
      } else if IsErrorEvent(event) {
        state := Some(Failed);
        if event == RecordWriteError && key !in failed {
          failed := failed[key := [Timed(key, now)]];
        }
      }
      if state.Some? {
        var text := if message.Some? then message.value else Message(event, err);
        var report := Report(entry.id, state.value, text);
        if entry.hasIceTimerId {
          posted := posted + [report];
        } else {
          var k := EntryRef(entry.id);
          deferredStatus := deferredStatus[k := Queue(deferredStatus, k) + [Timed(report, now)]];
        }
      }
    }

    /** doTimeouts(status, timeout), over a snapshot of the keys. */
    static method DoTimeouts<T>(status: map<Ref, seq<Timed<T>>>, timeout: int) returns (r: map<Ref, seq<Timed<T>>>)
      ensures r == TimedOut(status, timeout)
    {
      r := status;
      var todo := status.Keys;
      while todo != {}
        invariant todo <= status.Keys
        invariant forall k :: k in r <==> k in status && (k in todo || k in TimedOut(status, timeout))
        invariant forall k | k in r :: r[k] == if k in todo then status[k] else TimedOut(status, timeout)[k]
        decreases todo
      {
        var tid :| tid in todo;
        var worklist := status[tid];
        RecentFacts(worklist, timeout);
        if worklist != [] && HasStale(worklist, timeout) {
          var kept := Recent(worklist, timeout);
          r := r[tid := kept];
          if kept == [] {
            r := r - {tid};
          }
        }
        todo := todo - {tid};
      }
    }

    /** statusCleanup(): drops statuses and flags older than a day. */
    method StatusCleanup(now: int)
      requires Valid()
      modifies this
      ensures Valid() && posted == old(posted)
      ensures deferredStatus == TimedOut(old(deferredStatus), now - 86400)
      ensures failed == TimedOut(old(failed), now - 86400)
    {
      var old24h := now - 24 * 60 * 60;
      TimedOutProperties(deferredStatus, old24h);
      TimedOutProperties(failed, old24h);
      deferredStatus := DoTimeouts(deferredStatus, old24h);
      failed := DoTimeouts(failed, old24h);
    }

    /** deferredPostStatus(entry): posts the oldest status queued under tid. */
    method DeferredPostStatus(tid: Ref)
      requires Valid()
      modifies this`deferredStatus, this`posted
      ensures Valid()
      ensures deferredStatus == Popped(old(deferredStatus), tid).0
      ensures posted == old(posted) + match Popped(old(deferredStatus), tid).1 case None => [] case Some(p) => [p]
    {
      if tid in deferredStatus {
        var queue := deferredStatus[tid];
        posted := posted + [queue[0].item];
        deferredStatus := deferredStatus[tid := queue[1..]];
        if deferredStatus[tid] == [] {
          deferredStatus := deferredStatus - {tid};
        }
      }
    }
  }

  ////////////////////////////////////////////////////////////////////////////
  // convertChanShows: the range checks on incoming shows

  /**
   * What convertChanShows reads of a show: eitId is None when the show has no
   * "eit_id", deletedRecord the value of "deleted_record" if present.
   */
  datatype Show = Show(id: string, eitId: Option<int>, deletedRecord: Option<int>,
                       startUnix: int, stopUnix: int, title: string)

  /** The part of an EPG event the checks settle: its start, duration, title and event id. */
  datatype ShowEvent = ShowEvent(start: int, duration: int, title: string, eventId: int)

  predicate InTimeRange(t: int) { TimeMin <= t <= TimeMax }
  predicate IsId16(n: int) { Id16Min <= n <= Id16Max }

  /** The show's own event id when it is a valid 16-bit id, otherwise one derived from its show id. */
  function ShowEventId(s: Show, showIdToEventId: string -> int): (e: int)
    ensures IsId16(e) || e == showIdToEventId(s.id)
    ensures s.eitId.Some? && IsId16(s.eitId.value) ==> e == s.eitId.value
  {
    var e := s.eitId.GetOr(-1);
    if IsId16(e) then e else showIdToEventId(s.id)
  }

  /**
   * The event convertChanShows makes of one show: a deleted record becomes a
   * 10 s event at time 999, and any other show whose start or stop lies
   * outside the 32-bit EPG time range, or whose duration is not positive or
   * longer than 14 days, is dropped.  Every event kept lies in the EPG time
   * range with a legal duration, unless it is the deletion marker.
   */
  function ConvertedShow(s: Show, showIdToEventId: string -> int): (r: Option<ShowEvent>)
    ensures r.Some? ==> r.value.title == s.title && r.value.eventId == ShowEventId(s, showIdToEventId)
    ensures s.deletedRecord == Some(1) ==> r == Some(ShowEvent(999, 10, s.title, ShowEventId(s, showIdToEventId)))
    ensures s.deletedRecord != Some(1) && r.Some? ==>
      r.value.start == s.startUnix && r.value.start + r.value.duration == s.stopUnix
      && InTimeRange(r.value.start) && InTimeRange(r.value.start + r.value.duration)
      && 0 < r.value.duration <= DurationMax
    ensures (s.deletedRecord != Some(1) && InTimeRange(s.startUnix) && InTimeRange(s.stopUnix)
             && 0 < s.stopUnix - s.startUnix <= DurationMax) ==> r.Some?
  {
    var eventId := ShowEventId(s, showIdToEventId);
    if s.deletedRecord == Some(1) then Some(ShowEvent(999, 10, s.title, eventId))
    else
      var duration := s.stopUnix - s.startUnix;
      var timeError := !InTimeRange(s.startUnix) || !InTimeRange(s.stopUnix) || !(0 < duration <= DurationMax);
      if timeError then None else Some(ShowEvent(s.startUnix, duration, s.title, eventId))
  }

  /** The events of a list of shows, in order. */
  function ConvertedShows(shows: seq<Show>, showIdToEventId: string -> int): (r: seq<ShowEvent>)
    ensures |r| <= |shows|
  {
    if shows == [] then []
    else
      var last := ConvertedShow(shows[|shows| - 1], showIdToEventId);
      ConvertedShows(shows[..|shows| - 1], showIdToEventId) + (if last.Some? then [last.value] else [])
  }

  /** Every event comes from a show of the list, and every show that passes the checks gives its event. */
  lemma {:induction false} ConvertedShowsMembers(shows: seq<Show>, showIdToEventId: string -> int)
    ensures var r := ConvertedShows(shows, showIdToEventId);
      (forall e | e in r :: exists i | 0 <= i < |shows| :: ConvertedShow(shows[i], showIdToEventId) == Some(e))
      && (forall i | 0 <= i < |shows| :: ConvertedShow(shows[i], showIdToEventId).Some? ==>
            ConvertedShow(shows[i], showIdToEventId).value in r)
      && |r| <= |shows|
  {
    if shows != [] {
      var init := shows[..|shows| - 1];
      ConvertedShowsMembers(init, showIdToEventId);
      assert forall i | 0 <= i < |init| :: init[i] == shows[i];
    }
  }

  /** convertChanShows(shows, mapping_errors), without the genres and ratings. */
  method ConvertChanShows(shows: seq<Show>, showIdToEventId: string -> int) returns (res: seq<ShowEvent>)
    ensures res == ConvertedShows(shows, showIdToEventId)
  {
    res := [];
    var i := 0;
    while i < |shows|
      invariant i <= |shows|
      invariant res == ConvertedShows(shows[..i], showIdToEventId)
    {
      var show := shows[i];
      assert shows[..i + 1][..i] == shows[..i];
      var eventId := show.eitId.GetOr(-1);
      if !(Id16Min <= eventId <= Id16Max) {
        eventId := showIdToEventId(show.id);
      }
      var start, duration;
      if show.deletedRecord.Some? && show.deletedRecord.value == 1 {
        start := 999;
        duration := 10;
      } else {
        start := show.startUnix;
        var stop := show.stopUnix;
        duration := stop - start;
        var timeError := false;
        if !(TimeMin <= start <= TimeMax) {
          timeError := true;
        }
        if !(TimeMin <= stop <= TimeMax) {
          timeError := true;
        }
        if !(0 < duration <= DurationMax) {
          timeError := true;
        }
        if timeError {
          i := i + 1;
          continue;
        }
      }
      res := res + [ShowEvent(start, duration, show.title, eventId)];
      i := i + 1;
    }
    assert shows[..i] == shows;
  }

  ////////////////////////////////////////////////////////////////////////////
  // processTimers: the range checks on incoming timers

  /** What processTimers reads of an IceTV timer before acting on it. */
  datatype IceTimer = IceTimer(id: string, name: string, startTime: int, durationMinutes: int, channelId: int)

  /** A timer sent back to the server with its new state and message. */
  datatype TimerReply = TimerReply(timer: IceTimer, state: string, message: string)

  const IllegalTimeMessage := "Illegal start time or duration"

  /**
   * The check of processTimers: a day before the start and a day after the
   * stop must lie in the EPG time range, and the duration must be positive
   * and at most 14 days.
   */
  predicate TimerTimeError(start: int, duration: int): (r: bool)
    ensures !r ==> 0 < duration <= DurationMax && start < start + duration
    ensures !InTimeRange(start) ==> r
  {
    !InTimeRange(start - PaddingAllowance) || !InTimeRange(start + duration + PaddingAllowance)
    || !(0 < duration <= DurationMax)
  }

  /**
   * A timer passes exactly when it starts at least a day after the start of
   * the EPG time range, stops at least a day before its end, and lasts between
   * one second and 14 days.
   */
  lemma TimerWindowClosedForm(start: int, duration: int)
    ensures !TimerTimeError(start, duration) <==>
      TimeMin + PaddingAllowance <= start && 0 < duration <= DurationMax
      && start + duration <= TimeMax - PaddingAllowance
  {
  }

  /**
   * A timer that passes keeps its recording window, with margins of at most
   * a day on either side, inside the EPG time range.
   */
  lemma PaddedWindowInRange(start: int, duration: int, before: int, after: int)
    requires !TimerTimeError(start, duration)
    requires 0 <= before <= PaddingAllowance && 0 <= after <= PaddingAllowance
    ensures InTimeRange(start - before) && InTimeRange(start + duration + after)
    ensures start - before < start + duration + after
  {
  }

  function Duration(t: IceTimer): int { 60 * t.durationMinutes }

  /** The replies for the timers that fail the check, in order. */
  function Rejected(timers: seq<IceTimer>): seq<TimerReply> {
    if timers == [] then []
    else
      var t := timers[|timers| - 1];
      Rejected(timers[..|timers| - 1])
        + (if TimerTimeError(t.startTime, Duration(t)) then [TimerReply(t, "failed", IllegalTimeMessage)] else [])
  }

  /** The timers that pass the check, in order. */
  function Accepted(timers: seq<IceTimer>): seq<IceTimer> {
    if timers == [] then []
    else
      var t := timers[|timers| - 1];
      Accepted(timers[..|timers| - 1]) + (if TimerTimeError(t.startTime, Duration(t)) then [] else [t])
  }

  /**
   * Every timer is either rejected with the illegal-time reply or passed on,
   * never both: the replies are failures of exactly the timers that fail the
   * check, and the timers passed on are exactly the others.
   */
  lemma {:induction false} TimersPartitioned(timers: seq<IceTimer>)
    ensures |Rejected(timers)| + |Accepted(timers)| == |timers|
    ensures forall t :: t in Accepted(timers) <==> t in timers && !TimerTimeError(t.startTime, Duration(t))
    ensures forall r | r in Rejected(timers) ::
      r.timer in timers && TimerTimeError(r.timer.startTime, Duration(r.timer))
      && r.state == "failed" && r.message == IllegalTimeMessage
    ensures forall t | t in timers && TimerTimeError(t.startTime, Duration(t)) ::
      TimerReply(t, "failed", IllegalTimeMessage) in Rejected(timers)
  {
    if timers != [] {
      var init := timers[..|timers| - 1];
      TimersPartitioned(init);
      assert timers == init + [timers[|timers| - 1]];
    }
  }

  /**
   * The check at the head of processTimers' loop: a timer that fails it is
   * marked failed and queued for the server; the others go on to be acted on.
   */
  method ScreenTimers(timers: seq<IceTimer>) returns (updateQueue: seq<TimerReply>, passed: seq<IceTimer>)
    ensures updateQueue == Rejected(timers) && passed == Accepted(timers)
  {
    updateQueue := [];
    passed := [];
    var i := 0;
    while i < |timers|
      invariant i <= |timers|
      invariant updateQueue == Rejected(timers[..i]) && passed == Accepted(timers[..i])
    {
      var iceTimer := timers[i];
      assert timers[..i + 1][..i] == timers[..i];
      var start := iceTimer.startTime;
      var duration := 60 * iceTimer.durationMinutes;
      var timeError := false;
      if !(TimeMin <= start - PaddingAllowance <= TimeMax) {
        timeError := true;
      }
      if !(TimeMin <= start + duration + PaddingAllowance <= TimeMax) {
        timeError := true;
      }
      if !(0 < duration <= DurationMax) {
        timeError := true;
      }
      if timeError {
        updateQueue := updateQueue + [TimerReply(iceTimer, "failed", IllegalTimeMessage)];
      } else {
        passed := passed + [iceTimer];
      }
      i := i + 1;
    }
    assert timers[..i] == timers;
  }

  ////////////////////////////////////////////////////////////////////////////
  // makeChanServMap

  /** A DVB service triplet: original network id, transport stream id, service id. */
  datatype Triplet = Triplet(onid: int, tsid: int, sid: int)

  /** What makeChanServMap reads of an IceTV channel. */
  datatype Channel = Channel(id: int, name: string, nameShort: Option<string>, knownNames: seq<string>,
                             dvbTriplets: Option<seq<Triplet>>, dvbtInfo: Option<seq<Triplet>>)

  predicate ValidTriplet(t: Triplet) { IsId16(t.onid) && IsId16(t.tsid) && IsId16(t.sid) }

  /** The channel's triplets: "dvb_triplets" if present, else "dvbt_info", else none. */
  function ListedTriplets(c: Channel): seq<Triplet> {
    if c.dvbTriplets.Some? then c.dvbTriplets.value
    else if c.dvbtInfo.Some? then c.dvbtInfo.value
    else []
  }

  /** The triplets whose three ids are all valid 16-bit ids, in order. */
  function ValidTriplets(ts: seq<Triplet>): (r: seq<Triplet>)
    ensures forall t :: t in r <==> t in ts && ValidTriplet(t)
  {
    if ts == [] then []
    else ValidTriplets(ts[..|ts| - 1]) + (if ValidTriplet(ts[|ts| - 1]) then [ts[|ts| - 1]] else [])
  }

  /** xs appended to l one by one, each only when the list does not hold it yet. */
  function AddNew<T(==)>(l: seq<T>, xs: seq<T>): seq<T> {
    if xs == [] then l
    else
      var r := AddNew(l, xs[..|xs| - 1]);
      if xs[|xs| - 1] in r then r else r + [xs[|xs| - 1]]
  }

  /**
   * AddNew keeps l as it is, adds exactly the elements of xs it lacks, and
   * never adds an element twice.
   */
  lemma {:induction false} AddNewProperties<T>(l: seq<T>, xs: seq<T>)
    ensures var r := AddNew(l, xs);
      |l| <= |r| && r[..|l|] == l
      && (forall y :: y in r <==> y in l || y in xs)
      && (forall i | |l| <= i < |r| :: r[i] !in r[..i])
  {
    if xs != [] {
      var init := xs[..|xs| - 1];
      AddNewProperties(l, init);
      var p := AddNew(l, init);
      assert xs == init + [xs[|xs| - 1]];
      if xs[|xs| - 1] !in p {
        var r := p + [xs[|xs| - 1]];
        assert r[..|p|] == p;
        assert r[..|l|] == p[..|l|];
      }
    }
  }

  /** A name as makeChanServMap compares it: stripped and upper-cased. */
  function Canonical(n: string): string { Upper(Strip(n)) }

  /**
   * A canonical name is no longer than the name, has no whitespace at either
   * end and is its own canonical form.
   */
  lemma CanonicalProperties(n: string)
    ensures var r := Canonical(n);
      |r| <= |n| && (r == [] || (!IsWhitespace(r[0]) && !IsWhitespace(r[|r| - 1])))
      && Canonical(r) == r
  {
    StripProperties(n);
    var r := Canonical(n);
    if r != [] {
      StripOfTrimmed(r);
    }
    assert Upper(r) == r;
  }

  function CanonicalAll(ns: seq<string>): seq<string> {
    seq(|ns|, i requires 0 <= i < |ns| => Canonical(ns[i]))
  }

  /** The channel's short name, if any, then its known names. */
  function OtherNames(c: Channel): seq<string> {
    (if c.nameShort.Some? then [c.nameShort.value] else []) + c.knownNames
  }

  /** The channel's names: its name, then each of its other names that is new. */
  function ChannelNames(c: Channel): seq<string> {
    AddNew([Canonical(c.name)], CanonicalAll(OtherNames(c)))
  }

  /** The channel's names start with its own name and hold each of its names once. */
  lemma ChannelNamesDistinct(c: Channel)
    ensures var ns := ChannelNames(c);
      |ns| >= 1 && ns[0] == Canonical(c.name) && forall i, j | 0 <= i < j < |ns| :: ns[i] != ns[j]
  {
    var ns := ChannelNames(c);
    AddNewProperties([Canonical(c.name)], CanonicalAll(OtherNames(c)));
    forall i, j | 0 <= i < j < |ns|
      ensures ns[i] != ns[j]
    {
      assert ns[i] in ns[..j];
    }
  }

  /** The channel's names are its own name and its other names, stripped and upper-cased. */
  lemma ChannelNamesMembers(c: Channel)
    ensures forall n :: n in ChannelNames(c) <==>
      (n == Canonical(c.name) || exists k | 0 <= k < |OtherNames(c)| :: n == Canonical(OtherNames(c)[k]))
  {
    var ca := CanonicalAll(OtherNames(c));
    AddNewProperties([Canonical(c.name)], ca);
    forall n | n in ca
      ensures exists k | 0 <= k < |OtherNames(c)| :: n == Canonical(OtherNames(c)[k])
    {
      var k :| 0 <= k < |ca| && ca[k] == n;
    }
    forall k | 0 <= k < |OtherNames(c)|
      ensures Canonical(OtherNames(c)[k]) in ca
    {
      assert ca[k] == Canonical(OtherNames(c)[k]);
    }
  }

  /** The scan map's triplets for the names it knows, name by name. */
  function Matched(names: seq<string>, nameMap: map<string, seq<Triplet>>): seq<Triplet> {
    if names == [] then []
    else
      var n := names[|names| - 1];
      Matched(names[..|names| - 1], nameMap) + (if n in nameMap then nameMap[n] else [])
  }

  lemma {:induction false} MatchedMembers(names: seq<string>, nameMap: map<string, seq<Triplet>>)
    ensures forall t :: t in Matched(names, nameMap) <==> exists n | n in names && n in nameMap :: t in nameMap[n]
  {
    if names != [] {
      var init := names[..|names| - 1];
      MatchedMembers(init, nameMap);
      assert names == init + [names[|names| - 1]];
    }
  }

  /** res[channel_id] after the channel: its valid triplets appended, then the new ones matched by name. */
  function ChannelList(res: map<int, seq<Triplet>>, c: Channel, nameMap: map<string, seq<Triplet>>): seq<Triplet> {
    var direct := (if c.id in res then res[c.id] else []) + ValidTriplets(ListedTriplets(c));
    AddNew(direct, Matched(ChannelNames(c), nameMap))
  }

  function WithChannel(res: map<int, seq<Triplet>>, c: Channel, nameMap: map<string, seq<Triplet>>): map<int, seq<Triplet>> {
    var l := ChannelList(res, c, nameMap);
    if l == [] then res else res[c.id := l]
  }

  /** makeChanServMap(channels), given the scan's services by upper-cased name. */
  function ChanServMap(channels: seq<Channel>, nameMap: map<string, seq<Triplet>>): (r: map<int, seq<Triplet>>)
    ensures forall k | k in r :: r[k] != []
  {
    if channels == [] then map[]
    else WithChannel(ChanServMap(channels[..|channels| - 1], nameMap), channels[|channels| - 1], nameMap)
  }

  /** A triplet a channel contributes: one of its valid triplets, or one the scan map gives one of its names. */
  predicate Contributes(c: Channel, t: Triplet, nameMap: map<string, seq<Triplet>>) {
    (t in ListedTriplets(c) && ValidTriplet(t))
    || exists n | n in ChannelNames(c) && n in nameMap :: t in nameMap[n]
  }

  /** The list a channel leaves: what its id held before, and what it contributes. */
  lemma ChannelListMembers(prev: map<int, seq<Triplet>>, c: Channel, nameMap: map<string, seq<Triplet>>)
    ensures forall t :: t in ChannelList(prev, c, nameMap) <==>
      (c.id in prev && t in prev[c.id]) || Contributes(c, t, nameMap)
  {
    var direct := (if c.id in prev then prev[c.id] else []) + ValidTriplets(ListedTriplets(c));
    AddNewProperties(direct, Matched(ChannelNames(c), nameMap));
    MatchedMembers(ChannelNames(c), nameMap);
  }

  /** The map lists t for channel id. */
  predicate MapsTo(res: map<int, seq<Triplet>>, id: int, t: Triplet) {
    id in res && t in res[id]
  }

  /** Adding a channel keeps every list non-empty and adds to its id's list exactly what it contributes. */
  lemma WithChannelAt(prev: map<int, seq<Triplet>>, c: Channel, nameMap: map<string, seq<Triplet>>, id: int, t: Triplet)
    ensures MapsTo(WithChannel(prev, c, nameMap), id, t) <==>
      MapsTo(prev, id, t) || (id == c.id && Contributes(c, t, nameMap))
  {
    ChannelListMembers(prev, c, nameMap);
  }

  lemma WithChannelNonEmpty(prev: map<int, seq<Triplet>>, c: Channel, nameMap: map<string, seq<Triplet>>)
    requires forall id | id in prev :: prev[id] != []
    ensures forall id | id in WithChannel(prev, c, nameMap) :: WithChannel(prev, c, nameMap)[id] != []
  {
  }

  lemma {:induction false} ChanServMapNonEmpty(channels: seq<Channel>, nameMap: map<string, seq<Triplet>>)
    ensures forall id | id in ChanServMap(channels, nameMap) :: ChanServMap(channels, nameMap)[id] != []
  {
    if channels != [] {
      ChanServMapNonEmpty(channels[..|channels| - 1], nameMap);
      WithChannelNonEmpty(ChanServMap(channels[..|channels| - 1], nameMap), channels[|channels| - 1], nameMap);
    }
  }

  /** Some channel of the list with this id contributes t. */
  predicate ContributedBy(channels: seq<Channel>, id: int, t: Triplet, nameMap: map<string, seq<Triplet>>) {
    exists i | 0 <= i < |channels| :: channels[i].id == id && Contributes(channels[i], t, nameMap)
  }

  lemma ContributedBySplit(channels: seq<Channel>, id: int, t: Triplet, nameMap: map<string, seq<Triplet>>)
    requires channels != []
    ensures var init := channels[..|channels| - 1];
      var c := channels[|channels| - 1];
      ContributedBy(channels, id, t, nameMap) <==>
        ContributedBy(init, id, t, nameMap) || (c.id == id && Contributes(c, t, nameMap))
  {
    var init := channels[..|channels| - 1];
    if ContributedBy(channels, id, t, nameMap) {
      var i :| 0 <= i < |channels| && channels[i].id == id && Contributes(channels[i], t, nameMap);
      if i < |init| {
        assert init[i] == channels[i];
      }
    }
    if ContributedBy(init, id, t, nameMap) {
      var i :| 0 <= i < |init| && init[i].id == id && Contributes(init[i], t, nameMap);
      assert channels[i] == init[i];
    }
  }

  lemma {:induction false} ChanServMapAt(channels: seq<Channel>, nameMap: map<string, seq<Triplet>>, id: int, t: Triplet)
    ensures MapsTo(ChanServMap(channels, nameMap), id, t) <==> ContributedBy(channels, id, t, nameMap)
  {
    if channels != [] {
      var init := channels[..|channels| - 1];
      ChanServMapAt(init, nameMap, id, t);
      WithChannelAt(ChanServMap(init, nameMap), channels[|channels| - 1], nameMap, id, t);
      ContributedBySplit(channels, id, t, nameMap);
    }
  }

  /**
   * A channel id is in the map exactly when its channels contribute some
   * triplet, and its list holds exactly the triplets they contribute; in
   * particular every triplet taken from the channel data has three valid ids.
   * No list is empty.
   */
  lemma ChanServMapMembers(channels: seq<Channel>, nameMap: map<string, seq<Triplet>>)
    ensures var res := ChanServMap(channels, nameMap);
      (forall id | id in res :: res[id] != [])
      && forall id, t :: MapsTo(res, id, t) <==>
           exists i | 0 <= i < |channels| :: channels[i].id == id && Contributes(channels[i], t, nameMap)
  {
    ChanServMapNonEmpty(channels, nameMap);
    forall id, t
      ensures MapsTo(ChanServMap(channels, nameMap), id, t) <==> ContributedBy(channels, id, t, nameMap)
    {
      ChanServMapAt(channels, nameMap, id, t);
    }
  }

  /** The inner loop over a channel's listed triplets. */
  method AppendValid(list: seq<Triplet>, triplets: seq<Triplet>) returns (r: seq<Triplet>)
    ensures r == list + ValidTriplets(triplets)
  {
    r := list;
    var j := 0;
    while j < |triplets|
      invariant j <= |triplets|
      invariant r == list + ValidTriplets(triplets[..j])
    {
      assert triplets[..j + 1][..j] == triplets[..j];
      var t := triplets[j];
      if ValidTriplet(t) {
        r := r + [t];
      }
      j := j + 1;
    }
    assert triplets[..j] == triplets;
  }

  /** The inner loop over the triplets of one matched name. */
  method AppendNew(list: seq<Triplet>, ts: seq<Triplet>, ghost done: seq<Triplet>, ghost base: seq<Triplet>)
    returns (r: seq<Triplet>)
    requires list == AddNew(base, done)
    ensures r == AddNew(base, done + ts)
  {
    r := list;
    var m := 0;
    assert done + ts[..0] == done;
    while m < |ts|
      invariant m <= |ts|
      invariant r == AddNew(base, done + ts[..m])
    {
      assert (done + ts[..m + 1])[..|done + ts[..m]|] == done + ts[..m];
      if ts[m] !in r {
        r := r + [ts[m]];
      }
      m := m + 1;
    }
    assert ts[..m] == ts;
  }

  /** The loop over a channel's names, adding what the scan map has for each. */
  method AppendMatched(list: seq<Triplet>, names: seq<string>, nameMap: map<string, seq<Triplet>>)
    returns (r: seq<Triplet>)
    ensures r == AddNew(list, Matched(names, nameMap))
  {
    r := list;
    var k := 0;
    while k < |names|
      invariant k <= |names|
      invariant r == AddNew(list, Matched(names[..k], nameMap))
    {
      assert names[..k + 1][..k] == names[..k];
      var n := names[k];
      if n in nameMap {
        r := AppendNew(r, nameMap[n], Matched(names[..k], nameMap), list);
        assert Matched(names[..k + 1], nameMap) == Matched(names[..k], nameMap) + nameMap[n];
      } else {
        assert Matched(names[..k + 1], nameMap) == Matched(names[..k], nameMap) + [];
        assert Matched(names[..k], nameMap) + [] == Matched(names[..k], nameMap);
      }
      k := k + 1;
    }
    assert names[..k] == names;
  }

  /** The body of makeChanServMap's loop, for one channel. */
  method AddChannel(res: map<int, seq<Triplet>>, channel: Channel, nameMap: map<string, seq<Triplet>>)
    returns (r: map<int, seq<Triplet>>)
    ensures r == WithChannel(res, channel, nameMap)
  {
    var list := AppendValid(if channel.id in res then res[channel.id] else [], ListedTriplets(channel));
    list := AppendMatched(list, ChannelNames(channel), nameMap);
    r := if list != [] then res[channel.id := list] else res;
  }

  /** makeChanServMap(channels). */
  method MakeChanServMap(channels: seq<Channel>, nameMap: map<string, seq<Triplet>>) returns (res: map<int, seq<Triplet>>)
    ensures res == ChanServMap(channels, nameMap)
  {
    res := map[];
    var i := 0;
    while i < |channels|
      invariant i <= |channels|
      invariant res == ChanServMap(channels[..i], nameMap)
    {
      assert channels[..i + 1][..i] == channels[..i];
      res := AddChannel(res, channels[i], nameMap);
      i := i + 1;
    }
    assert channels[..i] == channels;
  }

  ////////////////////////////////////////////////////////////////////////////
  // updateTimer

  /** The fields of a local timer that updateTimer may change. */
  datatype TimerFields = TimerFields(serviceRef: string, name: string, begin: int, end: int, eit: Option<int>)

  function FieldsOf(timer: RecordTimerEntry): TimerFields
    reads timer
  {
    TimerFields(timer.serviceRef, timer.name, timer.begin, timer.end, timer.eit)
  }

  /** The first service the channel database finds valid, of the channel's triplets in order. */
  function FirstValid(services: seq<Option<string>>): (r: Option<string>)
    ensures r.Some? ==> exists i | 0 <= i < |services| :: services[i] == r
    ensures r.None? <==> forall i | 0 <= i < |services| :: services[i].None?
  {
    if services == [] then None
    else if services[0].Some? then services[0]
    else FirstValid(services[1..])
  }

  /** A falsy event id (None or 0) is never written. */
  predicate GivenEit(eit: Option<int>) { eit.Some? && eit.value != 0 }

  /**
   * The timer's fields after updateTimer: the first valid service, a
   * non-empty name, the new window and a non-zero event id replace the old
   * values; what is not given stays.
   */
  function Updated(f: TimerFields, name: string, start: int, end: int, eit: Option<int>,
                   services: seq<Option<string>>): (r: TimerFields)
    ensures (r.begin, r.end) == (start, end)
    ensures r.name == f.name || r.name == name
    ensures r.eit == f.eit || r.eit == eit
    ensures r.serviceRef == f.serviceRef || Some(r.serviceRef) in services
  {
    var service := FirstValid(services);
    TimerFields(if service.Some? then service.value else f.serviceRef,
                if name != "" then name else f.name,
                start, end,
                if GivenEit(eit) then eit else f.eit)
  }

  /**
   * updateTimer changes nothing exactly when the timer already agrees with
   * everything given, and a second update with the same values changes
   * nothing.
   */
  lemma UpToDate(f: TimerFields, name: string, start: int, end: int, eit: Option<int>, services: seq<Option<string>>)
    ensures Updated(f, name, start, end, eit, services) == f <==>
      f.begin == start && f.end == end
      && (name != "" ==> f.name == name)
      && (GivenEit(eit) ==> f.eit == eit)
      && (FirstValid(services).Some? ==> f.serviceRef == FirstValid(services).value)
    ensures var g := Updated(f, name, start, end, eit, services);
      Updated(g, name, start, end, eit, services) == g
    ensures var g := Updated(f, name, start, end, eit, services);
      (name == "" ==> g.name == f.name) && (!GivenEit(eit) ==> g.eit == f.eit)
      && (FirstValid(services).None? ==> g.serviceRef == f.serviceRef)
  {
  }

  /**
   * updateTimer(timer, name, start, end, eit, channels), given for each of
   * the channel's triplets in order the service the channel database finds,
   * if it is valid.  It returns whether it changed a field.
   */
  method UpdateTimer(timer: RecordTimerEntry, name: string, start: int, end: int, eit: Option<int>,
                     services: seq<Option<string>>) returns (changed: bool)
    modifies timer`serviceRef, timer`name, timer`begin, timer`end, timer`eit
    ensures FieldsOf(timer) == Updated(old(FieldsOf(timer)), name, start, end, eit, services)
    ensures changed <==> FieldsOf(timer) != old(FieldsOf(timer))
  {
    changed := false;
    var i := 0;
    while i < |services|
      invariant i <= |services|
      invariant FirstValid(services) == FirstValid(services[i..])
      invariant unchanged(timer) && !changed
    {
      assert services[i..][1..] == services[i + 1..];
      if services[i].Some? {
        var serviceref := services[i].value;
        if timer.serviceRef != serviceref {
          changed := true;
          timer.serviceRef := serviceref;
        }
        break;
      }
      i := i + 1;
    }
    if name != "" && timer.name != name {
      changed := true;
      timer.name := name;
    }
    if timer.begin != start {
      changed := true;
      timer.begin := start;
    }
    if timer.end != end {
      changed := true;
      timer.end := end;
    }
    if GivenEit(eit) && timer.eit != eit {
      changed := true;
      timer.eit := eit;
    }
  }

  ////////////////////////////////////////////////////////////////////////////
  // _getBatchsize

  /** What stops _getBatchsize: a MemAvailable value that is no number, or no days to fetch. */
  datatype BatchError = NotANumber | DivisionByZero

  /** The days of EPG the member's country gets: 7 for Australia, 14 otherwise. */
  function MaxDays(country: string): int {
    if country == "AUS" then 7 else 14
  }

  /** The whole days since the last update, rounded up, at most the country's maximum. */
  function FetchDays(country: string, now: int, lastUpdate: int): (d: int)
    ensures d <= MaxDays(country)
    ensures now - lastUpdate > 0 ==> d >= 1
  {
    var days := FloorDiv(now - lastUpdate + 86400 - 1, 86400);
    if MaxDays(country) <= days then MaxDays(country) else days
  }

  /** The days are the elapsed time in days rounded up, capped by the country's maximum. */
  lemma FetchDaysCeiling(country: string, now: int, lastUpdate: int)
    ensures var d := FetchDays(country, now, lastUpdate);
      d <= MaxDays(country)
      && (d < MaxDays(country) ==> (d - 1) * 86400 < now - lastUpdate <= d * 86400)
      && (d == MaxDays(country) ==> now - lastUpdate > (d - 1) * 86400)
  {
  }

  /** The MemAvailable field of /proc/meminfo: the second word of the first line whose first word it names. */
  function MemAvailable(lines: seq<seq<string>>): Option<string> {
    if lines == [] then None
    else if |lines[0]| >= 2 && lines[0][0] == "MemAvailable:" then Some(lines[0][1])
    else MemAvailable(lines[1..])
  }

  /** The batch size for memkB kB of available memory over the given days. */
  function BatchFor(memkB: int, days: int, maxBatchsize: int): (r: Result<int, BatchError>)
    ensures r.Err? <==> days == 0
    ensures r.Err? ==> r.error == DivisionByZero
    ensures r.Ok? ==> r.value >= 1 && (maxBatchsize > 0 ==> r.value <= maxBatchsize)
  {
    if days == 0 then Err(DivisionByZero)
    else
      var fit := FloorDiv(memkB - 60000, days * 250);
      var b := if fit < 1 then 1 else fit;
      Ok(if maxBatchsize > 0 && maxBatchsize < b then maxBatchsize else b)
  }

  /**
   * _getBatchsize(last_update): max_batchsize when /proc/meminfo cannot be
   * read (meminfo is None) or has no MemAvailable line, otherwise the size
   * BatchFor gives.
   */
  function Batchsize(country: string, now: int, lastUpdate: int, maxBatchsize: int,
                     meminfo: Option<seq<seq<string>>>): (r: Result<int, BatchError>)
    ensures r.Err? ==> meminfo.Some? && MemAvailable(meminfo.value).Some?
    ensures r == Err(NotANumber) <==>
      (meminfo.Some? && MemAvailable(meminfo.value).Some? && ParseInt(MemAvailable(meminfo.value).value).None?)
  {
    if meminfo.None? then Ok(maxBatchsize)
    else match MemAvailable(meminfo.value)
      case None => Ok(maxBatchsize)
      case Some(v) =>
        match ParseInt(v)
        case None => Err(NotANumber)
        case Some(memkB) => BatchFor(memkB, FetchDays(country, now, lastUpdate), maxBatchsize)
  }

  /**
   * With some days to fetch, the batch size is at least 1, at most a positive
   * max_batchsize, and otherwise the number of channels whose 250 kB a day
   * fit in the memory left after 60 MB of headroom.
   */
  lemma BatchForBounds(memkB: int, days: int, maxBatchsize: int)
    requires days > 0
    ensures var r := BatchFor(memkB, days, maxBatchsize);
      r.Ok? && r.value >= 1 && (maxBatchsize > 0 ==> r.value <= maxBatchsize)
      && (r.value > 1 && (maxBatchsize <= 0 || r.value < maxBatchsize) ==>
            days * 250 * r.value <= memkB - 60000 < days * 250 * r.value + days * 250)
      && (memkB - 60000 < days * 250 * 2 ==> r.value == 1)
  {
    var q := days * 250;
    var fit := FloorDiv(memkB - 60000, q);
    if memkB - 60000 < q * 2 {
      ScaledBelow(q, fit, 2);
    }
  }

  lemma ScaledBelow(q: int, x: int, y: int)
    requires q > 0 && q * x < q * y
    ensures x < y
  {
  }

  /**
   * _getBatchsize fails only on a MemAvailable value that is no number, or on
   * a last update less than a day ahead of the clock, and then with a division
   * by zero; without a MemAvailable value it is max_batchsize.
   */
  lemma BatchsizeOutcomes(country: string, now: int, lastUpdate: int, maxBatchsize: int,
                          meminfo: Option<seq<seq<string>>>)
    ensures var r := Batchsize(country, now, lastUpdate, maxBatchsize, meminfo);
      (meminfo.None? || MemAvailable(meminfo.value).None? ==> r == Ok(maxBatchsize))
      && (r == Err(DivisionByZero) <==>
            meminfo.Some? && MemAvailable(meminfo.value).Some? && ParseInt(MemAvailable(meminfo.value).value).Some?
            && -86400 < now - lastUpdate <= 0)
  {
    var d := FloorDiv(now - lastUpdate + 86400 - 1, 86400);
    assert d == 0 <==> -86400 < now - lastUpdate <= 0;
  }

  /** _getBatchsize's loop over the lines of /proc/meminfo, each split into words. */
  method GetBatchsize(country: string, now: int, lastUpdate: int, maxBatchsize: int,
                      meminfo: Option<seq<seq<string>>>) returns (r: Result<int, BatchError>)
    ensures r == Batchsize(country, now, lastUpdate, maxBatchsize, meminfo)
  {
    var maxDays := if country == "AUS" then 7 else if country == "DEU" then 14 else 14;
    var ceilDays := FloorDiv(now - lastUpdate + 86400 - 1, 86400);
    var days := if maxDays <= ceilDays then maxDays else ceilDays;
    var batchsize := maxBatchsize;
    if meminfo.None? {
      return Ok(batchsize);
    }
    var lines := meminfo.value;
    var i := 0;
    while i < |lines|
      invariant i <= |lines|
      invariant MemAvailable(lines[i..]) == MemAvailable(lines)
    {
      assert lines[i..][1..] == lines[i + 1..];
      var f := lines[i];
      if |f| >= 2 && f[0] == "MemAvailable:" {
        var memkB := ParseInt(f[1]);
        if memkB.None? {
          return Err(NotANumber);
        }
        if days == 0 {
          return Err(DivisionByZero);
        }
        var fit := FloorDiv(memkB.value - 60000, days * 250);
        batchsize := if fit < 1 then 1 else fit;
        if maxBatchsize > 0 {
          batchsize := if batchsize <= maxBatchsize then batchsize else maxBatchsize;
        }
        return Ok(batchsize);
      }
      i := i + 1;
    }
    return Ok(batchsize);
  }
}
