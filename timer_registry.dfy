/**
 * The record-timer registry: the active timer_list, kept sorted by next
 * activation, and the processed_timers list of finished timers.  doActivate
 * advances one timer and files it again, record adds a timer after the
 * conflict check, removeEntry aborts one, and the time queries read the list.
 */
module TimerRegistry {
  import opened Wrappers
  import opened Lists
  import opened TimerEntry

  /**
   * What the registry reads of one timer: its state, its next activation
   * (getNextActivation(), the key insort compares) and whether it keeps the
   * bounds activate() maintains.
   */
  datatype Slot = Slot(state: int, key: int, valid: bool)

  function SlotOf(e: RecordTimerEntry): (v: Slot)
    reads e`state, e`startPrepare, e`begin, e`end, e`backoff, e`mountPathRetryCounter
    ensures v.state == e.state && v.key == e.NextActivation() && v.valid == e.Valid()
  {
    Slot(e.state, e.NextActivation(), e.Valid())
  }

  /** The slots of a list of timers, position by position. */
  function Slots(s: seq<RecordTimerEntry>): (r: seq<Slot>)
    reads s`state, s`startPrepare, s`begin, s`end, s`backoff, s`mountPathRetryCounter
    ensures |r| == |s|
  {
    if s == [] then [] else [SlotOf(s[0])] + Slots(s[1..])
  }

  lemma {:induction false} SlotsAt(s: seq<RecordTimerEntry>, i: nat)
    requires i < |s|
    ensures Slots(s)[i] == SlotOf(s[i])
  {
    if i > 0 {
      SlotsAt(s[1..], i - 1);
    }
  }

  lemma SlotsMember(s: seq<RecordTimerEntry>, x: RecordTimerEntry)
    requires x in s
    ensures SlotOf(x) in Slots(s)
  {
    var i :| 0 <= i < |s| && s[i] == x;
    SlotsAt(s, i);
  }

  predicate SortedSlots(vs: seq<Slot>) {
    forall i, j :: 0 <= i < j < |vs| ==> vs[i].key <= vs[j].key
  }

  /**
   * bisect.insort_right on a list whose keys are given position by position:
   * the new element goes after every element whose key is not greater.
   */
  function InsortBy<T>(s: seq<T>, vs: seq<Slot>, e: T, v: Slot): (r: seq<T>)
    requires |vs| == |s|
    ensures |r| == |s| + 1
  {
    if s == [] then [e]
    else if v.key < vs[0].key then [e] + s
    else [s[0]] + InsortBy(s[1..], vs[1..], e, v)
  }

  /** insort(s, e) on a list of timers, keyed by getNextActivation(). */
  function Insort(s: seq<RecordTimerEntry>, e: RecordTimerEntry): seq<RecordTimerEntry>
    reads s`state, s`startPrepare, s`begin, s`end, s`backoff, s`mountPathRetryCounter
    reads e`state, e`startPrepare, e`begin, e`end, e`backoff, e`mountPathRetryCounter
  {
    InsortBy(s, Slots(s), e, SlotOf(e))
  }

  /** insort adds exactly one copy of the new element. */
  lemma {:induction false} InsortByMultiset<T>(s: seq<T>, vs: seq<Slot>, e: T, v: Slot)
    requires |vs| == |s|
    ensures multiset(InsortBy(s, vs, e, v)) == multiset(s) + multiset{e}
  {
    if s != [] {
      assert s == [s[0]] + s[1..];
      if v.key >= vs[0].key {
        InsortByMultiset(s[1..], vs[1..], e, v);
      }
    }
  }

  lemma InsortByMembers<T>(s: seq<T>, vs: seq<Slot>, e: T, v: Slot)
    requires |vs| == |s|
    ensures forall x :: x in InsortBy(s, vs, e, v) <==> x in s || x == e
  {
    var r := InsortBy(s, vs, e, v);
    InsortByMultiset(s, vs, e, v);
    forall x
      ensures x in r <==> x in s || x == e
    {
      assert x in r <==> x in multiset(r);
      assert x in s <==> x in multiset(s);
    }
  }

  /** The slots of the insorted list are the slots inserted by the same scan. */
  lemma {:induction false} SlotsInsort(s: seq<RecordTimerEntry>, e: RecordTimerEntry)
    ensures Slots(Insort(s, e)) == InsortBy(Slots(s), Slots(s), SlotOf(e), SlotOf(e))
  {
    if s != [] {
      assert s == [s[0]] + s[1..];
      assert Slots(s)[1..] == Slots(s[1..]);
      if SlotOf(e).key < SlotOf(s[0]).key {
        assert Slots([e] + s)[1..] == Slots(s) by {
          assert ([e] + s)[1..] == s;
        }
      } else {
        SlotsInsort(s[1..], e);
        assert ([s[0]] + Insort(s[1..], e))[1..] == Insort(s[1..], e);
      }
    }
  }

  lemma {:induction false} InsortByBounds(vs: seq<Slot>, v: Slot, m: int)
    requires forall i :: 0 <= i < |vs| ==> m <= vs[i].key
    requires m <= v.key
    ensures forall i :: 0 <= i < |vs| + 1 ==> m <= InsortBy(vs, vs, v, v)[i].key
  {
    if vs != [] && v.key >= vs[0].key {
      InsortByBounds(vs[1..], v, m);
    }
  }

  /** insort keeps a sorted list sorted. */
  lemma {:induction false} InsortBySorted(vs: seq<Slot>, v: Slot)
    requires SortedSlots(vs)
    ensures SortedSlots(InsortBy(vs, vs, v, v))
  {
    if vs != [] && v.key >= vs[0].key {
      InsortBySorted(vs[1..], v);
      InsortByBounds(vs[1..], v, vs[0].key);
      var r := InsortBy(vs, vs, v, v);
      assert forall i :: 1 <= i < |r| ==> r[i] == InsortBy(vs[1..], vs[1..], v, v)[i - 1];
    }
  }

  /** The slots of a list after list.remove are its slots with that position dropped. */
  lemma SlotsRemove(s: seq<RecordTimerEntry>, x: RecordTimerEntry)
    requires x in s
    ensures Slots(RemoveFirst(s, x)) == Slots(s)[..IndexOf(s, x)] + Slots(s)[IndexOf(s, x) + 1..]
  {
    var i := IndexOf(s, x);
    var r := RemoveFirst(s, x);
    var vs := Slots(s);
    var w := vs[..i] + vs[i + 1..];
    RemoveFirstAt(s, x);
    CutAt(r, s, i);
    forall a | 0 <= a < |r|
      ensures Slots(r)[a] == w[a]
    {
      SlotsAt(r, a);
      if a < i {
        SlotsAt(s, a);
      } else {
        SlotsAt(s, a + 1);
      }
    }
  }

  /** Dropping the slot at i keeps the slots sorted and adds no slot. */
  lemma SortedDrop(vs: seq<Slot>, i: nat)
    requires SortedSlots(vs) && i < |vs|
    ensures SortedSlots(vs[..i] + vs[i + 1..])
    ensures forall v | v in vs[..i] + vs[i + 1..] :: v in vs
  {
    var r := vs[..i] + vs[i + 1..];
    assert forall a :: 0 <= a < |r| ==> r[a] == if a < i then vs[a] else vs[a + 1];
  }

  /** Timers whose slots did not change leave the slots of their list unchanged. */
  twostate lemma {:induction false} SlotsUnchanged(s: seq<RecordTimerEntry>)
    requires forall i :: 0 <= i < |s| ==> SlotOf(s[i]) == old(SlotOf(s[i]))
    ensures Slots(s) == old(Slots(s))
  {
    if s != [] {
      SlotsUnchanged(s[1..]);
    }
  }

  /** Every slot valid, and before Ended (timer_list) or at or after it (processed_timers). */
  predicate AllActive(vs: seq<Slot>) {
    forall v | v in vs :: v.valid && v.state < StateEnded
  }

  predicate AllProcessed(vs: seq<Slot>) {
    forall v | v in vs :: v.valid && v.state >= StateEnded
  }

  /**
   * The registry invariant on its two lists and their slots: both duplicate-free
   * and disjoint, each timer where its state files it, both sorted by key.
   */
  ghost predicate RegistryInv(s: seq<RecordTimerEntry>, p: seq<RecordTimerEntry>, vs: seq<Slot>, vp: seq<Slot>) {
    Distinct(s) && Distinct(p) && (forall e | e in s :: e !in p)
    && AllActive(vs) && AllProcessed(vp) && SortedSlots(vs) && SortedSlots(vp)
  }

  /** insort of a new timer before Ended into timer_list keeps the invariant. */
  lemma FileActiveValid(s: seq<RecordTimerEntry>, p: seq<RecordTimerEntry>, e: RecordTimerEntry)
    requires RegistryInv(s, p, Slots(s), Slots(p)) && e !in s && e !in p && e.Valid() && e.state < StateEnded
    ensures RegistryInv(Insort(s, e), p, Slots(Insort(s, e)), Slots(p)) && e in Insort(s, e)
  {
    var vs := Slots(s);
    InsortByMembers(s, vs, e, SlotOf(e));
    InsortByMultiset(s, vs, e, SlotOf(e));
    DistinctAdd(s, Insort(s, e), e);
    SlotsInsort(s, e);
    InsortByMembers(vs, vs, SlotOf(e), SlotOf(e));
    InsortBySorted(vs, SlotOf(e));
  }

  /** insort of a new finished timer into processed_timers keeps the invariant. */
  lemma FileProcessedValid(s: seq<RecordTimerEntry>, p: seq<RecordTimerEntry>, e: RecordTimerEntry)
    requires RegistryInv(s, p, Slots(s), Slots(p)) && e !in s && e !in p && e.Valid() && e.state >= StateEnded
    ensures RegistryInv(s, Insort(p, e), Slots(s), Slots(Insort(p, e))) && e in Insort(p, e)
  {
    var vp := Slots(p);
    InsortByMembers(p, vp, e, SlotOf(e));
    InsortByMultiset(p, vp, e, SlotOf(e));
    DistinctAdd(p, Insort(p, e), e);
    SlotsInsort(p, e);
    InsortByMembers(vp, vp, SlotOf(e), SlotOf(e));
    InsortBySorted(vp, SlotOf(e));
  }

  /** Dropping one slot keeps a list of slots sorted and adds no slot. */
  lemma SlotsDrop(s: seq<RecordTimerEntry>, x: RecordTimerEntry)
    requires x in s && SortedSlots(Slots(s))
    ensures SortedSlots(Slots(RemoveFirst(s, x)))
    ensures forall v | v in Slots(RemoveFirst(s, x)) :: v in Slots(s)
  {
    SlotsRemove(s, x);
    SortedDrop(Slots(s), IndexOf(s, x));
  }

  /** list.remove on timer_list keeps the invariant and leaves no copy of the timer behind. */
  lemma DetachValid(s: seq<RecordTimerEntry>, p: seq<RecordTimerEntry>, x: RecordTimerEntry)
    requires RegistryInv(s, p, Slots(s), Slots(p))
    ensures RegistryInv(RemoveFirst(s, x), p, Slots(RemoveFirst(s, x)), Slots(p))
    ensures x !in RemoveFirst(s, x)
    ensures x in s ==> x !in p && x.Valid() && x.state < StateEnded
  {
    RemoveFirstDistinct(s, x);
    var t := RemoveFirst(s, x);
    assert forall e | e in t :: e !in p;
    if x in s {
      SlotsDrop(s, x);
      SlotsMember(s, x);
      assert AllActive(Slots(t));
    }
  }

  /** processed_timers.remove(x) keeps the invariant and leaves no copy of the timer behind. */
  lemma DropValid(s: seq<RecordTimerEntry>, p: seq<RecordTimerEntry>, x: RecordTimerEntry)
    requires RegistryInv(s, p, Slots(s), Slots(p))
    ensures RegistryInv(s, RemoveFirst(p, x), Slots(s), Slots(RemoveFirst(p, x)))
    ensures x !in RemoveFirst(p, x)
    ensures x in p ==> x !in s && x.Valid() && x.state >= StateEnded
  {
    RemoveFirstDistinct(p, x);
    var t := RemoveFirst(p, x);
    assert forall e | e in s :: e !in t;
    if x in p {
      SlotsDrop(p, x);
      SlotsMember(p, x);
      assert AllProcessed(Slots(t));
    }
  }

  /** What removeEntry leaves in the removed timer: not repeating, not auto-increasing, aborted at now, its preparation restarted unless it had Ended. */
  predicate Withdrawn(e: RecordTimerEntry, now: int)
    reads e`repeated, e`autoincrease, e`cancelled, e`end, e`state, e`startPrepare, e`begin, e`prepareTime, e`backoff
  {
    e.repeated == 0 && !e.autoincrease && e.cancelled && e.end == now
    && (e.state != StateEnded ==> e.startPrepare == e.begin - e.prepareTime && e.backoff == 0)
  }

  /** list.remove undoes insort of a timer that was not in the list. */
  lemma {:induction false} InsortByRemove<T>(s: seq<T>, vs: seq<Slot>, e: T, v: Slot)
    requires |vs| == |s| && e !in s
    ensures RemoveFirst(InsortBy(s, vs, e, v), e) == s
  {
    if s != [] && v.key >= vs[0].key {
      InsortByRemove(s[1..], vs[1..], e, v);
      assert InsortBy(s, vs, e, v) == [s[0]] + InsortBy(s[1..], vs[1..], e, v);
    }
  }

  /** Taking a timer out of timer_list and sorting it in again keeps the same timers. */
  lemma ResortMultiset(s: seq<RecordTimerEntry>, x: RecordTimerEntry)
    requires x in s
    ensures multiset(Insort(RemoveFirst(s, x), x)) == multiset(s)
  {
    var r := RemoveFirst(s, x);
    RemoveFirstMultiset(s, x);
    InsortByMultiset(r, Slots(r), x, SlotOf(x));
  }

  /**
   * The state doActivate leaves a timer in before filing it: Ended when it is
   * skipped, otherwise the state activate() leaves, one higher when accepted.
   */
  function Reached(lc: Lifecycle, f: EntryFlags, env: ActivationEnv, skip: bool): int
  {
    if skip then StateEnded
    else
      var a := ActivateSpec(lc, f, env);
      a.lc.state + (if a.accepted then 1 else 0)
  }

  /** Where addTimerEntry files a timer: processed_timers when the base class skips it or it has finished. */
  predicate FiledAsProcessed(skip: bool, state: int) {
    skip || state >= StateEnded
  }

  /**
   * The timer after doActivate's first step: the fields activate() leaves
   * (none when skipped) with the state reached.
   */
  function Advanced(lc: Lifecycle, f: EntryFlags, env: ActivationEnv, skip: bool): (r: Lifecycle)
    ensures r.state == Reached(lc, f, env, skip)
    ensures skip ==> r == lc.(state := StateEnded)
  {
    var after := if skip then lc else ActivateSpec(lc, f, env).lc;
    after.(state := Reached(lc, f, env, skip))
  }

  /** processRepeated's outcome as doActivate applies it: Waiting again, in the next window, retrying preparation. */
  function Restarted(lc: Lifecycle, nextWindow: (int, int)): Lifecycle {
    lc.(state := StateWaiting, begin := nextWindow.0, end := nextWindow.1, firstTryPrepare := true)
  }

  /**
   * The timer after doActivate's own changes and before it is filed:
   * Advanced, and a repeating timer that reached Ended restarts.
   */
  function Stepped(lc: Lifecycle, f: EntryFlags, env: ActivationEnv, skip: bool,
                   repeating: bool, nextWindow: (int, int)): (r: Lifecycle)
    ensures skip ==> r.startPrepare == lc.startPrepare && r.backoff == lc.backoff && r.tuner == lc.tuner
    ensures Reached(lc, f, env, skip) >= StateEnded && repeating ==>
      r.state == StateWaiting && r.firstTryPrepare && (r.begin, r.end) == nextWindow
    ensures !(Reached(lc, f, env, skip) >= StateEnded && repeating) ==> r.state == Reached(lc, f, env, skip)
  {
    var a := Advanced(lc, f, env, skip);
    if a.state >= StateEnded && repeating then Restarted(a, nextWindow) else a
  }

  /**
   * Whether doActivate files the timer into processed_timers: it has
   * finished and does not repeat, or it repeats and addTimerEntry's verdict
   * (refiled) skips its next window.
   */
  predicate GoesToProcessed(lc: Lifecycle, f: EntryFlags, env: ActivationEnv, skip: bool,
                            repeating: bool, refiled: bool) {
    Reached(lc, f, env, skip) >= StateEnded && (!repeating || refiled)
  }

  /** The timer as doActivate leaves it: Stepped, and Ended when addTimerEntry files a restarted timer as processed. */
  function Activated(lc: Lifecycle, f: EntryFlags, env: ActivationEnv, skip: bool, repeating: bool,
                     nextWindow: (int, int), refiled: bool): Lifecycle
  {
    var st := Stepped(lc, f, env, skip, repeating, nextWindow);
    if repeating && GoesToProcessed(lc, f, env, skip, repeating, refiled) then st.(state := StateEnded) else st
  }

  /** A well-formed timer before Ended keeps its bounds through doActivate's own changes. */
  lemma SteppedKeepsBounds(lc: Lifecycle, f: EntryFlags, env: ActivationEnv, skip: bool,
                           repeating: bool, nextWindow: (int, int))
    requires WellFormed(lc) && lc.state < StateEnded
    ensures WellFormed(Stepped(lc, f, env, skip, repeating, nextWindow))
  {
    if !skip {
      ActivateKeepsBounds(lc, f, env);
    }
  }

  /**
   * doActivate files a timer where its final state belongs: processed_timers
   * exactly when it ends at Ended or Failed, timer_list exactly when it ends
   * before Ended; and its bounds are kept.
   */
  lemma ActivatedFiling(lc: Lifecycle, f: EntryFlags, env: ActivationEnv, skip: bool, repeating: bool,
                        nextWindow: (int, int), refiled: bool)
    requires WellFormed(lc) && lc.state < StateEnded
    ensures var a := Activated(lc, f, env, skip, repeating, nextWindow, refiled);
      WellFormed(a) && (a.state >= StateEnded <==> GoesToProcessed(lc, f, env, skip, repeating, refiled))
  {
    SteppedKeepsBounds(lc, f, env, skip, repeating, nextWindow);
  }

  ////////////////////////////////////////////////////////////////////////////
  // Time queries

  /** isRecording's test on one timer: running, and a recording rather than a zap. */
  predicate Recording(e: RecordTimerEntry)
    reads e`state, e`justplay
  {
    e.IsRunning() && e.justplay == 0
  }

  predicate AnyRecording(s: seq<RecordTimerEntry>)
    reads s`state, s`justplay
  {
    exists i | 0 <= i < |s| :: Recording(s[i])
  }

  /** getStillRecording's test: flagged still recording, or beginning within 10 s of now. */
  predicate StillRecordingNear(e: RecordTimerEntry, now: int)
    reads e`isStillRecording, e`begin
  {
    e.isStillRecording || -10 <= e.begin - now <= 10
  }

  predicate AnyStillRecording(s: seq<RecordTimerEntry>, now: int)
    reads s`isStillRecording, s`begin
  {
    exists i | 0 <= i < |s| :: StillRecordingNear(s[i], now)
  }

  /** What getNextActivation sets isStillRecording to on a timer before Ended. */
  predicate StillRecording(e: RecordTimerEntry, now: int)
    reads e`state, e`end
  {
    e.state >= StateRunning && e.end > now
  }

  /** getNextZapTime's test: a zap timer that does not begin before the reference time. */
  predicate ZapDue(e: RecordTimerEntry, fromTime: int)
    reads e`justplay, e`begin
  {
    e.justplay != 0 && e.begin >= fromTime
  }

  /** getNextRecordingTimeOld's test: a recording timer whose next activation is not before the reference time. */
  predicate RecordingDue(e: RecordTimerEntry, fromTime: int)
    reads e`justplay, e`state, e`startPrepare, e`begin, e`end
  {
    e.justplay == 0 && e.NextActivation() >= fromTime
  }

  /** The position of the first zap timer due, |s| when there is none. */
  function FirstZap(s: seq<RecordTimerEntry>, fromTime: int): (i: nat)
    reads s`justplay, s`begin
    ensures i <= |s| && (i < |s| ==> ZapDue(s[i], fromTime))
    ensures forall j | 0 <= j < i :: !ZapDue(s[j], fromTime)
  {
    if s == [] then 0
    else if ZapDue(s[0], fromTime) then 0
    else 1 + FirstZap(s[1..], fromTime)
  }

  /** The position of the first recording timer due, |s| when there is none. */
  function FirstRecording(s: seq<RecordTimerEntry>, fromTime: int): (i: nat)
    reads s`justplay, s`state, s`startPrepare, s`begin, s`end
    ensures i <= |s| && (i < |s| ==> RecordingDue(s[i], fromTime))
    ensures forall j | 0 <= j < i :: !RecordingDue(s[j], fromTime)
  {
    if s == [] then 0
    else if RecordingDue(s[0], fromTime) then 0
    else 1 + FirstRecording(s[1..], fromTime)
  }

  /** getNextZapTime's answer: the begin of the first zap timer due, or -1. */
  function NextZapTime(s: seq<RecordTimerEntry>, fromTime: int): int
    reads s`justplay, s`begin
  {
    if FirstZap(s, fromTime) < |s| then s[FirstZap(s, fromTime)].begin else -1
  }

  /** getNextRecordingTimeOld's answer: the next activation of the first recording timer due, or -1. */
  function NextRecordingTime(s: seq<RecordTimerEntry>, fromTime: int): int
    reads s`justplay, s`state, s`startPrepare, s`begin, s`end
  {
    var i := FirstRecording(s, fromTime);
    if i < |s| then s[i].NextActivation() else -1
  }

  /**
   * On a list sorted by next activation, as timer_list is, the first recording
   * timer due is the earliest one: getNextRecordingTimeOld answers the minimum
   * next activation at or after the reference time among recording timers.
   */
  lemma NextRecordingIsEarliest(s: seq<RecordTimerEntry>, fromTime: int)
    requires SortedSlots(Slots(s))
    ensures FirstRecording(s, fromTime) < |s| <==> exists j | 0 <= j < |s| :: RecordingDue(s[j], fromTime)
    ensures forall j | 0 <= j < |s| && RecordingDue(s[j], fromTime) ::
      fromTime <= NextRecordingTime(s, fromTime) <= s[j].NextActivation()
  {
    var i := FirstRecording(s, fromTime);
    forall j | 0 <= j < |s| && RecordingDue(s[j], fromTime)
      ensures fromTime <= NextRecordingTime(s, fromTime) <= s[j].NextActivation()
    {
      SlotsAt(s, i);
      SlotsAt(s, j);
    }
  }

  /** recordingsActive's first test: getStillRecording() or isRecording(). */
  predicate RecordingNow(s: seq<RecordTimerEntry>, now: int, useStillRecording: bool)
    reads s`isStillRecording, s`begin, s`state, s`justplay
  {
    if useStillRecording then AnyStillRecording(s, now) else AnyRecording(s)
  }

  /**
   * What getNextRecordingTimeOld leaves in the isStillRecording flags: set
   * afresh on every timer up to the first recording timer due, kept on the rest.
   */
  twostate predicate Asked(s: seq<RecordTimerEntry>, now: int, from: int)
    reads s`isStillRecording, s`justplay, s`state, s`startPrepare, s`begin, s`end
  {
    forall j | 0 <= j < |s| ::
      s[j].isStillRecording == if j <= old(FirstRecording(s, from)) then StillRecording(s[j], now) else old(s[j].isStillRecording)
  }

  /** recordingsActive's verdict, on the lists and flags as they are when it starts. */
  function ActiveVerdict(s: seq<RecordTimerEntry>, margin: int, now: int, fromTime: int,
                         useStillRecording: bool, timeshiftRecording: bool): bool
    reads s`isStillRecording, s`justplay, s`state, s`startPrepare, s`begin, s`end
  {
    RecordingNow(s, now, useStillRecording)
    || Abs(TimeshiftAdjusted(NextRecordingTime(s, fromTime), now, timeshiftRecording) - now) <= margin
    || Abs(NextZapTime(s, fromTime) - now) <= margin
  }

  function Abs(x: int): (r: nat)
    ensures r == x || r == -x
  {
    if x < 0 then -x else x
  }

  /**
   * getNextRecordingTime's adjustment while timeshift is recording: a time not
   * strictly between 0 and now+300 becomes now+300.
   */
  function TimeshiftAdjusted(t: int, now: int, timeshiftRecording: bool): (r: int)
    ensures timeshiftRecording ==> r <= now + 300 && (r == t || r == now + 300)
    ensures timeshiftRecording && 0 < t < now + 300 ==> r == t
    ensures !timeshiftRecording ==> r == t
  {
    if timeshiftRecording && !(0 < t < now + 300) then now + 300 else t
  }

  /** The loop of getNextRecordingTimeOld over the timers of s, each asked once for its next activation. */
  method AskNextRecording(s: seq<RecordTimerEntry>, now: int, from: int) returns (t: int)
    requires PairwiseDistinct(s) && forall j | 0 <= j < |s| :: s[j].Valid()
    modifies s`isStillRecording
    ensures t == old(NextRecordingTime(s, from)) && Asked(s, now, from)
    ensures NextZapTime(s, from) == old(NextZapTime(s, from))
  {
    ghost var first := FirstRecording(s, from);
    var k := 0;
    while k < |s|
      invariant k <= first
      invariant forall j | 0 <= j < |s| ::
        s[j].isStillRecording == if j < k then StillRecording(s[j], now) else old(s[j].isStillRecording)
    {
      var act := s[k].GetNextActivation(now);
      if s[k].justplay == 0 && act >= from {
        assert k == first;
        return act;
      }
      k := k + 1;
    }
    return -1;
  }

  /** The timer sanity check's answers on a new timer: check(), doubleCheck() and getSimulTimerList(). */
  datatype SanityCheck = SanityCheck(passes: bool, isDouble: bool, simulTimers: seq<RecordTimerEntry>)

  class RecordTimer {
    var timerList: seq<RecordTimerEntry>
    var processedTimers: seq<RecordTimerEntry>

    /**
     * The registry invariant on the current lists.  It is compared with true so
     * that a method's postcondition asks for it as one fact, which the lemmas
     * about the lists then supply whole.
     */
    ghost predicate Valid()
      reads this`timerList, this`processedTimers
      reads timerList`state, timerList`startPrepare, timerList`begin, timerList`end, timerList`backoff
      reads timerList`mountPathRetryCounter
      reads processedTimers`state, processedTimers`startPrepare, processedTimers`begin, processedTimers`end
      reads processedTimers`backoff, processedTimers`mountPathRetryCounter
    {
      RegistryInv(timerList, processedTimers, Slots(timerList), Slots(processedTimers)) == true
    }

    /** An empty registry (loading timers.xml is not part of this model). */
    constructor()
      ensures Valid() && timerList == [] && processedTimers == []
    {
      timerList := [];
      processedTimers := [];
    }

    /**
     * addTimerEntry: a timer the base class skips (skip: its shouldSkip(), or
     * Waiting while disabled) or one that has finished is insorted into
     * processed_timers and set to Ended; any other goes into timer_list.
     */
    method AddTimerEntry(entry: RecordTimerEntry, skip: bool)
      requires Valid() && entry.Valid() && entry !in timerList && entry !in processedTimers
      modifies this`timerList, this`processedTimers, entry`state
      ensures Valid() && (entry in timerList) != (entry in processedTimers)
      ensures FiledAsProcessed(skip, old(entry.state)) ==>
        entry.state == StateEnded && processedTimers == Insort(old(processedTimers), entry) && timerList == old(timerList)
      ensures !FiledAsProcessed(skip, old(entry.state)) ==>
        entry.state == old(entry.state) && timerList == Insort(old(timerList), entry) && processedTimers == old(processedTimers)
    {
      if skip || entry.state >= StateEnded {
        SetEnded(entry);
        FileProcessed(entry);
      } else {
        FileActive(entry);
      }
    }

    /** entry.state = StateEnded on a timer in neither list. */
    method SetEnded(entry: RecordTimerEntry)
      requires Valid() && entry.Valid() && entry !in timerList && entry !in processedTimers
      modifies entry`state
      ensures Valid() && entry.Valid() && entry.state == StateEnded
    {
      ghost var s := timerList;
      ghost var p := processedTimers;
      entry.state := StateEnded;
      forall i | 0 <= i < |s|
        ensures SlotOf(s[i]) == old(SlotOf(s[i]))
      {
        assert s[i] in s;
      }
      forall i | 0 <= i < |p|
        ensures SlotOf(p[i]) == old(SlotOf(p[i]))
      {
        assert p[i] in p;
      }
      SlotsUnchanged(s);
      SlotsUnchanged(p);
    }

    /** insort(timer_list, entry) */
    method FileActive(entry: RecordTimerEntry)
      requires Valid() && entry.Valid() && entry !in timerList && entry !in processedTimers && entry.state < StateEnded
      modifies this`timerList
      ensures Valid() && entry in timerList
      ensures timerList == Insort(old(timerList), entry)
    {
      FileActiveValid(timerList, processedTimers, entry);
      timerList := Insort(timerList, entry);
      SlotsUnchanged(timerList);
      SlotsUnchanged(processedTimers);
      SlotsUnchanged(old(timerList));
    }

    /** insort(processed_timers, entry) */
    method FileProcessed(entry: RecordTimerEntry)
      requires Valid() && entry.Valid() && entry !in timerList && entry !in processedTimers && entry.state >= StateEnded
      modifies this`processedTimers
      ensures Valid() && entry in processedTimers
      ensures processedTimers == Insort(old(processedTimers), entry)
    {
      FileProcessedValid(timerList, processedTimers, entry);
      processedTimers := Insort(processedTimers, entry);
      SlotsUnchanged(timerList);
      SlotsUnchanged(processedTimers);
      SlotsUnchanged(old(processedTimers));
    }

    /** timer_list.remove(entry): an absent entry leaves it unchanged. */
    method Detach(entry: RecordTimerEntry)
      requires Valid()
      modifies this`timerList
      ensures Valid() && entry !in timerList
      ensures timerList == RemoveFirst(old(timerList), entry)
      ensures entry in old(timerList) ==> entry !in processedTimers && entry.Valid() && entry.state < StateEnded
    {
      DetachValid(timerList, processedTimers, entry);
      timerList := RemoveFirst(timerList, entry);
      SlotsUnchanged(timerList);
      SlotsUnchanged(processedTimers);
    }

    /**
     * timeChanged: the entry restarts its preparation time and leaves its list
     * (processed_timers when it has Ended, timer_list otherwise); an Ended
     * entry then becomes Waiting, and addTimerEntry files it again with the
     * verdict skip.  An Ended entry missing from processed_timers makes
     * list.remove raise; any other entry missing from timer_list stays where
     * it is.
     */
    method TimeChanged(entry: RecordTimerEntry, skip: bool) returns (raised: bool)
      requires Valid()
      modifies this`timerList, this`processedTimers, entry`startPrepare, entry`backoff, entry`state
      ensures Valid()
      ensures entry.startPrepare == entry.begin - entry.prepareTime && entry.backoff == 0
      ensures raised <==> old(entry.state) == StateEnded && entry !in old(processedTimers)
      ensures old(entry.state) == StateEnded && entry in old(processedTimers) && skip ==>
        (entry.state, timerList, processedTimers)
          == (StateEnded, old(timerList), Insort(RemoveFirst(old(processedTimers), entry), entry))
      ensures old(entry.state) == StateEnded && entry in old(processedTimers) && !skip ==>
        (entry.state, timerList, processedTimers)
          == (StateWaiting, Insort(old(timerList), entry), RemoveFirst(old(processedTimers), entry))
      ensures old(entry.state) != StateEnded && entry in old(timerList) && skip ==>
        (entry.state, timerList, processedTimers)
          == (StateEnded, RemoveFirst(old(timerList), entry), Insort(old(processedTimers), entry))
      ensures old(entry.state) != StateEnded && entry in old(timerList) && !skip ==>
        (entry.state, timerList, processedTimers)
          == (old(entry.state), Insort(RemoveFirst(old(timerList), entry), entry), old(processedTimers))
      ensures (if old(entry.state) == StateEnded then entry !in old(processedTimers) else entry !in old(timerList)) ==>
        (entry.state, timerList, processedTimers) == old((entry.state, timerList, processedTimers))
    {
      raised := false;
      if entry.state == StateEnded && entry in processedTimers {
        EndedChanged(entry, skip);
      } else if entry.state != StateEnded && entry in timerList {
        ActiveChanged(entry, skip);
      } else {
        if entry in timerList {
          SlotsMember(timerList, entry);
        }
        RestartInactive(entry);
        raised := entry.state == StateEnded;
      }
    }

    /** timeChanged on an Ended timer of processed_timers: out of it, Waiting again, filed by addTimerEntry. */
    method EndedChanged(entry: RecordTimerEntry, skip: bool)
      requires Valid() && entry.state == StateEnded && entry in processedTimers
      modifies this`timerList, this`processedTimers, entry`startPrepare, entry`backoff, entry`state
      ensures Valid()
      ensures entry.startPrepare == entry.begin - entry.prepareTime && entry.backoff == 0
      ensures skip ==>
        (entry.state, timerList, processedTimers)
          == (StateEnded, old(timerList), Insort(RemoveFirst(old(processedTimers), entry), entry))
      ensures !skip ==>
        (entry.state, timerList, processedTimers)
          == (StateWaiting, Insort(old(timerList), entry), RemoveFirst(old(processedTimers), entry))
    {
      DropProcessed(entry);
      Refile(entry, skip);
    }

    /** The rest of timeChanged on an Ended timer taken out of processed_timers. */
    method Refile(entry: RecordTimerEntry, skip: bool)
      requires Valid() && entry.Valid() && entry !in timerList && entry !in processedTimers
      modifies this`timerList, this`processedTimers, entry`startPrepare, entry`backoff, entry`state
      ensures Valid()
      ensures entry.startPrepare == entry.begin - entry.prepareTime && entry.backoff == 0
      ensures skip ==>
        (entry.state, timerList, processedTimers) == (StateEnded, old(timerList), Insort(old(processedTimers), entry))
      ensures !skip ==>
        (entry.state, timerList, processedTimers) == (StateWaiting, Insort(old(timerList), entry), old(processedTimers))
    {
      RestartInactive(entry);
      WaitAgain(entry);
      AddTimerEntry(entry, skip);
    }

    /** timeChanged on a timer of timer_list: out of it, then filed by addTimerEntry. */
    method ActiveChanged(entry: RecordTimerEntry, skip: bool)
      requires Valid() && entry in timerList
      modifies this`timerList, this`processedTimers, entry`startPrepare, entry`backoff, entry`state
      ensures Valid()
      ensures entry.startPrepare == entry.begin - entry.prepareTime && entry.backoff == 0
      ensures skip ==>
        (entry.state, timerList, processedTimers)
          == (StateEnded, RemoveFirst(old(timerList), entry), Insort(old(processedTimers), entry))
      ensures !skip ==>
        (entry.state, timerList, processedTimers)
          == (old(entry.state), Insort(RemoveFirst(old(timerList), entry), entry), old(processedTimers))
    {
      Detach(entry);
      RestartInactive(entry);
      AddTimerEntry(entry, skip);
    }

    /** timeChanged's entry.state = StateWaiting on an Ended timer taken out of processed_timers. */
    method WaitAgain(entry: RecordTimerEntry)
      requires Valid() && entry.Valid() && entry !in timerList && entry !in processedTimers
      modifies entry`state
      ensures Valid() && entry.Valid() && entry.state == StateWaiting
    {
      ghost var s := timerList;
      ghost var p := processedTimers;
      entry.state := StateWaiting;
      forall i | 0 <= i < |s|
        ensures SlotOf(s[i]) == old(SlotOf(s[i]))
      {
        assert s[i] in s;
      }
      forall i | 0 <= i < |p|
        ensures SlotOf(p[i]) == old(SlotOf(p[i]))
      {
        assert p[i] in p;
      }
      SlotsUnchanged(s);
      SlotsUnchanged(p);
    }

    /** The entry's own timeChanged on a timer outside timer_list: only its preparation time restarts. */
    method RestartInactive(entry: RecordTimerEntry)
      requires Valid() && entry !in timerList
      modifies entry`startPrepare, entry`backoff
      ensures Valid() && (old(entry.Valid()) ==> entry.Valid())
      ensures entry.startPrepare == entry.begin - entry.prepareTime && entry.backoff == 0
    {
      ghost var p := processedTimers;
      ghost var vp := Slots(p);
      forall i | 0 <= i < |p|
        ensures vp[i] == SlotOf(p[i])
      {
        SlotsAt(p, i);
      }
      entry.TimeChanged();
      forall i | 0 <= i < |p|
        ensures SlotOf(p[i]) == old(SlotOf(p[i]))
      {
        assert vp[i] in vp;
      }
      SlotsUnchanged(p);
    }

    /**
     * doActivate: a skipped timer jumps to Ended, otherwise activate() decides
     * whether the state rises by one.  The timer then goes back into timer_list
     * in order while it is before Ended; at Ended a repeating timer restarts as
     * Waiting in its next window and addTimerEntry files it again with the
     * verdict refiled, any other one moves to processed_timers.
     */
    method DoActivate(w: RecordTimerEntry, skip: bool, env: ActivationEnv, tally: RecordingsTally,
                      nextWindow: (int, int), refiled: bool)
      requires Valid() && w in timerList
      modifies this`timerList, this`processedTimers, tally`nRecordings
      modifies w`state, w`begin, w`end, w`startPrepare, w`nextActivation, w`backoff, w`lastend,
               w`mountPathRetryCounter, w`mountPathErrorNumber, w`failed, w`firstTryPrepare,
               w`changeFrontend, w`advancedPriorityFrontend
      ensures Valid() && (w in timerList) != (w in processedTimers)
      ensures w.Snapshot() == Activated(old(w.Snapshot()), old(w.Flags()), env, skip, old(w.repeated) != 0, nextWindow, refiled)
      ensures GoesToProcessed(old(w.Snapshot()), old(w.Flags()), env, skip, old(w.repeated) != 0, refiled) ==>
        timerList == RemoveFirst(old(timerList), w) && processedTimers == Insort(old(processedTimers), w)
      ensures !GoesToProcessed(old(w.Snapshot()), old(w.Flags()), env, skip, old(w.repeated) != 0, refiled) ==>
        timerList == Insort(RemoveFirst(old(timerList), w), w) && processedTimers == old(processedTimers)
      ensures tally.nRecordings == if !skip && ActivateSpec(old(w.Snapshot()), old(w.Flags()), env).stopped
        then Tally(old(tally.nRecordings), -1) else old(tally.nRecordings)
    {
      Detach(w);
      StepAndFile(w, skip, env, tally, nextWindow, refiled);
    }

    /** doActivate after timer_list.remove(w): the timer's step, then its filing. */
    method StepAndFile(w: RecordTimerEntry, skip: bool, env: ActivationEnv, tally: RecordingsTally,
                       nextWindow: (int, int), refiled: bool)
      requires Valid() && w !in timerList && w !in processedTimers && w.Valid() && w.state < StateEnded
      modifies this`timerList, this`processedTimers, tally`nRecordings
      modifies w`state, w`begin, w`end, w`startPrepare, w`nextActivation, w`backoff, w`lastend,
               w`mountPathRetryCounter, w`mountPathErrorNumber, w`failed, w`firstTryPrepare,
               w`changeFrontend, w`advancedPriorityFrontend
      ensures Valid() && (w in timerList) != (w in processedTimers)
      ensures w.Snapshot() == Activated(old(w.Snapshot()), old(w.Flags()), env, skip, old(w.repeated) != 0, nextWindow, refiled)
      ensures GoesToProcessed(old(w.Snapshot()), old(w.Flags()), env, skip, old(w.repeated) != 0, refiled) ==>
        timerList == old(timerList) && processedTimers == Insort(old(processedTimers), w)
      ensures !GoesToProcessed(old(w.Snapshot()), old(w.Flags()), env, skip, old(w.repeated) != 0, refiled) ==>
        timerList == Insort(old(timerList), w) && processedTimers == old(processedTimers)
      ensures tally.nRecordings == if !skip && ActivateSpec(old(w.Snapshot()), old(w.Flags()), env).stopped
        then Tally(old(tally.nRecordings), -1) else old(tally.nRecordings)
    {
      var finished := Step(w, skip, env, tally, nextWindow);
      FileStepped(w, finished, refiled);
    }

    /**
     * The filing at the end of doActivate: an unfinished timer is insorted into
     * timer_list, a finished one into processed_timers, and a restarted
     * repeating one is filed by addTimerEntry with the verdict refiled.
     */
    method FileStepped(w: RecordTimerEntry, finished: bool, refiled: bool)
      requires Valid() && w !in timerList && w !in processedTimers && w.Valid()
      requires !finished ==> w.state < StateEnded
      requires finished && w.repeated != 0 ==> w.state < StateEnded
      requires finished && w.repeated == 0 ==> w.state >= StateEnded
      modifies this`timerList, this`processedTimers, w`state
      ensures Valid() && (w in timerList) != (w in processedTimers)
      ensures w.Snapshot() == old(w.Snapshot()).(state := if finished && w.repeated != 0 && refiled then StateEnded else old(w.state))
      ensures finished && (w.repeated == 0 || refiled) ==>
        timerList == old(timerList) && processedTimers == Insort(old(processedTimers), w)
      ensures !(finished && (w.repeated == 0 || refiled)) ==>
        timerList == Insort(old(timerList), w) && processedTimers == old(processedTimers)
    {
      if !finished {
        FileActive(w);
      } else if w.repeated != 0 {
        AddTimerEntry(w, refiled);
      } else {
        FileProcessed(w);
      }
    }

    /**
     * The part of doActivate that changes the timer itself, done while it is
     * in neither list; finished tells whether it reached Ended.
     */
    method Step(w: RecordTimerEntry, skip: bool, env: ActivationEnv, tally: RecordingsTally,
                nextWindow: (int, int)) returns (finished: bool)
      requires w.Valid() && w.state < StateEnded
      modifies tally`nRecordings
      modifies w`state, w`begin, w`end, w`startPrepare, w`nextActivation, w`backoff, w`lastend,
               w`mountPathRetryCounter, w`mountPathErrorNumber, w`failed, w`firstTryPrepare,
               w`changeFrontend, w`advancedPriorityFrontend
      ensures w.Valid()
      ensures w.Snapshot() == Stepped(old(w.Snapshot()), old(w.Flags()), env, skip, old(w.repeated) != 0, nextWindow)
      ensures finished <==> Reached(old(w.Snapshot()), old(w.Flags()), env, skip) >= StateEnded
      ensures tally.nRecordings == if !skip && ActivateSpec(old(w.Snapshot()), old(w.Flags()), env).stopped
        then Tally(old(tally.nRecordings), -1) else old(tally.nRecordings)
    {
      finished := Advance(w, skip, env, tally);
      if finished && w.repeated != 0 {
        RestartRepeat(w, nextWindow);
      }
      SteppedKeepsBounds(old(w.Snapshot()), old(w.Flags()), env, skip, old(w.repeated) != 0, nextWindow);
    }

    /** doActivate's first step: Ended when skipped, otherwise activate() and, when accepted, one state up. */
    method Advance(w: RecordTimerEntry, skip: bool, env: ActivationEnv, tally: RecordingsTally) returns (finished: bool)
      modifies tally`nRecordings
      modifies w`state, w`begin, w`end, w`startPrepare, w`nextActivation, w`backoff, w`lastend,
               w`mountPathRetryCounter, w`mountPathErrorNumber, w`failed, w`firstTryPrepare,
               w`changeFrontend, w`advancedPriorityFrontend
      ensures w.Snapshot() == Advanced(old(w.Snapshot()), old(w.Flags()), env, skip)
      ensures finished <==> w.state >= StateEnded
      ensures tally.nRecordings == if !skip && ActivateSpec(old(w.Snapshot()), old(w.Flags()), env).stopped
        then Tally(old(tally.nRecordings), -1) else old(tally.nRecordings)
    {
      if skip {
        w.state := StateEnded;
      } else {
        var accepted := w.Activate(env, tally);
        if accepted {
          w.state := w.state + 1;
        }
      }
      finished := w.state >= StateEnded;
    }

    /** A repeating timer at Ended: processRepeated moves it to its next window, Waiting, first_try_prepare set. */
    method RestartRepeat(w: RecordTimerEntry, nextWindow: (int, int))
      modifies w`state, w`begin, w`end, w`firstTryPrepare
      ensures w.Snapshot() == Restarted(old(w.Snapshot()), nextWindow)
    {
      w.begin, w.end := nextWindow.0, nextWindow.1;
      w.state := StateWaiting;
      w.firstTryPrepare := true;
    }

    /**
     * record: a conflict the caller does not override is returned with the
     * simultaneous timers and nothing changes; a double timer is dropped; any
     * other timer restarts its preparation time and is added.
     */
    method Record(entry: RecordTimerEntry, ignoreTSC: bool, check: SanityCheck, skip: bool)
      returns (conflict: Option<seq<RecordTimerEntry>>)
      requires Valid() && entry.Valid() && entry !in timerList && entry !in processedTimers
      modifies this, entry`startPrepare, entry`backoff, entry`state
      ensures Valid()
      ensures conflict.Some? <==> !check.passes && !ignoreTSC
      ensures conflict.Some? ==> conflict.value == check.simulTimers
      ensures var added := (check.passes && !check.isDouble) || (!check.passes && ignoreTSC);
        (added ==> (entry.startPrepare == entry.begin - entry.prepareTime && entry.backoff == 0
          && (FiledAsProcessed(skip, old(entry.state)) ==>
                (entry.state, timerList, processedTimers) == (StateEnded, old(timerList), Insort(old(processedTimers), entry)))
          && (!FiledAsProcessed(skip, old(entry.state)) ==>
                (entry.state, timerList, processedTimers) == (old(entry.state), Insort(old(timerList), entry), old(processedTimers)))))
        && (!added ==> (timerList == old(timerList) && processedTimers == old(processedTimers)
          && entry.startPrepare == old(entry.startPrepare) && entry.backoff == old(entry.backoff)
          && entry.state == old(entry.state)))
    {
      if !check.passes {
        if !ignoreTSC {
          return Some(check.simulTimers);
        }
      } else if check.isDouble {
        return None;
      }
      entry.TimeChanged();
      AddTimerEntry(entry, skip);
      conflict := None;
    }

    /** isRecording: whether some timer of timer_list is recording now. */
    method IsRecording() returns (r: bool)
      ensures r == AnyRecording(timerList)
    {
      r := false;
      var k := 0;
      while k < |timerList|
        invariant k <= |timerList|
        invariant r <==> exists i | 0 <= i < k :: Recording(timerList[i])
      {
        if timerList[k].IsRunning() && timerList[k].justplay == 0 {
          r := true;
        }
        k := k + 1;
      }
    }

    /** getNextZapTime: the begin of the first zap timer not before from_time (now when absent), or -1. */
    method GetNextZapTime(now: int, fromTime: Option<int>) returns (t: int)
      ensures t == NextZapTime(timerList, fromTime.GetOr(now))
    {
      var from := fromTime.GetOr(now);
      var k := 0;
      while k < |timerList|
        invariant k <= |timerList|
        invariant forall j | 0 <= j < k :: !ZapDue(timerList[j], from)
      {
        var x := timerList[k];
        if x.justplay != 0 && x.begin >= from {
          return x.begin;
        }
        k := k + 1;
      }
      return -1;
    }

    /** getStillRecording: a timer still recording or beginning within 10 s of now. */
    method GetStillRecording(now: int) returns (r: bool)
      ensures r == AnyStillRecording(timerList, now)
    {
      var k := 0;
      while k < |timerList|
        invariant k <= |timerList|
        invariant forall j | 0 <= j < k :: !StillRecordingNear(timerList[j], now)
      {
        var x := timerList[k];
        if x.isStillRecording {
          return true;
        } else if -10 <= x.begin - now <= 10 {
          return true;
        }
        k := k + 1;
      }
      return false;
    }

    /**
     * getNextRecordingTimeOld: asks each timer for its next activation until
     * the first recording timer due.  Every timer asked has its isStillRecording
     * flag set afresh, the others keep theirs.
     */
    method GetNextRecordingTimeOld(now: int, fromTime: Option<int>) returns (t: int)
      requires Valid()
      modifies timerList`isStillRecording
      ensures t == old(NextRecordingTime(timerList, fromTime.GetOr(now)))
      ensures Asked(timerList, now, fromTime.GetOr(now))
      ensures NextZapTime(timerList, fromTime.GetOr(now)) == old(NextZapTime(timerList, fromTime.GetOr(now)))
    {
      DistinctIndices(timerList);
      forall j | 0 <= j < |timerList|
        ensures timerList[j].Valid()
      {
        SlotsAt(timerList, j);
        assert Slots(timerList)[j] in Slots(timerList);
      }
      t := AskNextRecording(timerList, now, fromTime.GetOr(now));
    }

    /** getNextRecordingTime: getNextRecordingTimeOld, adjusted while timeshift is recording. */
    method GetNextRecordingTime(now: int, fromTime: Option<int>, timeshiftRecording: bool) returns (t: int)
      requires Valid()
      modifies timerList`isStillRecording
      ensures t == TimeshiftAdjusted(old(NextRecordingTime(timerList, fromTime.GetOr(now))), now, timeshiftRecording)
      ensures Asked(timerList, now, fromTime.GetOr(now))
      ensures NextZapTime(timerList, fromTime.GetOr(now)) == old(NextZapTime(timerList, fromTime.GetOr(now)))
    {
      t := GetNextRecordingTimeOld(now, fromTime);
      var faketime := now + 300;
      if timeshiftRecording {
        if !(0 < t < faketime) {
          t := faketime;
        }
      }
    }

    /**
     * recordingsActive: something records (or still records) now, or the next
     * recording or the next zap lies within margin of now; the tests run in
     * that order and stop at the first that holds.
     */
    method RecordingsActive(margin: int, now: int, fromTime: Option<int>, useStillRecording: bool,
                            timeshiftRecording: bool) returns (active: bool)
      requires Valid()
      modifies timerList`isStillRecording
      ensures active == old(ActiveVerdict(timerList, margin, now, fromTime.GetOr(now), useStillRecording, timeshiftRecording))
      ensures if old(RecordingNow(timerList, now, useStillRecording)) then unchanged(timerList)
        else Asked(timerList, now, fromTime.GetOr(now))
    {
      // getStillRecording() / isRecording(), through the predicates their loops are proved against
      if RecordingNow(timerList, now, useStillRecording) {
        return true;
      }
      active := NearActivation(margin, now, fromTime.GetOr(now), timeshiftRecording);
    }

    /** The last two tests of recordingsActive: the next recording, then the next zap, within margin of now. */
    method NearActivation(margin: int, now: int, from: int, timeshiftRecording: bool) returns (near: bool)
      requires Valid()
      modifies timerList`isStillRecording
      ensures near == old(Abs(TimeshiftAdjusted(NextRecordingTime(timerList, from), now, timeshiftRecording) - now) <= margin
                          || Abs(NextZapTime(timerList, from) - now) <= margin)
      ensures Asked(timerList, now, from)
    {
      var t := GetNextRecordingTime(now, Some(from), timeshiftRecording);
      if Abs(t - now) <= margin {
        return true;
      }
      var z := GetNextZapTime(now, Some(from));
      near := Abs(z - now) <= margin;
    }

    /**
     * removeEntry: the timer stops repeating and auto-increasing and is
     * aborted; unless it has Ended its time change is handled (a timer of
     * timer_list is filed again, into processed_timers as Ended when skip, the
     * base class's verdict after the abort, says so); unless it is not saved,
     * every auto-increasing timer whose end can move is extended and sorted in
     * again; last, the timer leaves processed_timers.  verdicts[i] is the
     * sanity check's answer for the timer the pass looks at in position i.
     */
    method RemoveEntry(entry: RecordTimerEntry, now: int, skip: bool, verdicts: seq<SanityVerdict>)
      requires Valid() && |verdicts| == |timerList|
      modifies this`timerList, this`processedTimers
      modifies entry`repeated, entry`autoincrease, entry`end, entry`cancelled, entry`startPrepare, entry`backoff
      modifies entry`state, timerList`end, timerList`startPrepare, timerList`backoff
      ensures Valid() && Withdrawn(entry, now) && entry !in processedTimers
      ensures processedTimers == RemoveFirst(old(processedTimers), entry)
      ensures old(entry.state) != StateEnded ==> entry.startPrepare == entry.begin - entry.prepareTime && entry.backoff == 0
      ensures entry.state == if skip && entry in old(timerList) then StateEnded else old(entry.state)
      ensures multiset(timerList) == multiset(old(timerList)) - (if skip then multiset{entry} else multiset{})
      ensures skip ==> entry !in timerList
      ensures entry.dontSave ==>
        timerList == if entry !in old(timerList) then old(timerList)
          else if skip then RemoveFirst(old(timerList), entry)
          else Insort(RemoveFirst(old(timerList), entry), entry)
    {
      Withdraw(entry, now, skip);
      MultisetMembers(timerList, old(timerList), if skip then multiset{entry} else multiset{});
      if entry in old(timerList) && skip {
        InsortByRemove(old(processedTimers), Slots(old(processedTimers)), entry, SlotOf(entry));
      }
      assert RemoveFirst(processedTimers, entry) == RemoveFirst(old(processedTimers), entry);
      Finish(entry, now, verdicts, old(timerList), RemoveFirst(old(timerList), entry));
    }

    /**
     * The rest of removeEntry: the auto-increase pass unless the timer is not
     * saved, then processed_timers.remove(entry).  frame holds every timer
     * the pass may touch; a list insort built from rest is still that list.
     */
    method Finish(entry: RecordTimerEntry, now: int, verdicts: seq<SanityVerdict>, ghost frame: seq<RecordTimerEntry>,
                  ghost rest: seq<RecordTimerEntry>)
      requires Valid() && |timerList| <= |verdicts| && Withdrawn(entry, now)
      requires forall y | y in timerList :: y in frame
      modifies this`timerList, this`processedTimers, frame`end, frame`startPrepare, frame`backoff
      ensures Valid() && entry !in processedTimers && unchanged(entry)
      ensures processedTimers == RemoveFirst(old(processedTimers), entry)
      ensures multiset(timerList) == old(multiset(timerList))
      ensures entry.dontSave ==> timerList == old(timerList)
      ensures entry.dontSave && old(timerList) == old(Insort(rest, entry)) ==> timerList == Insort(rest, entry)
    {
      if !entry.dontSave {
        AutoincreasePass(now, verdicts, entry, frame);
      }
      DropProcessed(entry);
    }

    /**
     * The part of removeEntry that concerns the removed timer itself, up to
     * the auto-increase pass: a timer outside timer_list leaves
     * processed_timers here already, since the pass does not read that list.
     */
    method Withdraw(entry: RecordTimerEntry, now: int, skip: bool)
      requires Valid()
      modifies this`timerList, this`processedTimers
      modifies entry`repeated, entry`autoincrease, entry`end, entry`cancelled, entry`startPrepare, entry`backoff
      modifies entry`state
      ensures Valid() && Withdrawn(entry, now)
      ensures old(entry.state) != StateEnded ==> entry.startPrepare == entry.begin - entry.prepareTime && entry.backoff == 0
      ensures entry in old(timerList) ==> entry !in old(processedTimers)
      ensures entry in old(timerList) && skip ==>
        (entry.state, timerList, processedTimers)
          == (StateEnded, RemoveFirst(old(timerList), entry), Insort(old(processedTimers), entry))
      ensures entry in old(timerList) && !skip ==>
        (entry.state, timerList, processedTimers)
          == (old(entry.state), Insort(RemoveFirst(old(timerList), entry), entry), old(processedTimers))
      ensures entry !in old(timerList) ==>
        (entry.state, timerList, processedTimers) == (old(entry.state), old(timerList), RemoveFirst(old(processedTimers), entry))
        && entry !in processedTimers
      ensures multiset(timerList) == multiset(old(timerList)) - (if skip then multiset{entry} else multiset{})
    {
      StopRepeating(entry);
      if entry in timerList {
        WithdrawActive(entry, now, skip);
      } else {
        WithdrawInactive(entry, now);
      }
    }

    /** entry.repeated = False; entry.autoincrease = False */
    method StopRepeating(entry: RecordTimerEntry)
      requires Valid()
      modifies entry`repeated, entry`autoincrease
      ensures Valid() && entry.repeated == 0 && !entry.autoincrease
    {
      entry.repeated := 0;
      entry.autoincrease := false;
      SlotsUnchanged(timerList);
      SlotsUnchanged(processedTimers);
    }

    /** removeEntry on a timer of timer_list: aborted, then filed again by its time change. */
    method WithdrawActive(entry: RecordTimerEntry, now: int, skip: bool)
      requires Valid() && entry in timerList
      modifies this`timerList, this`processedTimers, entry`end, entry`cancelled, entry`startPrepare, entry`backoff
      modifies entry`state
      ensures Valid() && entry.cancelled && entry.end == now
      ensures unchanged(entry`repeated, entry`autoincrease)
      ensures entry.startPrepare == entry.begin - entry.prepareTime && entry.backoff == 0
      ensures entry !in old(processedTimers)
      ensures skip ==>
        (entry.state, timerList, processedTimers)
          == (StateEnded, RemoveFirst(old(timerList), entry), Insort(old(processedTimers), entry))
      ensures !skip ==>
        (entry.state, timerList, processedTimers)
          == (old(entry.state), Insort(RemoveFirst(old(timerList), entry), entry), old(processedTimers))
      ensures multiset(timerList) == multiset(old(timerList)) - (if skip then multiset{entry} else multiset{})
    {
      // the base class's timeChanged takes the aborted timer out before filing it
      ghost var flags := (entry.repeated, entry.autoincrease);
      Detach(entry);
      assert (entry.repeated, entry.autoincrease) == flags;
      AbortDetached(entry, now, true);
      ghost var kept := (entry.repeated, entry.autoincrease, entry.startPrepare, entry.backoff, entry.begin, entry.prepareTime);
      assert kept == (flags.0, flags.1, entry.begin - entry.prepareTime, 0, entry.begin, entry.prepareTime);
      AddTimerEntry(entry, skip);
      assert (entry.repeated, entry.autoincrease, entry.startPrepare, entry.backoff, entry.begin, entry.prepareTime) == kept;
      if skip {
        RemoveFirstMultiset(old(timerList), entry);
      } else {
        ResortMultiset(old(timerList), entry);
      }
    }

    /**
     * removeEntry on a timer outside timer_list: it leaves processed_timers,
     * which nothing in between reads, and is aborted; unless it has Ended its
     * preparation time restarts.
     */
    method WithdrawInactive(entry: RecordTimerEntry, now: int)
      requires Valid() && entry !in timerList
      modifies this`processedTimers, entry`end, entry`cancelled, entry`startPrepare, entry`backoff
      ensures Valid() && entry.cancelled && entry.end == now
      ensures unchanged(entry`repeated, entry`autoincrease)
      ensures entry.state != StateEnded ==> entry.startPrepare == entry.begin - entry.prepareTime && entry.backoff == 0
      ensures entry !in processedTimers && processedTimers == RemoveFirst(old(processedTimers), entry)
    {
      DropProcessed(entry);
      AbortDetached(entry, now, entry.state != StateEnded);
    }

    /** processed_timers.remove(entry), when it is there. */
    method DropProcessed(entry: RecordTimerEntry)
      requires Valid()
      modifies this`processedTimers
      ensures Valid() && entry !in processedTimers
      ensures processedTimers == RemoveFirst(old(processedTimers), entry)
      ensures entry in old(processedTimers) ==> entry !in timerList && entry.Valid() && entry.state >= StateEnded
    {
      DropValid(timerList, processedTimers, entry);
      processedTimers := RemoveFirst(processedTimers, entry);
      SlotsUnchanged(timerList);
      SlotsUnchanged(processedTimers);
    }

    /** entry.abort() on a timer in neither list, then, when asked, its own timeChanged. */
    method AbortDetached(entry: RecordTimerEntry, now: int, restart: bool)
      requires Valid() && entry !in timerList && entry !in processedTimers
      modifies entry`end, entry`cancelled, entry`startPrepare, entry`backoff
      ensures Valid() && entry.end == now && entry.cancelled
      ensures restart ==> entry.startPrepare == entry.begin - entry.prepareTime && entry.backoff == 0
      ensures !restart ==> entry.startPrepare == old(entry.startPrepare) && entry.backoff == old(entry.backoff)
    {
      entry.Abort(now);
      if restart {
        entry.TimeChanged();
      }
    }

    /**
     * The auto-increase pass of removeEntry: each position of timer_list in
     * turn, where an auto-increasing timer whose end can move is extended and
     * sorted in again, which may reorder the list under the pass.
     */
    method AutoincreasePass(now: int, verdicts: seq<SanityVerdict>, entry: RecordTimerEntry,
                            ghost timers: seq<RecordTimerEntry>)
      requires Valid() && |timerList| <= |verdicts| && Withdrawn(entry, now)
      requires forall y | y in timerList :: y in timers
      modifies this`timerList, timers`end, timers`startPrepare, timers`backoff
      ensures Valid() && multiset(timerList) == old(multiset(timerList)) && Withdrawn(entry, now)
      ensures (entry.end, entry.startPrepare, entry.backoff) == old((entry.end, entry.startPrepare, entry.backoff))
      ensures forall y | y in timers && y != entry :: y.end == old(y.end) || y.end > now
    {
      var i := 0;
      while i < |timerList|
        invariant Valid() && multiset(timerList) == old(multiset(timerList)) && Withdrawn(entry, now)
        invariant forall y | y in timerList :: y in timers
        invariant |timerList| == old(|timerList|)
        invariant (entry.end, entry.startPrepare, entry.backoff) == old((entry.end, entry.startPrepare, entry.backoff))
        invariant forall y | y in timers && y != entry :: y.end == old(y.end) || y.end > now
      {
        var x := timerList[i];
        if AutoincreaseEnd(x.autoincrease, x.autoincreaseTime, now, None, verdicts[i]).Some? {
          assert x in timers;
          Extend(x, now, verdicts[i]);
          MultisetMembers(timerList, old(timerList), multiset{});
        }
        i := i + 1;
      }
    }

    /** x.setAutoincreaseEnd() answered true: x is extended and its time change handled. */
    method Extend(x: RecordTimerEntry, now: int, verdict: SanityVerdict)
      requires Valid() && x in timerList
      requires AutoincreaseEnd(x.autoincrease, x.autoincreaseTime, now, None, verdict).Some?
      modifies this`timerList, x`end, x`startPrepare, x`backoff
      ensures Valid() && multiset(timerList) == multiset(old(timerList))
      ensures x.end == AutoincreaseEnd(x.autoincrease, x.autoincreaseTime, now, None, verdict).value
      ensures x.startPrepare == x.begin - x.prepareTime && x.backoff == 0
    {
      Detach(x);
      ExtendDetached(x, now, verdict);
      FileActive(x);
      ResortMultiset(old(timerList), x);
    }

    /** setAutoincreaseEnd and timeChanged on a timer in neither list. */
    method ExtendDetached(x: RecordTimerEntry, now: int, verdict: SanityVerdict)
      requires Valid() && x !in timerList && x !in processedTimers
      requires AutoincreaseEnd(x.autoincrease, x.autoincreaseTime, now, None, verdict).Some?
      modifies x`end, x`startPrepare, x`backoff
      ensures Valid()
      ensures x.end == AutoincreaseEnd(x.autoincrease, x.autoincreaseTime, now, None, verdict).value
      ensures x.startPrepare == x.begin - x.prepareTime && x.backoff == 0
    {
      var changed := x.SetAutoincreaseEnd(now, None, verdict);
      x.TimeChanged();
    }
  }
}
