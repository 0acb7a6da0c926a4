/**
 * isInTimer: how the timers of timer_list overlap an EPG event on the same
 * service.  The answer is the overlap in seconds, its kind (1 the timer
 * records the last part of the event, 2 all of it, 3 a part within it, 4 the
 * first part; plus 5 for a zap timer, 10 for an always-zap one) and two flag
 * bits (1 an AutoTimer, 2 an IceTV timer).
 */
module TimerOverlap {
  import opened Wrappers
  import opened Text
  import opened TimerEntry

  /**
   * What isInTimer reads of one timer.  Two answers come from code that is
   * not part of this model: whether the EPG links the timer's service to the
   * event's as a subservice, and what the weekday arithmetic of a repeating
   * timer assigns (a time match and a kind, or nothing).  The service
   * reference is held already cut down to its ServiceKey.
   */
  datatype TimerView = TimerView(
    serviceKey: string, subserviceMatch: bool,
    begin: int, end: int, repeated: int, justplay: bool, alwaysZap: bool,
    isAutoTimer: int, iceTimer: bool, repeatedMatch: Option<(int, int)>)

  datatype Event = Event(begin: int, duration: int, service: string) {
    function End(): int { begin + duration }
  }

  datatype Hit = Hit(timeMatch: int, kind: int, flags: int)

  /** The view of a timer of timer_list. */
  function View(e: RecordTimerEntry, subserviceMatch: bool, repeatedMatch: Option<(int, int)>): TimerView
    reads e`serviceRef, e`begin, e`end, e`repeated, e`justplay, e`alwaysZap, e`isAutoTimer, e`iceTimerId
  {
    TimerView(ServiceKey(e.serviceRef), subserviceMatch, e.begin, e.end, e.repeated, e.justplay != 0, e.alwaysZap != 0,
              e.isAutoTimer, e.iceTimerId.Some?, repeatedMatch)
  }

  /** The part of a service reference isInTimer compares: its first eleven ':'-separated fields. */
  function ServiceKey(ref: string): (r: string)
    ensures |Split(ref, ':')| <= 11 ==> r == ref
  {
    var parts := Split(ref, ':');
    JoinSplit(ref, ':');
    assert parts[..|parts|] == parts;
    Join(parts[..if |parts| < 11 then |parts| else 11], ':')
  }

  /** Cutting a reference down to its key twice cuts nothing more. */
  lemma ServiceKeyIdempotent(ref: string)
    ensures ServiceKey(ServiceKey(ref)) == ServiceKey(ref)
  {
    var parts := Split(ref, ':');
    var key := parts[..if |parts| < 11 then |parts| else 11];
    SplitPiecesFree(ref, ':');
    assert forall i :: 0 <= i < |key| ==> ':' !in key[i] by {
      assert forall i :: 0 <= i < |key| ==> key[i] == parts[i];
    }
    SplitJoin(key, ':');
    assert key[..|key|] == key;
  }

  predicate SameService(v: TimerView, service: string) {
    v.serviceKey == ServiceKey(service) || v.subserviceMatch
  }

  /** The flag bits: 1 for an AutoTimer, 2 for an IceTV timer. */
  function Flags(v: TimerView): (f: int)
    ensures 0 <= f <= 3
    ensures f % 2 == 1 <==> v.isAutoTimer == 1
    ensures f >= 2 <==> v.iceTimer
  {
    (if v.isAutoTimer == 1 then 1 else 0) + (if v.iceTimer then 2 else 0)
  }

  /** 0 for a recording, 5 for a zap timer, 10 for an always-zap timer. */
  function KindOffset(v: TimerView): (k: int)
    ensures k == 0 || k == 5 || k == 10
    ensures v.alwaysZap ==> k == 10
    ensures !v.alwaysZap ==> (k == 5 <==> v.justplay)
  {
    if v.alwaysZap then 10 else if v.justplay then 5 else 0
  }

  /**
   * The timer's window as isInTimer compares it.  With no recording margins
   * configured, a one-off timer that ends less than a minute before the event
   * is taken to end with it, otherwise one that begins less than a minute
   * after the event is taken to begin with it; a zap timer at most one second
   * long is taken a minute longer.
   */
  function Window(v: TimerView, ev: Event, checkOffsetTime: bool): (int, int) {
    var snapEnd := v.repeated == 0 && checkOffsetTime && 0 < ev.End() - v.end <= 59;
    var snapBegin := v.repeated == 0 && checkOffsetTime && !snapEnd && 0 < v.begin - ev.begin <= 59;
    var timerEnd := if snapEnd then ev.End() else v.end;
    var timerBegin := if snapBegin then ev.begin else v.begin;
    (timerBegin, if v.justplay && timerEnd - v.begin <= 1 then timerEnd + 60 else timerEnd)
  }

  /**
   * Without margins for a one-off timer the window is the timer's own (a zap
   * timer perhaps a minute longer); otherwise at most one edge snaps, each
   * only to an event edge less than a minute away.
   */
  lemma WindowEdges(v: TimerView, ev: Event, checkOffsetTime: bool)
    ensures var w := Window(v, ev, checkOffsetTime);
      && (v.repeated != 0 || !checkOffsetTime ==> w.0 == v.begin && (w.1 == v.end || w.1 == v.end + 60))
      && (w.0 != v.begin ==> w.0 == ev.begin && 0 < v.begin - ev.begin <= 59)
      && (w.0 == v.begin || w.1 == v.end || w.1 == v.end + 60)
      && (w.1 != v.end && w.1 != v.end + 60 ==> (w.1 == ev.End() || w.1 == ev.End() + 60) && 0 < ev.End() - v.end <= 59)
  {
  }

  /**
   * The non-repeating overlap test of a window [tb, te] against an event
   * [b, e]: the seconds matched and the kind before the offset, or nothing.
   * For a window and an event that do not run backwards, it finds an overlap
   * exactly when the two intersect; the match is the length of the
   * intersection and the kind says which ends of the event the timer covers.
   */
  function Overlap(tb: int, te: int, b: int, e: int): (r: Option<(int, int)>)
    ensures tb <= te && b <= e ==> (r.Some? <==> Max(tb, b) <= Min(te, e))
    ensures tb <= te && b <= e && r.Some? ==> r.value.0 == Min(te, e) - Max(tb, b)
    ensures tb <= te && b <= e && r.Some? ==>
      (r.value.1 == 1 <==> b < tb && e <= te) && (r.value.1 == 2 <==> tb <= b && e <= te)
      && (r.value.1 == 3 <==> b < tb && te < e) && (r.value.1 == 4 <==> tb <= b && te < e)
  {
    if b < tb <= e then
      if te < e then Some((te - tb, 3)) else Some((e - tb, 1))
    else if tb <= b <= te then
      if te < e then Some((te - b, 4)) else Some((e - b, 2))
    else None
  }

  function Min(a: int, b: int): int { if a <= b then a else b }
  function Max(a: int, b: int): int { if a >= b then a else b }

  /** What the branch for this timer assigns to (time_match, kind), if anything. */
  function Assigned(v: TimerView, ev: Event, checkOffsetTime: bool): Option<(int, int)> {
    if v.repeated != 0 then v.repeatedMatch
    else
      var w := Window(v, ev, checkOffsetTime);
      match Overlap(w.0, w.1, ev.begin, ev.End())
      case None => None
      case Some(m) => Some((m.0, KindOffset(v) + m.1))
  }

  /** The hit a timer on the event's service produces on its own: a non-zero time match. */
  function Match(v: TimerView, ev: Event, checkOffsetTime: bool): (h: Option<Hit>)
    ensures h.Some? ==> SameService(v, ev.service) && h.value.timeMatch != 0 && h.value.flags == Flags(v)
  {
    if !SameService(v, ev.service) then None
    else match Assigned(v, ev, checkOffsetTime)
      case None => None
      case Some(m) => if m.0 != 0 then Some(Hit(m.0, m.1, Flags(v))) else None
  }

  /** The kinds of a timer covering the whole event, which end the search. */
  predicate Whole(h: Hit) {
    h.kind == 2 || h.kind == 7 || h.kind == 12
  }

  /** Each timer's own hit on the event, in list order. */
  function Hits(vs: seq<TimerView>, ev: Event, checkOffsetTime: bool): (hs: seq<Option<Hit>>)
    ensures |hs| == |vs|
  {
    if vs == [] then [] else Hits(vs[..|vs| - 1], ev, checkOffsetTime) + [Match(vs[|vs| - 1], ev, checkOffsetTime)]
  }

  /** The j-th hit is the j-th timer's Match. */
  lemma {:induction false} HitsAt(vs: seq<TimerView>, ev: Event, checkOffsetTime: bool, j: int)
    requires 0 <= j < |vs|
    ensures Hits(vs, ev, checkOffsetTime)[j] == Match(vs[j], ev, checkOffsetTime)
    decreases |vs|
  {
    if j < |vs| - 1 {
      var init := vs[..|vs| - 1];
      HitsAt(init, ev, checkOffsetTime, j);
      assert init[j] == vs[j];
    }
  }

  /** No hit in hs[lo..hi]. */
  predicate NoMatch(hs: seq<Option<Hit>>, lo: int, hi: int)
    requires 0 <= lo && hi <= |hs|
  {
    forall j | lo <= j < hi :: hs[j].None?
  }

  /** No hit before hs[hi] covers the whole event. */
  predicate NoWholeBefore(hs: seq<Option<Hit>>, hi: int)
    requires hi <= |hs|
  {
    forall j | 0 <= j < hi :: !WholeHit(hs[j])
  }

  predicate WholeHit(h: Option<Hit>) {
    h.Some? && Whole(h.value)
  }

  /**
   * isInTimer as intended: the hit of the first timer that covers the whole
   * event, otherwise of the last timer that overlaps it at all; None when no
   * timer does.
   */
  method IsInTimer(vs: seq<TimerView>, ev: Event, checkOffsetTime: bool) returns (r: Option<Hit>)
    ensures r.None? <==> NoMatch(Hits(vs, ev, checkOffsetTime), 0, |vs|)
    ensures r.Some? ==> exists i :: Witness(vs, ev, checkOffsetTime, r, i)
  {
    ghost var hs := Hits(vs, ev, checkOffsetTime);
    r := None;
    ghost var at := 0;
    var k := 0;
    while k < |vs|
      invariant k <= |vs| && at <= k
      invariant r.None? <==> NoMatch(hs, 0, k)
      invariant r.None? ==> at == 0
      invariant r.Some? ==> at < k && hs[at] == r
      invariant r.Some? ==> NoMatch(hs, at + 1, k)
      invariant NoWholeBefore(hs, k)
    {
      var m := Match(vs[k], ev, checkOffsetTime);
      HitsAt(vs, ev, checkOffsetTime, k);
      NoMatchExtend(hs, 0, k);
      NoMatchExtend(hs, at + 1, k);
      NoWholeExtend(hs, k);
      if m.Some? {
        r, at := m, k;
        if Whole(m.value) {
          assert NoWholeBefore(hs, at);
          assert Witness(vs, ev, checkOffsetTime, r, at);
          return;
        }
      }
      k := k + 1;
    }
    assert r.Some? ==> Witness(vs, ev, checkOffsetTime, r, at);
  }

  lemma NoMatchExtend(hs: seq<Option<Hit>>, lo: int, k: int)
    requires 0 <= lo <= k + 1 && k < |hs|
    ensures lo <= k ==> (NoMatch(hs, lo, k + 1) <==> NoMatch(hs, lo, k) && hs[k].None?)
    ensures lo == k + 1 ==> NoMatch(hs, lo, k + 1)
  {
  }

  lemma NoWholeExtend(hs: seq<Option<Hit>>, k: int)
    requires 0 <= k < |hs|
    ensures NoWholeBefore(hs, k + 1) <==> NoWholeBefore(hs, k) && !WholeHit(hs[k])
  {
  }

  /** vs[i] is a timer whose hit isInTimer may answer with. */
  predicate Witness(vs: seq<TimerView>, ev: Event, checkOffsetTime: bool, r: Option<Hit>, i: int) {
    0 <= i < |vs| && r.Some? && Hits(vs, ev, checkOffsetTime)[i] == r
    && NoWholeBefore(Hits(vs, ev, checkOffsetTime), i)
    && (Whole(r.value) || NoMatch(Hits(vs, ev, checkOffsetTime), i + 1, |vs|))
  }

  /**
   * isInTimer as written: time_match and kind live across timers, so a timer
   * on the service that overlaps nothing reports the previous timer's match
   * again, with its own flags.
   */
  function AsWrittenFrom(vs: seq<TimerView>, ev: Event, checkOffsetTime: bool,
                         timeMatch: int, kind: int, found: Option<Hit>): Option<Hit>
  {
    if vs == [] then found
    else
      var x := vs[0];
      if !SameService(x, ev.service) then AsWrittenFrom(vs[1..], ev, checkOffsetTime, timeMatch, kind, found)
      else
        var m := match Assigned(x, ev, checkOffsetTime) case None => (timeMatch, kind) case Some(a) => a;
        if m.0 != 0 then
          var hit := Hit(m.0, m.1, Flags(x));
          if Whole(hit) then
            Some(hit)
          else
            AsWrittenFrom(vs[1..], ev, checkOffsetTime, m.0, m.1, Some(hit))
        else AsWrittenFrom(vs[1..], ev, checkOffsetTime, m.0, m.1, found)
  }

  function AsWritten(vs: seq<TimerView>, ev: Event, checkOffsetTime: bool): Option<Hit> {
    AsWrittenFrom(vs, ev, checkOffsetTime, 0, 0, None)
  }

  method IsInTimerAsWritten(vs: seq<TimerView>, ev: Event, checkOffsetTime: bool) returns (r: Option<Hit>)
    ensures r == AsWritten(vs, ev, checkOffsetTime)
  {
    r := None;
    var kind := 0;
    var timeMatch := 0;
    var k := 0;
    while k < |vs|
      invariant k <= |vs|
      invariant AsWrittenFrom(vs[k..], ev, checkOffsetTime, timeMatch, kind, r) == AsWritten(vs, ev, checkOffsetTime)
    {
      var x := vs[k];
      assert vs[k..] == [x] + vs[k + 1..];
      if SameService(x, ev.service) {
        var outcome := Assigned(x, ev, checkOffsetTime);
        if outcome.Some? {
          timeMatch, kind := outcome.value.0, outcome.value.1;
        }
        if timeMatch != 0 {
          r := Some(Hit(timeMatch, kind, Flags(x)));
          if Whole(r.value) {
            return;
          }
        }
      }
      k := k + 1;
    }
  }

  /**
   * Two one-off timers on the event's service: the first records the first
   * 50 s of the event, the second (an AutoTimer) lies a long way after it;
   * a recording margin is configured, so check_offset_time is false.
   * As written, the answer is the first timer's match with the second
   * timer's AutoTimer flag, a hit no timer produces; as intended, the first
   * timer's own hit.
   */
  lemma StaleMatchReported()
    ensures var first := TimerView(ServiceKey(""), false, 100, 200, 0, false, false, 0, false, None);
      var later := TimerView(ServiceKey(""), false, 1000, 1100, 0, false, false, 1, false, None);
      var ev := Event(150, 100, "");
      AsWritten([first, later], ev, false) == Some(Hit(50, 4, 1))
      && Match(first, ev, false) == Some(Hit(50, 4, 0)) && Match(later, ev, false).None?
  {
    var first := TimerView(ServiceKey(""), false, 100, 200, 0, false, false, 0, false, None);
    var later := TimerView(ServiceKey(""), false, 1000, 1100, 0, false, false, 1, false, None);
    var ev := Event(150, 100, "");
    assert Assigned(first, ev, false) == Some((50, 4));
    assert Assigned(later, ev, false).None?;
    assert [first, later][1..] == [later];
    assert [later][1..] == [];
  }
}
