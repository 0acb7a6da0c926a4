/**
 * timers.xml: createTimer, which turns one parsed <timer> element back into
 * the arguments of a RecordTimerEntry, and saveTimer, which writes every timer
 * that is to be kept as a <timer> element with its log.
 *
 * The XML parser itself is not part of this model: a parsed element is the
 * map from attribute names to their (unescaped) values plus its <log>
 * children, and the text of a <log> element with no characters in it reads
 * back as no text at all.  The escaping of attribute values and log
 * messages (stringToXML) comes from code that is not part of this model and
 * is a parameter of the writer.
 */
module TimerCodec {
  import opened Wrappers
  import opened Text
  import opened Numbers
  import opened TimerEntry
  import opened Lists

  // ---------------------------------------------------------------------
  // Reading: createTimer
  // ---------------------------------------------------------------------

  /** The attributes of a <timer> element that createTimer reads and saveTimer writes. */
  datatype Attribute =
    | Begin | End | ServiceRef | Repeated | RenameRepeat | Name | Description | Afterevent | Eit
    | Location | Tags | Disabled | Justplay | AlwaysZap | Descramble | RecordEcm | IsAutoTimer | IceTimerId
  {
    /** The attribute's name in timers.xml. */
    function XmlName(): string {
      match this
      case Begin => "begin"
      case End => "end"
      case ServiceRef => "serviceref"
      case Repeated => "repeated"
      case RenameRepeat => "rename_repeat"
      case Name => "name"
      case Description => "description"
      case Afterevent => "afterevent"
      case Eit => "eit"
      case Location => "location"
      case Tags => "tags"
      case Disabled => "disabled"
      case Justplay => "justplay"
      case AlwaysZap => "always_zap"
      case Descramble => "descramble"
      case RecordEcm => "record_ecm"
      case IsAutoTimer => "isAutoTimer"
      case IceTimerId => "ice_timer_id"
    }

    /** saveTimer escapes the texts; the numbers and the IceTV id are written as they are. */
    predicate Escaped() {
      this in {ServiceRef, Name, Description, Afterevent, Location, Tags}
    }
  }

  /**
   * A parsed <timer> element: the values of the attributes above that it
   * carries (any other attribute is never read), and its <log> children.
   */
  datatype TimerElement = TimerElement(attrs: map<Attribute, string>, logs: seq<LogElement>)

  /** A parsed <log> child: its time and code attributes and its text, each possibly absent. */
  datatype LogElement = LogElement(time: Option<string>, code: Option<string>, text: Option<string>)

  /** Why createTimer gave up: an attribute missing or malformed, or a log child it cannot read. */
  datatype LoadError = BadAttribute(key: Attribute) | BadLogTime | BadLogCode | NoLogText

  /**
   * What createTimer hands to RecordTimerEntry, together with the repeat
   * mask and the log it sets on the new entry afterwards.
   */
  datatype TimerArgs = TimerArgs(
    serviceRef: string, begin: int, end: int, name: string, description: string,
    eit: Option<int>, disabled: int, justplay: int, afterEvent: AfterEvent,
    dirname: Option<string>, tags: Option<seq<string>>, descramble: int, recordEcm: int,
    isAutoTimer: int, iceTimerId: Option<string>, alwaysZap: int, renameRepeat: int,
    repeated: int, logEntries: seq<LogEntry>)

  /** The stored names of the after-event actions. */
  function AfterEventName(a: AfterEvent): string {
    match a
    case AfterEventNone => "nothing"
    case Standby => "standby"
    case DeepStandby => "deepstandby"
    case Auto => "auto"
  }

  /** The action a stored name stands for; any other name is a lookup error. */
  function AfterEventNamed(name: string): (r: Option<AfterEvent>)
    ensures r.Some? <==> name in {"nothing", "standby", "deepstandby", "auto"}
    ensures r.Some? ==> AfterEventName(r.value) == name
  {
    if name == "nothing" then Some(AfterEventNone)
    else if name == "standby" then Some(Standby)
    else if name == "deepstandby" then Some(DeepStandby)
    else if name == "auto" then Some(Auto)
    else None
  }

  /** Every action is stored under a name that reads back as that action. */
  lemma AfterEventNameReadsBack(a: AfterEvent)
    ensures AfterEventNamed(AfterEventName(a)) == Some(a)
  {
    match a
    case AfterEventNone =>
    case Standby =>
    case DeepStandby =>
    case Auto =>
  }

  /** int(text), failing with the attribute's name. */
  function Number(text: string, failure: LoadError): Result<int, LoadError> {
    match ParseInt(text)
    case Some(v) => Ok(v)
    case None => Err(failure)
  }

  /** int(xml.get(key)): a missing attribute fails as a malformed one does. */
  function RequiredNumber(a: map<Attribute, string>, key: Attribute): Result<int, LoadError> {
    if key in a then Number(a[key], BadAttribute(key)) else Err(BadAttribute(key))
  }

  /** xml.get(key).encode(...): a missing attribute fails. */
  function RequiredText(a: map<Attribute, string>, key: Attribute): Result<string, LoadError> {
    if key in a then Ok(a[key]) else Err(BadAttribute(key))
  }

  /** Missing, or present with no characters: `xml.get(key) or default` takes the default. */
  predicate Blank(a: map<Attribute, string>, key: Attribute) {
    key !in a || a[key] == ""
  }

  /** int(xml.get(key) or default), the default text being the decimal form of default. */
  function DefaultedNumber(a: map<Attribute, string>, key: Attribute, default: int): Result<int, LoadError> {
    if Blank(a, key) then Ok(default) else Number(a[key], BadAttribute(key))
  }

  /** The attributes createTimer reads only when they are present, non-empty and not "None". */
  predicate Given(a: map<Attribute, string>, key: Attribute) {
    !Blank(a, key) && a[key] != "None"
  }

  function OptionalText(a: map<Attribute, string>, key: Attribute): Option<string> {
    if Given(a, key) then Some(a[key]) else None
  }

  function EventId(a: map<Attribute, string>): Result<Option<int>, LoadError> {
    if Given(a, Eit) then
      var v :- Number(a[Eit], BadAttribute(Eit));
      Ok(Some(v))
    else Ok(None)
  }

  function AfterEventOf(a: map<Attribute, string>): Result<AfterEvent, LoadError> {
    match AfterEventNamed(if Blank(a, Afterevent) then "nothing" else a[Afterevent])
    case Some(e) => Ok(e)
    case None => Err(BadAttribute(Afterevent))
  }

  /** A number attribute that is blank (and takes its default) or reads as a number. */
  predicate NumberOrBlank(a: map<Attribute, string>, key: Attribute) {
    Blank(a, key) || ParseInt(a[key]).Some?
  }

  function NumberOr(a: map<Attribute, string>, key: Attribute, default: int): int
    requires NumberOrBlank(a, key)
  {
    if Blank(a, key) then default else ParseInt(a[key]).value
  }

  /**
   * The attribute maps createTimer accepts: the window, the service, the
   * texts and the repeat mask are present, every number reads as one, and
   * the after-event action, when given, has one of the four names.
   */
  predicate Loadable(a: map<Attribute, string>) {
    Begin in a && ParseInt(a[Begin]).Some? && End in a && ParseInt(a[End]).Some?
    && ServiceRef in a && Description in a && Name in a
    && Repeated in a && ParseInt(a[Repeated]).Some?
    && NumberOrBlank(a, RenameRepeat) && NumberOrBlank(a, Disabled)
    && NumberOrBlank(a, Justplay) && NumberOrBlank(a, AlwaysZap)
    && (Blank(a, Afterevent) || AfterEventNamed(a[Afterevent]).Some?)
    && (Given(a, Eit) ==> ParseInt(a[Eit]).Some?)
    && NumberOrBlank(a, Descramble) && NumberOrBlank(a, RecordEcm) && NumberOrBlank(a, IsAutoTimer)
  }

  /**
   * The attributes of a <timer> element, in the order createTimer reads them;
   * the log is left empty.  It fails exactly on the maps it does not accept,
   * and otherwise every argument is its attribute read as a number or text,
   * with 1 for a blank rename_repeat and descramble, 0 for the other blank
   * numbers, "nothing" for a blank after-event action, and no event id,
   * directory or tags unless given.
   */
  function TimerAttributes(a: map<Attribute, string>): (r: Result<TimerArgs, LoadError>)
    ensures r.Ok? <==> Loadable(a)
    ensures r.Ok? ==> r.value == TimerArgs(
      a[ServiceRef], ParseInt(a[Begin]).value, ParseInt(a[End]).value, a[Name], a[Description],
      if Given(a, Eit) then Some(ParseInt(a[Eit]).value) else None,
      NumberOr(a, Disabled, 0), NumberOr(a, Justplay, 0),
      AfterEventNamed(if Blank(a, Afterevent) then "nothing" else a[Afterevent]).value,
      if Given(a, Location) then Some(a[Location]) else None,
      if Given(a, Tags) then Some(Split(a[Tags], ' ')) else None,
      NumberOr(a, Descramble, 1), NumberOr(a, RecordEcm, 0), NumberOr(a, IsAutoTimer, 0),
      if IceTimerId in a then Some(a[IceTimerId]) else None,
      NumberOr(a, AlwaysZap, 0), NumberOr(a, RenameRepeat, 1), ParseInt(a[Repeated]).value, [])
  {
    var begin :- RequiredNumber(a, Begin);
    var end :- RequiredNumber(a, End);
    var serviceRef :- RequiredText(a, ServiceRef);
    var description :- RequiredText(a, Description);
    var repeatedText :- RequiredText(a, Repeated);
    var renameRepeat :- DefaultedNumber(a, RenameRepeat, 1);
    var disabled :- DefaultedNumber(a, Disabled, 0);
    var justplay :- DefaultedNumber(a, Justplay, 0);
    var alwaysZap :- DefaultedNumber(a, AlwaysZap, 0);
    var afterEvent :- AfterEventOf(a);
    var eit :- EventId(a);
    var location := OptionalText(a, Location);
    var tags := match OptionalText(a, Tags) case None => None case Some(t) => Some(Split(t, ' '));
    var descramble :- DefaultedNumber(a, Descramble, 1);
    var recordEcm :- DefaultedNumber(a, RecordEcm, 0);
    var isAutoTimer :- DefaultedNumber(a, IsAutoTimer, 0);
    var iceTimerId := if IceTimerId in a then Some(a[IceTimerId]) else None;
    var name :- RequiredText(a, Name);
    var repeated :- Number(repeatedText, BadAttribute(Repeated));
    Ok(TimerArgs(serviceRef, begin, end, name, description, eit, disabled, justplay, afterEvent,
                 location, tags, descramble, recordEcm, isAutoTimer, iceTimerId, alwaysZap,
                 renameRepeat, repeated, []))
  }

  /** One <log> child: its time and code, and its text with the surrounding whitespace removed. */
  function LogOf(l: LogElement): (r: Result<LogEntry, LoadError>)
    ensures r.Ok? ==> l.text.Some? && r.value.message == Strip(l.text.value)
    ensures r.Ok? ==> l.time.Some? && ParseInt(l.time.value) == Some(r.value.time)
    ensures r.Ok? ==> l.code.Some? && ParseInt(l.code.value) == Some(r.value.code)
  {
    var time :- if l.time.Some? then Number(l.time.value, BadLogTime) else Err(BadLogTime);
    var code :- if l.code.Some? then Number(l.code.value, BadLogCode) else Err(BadLogCode);
    if l.text.None? then Err(NoLogText) else Ok(LogEntry(time, code, Strip(l.text.value)))
  }

  /** The log children in order; the first one that does not read stops the load. */
  function LogsOf(ls: seq<LogElement>): (r: Result<seq<LogEntry>, LoadError>)
    ensures r.Ok? ==> |r.value| == |ls|
  {
    if ls == [] then Ok([])
    else
      var init :- LogsOf(ls[..|ls| - 1]);
      var e :- LogOf(ls[|ls| - 1]);
      assert ls[..|ls| - 1] + [ls[|ls| - 1]] == ls;
      Ok(init + [e])
  }

  /** createTimer, as a function of the parsed element. */
  function CreateTimerSpec(x: TimerElement): (r: Result<TimerArgs, LoadError>)
    ensures r.Ok? <==> TimerAttributes(x.attrs).Ok? && LogsOf(x.logs).Ok?
    ensures r.Ok? ==> r.value == TimerAttributes(x.attrs).value.(logEntries := LogsOf(x.logs).value)
  {
    var t :- TimerAttributes(x.attrs);
    var logs :- LogsOf(x.logs);
    Ok(t.(logEntries := logs))
  }

  /** createTimer: the timer's attributes, then its log children. */
  method CreateTimer(x: TimerElement) returns (r: Result<TimerArgs, LoadError>)
    ensures r == CreateTimerSpec(x)
  {
    var t := TimerAttributes(x.attrs);
    if t.Err? {
      return t;
    }
    var logs := ReadLogs(x.logs);
    if logs.Err? {
      return Err(logs.error);
    }
    r := Ok(t.value.(logEntries := logs.value));
  }

  /** The log children one by one; the first that does not read stops the loop. */
  method ReadLogs(ls: seq<LogElement>) returns (r: Result<seq<LogEntry>, LoadError>)
    ensures r == LogsOf(ls)
  {
    var entries: seq<LogEntry> := [];
    var k := 0;
    while k < |ls|
      invariant k <= |ls|
      invariant LogsOf(ls[..k]) == Ok(entries)
    {
      assert ls[..k + 1][..k] == ls[..k];
      var l := LogOf(ls[k]);
      if l.Err? {
        assert LogsOf(ls[..k + 1]).Err?;
        LogErrorStops(ls, k + 1);
        return Err(l.error);
      }
      entries := entries + [l.value];
      k := k + 1;
    }
    assert ls[..k] == ls;
    r := Ok(entries);
  }

  /** A log child that does not read makes every longer run of children fail too. */
  lemma {:induction false} LogErrorStops(ls: seq<LogElement>, n: nat)
    requires n <= |ls| && LogsOf(ls[..n]).Err?
    ensures LogsOf(ls).Err? && LogsOf(ls).error == LogsOf(ls[..n]).error
    decreases |ls| - n
  {
    if n < |ls| {
      assert ls[..n + 1][..n] == ls[..n];
      LogErrorStops(ls, n + 1);
    } else {
      assert ls[..n] == ls;
    }
  }

  // ---------------------------------------------------------------------
  // Writing: saveTimer
  // ---------------------------------------------------------------------

  /** What saveTimer reads of one timer. */
  datatype Saved = Saved(
    begin: int, end: int, serviceRef: string, repeated: int, renameRepeat: int,
    name: string, description: string, afterEvent: AfterEvent, eit: Option<int>,
    dirname: Option<string>, tags: seq<string>, disabled: int, justplay: int, alwaysZap: int,
    descramble: int, recordEcm: int, isAutoTimer: int, iceTimerId: Option<string>,
    dontSave: bool, logEntries: seq<LogEntry>)

  function Snapshot(e: RecordTimerEntry): Saved
    reads e
  {
    Saved(e.begin, e.end, e.serviceRef, e.repeated, e.renameRepeat, e.name, e.description,
          e.afterEvent, e.eit, e.dirname, e.tags, e.disabled, e.justplay, e.alwaysZap,
          e.descramble, e.recordEcm, e.isAutoTimer, e.iceTimerId, e.dontSave, e.logEntries)
  }

  function Snapshots(ts: seq<RecordTimerEntry>): (r: seq<Saved>)
    reads ts
    ensures |r| == |ts|
  {
    if ts == [] then [] else Snapshots(ts[..|ts| - 1]) + [Snapshot(ts[|ts| - 1])]
  }

  /** One attribute as written: its name and its unescaped value. */
  datatype Written = Written(key: Attribute, value: string)

  /** The order in which saveTimer writes the attributes of a <timer> element. */
  const AttributeOrder: seq<Attribute> :=
    [Begin, End, ServiceRef, Repeated, RenameRepeat, Name, Description, Afterevent, Eit, Location,
     Tags, Disabled, Justplay, AlwaysZap, Descramble, RecordEcm, IsAutoTimer, IceTimerId]

  /**
   * The attributes saveTimer writes for a timer: the event id, the directory
   * and the IceTV id only when the timer has one.  This is also what a parser
   * reads back from them.
   */
  function AttributeValues(s: Saved): map<Attribute, string> {
    map key: Attribute | SavedValue(s, key).Some? :: SavedValue(s, key).value
  }

  /** The value saveTimer writes for one attribute of a timer, if it writes it at all. */
  function SavedValue(s: Saved, key: Attribute): Option<string> {
    match SavedNumber(s, key)
    case Some(n) => Some(IntToString(n))
    case None =>
      match key
      case ServiceRef => Some(s.serviceRef)
      case Name => Some(s.name)
      case Description => Some(s.description)
      case Afterevent => Some(AfterEventName(s.afterEvent))
      case Location => s.dirname
      case Tags => Some(Join(s.tags, ' '))
      case IceTimerId => s.iceTimerId
      case _ => None
  }

  /** The attributes saveTimer writes as decimal numbers, with the numbers. */
  function SavedNumber(s: Saved, key: Attribute): Option<int> {
    match key
    case Begin => Some(s.begin)
    case End => Some(s.end)
    case Repeated => Some(s.repeated)
    case RenameRepeat => Some(s.renameRepeat)
    case Eit => s.eit
    case Disabled => Some(s.disabled)
    case Justplay => Some(s.justplay)
    case AlwaysZap => Some(s.alwaysZap)
    case Descramble => Some(s.descramble)
    case RecordEcm => Some(s.recordEcm)
    case IsAutoTimer => Some(s.isAutoTimer)
    case _ => None
  }

  /** The attributes of m that order names, in that order, with their values. */
  function InOrder(order: seq<Attribute>, m: map<Attribute, string>): (r: seq<Written>)
    ensures forall w | w in r :: w.key in order && w.key in m && w.value == m[w.key]
    ensures forall key | key in order && key in m :: Written(key, m[key]) in r
  {
    if order == [] then []
    else
      var rest := InOrder(order[1..], m);
      var k := order[0];
      assert forall key | key in order && key != k :: key in order[1..];
      assert forall key | key in order[1..] :: key in order;
      if k !in m then rest
      else [Written(k, m[k])] + rest
  }

  /** The attributes of a <timer> element, in the order saveTimer writes them. */
  function Attributes(s: Saved): seq<Written> {
    InOrder(AttributeOrder, AttributeValues(s))
  }

  /**
   * The log of a repeating timer is pruned to the last keepTimers days when
   * that setting is positive; other logs are kept whole.
   */
  function IgnoreBefore(keepTimers: int, repeated: int, now: int): int {
    if keepTimers > 0 && repeated > 0 then now - keepTimers * 86400 else 0
  }

  function Kept(logs: seq<LogEntry>, ignoreBefore: int): (r: seq<LogEntry>)
    ensures |r| <= |logs|
    ensures forall k | 0 <= k < |r| :: r[k].time >= ignoreBefore
  {
    if logs == [] then []
    else
      var last := logs[|logs| - 1];
      assert logs == logs[..|logs| - 1] + [last];
      Kept(logs[..|logs| - 1], ignoreBefore) + (if last.time < ignoreBefore then [] else [last])
  }

  /** One attribute as saveTimer appends it to its list of pieces. */
  function RenderAttr(a: Written, escape: string -> string): string {
    " " + a.key.XmlName() + "=\"" + (if a.key.Escaped() then escape(a.value) else a.value) + "\""
  }

  function RenderAttrs(attrs: seq<Written>, escape: string -> string): (r: seq<string>)
    ensures |r| == |attrs|
  {
    seq(|attrs|, i requires 0 <= i < |attrs| => RenderAttr(attrs[i], escape))
  }

  /** The pieces of one <log> child. */
  function RenderLog(l: LogEntry, escape: string -> string): seq<string> {
    ["<log", " code=\"" + IntToString(l.code) + "\"", " time=\"" + IntToString(l.time) + "\"", ">",
     escape(l.message), "</log>\n"]
  }

  function RenderLogs(logs: seq<LogEntry>, escape: string -> string): seq<string> {
    if logs == [] then [] else RenderLogs(logs[..|logs| - 1], escape) + RenderLog(logs[|logs| - 1], escape)
  }

  /** The pieces of one <timer> element. */
  function RenderTimer(s: Saved, keepTimers: int, now: int, escape: string -> string): (r: seq<string>)
    ensures |r| >= 3 && r[0] == "<timer" && r[|r| - 1] == "</timer>\n"
  {
    Element(s, RenderLogs(Kept(s.logEntries, IgnoreBefore(keepTimers, s.repeated, now)), escape), escape)
  }

  /** A <timer> element around the pieces of its log children. */
  function Element(s: Saved, logs: seq<string>, escape: string -> string): seq<string> {
    ["<timer"] + RenderAttrs(Attributes(s), escape) + [">\n"] + logs + ["</timer>\n"]
  }

  /** The <timer> elements of the timers to be saved, in order; timers marked dontSave are skipped. */
  function Body(ss: seq<Saved>, keepTimers: int, now: int, escape: string -> string): (r: seq<string>)
    ensures (forall i | 0 <= i < |ss| :: ss[i].dontSave) ==> r == []
  {
    if ss == [] then []
    else
      var last := ss[|ss| - 1];
      Body(ss[..|ss| - 1], keepTimers, now, escape)
      + (if last.dontSave then [] else RenderTimer(last, keepTimers, now, escape))
  }

  const Header: seq<string> := ["<?xml version=\"1.0\" ?>\n", "<timers>\n"]
  const Footer: seq<string> := ["</timers>\n"]

  /** The pieces of timers.xml, which is their concatenation. */
  function Document(ss: seq<Saved>, keepTimers: int, now: int, escape: string -> string): (r: seq<string>)
    ensures |r| >= 3 && r[..2] == Header && r[|r| - 1] == Footer[0]
    ensures (forall i | 0 <= i < |ss| :: ss[i].dontSave) ==> r == Header + Footer
  {
    Header + Body(ss, keepTimers, now, escape) + Footer
  }

  /** The <log> children of one timer: the entries older than ignoreBefore are left out. */
  method SaveLog(logs: seq<LogEntry>, ignoreBefore: int, escape: string -> string) returns (pieces: seq<string>)
    ensures pieces == RenderLogs(Kept(logs, ignoreBefore), escape)
  {
    pieces := [];
    ghost var kept: seq<LogEntry> := [];
    var k := 0;
    while k < |logs|
      invariant k <= |logs|
      invariant kept == Kept(logs[..k], ignoreBefore)
      invariant pieces == RenderLogs(kept, escape)
    {
      var l := logs[k];
      assert logs[..k + 1] == logs[..k] + [l];
      KeptAppend(logs[..k], l, ignoreBefore);
      if ignoreBefore <= l.time {
        RenderLogsAppend(kept, l, escape);
        pieces := pieces + RenderLog(l, escape);
        kept := kept + [l];
      }
      k := k + 1;
    }
    assert logs[..k] == logs;
  }

  lemma KeptAppend(logs: seq<LogEntry>, l: LogEntry, ignoreBefore: int)
    ensures Kept(logs + [l], ignoreBefore) == Kept(logs, ignoreBefore) + (if l.time < ignoreBefore then [] else [l])
  {
    assert (logs + [l])[..|logs|] == logs;
  }

  lemma RenderLogsAppend(logs: seq<LogEntry>, l: LogEntry, escape: string -> string)
    ensures RenderLogs(logs + [l], escape) == RenderLogs(logs, escape) + RenderLog(l, escape)
  {
    assert (logs + [l])[..|logs|] == logs;
  }

  lemma BodyPrefix(ss: seq<Saved>, k: nat, keepTimers: int, now: int, escape: string -> string)
    requires k < |ss|
    ensures Body(ss[..k + 1], keepTimers, now, escape)
      == Body(ss[..k], keepTimers, now, escape) + (if ss[k].dontSave then [] else RenderTimer(ss[k], keepTimers, now, escape))
  {
    assert ss[..k + 1][..k] == ss[..k];
  }

  /**
   * saveTimer: the pieces written to timers.xml for the timers given (the
   * registry passes timer_list followed by processed_timers).
   */
  method SaveTimer(timers: seq<RecordTimerEntry>, keepTimers: int, now: int, escape: string -> string)
    returns (pieces: seq<string>)
    ensures pieces == Document(Snapshots(timers), keepTimers, now, escape)
  {
    var saved := Snapshots(timers);
    var body := [];
    var k := 0;
    while k < |saved|
      invariant k <= |saved|
      invariant body == Body(saved[..k], keepTimers, now, escape)
    {
      var t := saved[k];
      BodyPrefix(saved, k, keepTimers, now, escape);
      if !t.dontSave {
        var logs := SaveLog(t.logEntries, IgnoreBefore(keepTimers, t.repeated, now), escape);
        body := body + Element(t, logs, escape);
      }
      k := k + 1;
    }
    assert saved[..k] == saved;
    pieces := Header + body + Footer;
  }



  // ---------------------------------------------------------------------
  // Saving, then loading again
  // ---------------------------------------------------------------------

  /** The <log> children a parser reads back from the log entries written. */
  function LogElements(logs: seq<LogEntry>): (r: seq<LogElement>)
    ensures |r| == |logs|
  {
    if logs == [] then []
    else
      var l := logs[|logs| - 1];
      LogElements(logs[..|logs| - 1]) + [LogElementOf(l)]
  }

  /** The <log> child written for one entry, as the parser gives it back. */
  function LogElementOf(l: LogEntry): LogElement {
    LogElement(Some(IntToString(l.time)), Some(IntToString(l.code)), if l.message == [] then None else Some(l.message))
  }

  /** The element a parser reads back from the <timer> element written for s. */
  function Reparsed(s: Saved, keepTimers: int, now: int): TimerElement {
    TimerElement(AttributeValues(s), LogElements(Kept(s.logEntries, IgnoreBefore(keepTimers, s.repeated, now))))
  }

  /** A log message that reads back as itself: not empty, and no whitespace at either end. */
  predicate CleanMessage(m: string) {
    m != [] && !IsWhitespace(m[0]) && !IsWhitespace(m[|m| - 1])
  }

  predicate CleanMessages(logs: seq<LogEntry>) {
    forall k | 0 <= k < |logs| :: CleanMessage(logs[k].message)
  }

  lemma {:induction false} LogsReadBack(logs: seq<LogEntry>)
    requires CleanMessages(logs)
    ensures LogsOf(LogElements(logs)) == Ok(logs)
  {
    if logs != [] {
      var init := logs[..|logs| - 1];
      var l := logs[|logs| - 1];
      assert CleanMessages(init) by {
        assert forall k | 0 <= k < |init| :: init[k] == logs[k];
      }
      LogsReadBack(init);
      var es := LogElements(logs);
      assert es[..|es| - 1] == LogElements(init);
      LogReadsBack(l);
      InitLast(logs);
    }
  }

  /** One entry with a clean message reads back as itself. */
  lemma LogReadsBack(l: LogEntry)
    requires CleanMessage(l.message)
    ensures LogOf(LogElementOf(l)) == Ok(l)
  {
    ParseIntToString(l.code);
    ParseIntToString(l.time);
    StripOfTrimmed(l.message);
  }

  lemma {:induction false} CleanKept(logs: seq<LogEntry>, ignoreBefore: int)
    requires CleanMessages(logs)
    ensures CleanMessages(Kept(logs, ignoreBefore))
  {
    if logs != [] {
      var init := logs[..|logs| - 1];
      assert CleanMessages(init) by {
        assert forall k | 0 <= k < |init| :: init[k] == logs[k];
      }
      CleanKept(init, ignoreBefore);
    }
  }

  /** Pruning drops nothing from a log with no entry older than the limit. */
  lemma {:induction false} KeptAllRecent(logs: seq<LogEntry>, ignoreBefore: int)
    requires forall k | 0 <= k < |logs| :: logs[k].time >= ignoreBefore
    ensures Kept(logs, ignoreBefore) == logs
  {
    if logs != [] {
      var init := logs[..|logs| - 1];
      assert forall k | 0 <= k < |init| :: init[k] == logs[k];
      KeptAllRecent(init, ignoreBefore);
      InitLast(logs);
    }
  }

  /** Tags that survive being joined with spaces and split again. */
  predicate SimpleTags(tags: seq<string>) {
    tags != ["None"] && forall k | 0 <= k < |tags| :: tags[k] != [] && ' ' !in tags[k]
  }

  lemma TagsReadBack(tags: seq<string>)
    requires SimpleTags(tags)
    ensures var j := Join(tags, ' ');
      (tags == [] <==> j == []) && (tags != [] ==> j != "None" && Split(j, ' ') == tags)
  {
    if tags != [] {
      SplitJoin(tags, ' ');
      if |tags| >= 2 {
        var j := Join(tags, ' ');
        assert j[|tags[0]|] == ' ';
        assert ' ' !in "None";
      }
    }
  }

  /**
   * The attribute map a parser reads from the <timer> element saveTimer
   * writes for s: every number in decimal and every text as it is, the
   * event id, the directory and the IceTV id only when s has them.
   */
  predicate WrittenFor(a: map<Attribute, string>, s: Saved) {
    Begin in a && a[Begin] == IntToString(s.begin)
    && End in a && a[End] == IntToString(s.end)
    && Repeated in a && a[Repeated] == IntToString(s.repeated)
    && RenameRepeat in a && a[RenameRepeat] == IntToString(s.renameRepeat)
    && Disabled in a && a[Disabled] == IntToString(s.disabled)
    && Justplay in a && a[Justplay] == IntToString(s.justplay)
    && AlwaysZap in a && a[AlwaysZap] == IntToString(s.alwaysZap)
    && Descramble in a && a[Descramble] == IntToString(s.descramble)
    && RecordEcm in a && a[RecordEcm] == IntToString(s.recordEcm)
    && IsAutoTimer in a && a[IsAutoTimer] == IntToString(s.isAutoTimer)
    && (Eit in a <==> s.eit.Some?) && (s.eit.Some? ==> a[Eit] == IntToString(s.eit.value))
    && ServiceRef in a && a[ServiceRef] == s.serviceRef
    && Name in a && a[Name] == s.name && Description in a && a[Description] == s.description
    && Afterevent in a && a[Afterevent] == AfterEventName(s.afterEvent)
    && Tags in a && a[Tags] == Join(s.tags, ' ')
    && (Location in a <==> s.dirname.Some?) && (s.dirname.Some? ==> a[Location] == s.dirname.value)
    && (IceTimerId in a <==> s.iceTimerId.Some?) && (s.iceTimerId.Some? ==> a[IceTimerId] == s.iceTimerId.value)
  }

  /** The numbers saveTimer writes for s, under their names. */
  lemma NumbersWritten(s: Saved)
    ensures var a := AttributeValues(s);
      Begin in a && a[Begin] == IntToString(s.begin)
      && End in a && a[End] == IntToString(s.end)
      && Repeated in a && a[Repeated] == IntToString(s.repeated)
      && RenameRepeat in a && a[RenameRepeat] == IntToString(s.renameRepeat)
      && Disabled in a && a[Disabled] == IntToString(s.disabled)
      && Justplay in a && a[Justplay] == IntToString(s.justplay)
  {
  }

  /** The remaining numbers saveTimer writes for s, under their names. */
  lemma FlagsWritten(s: Saved)
    ensures var a := AttributeValues(s);
      AlwaysZap in a && a[AlwaysZap] == IntToString(s.alwaysZap)
      && Descramble in a && a[Descramble] == IntToString(s.descramble)
      && RecordEcm in a && a[RecordEcm] == IntToString(s.recordEcm)
      && IsAutoTimer in a && a[IsAutoTimer] == IntToString(s.isAutoTimer)
  {
    assert SavedValue(s, AlwaysZap) == Some(IntToString(s.alwaysZap));
    assert SavedValue(s, Descramble) == Some(IntToString(s.descramble));
    assert SavedValue(s, RecordEcm) == Some(IntToString(s.recordEcm));
    assert SavedValue(s, IsAutoTimer) == Some(IntToString(s.isAutoTimer));
  }

  /** The event id is written, in decimal, exactly when s has one. */
  lemma EventIdWritten(s: Saved)
    ensures var a := AttributeValues(s);
      (Eit in a <==> s.eit.Some?) && (s.eit.Some? ==> a[Eit] == IntToString(s.eit.value))
  {
  }

  /** The texts saveTimer writes for s, under their names. */
  lemma TextsWritten(s: Saved)
    ensures var a := AttributeValues(s);
      ServiceRef in a && a[ServiceRef] == s.serviceRef
      && Name in a && a[Name] == s.name && Description in a && a[Description] == s.description
      && Afterevent in a && a[Afterevent] == AfterEventName(s.afterEvent)
  {
  }

  /** The tags, the directory and the IceTV id saveTimer writes for s, the last two only when s has them. */
  lemma ExtrasWritten(s: Saved)
    ensures var a := AttributeValues(s);
      Tags in a && a[Tags] == Join(s.tags, ' ')
      && (Location in a <==> s.dirname.Some?) && (s.dirname.Some? ==> a[Location] == s.dirname.value)
      && (IceTimerId in a <==> s.iceTimerId.Some?) && (s.iceTimerId.Some? ==> a[IceTimerId] == s.iceTimerId.value)
  {
  }

  /** The attributes saveTimer writes for s are what WrittenFor says. */
  lemma SavedWritten(s: Saved)
    ensures WrittenFor(AttributeValues(s), s)
  {
    NumbersWritten(s);
    FlagsWritten(s);
    EventIdWritten(s);
    TextsWritten(s);
    ExtrasWritten(s);
  }

  /**
   * What createTimer needs of an attribute map to read the timer s back:
   * each of its numbers reads as itself, the event id is not the word None,
   * and the texts are under their names.
   */
  predicate Holds(a: map<Attribute, string>, s: Saved) {
    Begin in a && ParseInt(a[Begin]) == Some(s.begin)
    && End in a && ParseInt(a[End]) == Some(s.end)
    && Repeated in a && ParseInt(a[Repeated]) == Some(s.repeated)
    && RenameRepeat in a && ParseInt(a[RenameRepeat]) == Some(s.renameRepeat)
    && Disabled in a && ParseInt(a[Disabled]) == Some(s.disabled)
    && Justplay in a && ParseInt(a[Justplay]) == Some(s.justplay)
    && AlwaysZap in a && ParseInt(a[AlwaysZap]) == Some(s.alwaysZap)
    && Descramble in a && ParseInt(a[Descramble]) == Some(s.descramble)
    && RecordEcm in a && ParseInt(a[RecordEcm]) == Some(s.recordEcm)
    && IsAutoTimer in a && ParseInt(a[IsAutoTimer]) == Some(s.isAutoTimer)
    && (Eit in a <==> s.eit.Some?)
    && (s.eit.Some? ==> a[Eit] != "None" && ParseInt(a[Eit]) == s.eit)
    && ServiceRef in a && a[ServiceRef] == s.serviceRef
    && Name in a && a[Name] == s.name && Description in a && a[Description] == s.description
    && Afterevent in a && a[Afterevent] == AfterEventName(s.afterEvent)
  }

  /** Every number written in decimal reads back as itself; the event id is no word. */
  lemma WrittenHolds(a: map<Attribute, string>, s: Saved)
    requires WrittenFor(a, s)
    ensures Holds(a, s)
  {
    ParseIntToString(s.begin);
    ParseIntToString(s.end);
    ParseIntToString(s.repeated);
    ParseIntToString(s.renameRepeat);
    ParseIntToString(s.disabled);
    ParseIntToString(s.justplay);
    ParseIntToString(s.alwaysZap);
    ParseIntToString(s.descramble);
    ParseIntToString(s.recordEcm);
    ParseIntToString(s.isAutoTimer);
    if s.eit.Some? {
      ParseIntToString(s.eit.value);
      EndsInDigit(s.eit.value);
      var t := a[Eit];
      assert t[|t| - 1] != "None"[3];
    }
  }

  /** createTimer accepts every map that holds a timer. */
  lemma HeldLoadable(a: map<Attribute, string>, s: Saved)
    requires Holds(a, s)
    ensures Loadable(a)
  {
    EmptyIsNoNumber();
    AfterEventNameReadsBack(s.afterEvent);
  }

  /**
   * From a map that holds s, createTimer reads back every number and text of
   * s as it was; the directory, the tags and the IceTV id as the map gives
   * them.
   */
  lemma ArgsReadBack(a: map<Attribute, string>, s: Saved)
    requires Holds(a, s)
    ensures var r := TimerAttributes(a);
      r.Ok?
      && r.value.begin == s.begin && r.value.end == s.end && r.value.repeated == s.repeated
      && r.value.serviceRef == s.serviceRef && r.value.name == s.name && r.value.description == s.description
      && r.value.afterEvent == s.afterEvent && r.value.eit == s.eit
      && r.value.renameRepeat == s.renameRepeat && r.value.disabled == s.disabled
      && r.value.justplay == s.justplay && r.value.alwaysZap == s.alwaysZap
      && r.value.descramble == s.descramble && r.value.recordEcm == s.recordEcm
      && r.value.isAutoTimer == s.isAutoTimer
      && r.value.dirname == OptionalText(a, Location)
      && r.value.tags == (if Given(a, Tags) then Some(Split(a[Tags], ' ')) else None)
      && r.value.iceTimerId == (if IceTimerId in a then Some(a[IceTimerId]) else None)
  {
    HeldLoadable(a, s);
    EmptyIsNoNumber();
    AfterEventNameReadsBack(s.afterEvent);
  }

  /**
   * createTimer on an element whose attributes are those written for s and
   * whose log children are those written for the entries s keeps: it
   * succeeds and gives back every number, flag, text and the after-event
   * action of s, the log as pruned, the directory when it is a real name
   * and the tags when they are plain words.
   */
  lemma ElementReadsBack(x: TimerElement, s: Saved, kept: seq<LogEntry>)
    requires WrittenFor(x.attrs, s) && x.logs == LogElements(kept) && CleanMessages(kept)
    ensures var r := CreateTimerSpec(x);
      r.Ok?
      && r.value.begin == s.begin && r.value.end == s.end && r.value.repeated == s.repeated
      && r.value.serviceRef == s.serviceRef && r.value.name == s.name && r.value.description == s.description
      && r.value.afterEvent == s.afterEvent && r.value.eit == s.eit && r.value.iceTimerId == s.iceTimerId
      && r.value.renameRepeat == s.renameRepeat && r.value.disabled == s.disabled
      && r.value.justplay == s.justplay && r.value.alwaysZap == s.alwaysZap
      && r.value.descramble == s.descramble && r.value.recordEcm == s.recordEcm
      && r.value.isAutoTimer == s.isAutoTimer
      && r.value.logEntries == kept
      && (s.dirname.None? || s.dirname.value in {"", "None"} <==> r.value.dirname.None?)
      && (s.dirname.Some? && s.dirname.value !in {"", "None"} ==> r.value.dirname == s.dirname)
      && (SimpleTags(s.tags) ==> r.value.tags.GetOr([]) == s.tags)
  {
    WrittenHolds(x.attrs, s);
    ArgsReadBack(x.attrs, s);
    if SimpleTags(s.tags) {
      TagsReadBack(s.tags);
    }
    LogsReadBack(kept);
  }

  /**
   * A timer saved and read back gives createTimer's arguments for the same
   * timer: every number, flag, text and the after-event action come back as
   * they were, the log comes back as the pruning kept it, the directory when
   * it is a real name and the tags when they are plain words.
   */
  lemma SavedTimerReadsBack(s: Saved, keepTimers: int, now: int)
    requires CleanMessages(s.logEntries)
    ensures var r := CreateTimerSpec(Reparsed(s, keepTimers, now));
      r.Ok?
      && r.value.begin == s.begin && r.value.end == s.end && r.value.repeated == s.repeated
      && r.value.serviceRef == s.serviceRef && r.value.name == s.name && r.value.description == s.description
      && r.value.afterEvent == s.afterEvent && r.value.eit == s.eit && r.value.iceTimerId == s.iceTimerId
      && r.value.renameRepeat == s.renameRepeat && r.value.disabled == s.disabled
      && r.value.justplay == s.justplay && r.value.alwaysZap == s.alwaysZap
      && r.value.descramble == s.descramble && r.value.recordEcm == s.recordEcm
      && r.value.isAutoTimer == s.isAutoTimer
      && r.value.logEntries == Kept(s.logEntries, IgnoreBefore(keepTimers, s.repeated, now))
      && (s.dirname.None? || s.dirname.value in {"", "None"} <==> r.value.dirname.None?)
      && (s.dirname.Some? && s.dirname.value !in {"", "None"} ==> r.value.dirname == s.dirname)
      && (SimpleTags(s.tags) ==> r.value.tags.GetOr([]) == s.tags)
  {
    var kept := Kept(s.logEntries, IgnoreBefore(keepTimers, s.repeated, now));
    SavedWritten(s);
    CleanKept(s.logEntries, IgnoreBefore(keepTimers, s.repeated, now));
    ElementReadsBack(Reparsed(s, keepTimers, now), s, kept);
  }
}
