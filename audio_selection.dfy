/**
 * The static helpers of the audio and subtitle selection screen: language
 * names, subtitle descriptions and numbers, the subtitle list shown, and the
 * number-key shortcut.  The ISO 639 table is a parameter mapping a code to
 * its display name.
 */
module AudioSelection {
  import opened Wrappers
  import opened Text
  import opened Numbers
  import opened Lists

  /** A subtitle track: (type, pid, page number, magazine number, language code). */
  datatype Subtitle = Subtitle(kind: int, pid: int, page: int, magazine: int, language: string) {
    /** The first four fields, by which tracks are compared. */
    function Key(): (int, int, int, int) {
      (kind, pid, page, magazine)
    }
  }

  /**
   * The display name of a language code: the undetermined text for "und" when
   * one is supplied, else the table's name, else the code itself.
   */
  function Language(code: string, undetermined: Option<string>, table: map<string, string>): (r: string)
    ensures undetermined.Some? && code == "und" ==> r == undetermined.value
    ensures (undetermined.None? || code != "und") ==> r == (if code in table then table[code] else code)
  {
    if undetermined.None? || code != "und" then
      if code in table then table[code] else code
    else undetermined.value
  }

  const SubtitleFileTypes: seq<string> :=
    ["unknown", "embedded", "SSA file", "ASS file", "SRT file", "VOB file", "PGS file"]

  /** Python tuple indexing, negative indices counting from the end. */
  function PyIndex(s: seq<string>, i: int): Option<string> {
    if 0 <= i < |s| then Some(s[i])
    else if -|s| <= i < 0 then Some(s[|s| + i])
    else None
  }

  /**
   * The (description, number) pair shown for a subtitle track; None for a type
   * other than DVB (0), teletext (1) or file (2), where the source fails.
   */
  function SubtitleDescription(st: Subtitle): (r: Option<(string, string)>)
    ensures r.Some? <==> 0 <= st.kind <= 2
    ensures st.kind == 0 ==> r == Some(("DVB", FormatInt(st.pid, 0, 16)))
    ensures st.kind == 1 ==> r.value.0 == "teletext"
    ensures st.kind == 2 ==> r.value.1 == IntToString(st.pid + 1)
    ensures st.kind == 2 && 0 <= st.page < 7 ==> r.value.0 == SubtitleFileTypes[st.page]
    ensures st.kind == 2 && !(-7 <= st.page < 7) ==> r.value.0 == "unknown: " + IntToString(st.page)
  {
    if st.kind == 0 then Some(("DVB", FormatInt(st.pid, 0, 16)))
    else if st.kind == 1 then
      Some(("teletext", FormatInt(if st.magazine != 0 then st.magazine else 8, 0, 16) + FormatInt(st.page, 2, 16)))
    else if st.kind == 2 then
      var description := match PyIndex(SubtitleFileTypes, st.page)
        case Some(name) => name
        case None => "unknown: " + IntToString(st.page);
      Some((description, IntToString(st.pid + 1)))
    else None
  }

  /*
   * The numbers read back: a DVB number is the pid in hex, a teletext number is
   * the magazine (8 for 0) in hex followed by the page in two hex digits, and a
   * file subtitle's number is pid + 1.
   */
  lemma DvbNumberReadsBack(st: Subtitle)
    requires st.kind == 0 && st.pid >= 0
    ensures var n := SubtitleDescription(st).value.1;
      AllBaseDigits(n, 16) && BaseValue(n, 16) == st.pid
  {
    FormatNatValue(st.pid, 0, 16);
  }

  lemma TeletextNumberReadsBack(st: Subtitle)
    requires st.kind == 1 && 0 <= st.page < 256 && st.magazine >= 0
    ensures var n := SubtitleDescription(st).value.1;
      |n| >= 3
      && AllBaseDigits(n[..|n| - 2], 16) && AllBaseDigits(n[|n| - 2..], 16)
      && BaseValue(n[..|n| - 2], 16) == (if st.magazine != 0 then st.magazine else 8)
      && BaseValue(n[|n| - 2..], 16) == st.page
  {
    var m := if st.magazine != 0 then st.magazine else 8;
    var a := FormatInt(m, 0, 16);
    var b := FormatInt(st.page, 2, 16);
    FormatNatValue(m, 0, 16);
    FormatNatValue(st.page, 2, 16);
    HexPageWidth(st.page);
    var n := a + b;
    assert SubtitleDescription(st).value.1 == n;
    assert n[..|n| - 2] == a && n[|n| - 2..] == b;
  }

  lemma FileNumberReadsBack(st: Subtitle)
    requires st.kind == 2
    ensures ParseInt(SubtitleDescription(st).value.1) == Some(st.pid + 1)
  {
    ParseIntToString(st.pid + 1);
  }

  lemma HexPageWidth(page: nat)
    requires page < 256
    ensures |NatToBase(page, 16)| <= 2
  {
    if page >= 16 {
      DivStep(page, 16);
      assert page / 16 < 16;
    }
  }

  function MapLanguages(codes: seq<string>, undetermined: Option<string>, table: map<string, string>): (r: seq<string>)
    ensures |r| == |codes|
    ensures forall i :: 0 <= i < |codes| ==> r[i] == Language(codes[i], undetermined, table)
  {
    if codes == [] then [] else [Language(codes[0], undetermined, table)] + MapLanguages(codes[1..], undetermined, table)
  }

  /** The audio track's language text: each '/'-separated code named, rejoined with '/'. */
  function AudioLanguage(languages: string, undetermined: Option<string>, table: map<string, string>): string {
    Join(MapLanguages(Split(languages, '/'), undetermined, table), '/')
  }

  /**
   * When no display name contains '/', the names in the audio language text are
   * the names of the codes, one for one and in order.
   */
  lemma AudioLanguagePerCode(languages: string, undetermined: Option<string>, table: map<string, string>)
    requires forall c :: c in table ==> '/' !in table[c]
    requires undetermined.Some? ==> '/' !in undetermined.value
    ensures var names := Split(AudioLanguage(languages, undetermined, table), '/');
      var codes := Split(languages, '/');
      |names| == |codes| == Count(languages, '/') + 1
      && forall i :: 0 <= i < |codes| ==> names[i] == Language(codes[i], undetermined, table)
  {
    var codes := Split(languages, '/');
    SplitPiecesFree(languages, '/');
    SplitLength(languages, '/');
    var names := MapLanguages(codes, undetermined, table);
    forall i | 0 <= i < |names|
      ensures '/' !in names[i]
    {
      assert '/' !in codes[i];
    }
    SplitJoin(names, '/');
  }

  /** Drops exactly the teletext tracks of undetermined language, keeping order. */
  function HideUndeterminedTeletext(list: seq<Subtitle>): (r: seq<Subtitle>)
    ensures forall s :: s in r <==> s in list && (s.kind != 1 || s.language != "und")
    ensures |r| <= |list|
    ensures Subsequence(r, list)
    ensures forall s | s in list :: multiset(r)[s] == if s.kind != 1 || s.language != "und" then multiset(list)[s] else 0
  {
    if list == [] then []
    else
      var rest := HideUndeterminedTeletext(list[1..]);
      assert multiset(list) == multiset{list[0]} + multiset(list[1..]) by { assert list == [list[0]] + list[1..]; }
      if list[0].kind != 1 || list[0].language != "und" then [list[0]] + rest else rest
  }

  predicate KeyListed(list: seq<Subtitle>, key: (int, int, int, int)) {
    exists i :: 0 <= i < |list| && list[i].Key() == key
  }

  class AudioSelectionScreen {
    var selectedSubtitle: Option<Subtitle>
    var streams: seq<string>
    var streamIndex: int

    constructor(streams: seq<string>)
      ensures this.streams == streams && streamIndex == 0 && selectedSubtitle.None?
    {
      this.streams := streams;
      streamIndex := 0;
      selectedSubtitle := None;
    }

    /**
     * getSubtitleList: the service's tracks (teletext "und" ones dropped when
     * hidden), and the subtitle shown by the infobar appended when it is not
     * among them; a shown (0,0,0,0) subtitle counts as none.
     */
    method GetSubtitleList(serviceList: Option<seq<Subtitle>>, hideUndetermined: bool,
                           subtitlesEnabled: bool, infobarSelected: Option<Subtitle>)
      returns (r: seq<Subtitle>)
      modifies this`selectedSubtitle
      ensures var base := serviceList.GetOr([]);
        var shown := if hideUndetermined then HideUndeterminedTeletext(base) else base;
        var appended := subtitlesEnabled && infobarSelected.Some? && infobarSelected.value.Key() != (0, 0, 0, 0)
                        && !KeyListed(shown, infobarSelected.value.Key());
        r == shown + (if appended then [infobarSelected.value] else [])
      ensures selectedSubtitle ==
        (if subtitlesEnabled && !(infobarSelected.Some? && infobarSelected.value.Key() == (0, 0, 0, 0))
         then infobarSelected else None)
    {
      var list := serviceList.GetOr([]);
      if hideUndetermined {
        list := HideUndeterminedTeletext(list);
      }
      selectedSubtitle := None;
      if subtitlesEnabled {
        selectedSubtitle := infobarSelected;
        if selectedSubtitle.Some? && selectedSubtitle.value.Key() == (0, 0, 0, 0) {
          selectedSubtitle := None;
        } else if selectedSubtitle.Some? && !KeyListed(list, selectedSubtitle.value.Key()) {
          list := list + [selectedSubtitle.value];
        }
      }
      r := list;
    }

    /** Number key n picks stream n-1 when there are at least n streams; returns whether it did. */
    method KeyNumberGlobal(number: int) returns (picked: bool)
      modifies this`streamIndex
      ensures picked <==> number <= |streams|
      ensures picked ==> streamIndex == number - 1
      ensures !picked ==> streamIndex == old(streamIndex)
    {
      picked := false;
      if number <= |streams| {
        streamIndex := number - 1;
        picked := true;
      }
    }
  }
}
