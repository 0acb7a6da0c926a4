/**
 * Helpers of the usage configuration: narrowing a numeric selection to a new
 * choice list, resolving the symbolic recording paths, and the notifiers that
 * normalise the remote-fallback URL and the default recording path.
 */
module UsageConfig {
  import opened Wrappers
  import opened Text
  import opened Numbers

  /** A selection setting whose value and choices are text, as ConfigSelection keeps them. */
  class ConfigSelection {
    var value: string
    var choices: seq<string>
    var default: Option<string>

    constructor(value: string, choices: seq<string>, default: Option<string>)
      ensures this.value == value && this.choices == choices && this.default == default
    {
      this.value := value;
      this.choices := choices;
      this.default := default;
    }

    /**
     * updateChoices: an empty list changes nothing; a value that is not a number
     * raises (Err) and changes nothing; otherwise the choices become the numbers'
     * text and the default the choice below the value that the backward scan meets first.
     */
    method UpdateChoices(newChoices: seq<int>) returns (r: Result<(), string>)
      modifies this`choices, this`default
      ensures newChoices == [] ==> r.Ok? && choices == old(choices) && default == old(default)
      ensures newChoices != [] && ParseInt(value).None? ==>
        r.Err? && choices == old(choices) && default == old(default)
      ensures newChoices != [] && ParseInt(value).Some? ==> (r.Ok?
        && choices == seq(|newChoices|, i requires 0 <= i < |newChoices| => IntToString(newChoices[i]))
        && default == (if ParseInt(value).value in newChoices then None
                       else match LastBelow(newChoices, ParseInt(value).value)
                            case None => None
                            case Some(x) => Some(IntToString(x))))
    {
      if newChoices == [] {
        return Ok(());
      }
      var parsed := ParseInt(value);
      if parsed.None? {
        return Err("invalid literal for int()");
      }
      var val := parsed.value;
      var defval: Option<int> := None;
      if val !in newChoices {
        var tmp := Reversed(newChoices);
        var k := 0;
        while k < |tmp|
          invariant 0 <= k <= |tmp|
          invariant forall j :: 0 <= j < k ==> !(tmp[j] < val)
          invariant defval.None?
        {
          if tmp[k] < val {
            defval := Some(tmp[k]);
            break;
          }
          k := k + 1;
        }
        LastBelowFromScan(newChoices, val, tmp, k, defval);
      }
      choices := seq(|newChoices|, i requires 0 <= i < |newChoices| => IntToString(newChoices[i]));
      default := match defval case None => None case Some(x) => Some(IntToString(x));
      r := Ok(());
    }
  }

  function Reversed(s: seq<int>): (r: seq<int>)
    ensures |r| == |s| && forall i :: 0 <= i < |s| ==> r[i] == s[|s| - 1 - i]
  {
    if s == [] then [] else Reversed(s[1..]) + [s[0]]
  }

  /** The rightmost choice smaller than the value, if any. */
  function LastBelow(s: seq<int>, val: int): (r: Option<int>)
    ensures r.None? <==> forall i :: 0 <= i < |s| ==> s[i] >= val
    ensures r.Some? ==> exists i :: (0 <= i < |s| && s[i] == r.value && r.value < val
      && forall j :: i < j < |s| ==> s[j] >= val)
  {
    if s == [] then None
    else if s[|s| - 1] < val then Some(s[|s| - 1])
    else
      var init := s[..|s| - 1];
      var r := LastBelow(init, val);
      assert r.None? ==> forall i :: 0 <= i < |s| ==> s[i] >= val by {
        assert forall i :: 0 <= i < |init| ==> init[i] == s[i];
      }
      assert r.Some? ==> exists i :: (0 <= i < |s| && s[i] == r.value && r.value < val
        && forall j :: i < j < |s| ==> s[j] >= val) by {
        if r.Some? {
          var i :| 0 <= i < |init| && init[i] == r.value && r.value < val
            && forall j :: i < j < |init| ==> init[j] >= val;
          assert s[i] == init[i];
          assert forall j :: i < j < |s| - 1 ==> s[j] == init[j];
        }
      }
      r
  }

  /** The backward scan with break finds exactly LastBelow. */
  lemma {:induction false} LastBelowFromScan(s: seq<int>, val: int, tmp: seq<int>, k: nat, found: Option<int>)
    requires tmp == Reversed(s) && k <= |tmp|
    requires forall j :: 0 <= j < k ==> !(tmp[j] < val)
    requires found.Some? ==> k < |tmp| && found.value == tmp[k] && tmp[k] < val
    requires found.None? ==> k == |tmp|
    ensures found == LastBelow(s, val)
    decreases |s|
  {
    if s != [] {
      var last := s[|s| - 1];
      assert tmp[0] == last;
      if last >= val {
        var s' := s[..|s| - 1];
        var tmp' := Reversed(s');
        assert forall j :: 0 <= j < |tmp'| ==> tmp'[j] == tmp[j + 1];
        var f' := found;
        if found.Some? {
          LastBelowFromScan(s', val, tmp', k - 1, f');
        } else {
          LastBelowFromScan(s', val, tmp', k - 1, f');
        }
      }
    }
  }

  /**
   * preferredPath: "<default>" or a setup level below expert gives None (the
   * default path, looked up later); "<current>" and "<timer>" give the last
   * used directories; any other path is itself.
   */
  function PreferredPath(path: string, setupLevelIndex: int, lastVideodir: string,
                         lastTimerVideodir: string): (r: Option<string>)
    ensures r.None? <==> setupLevelIndex < 2 || path == "<default>"
    ensures r.Some? && path != "<current>" && path != "<timer>" ==> r.value == path
    ensures r.Some? && path == "<current>" ==> r.value == lastVideodir
    ensures r.Some? && path == "<timer>" ==> r.value == lastTimerVideodir
  {
    if setupLevelIndex < 2 || path == "<default>" then None
    else if path == "<current>" then Some(lastVideodir)
    else if path == "<timer>" then Some(lastTimerVideodir)
    else Some(path)
  }

  /** remote_fallback_changed's rewrite: scheme "http://" first, then port 8001 when no port follows the host. */
  function NormaliseRemoteFallback(url: string): (r: string)
    ensures url == "" ==> r == ""
    ensures url != "" ==> StartsWith(r, "http://") && Count(r, ':') != 1
  {
    if url == "" then url
    else
      var withScheme := (if StartsWith(url, "http://") then "" else "http://") + url;
      CountAppend(withScheme, ":8001", ':');
      PortColons();
      assert withScheme + "" == withScheme;
      StartsWithAppend(withScheme, "http://", if Count(withScheme, ':') == 1 then ":8001" else "");
      withScheme + (if Count(withScheme, ':') == 1 then ":8001" else "")
  }

  lemma {:induction false} CountAppend(a: string, b: string, c: char)
    ensures Count(a + b, c) == Count(a, c) + Count(b, c)
  {
    if a == [] {
      assert a + b == b;
    } else {
      assert (a + b)[1..] == a[1..] + b;
      CountAppend(a[1..], b, c);
    }
  }

  lemma PortColons()
    ensures Count(":8001", ':') == 1
  {
    assert ":8001"[1..] == "8001" && "8001"[1..] == "001" && "001"[1..] == "01";
    assert "01"[1..] == "1" && "1"[1..] == "";
  }

  lemma StartsWithAppend(a: string, p: string, b: string)
    requires StartsWith(a, p) || (|p| <= |a| && a[..|p|] == p)
    ensures StartsWith(a + b, p)
  {
    assert (a + b)[..|p|] == a[..|p|];
  }

  /** Applying the rewrite to its own output changes nothing, so the notifier settles at once. */
  lemma RemoteFallbackIdempotent(url: string)
    ensures NormaliseRemoteFallback(NormaliseRemoteFallback(url)) == NormaliseRemoteFallback(url)
  {
    var r := NormaliseRemoteFallback(url);
    if url != "" {
      assert StartsWith(r, "http://") && Count(r, ':') != 1;
      assert "" + r == r && r + "" == r;
    }
  }

  /** defaultpathChanged's rewrite: a trailing '/' is appended when missing. */
  function WithTrailingSlash(path: string): (r: string)
    ensures EndsWith(r, "/")
    ensures EndsWith(path, "/") ==> r == path
    ensures !EndsWith(path, "/") ==> r == path + "/"
  {
    if EndsWith(path, "/") then path else path + "/"
  }

  lemma TrailingSlashIdempotent(path: string)
    ensures WithTrailingSlash(WithTrailingSlash(path)) == WithTrailingSlash(path)
  {
  }

  /** A text setting with the value last persisted by save(). */
  class ConfigText {
    var value: string
    var savedValue: string

    constructor(value: string, savedValue: string)
      ensures this.value == value && this.savedValue == savedValue
    {
      this.value := value;
      this.savedValue := savedValue;
    }

    /** The remote-fallback notifier: rewrites a non-empty URL in place. */
    method RemoteFallbackChanged()
      modifies this`value
      ensures value == NormaliseRemoteFallback(old(value))
    {
      if value != "" {
        value := (if StartsWith(value, "http://") then "" else "http://") + value;
        value := value + (if Count(value, ':') == 1 then ":8001" else "");
      }
    }

    /** The default-path notifier: appends the missing '/' and saves; a path with one is left alone. */
    method DefaultPathChanged()
      modifies this`value, this`savedValue
      ensures value == WithTrailingSlash(old(value))
      ensures EndsWith(old(value), "/") ==> savedValue == old(savedValue)
      ensures !EndsWith(old(value), "/") ==> savedValue == value
    {
      if !EndsWith(value, "/") {
        var tmp := value;
        value := tmp + "/";
        savedValue := value;
      }
    }
  }
}
