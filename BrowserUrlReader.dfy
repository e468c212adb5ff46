/** The native browser-URL reader: find the foreground browser, read its
    address bar, normalise the text into a URL and extract its domain.

    The operating-system services (the foreground window, the owning
    process and its image path, the UI Automation tree on Windows, the
    `osascript` bridge on macOS) are not modelled: their answers are
    parameters of the probes below, one field per call, so that every
    early return of the source is reachable. */
module BrowserUrlReader {
  import opened Common

  /** The one output record: `url`, `domain` and `browser`. */
  datatype BrowserUrlResult = BrowserUrlResult(url: Option<string>, domain: Option<string>, browser: Option<string>)

  const NoResult := BrowserUrlResult(None, None, None)

  predicate HasHttpScheme(t: string) {
    StartsWith(t, "http://") || StartsWith(t, "https://")
  }

  /** True when a bare text is taken for a host typed without a scheme. */
  predicate LooksLikeBareHost(t: string) {
    '.' in t && ' ' !in t
  }

  // ---------------------------------------------------------------------
  // URL normaliser
  // ---------------------------------------------------------------------

  /** `normalize_url`: trim, then add `https://` to scheme-less text that
      contains a dot and no space. */
  function NormalizeUrl(url: string): (r: string)
    ensures IsTrimmed(r)
    ensures r == Trim(url) || r == "https://" + Trim(url)
  {
    var trimmed := Trim(url);
    if HasHttpScheme(trimmed) then trimmed
    else if LooksLikeBareHost(trimmed) then
      PrependKeepsTrimmed("https://", trimmed);
      "https://" + trimmed
    else trimmed
  }

  /** Text that already has an http(s) scheme is only trimmed. */
  lemma NormalizeKeepsSchemedText(url: string)
    requires HasHttpScheme(Trim(url))
    ensures NormalizeUrl(url) == Trim(url)
  {
  }

  /** The scheme is added exactly when the trimmed text has none, contains a
      dot and contains no space; otherwise the trimmed text comes back. */
  lemma NormalizePrefixesIff(url: string)
    ensures NormalizeUrl(url) == "https://" + Trim(url)
        <==> !HasHttpScheme(Trim(url)) && LooksLikeBareHost(Trim(url))
    ensures NormalizeUrl(url) != "https://" + Trim(url) ==> NormalizeUrl(url) == Trim(url)
  {
    var t := Trim(url);
    assert |"https://" + t| == |t| + 8;
  }

  /** Normalising twice is normalising once. */
  lemma NormalizeIdempotent(url: string)
    ensures NormalizeUrl(NormalizeUrl(url)) == NormalizeUrl(url)
  {
    var n := NormalizeUrl(url);
    TrimOfTrimmed(n);
    var t := Trim(url);
    if n == "https://" + t && !HasHttpScheme(t) {
      assert n[..8] == "https://";
    }
  }

  // ---------------------------------------------------------------------
  // Domain extractor
  // ---------------------------------------------------------------------

  /** `strip_prefix("https://")`, else `strip_prefix("http://")`, else the text. */
  function StripScheme(u: string): (r: string)
    ensures EndsWith(u, r)
  {
    if StartsWith(u, "https://") then u[8..]
    else if StartsWith(u, "http://") then u[7..]
    else u
  }

  predicate IsHostDelimiter(c: char) {
    c == '/' || c == '?' || c == '#' || c == ':'
  }

  /** No character of s is one of the delimiters. */
  predicate FreeOfDelimiters(s: string) {
    forall i :: 0 <= i < |s| ==> !IsHostDelimiter(s[i])
  }

  /** Cutting a prefix of s at c leaves a prefix of s. */
  lemma TakeUntilOfPrefix(s: string, a: string, c: char)
    requires StartsWith(s, a)
    ensures StartsWith(s, TakeUntil(a, c))
  {
    var b := TakeUntil(a, c);
    assert s[..|b|] == s[..|a|][..|b|];
  }

  /** Cutting never brings in a character that was absent. */
  lemma NotInTakeUntil(a: string, c: char, x: char)
    requires x !in a
    ensures x !in TakeUntil(a, c)
  {
    var b := TakeUntil(a, c);
    assert forall i :: 0 <= i < |b| ==> b[i] == a[i];
  }

  /** A text without any of the four delimiters is free of them. */
  lemma NoDelimiters(d: string)
    requires '/' !in d && '?' !in d && '#' !in d && ':' !in d
    ensures FreeOfDelimiters(d)
  {
    forall i | 0 <= i < |d|
      ensures !IsHostDelimiter(d[i])
    {
      assert d[i] in d;
    }
  }

  /** The text cut at the first `/`, then `?`, then `#`, then `:`. */
  function CutAtDelimiters(s: string): (r: string)
    ensures StartsWith(s, r)
    ensures FreeOfDelimiters(r)
  {
    var a := TakeUntil(s, '/');
    var b := TakeUntil(a, '?');
    var c := TakeUntil(b, '#');
    var d := TakeUntil(c, ':');
    TakeUntilOfPrefix(s, a, '?');
    TakeUntilOfPrefix(s, b, '#');
    TakeUntilOfPrefix(s, c, ':');
    NotInTakeUntil(a, '?', '/');
    NotInTakeUntil(b, '#', '/');
    NotInTakeUntil(c, ':', '/');
    NotInTakeUntil(b, '#', '?');
    NotInTakeUntil(c, ':', '?');
    NotInTakeUntil(c, ':', '#');
    NoDelimiters(d);
    d
  }

  /** The host candidate of `extract_domain`. */
  function HostPart(url: string): (r: string)
    ensures StartsWith(StripScheme(Trim(url)), r)
    ensures FreeOfDelimiters(r)
  {
    CutAtDelimiters(StripScheme(Trim(url)))
  }

  /** `extract_domain`. */
  function ExtractDomain(url: string): (r: Option<string>)
    ensures r.Some? ==> r.value == HostPart(url) && '.' in r.value
    ensures r.Some? ==> FreeOfDelimiters(r.value)
    ensures r.None? <==> (HostPart(url) == [] || '.' !in HostPart(url))
  {
    var host := HostPart(url);
    if host == [] || '.' !in host then None else Some(host)
  }

  /** A host name: non-empty, dotted, free of the delimiters. */
  predicate IsHostName(h: string) {
    h != [] && '.' in h && FreeOfDelimiters(h)
  }

  /** What may follow a host: nothing, or a port, path, query or fragment. */
  predicate IsHostSuffix(rest: string) {
    rest == [] || IsHostDelimiter(rest[0])
  }

  /** A delimiter-free head passes through the cut unchanged. */
  lemma CutAppend(h: string, rest: string)
    requires FreeOfDelimiters(h)
    ensures CutAtDelimiters(h + rest) == h + CutAtDelimiters(rest)
  {
    assert '/' !in h && '?' !in h && '#' !in h && ':' !in h;
    TakeUntilAppend(h, rest, '/');
    var a := TakeUntil(rest, '/');
    TakeUntilAppend(h, a, '?');
    var b := TakeUntil(a, '?');
    TakeUntilAppend(h, b, '#');
    var c := TakeUntil(b, '#');
    TakeUntilAppend(h, c, ':');
  }

  /** A text that opens with a delimiter is cut to nothing. */
  lemma CutOfSuffix(rest: string)
    requires IsHostSuffix(rest)
    ensures CutAtDelimiters(rest) == []
  {
  }

  /** The host of a schemeless text is recovered by the delimiter chain. */
  lemma HostPartOfSchemeless(h: string, rest: string)
    requires IsHostName(h) && IsHostSuffix(rest)
    ensures CutAtDelimiters(h + rest) == h
  {
    CutAppend(h, rest);
    CutOfSuffix(rest);
    assert h + [] == h;
  }

  /** Round trip: the domain of `https://` + host + suffix is the host. */
  lemma ExtractDomainOfUrl(h: string, rest: string)
    requires IsHostName(h) && IsHostSuffix(rest)
    requires IsTrimmed(h + rest)
    ensures ExtractDomain("https://" + (h + rest)) == Some(h)
  {
    var t := h + rest;
    var u := "https://" + t;
    assert |u| == 8 + |t|;
    assert u[..8] == "https://" && u[8..] == t;
    assert StripScheme(u) == t;
    PrependKeepsTrimmed("https://", t);
    TrimOfTrimmed(u);
    HostPartOfSchemeless(h, rest);
    assert HostPart(u) == h;
  }

  /** A host typed without a scheme is never mistaken for a schemed URL. */
  lemma HostIsSchemeless(h: string, rest: string)
    requires IsHostName(h)
    ensures !HasHttpScheme(h + rest)
  {
    var t := h + rest;
    if HasHttpScheme(t) {
      var scheme: string, p: nat;
      if StartsWith(t, "http://") {
        assert t[..7] == "http://";
        scheme, p := "http", 4;
        assert t[..4] == scheme by { assert t[..4] == t[..7][..4]; }
        assert t[4] == t[..7][4];
      } else {
        assert t[..8] == "https://";
        scheme, p := "https", 5;
        assert t[..5] == scheme by { assert t[..5] == t[..8][..5]; }
        assert t[5] == t[..8][5];
      }
      assert |scheme| == p && t[p] == ':';
      if |h| > p {
        assert false;
      }
      forall i | 0 <= i < |h|
        ensures h[i] != '.'
      {
        assert h[i] == t[i] == t[..p][i] == scheme[i];
      }
      assert false;
    }
  }

  /** Round trip: a bare `host[suffix]` typed into the address bar is
      normalised and its host recovered as the domain. */
  lemma NormalizeThenExtract(h: string, rest: string)
    requires IsHostName(h) && IsHostSuffix(rest)
    requires IsTrimmed(h + rest) && ' ' !in h + rest
    ensures ExtractDomain(NormalizeUrl(h + rest)) == Some(h)
  {
    var t := h + rest;
    assert '.' in t by { var i :| 0 <= i < |h| && h[i] == '.'; assert t[i] == '.'; }
    HostIsSchemeless(h, rest);
    TrimOfTrimmed(t);
    NormalizePrefixesIff(t);
    var n := NormalizeUrl(t);
    assert n == "https://" + t;
    ExtractDomainOfUrl(h, rest);
    assert ExtractDomain(n) == Some(h);
  }

  /** A text that does not open with `h` has no scheme to strip. */
  lemma StripSchemeOfPlain(u: string)
    requires u == [] || u[0] != 'h'
    ensures StripScheme(u) == u
  {
  }

  /** A character absent from s is absent from every prefix of s. */
  lemma NotInPrefix(s: string, p: string, x: char)
    requires StartsWith(s, p) && x !in s
    ensures x !in p
  {
    assert forall i :: 0 <= i < |p| ==> p[i] == s[i];
  }

  /** A dotless host such as `localhost`, and the empty text, have no domain. */
  lemma ExtractDomainLocalhost()
    ensures ExtractDomain("localhost").None?
    ensures ExtractDomain("").None?
  {
    TrimOfTrimmed("localhost");
    StripSchemeOfPlain("localhost");
    assert '.' !in "localhost";
    NotInPrefix("localhost", HostPart("localhost"), '.');
    TrimOfTrimmed("");
    StripSchemeOfPlain("");
  }

  // ---------------------------------------------------------------------
  // Browser registry (Windows image paths)
  // ---------------------------------------------------------------------

  /** The browser-name chain of `get_browser_name_from_hwnd`, applied to the
      lower-cased process image path. */
  function BrowserNameFromPath(path: string): (r: Option<string>)
  {
    var p := ToLower(path);
    if Contains(p, "chrome") && !Contains(p, "chromium") then Some("Google Chrome")
    else if Contains(p, "firefox") then Some("Firefox")
    else if Contains(p, "msedge") then Some("Microsoft Edge")
    else if Contains(p, "brave") then Some("Brave")
    else if Contains(p, "opera") then Some("Opera")
    else if Contains(p, "vivaldi") then Some("Vivaldi")
    else if Contains(p, "chromium") then Some("Chromium")
    else None
  }

  /** Any path mentioning any browser keyword. */
  predicate MentionsBrowser(p: string) {
    Contains(p, "chrome") || Contains(p, "firefox") || Contains(p, "msedge") || Contains(p, "brave")
    || Contains(p, "opera") || Contains(p, "vivaldi") || Contains(p, "chromium")
  }

  /** A Chromium path is never reported as Google Chrome, and an unmatched
      path is no browser at all. */
  lemma BrowserRegistryRules(path: string)
    ensures Contains(ToLower(path), "chromium") ==> BrowserNameFromPath(path) != Some("Google Chrome")
    ensures BrowserNameFromPath(path).None? <==> !MentionsBrowser(ToLower(path))
    ensures BrowserNameFromPath(path).Some? ==>
      BrowserNameFromPath(path).value in {"Google Chrome", "Firefox", "Microsoft Edge", "Brave", "Opera", "Vivaldi", "Chromium"}
  {
  }

  /** The match ignores case: a path and its lower-cased form agree. */
  lemma BrowserNameIgnoresCase(path: string)
    ensures BrowserNameFromPath(ToLower(path)) == BrowserNameFromPath(path)
  {
    ToLowerIdempotent(path);
  }

  // ---------------------------------------------------------------------
  // Result assembly
  // ---------------------------------------------------------------------

  /** The shape every emitted result has: a domain only with a URL, and a
      URL only as the normalised form of a non-empty raw text, with the
      domain extracted from it. */
  predicate Assembled(r: BrowserUrlResult, raw: string) {
    && (r.domain.Some? ==> r.url.Some?)
    && (r.url.Some? ==> raw != "" && r.url.value == NormalizeUrl(raw) && r.domain == ExtractDomain(r.url.value))
  }

  /** What an OS call returns: a value or a propagated error message. */
  type Os<T> = Result<T, string>

  /** The answers of the Windows process queries for the foreground window. */
  datatype ProcessProbe = ProcessProbe(
    processId: nat,              // GetWindowThreadProcessId
    openProcess: Os<bool>,       // OpenProcess: Ok(false) is an invalid handle
    imagePath: Option<string>)   // QueryFullProcessImageNameW; None when it fails

  /** The answers of the Windows calls made by `get_browser_url`. */
  datatype WindowsDesktop = WindowsDesktop(
    hasForegroundWindow: bool,   // GetForegroundWindow is not null
    process: ProcessProbe,
    automation: Os<()>,          // CoCreateInstance(CUIAutomation)
    element: Os<()>,             // ElementFromHandle
    condition: Os<()>,           // CreatePropertyCondition(edit control)
    addressBarFound: bool,       // FindFirst(descendants, edit) is Ok
    valuePatternFound: bool,     // GetCurrentPattern(value pattern) is Ok
    valuePatternCast: Os<()>,    // cast to IUIAutomationValuePattern
    currentValue: Os<string>)    // CurrentValue of the address bar

  /** `get_browser_name_from_hwnd`: resolve the process and classify its path. */
  method GetBrowserNameFromHwnd(p: ProcessProbe) returns (r: Os<Option<string>>)
    ensures p.processId == 0 ==> r == Ok(None)
    ensures p.processId != 0 && p.openProcess.Err? ==> r == Err(p.openProcess.error)
    ensures r.Err? ==> p.openProcess.Err?
    ensures p.openProcess == Ok(false) || (p.openProcess.Ok? && p.imagePath.None?) ==> r == Ok(None)
    ensures r.Ok? && r.value.Some? ==> p.imagePath.Some? && r.value == BrowserNameFromPath(p.imagePath.value)
    ensures p.processId != 0 && p.openProcess == Ok(true) && p.imagePath.Some? ==> r == Ok(BrowserNameFromPath(p.imagePath.value))
  {
    if p.processId == 0 {
      return Ok(None);
    }
    if p.openProcess.Err? {
      return Err(p.openProcess.error);
    }
    if !p.openProcess.value {
      return Ok(None);
    }
    if p.imagePath.None? {
      return Ok(None);
    }
    var name := BrowserNameFromPath(p.imagePath.value);
    return Ok(name);
  }

  /** The foreground process is a browser the registry recognises. */
  predicate Recognised(p: ProcessProbe) {
    p.processId != 0 && p.openProcess == Ok(true) && p.imagePath.Some?
    && BrowserNameFromPath(p.imagePath.value).Some?
  }

  /** Every Windows call that can fail answered without an error. */
  predicate AllCallsSucceed(d: WindowsDesktop) {
    d.process.openProcess.Ok? && d.automation.Ok? && d.element.Ok? && d.condition.Ok?
    && d.valuePatternCast.Ok? && d.currentValue.Ok?
  }

  /** `get_browser_url` on Windows. Each fallible call's error is passed up
      unchanged (the `?` operator), in the order the calls are made; when
      every call succeeds the reader succeeds. */
  method GetBrowserUrlWindows(d: WindowsDesktop) returns (r: Os<BrowserUrlResult>)
    ensures AllCallsSucceed(d) ==> r.Ok?
    ensures r.Err? ==> !AllCallsSucceed(d)
    ensures d.hasForegroundWindow && d.process.processId != 0 && d.process.openProcess.Err? ==>
      r == Err(d.process.openProcess.error)
    ensures d.hasForegroundWindow && Recognised(d.process) && d.automation.Err? ==> r == Err(d.automation.error)
    ensures d.hasForegroundWindow && Recognised(d.process) && d.automation.Ok? && d.element.Err? ==>
      r == Err(d.element.error)
    ensures (d.hasForegroundWindow && Recognised(d.process) && d.automation.Ok? && d.element.Ok?
             && d.condition.Err?) ==> r == Err(d.condition.error)
    ensures (d.hasForegroundWindow && Recognised(d.process) && d.automation.Ok? && d.element.Ok?
             && d.condition.Ok? && d.addressBarFound && d.valuePatternFound && d.valuePatternCast.Err?) ==>
      r == Err(d.valuePatternCast.error)
    ensures (d.hasForegroundWindow && Recognised(d.process) && d.automation.Ok? && d.element.Ok?
             && d.condition.Ok? && d.addressBarFound && d.valuePatternFound && d.valuePatternCast.Ok?
             && d.currentValue.Err?) ==> r == Err(d.currentValue.error)
    ensures (d.hasForegroundWindow && Recognised(d.process) && AllCallsSucceed(d) && d.addressBarFound
             && d.valuePatternFound && d.currentValue.value != "") ==>
      r == Ok(BrowserUrlResult(Some(NormalizeUrl(d.currentValue.value)),
                               ExtractDomain(NormalizeUrl(d.currentValue.value)),
                               BrowserNameFromPath(d.process.imagePath.value)))
    ensures !d.hasForegroundWindow ==> r == Ok(NoResult)
    ensures r.Ok? ==> Assembled(r.value, d.currentValue.GetOr(""))
    ensures r.Ok? && r.value.browser.None? ==> r.value == NoResult
    ensures r.Ok? && r.value.browser.Some? ==>
      d.process.imagePath.Some? && r.value.browser == BrowserNameFromPath(d.process.imagePath.value)
    ensures r.Ok? && r.value.url.Some? ==> d.addressBarFound && d.valuePatternFound
    ensures (d.hasForegroundWindow && d.process.processId != 0 && d.process.openProcess == Ok(true)
             && d.process.imagePath.Some? && BrowserNameFromPath(d.process.imagePath.value).None?) ==> r == Ok(NoResult)
    ensures (d.hasForegroundWindow && r.Ok? && r.value.browser.Some? && d.addressBarFound && d.valuePatternFound
             && d.currentValue.Ok? && d.currentValue.value != "") ==> r.value.url.Some?
    ensures r.Ok? && r.value.browser.Some? && (!d.addressBarFound || !d.valuePatternFound) ==>
      r.value.url.None? && r.value.domain.None?
  {
    if !d.hasForegroundWindow {
      return Ok(NoResult);
    }
    var browser := GetBrowserNameFromHwnd(d.process);
    if browser.Err? {
      return Err(browser.error);
    }
    if browser.value.None? {
      return Ok(NoResult);
    }
    if d.automation.Err? {
      return Err(d.automation.error);
    }
    if d.element.Err? {
      return Err(d.element.error);
    }
    if d.condition.Err? {
      return Err(d.condition.error);
    }
    if d.addressBarFound && d.valuePatternFound {
      if d.valuePatternCast.Err? {
        return Err(d.valuePatternCast.error);
      }
      if d.currentValue.Err? {
        return Err(d.currentValue.error);
      }
      var url := d.currentValue.value;
      if url != "" {
        var normalized := NormalizeUrl(url);
        var domain := ExtractDomain(normalized);
        return Ok(BrowserUrlResult(Some(normalized), domain, browser.value));
      }
    }
    return Ok(BrowserUrlResult(None, None, browser.value));
  }

  /** The output of one `osascript` run. */
  datatype ScriptOutput = ScriptOutput(success: bool, stdout: string)

  /** The per-application script table of the macOS variant (Firefox reads
      the address bar through System Events). */
  function MacScriptFor(appName: string): (r: Option<string>)
    ensures r.Some? <==> appName in {"Google Chrome", "Safari", "Firefox", "Arc", "Microsoft Edge", "Brave Browser", "Opera", "Vivaldi"}
  {
    match appName
    case "Google Chrome" => Some("tell application \"Google Chrome\" to get URL of active tab of front window")
    case "Safari" => Some("tell application \"Safari\" to get URL of current tab of front window")
    case "Firefox" => Some("tell application \"System Events\" to tell process \"Firefox\" to get value of attribute \"AXValue\" of text field 1 of toolbar 1 of window 1")
    case "Arc" => Some("tell application \"Arc\" to get URL of active tab of front window")
    case "Microsoft Edge" => Some("tell application \"Microsoft Edge\" to get URL of active tab of front window")
    case "Brave Browser" => Some("tell application \"Brave Browser\" to get URL of active tab of front window")
    case "Opera" => Some("tell application \"Opera\" to get URL of active tab of front window")
    case "Vivaldi" => Some("tell application \"Vivaldi\" to get URL of active tab of front window")
    case _ => None
  }

  /** The script output carries a URL: not empty and not AppleScript's
      `missing value`. */
  predicate UsableScriptText(t: string) {
    t != "" && !StartsWith(t, "missing value")
  }

  /** `get_browser_url` on macOS. `frontmost` is the output of the script
      asking for the frontmost process; `runScript` runs one script (an Err
      when `osascript` cannot be spawned). */
  method GetBrowserUrlMac(frontmost: Os<ScriptOutput>, runScript: string -> Os<ScriptOutput>)
    returns (r: Os<BrowserUrlResult>)
    ensures frontmost.Err? ==> r == Err(frontmost.error)
    ensures frontmost.Ok? && MacScriptFor(Trim(frontmost.value.stdout)).None? ==> r == Ok(NoResult)
    ensures r.Ok? ==> Assembled(r.value, if frontmost.Ok? && MacScriptFor(Trim(frontmost.value.stdout)).Some?
                                            then runScript(MacScriptFor(Trim(frontmost.value.stdout)).value).GetOr(ScriptOutput(false, "")).stdout
                                            else "")
    ensures r.Ok? && r.value.browser.Some? ==>
      frontmost.Ok? && r.value.browser == Some(Trim(frontmost.value.stdout)) && MacScriptFor(r.value.browser.value).Some?
    ensures r.Ok? && r.value.browser.None? ==> r.value == NoResult
    ensures frontmost.Ok? && MacScriptFor(Trim(frontmost.value.stdout)).Some? ==>
      var out := runScript(MacScriptFor(Trim(frontmost.value.stdout)).value);
      && (out.Err? ==> r == Err(out.error))
      && (out.Ok? && (!out.value.success || !UsableScriptText(Trim(out.value.stdout))) ==>
            r == Ok(BrowserUrlResult(None, None, Some(Trim(frontmost.value.stdout)))))
      && (out.Ok? && out.value.success && UsableScriptText(Trim(out.value.stdout)) ==>
            r.Ok? && r.value.url == Some(NormalizeUrl(Trim(out.value.stdout))))
  {
    if frontmost.Err? {
      return Err(frontmost.error);
    }
    var appName := Trim(frontmost.value.stdout);
    var script := MacScriptFor(appName);
    if script.None? {
      return Ok(NoResult);
    }
    var output := runScript(script.value);
    r := ReadMacAddressBar(appName, output);
  }

  /** The part of the macOS variant after the browser script has run:
      propagate a spawn error, report the browser alone when the script
      failed or printed nothing usable, and otherwise normalise its output. */
  method ReadMacAddressBar(appName: string, output: Os<ScriptOutput>) returns (r: Os<BrowserUrlResult>)
    ensures output.Err? ==> r == Err(output.error)
    ensures output.Ok? && (!output.value.success || !UsableScriptText(Trim(output.value.stdout))) ==>
      r == Ok(BrowserUrlResult(None, None, Some(appName)))
    ensures output.Ok? && output.value.success && UsableScriptText(Trim(output.value.stdout)) ==>
      r.Ok? && r.value.url == Some(NormalizeUrl(Trim(output.value.stdout)))
    ensures r.Ok? ==> r.value.browser == Some(appName) && Assembled(r.value, output.GetOr(ScriptOutput(false, "")).stdout)
  {
    if output.Err? {
      return Err(output.error);
    }
    if output.value.success {
      var url := Trim(output.value.stdout);
      if UsableScriptText(url) {
        var normalized := NormalizeUrl(url);
        TrimIdempotent(output.value.stdout);
        assert NormalizeUrl(output.value.stdout) == normalized;
        var domain := ExtractDomain(normalized);
        return Ok(BrowserUrlResult(Some(normalized), domain, Some(appName)));
      }
    }
    return Ok(BrowserUrlResult(None, None, Some(appName)));
  }

  /** `get_browser_url` on any other operating system: always empty. */
  function GetBrowserUrlUnsupported(): (r: Os<BrowserUrlResult>)
    ensures r.Ok? && r.value.url.None? && r.value.domain.None? && r.value.browser.None?
  {
    Ok(NoResult)
  }

  /** `main`: a result is printed on standard output with exit status 0;
      an error is printed on standard error with exit status 1. */
  function ExitStatus(r: Os<BrowserUrlResult>): (code: int)
    ensures code == 0 <==> r.Ok?
    ensures code != 0 ==> code == 1
  {
    if r.Ok? then 0 else 1
  }
}
