/**
 * Visit and install tracking: the user-agent classifiers, the session id kept
 * in session storage, and the flags that let each hook record at most once.
 * The user-agent string, the time zone, the clock and the random part of a new
 * session id are parameters.
 */
module AnalyticsTracking {
  import opened Wrappers
  import Text

  /** The first of Chrome, Firefox, Safari, Edge found in the user agent. */
  function BrowserName(ua: string): (name: string)
    ensures name == "Chrome" <==> Text.Contains(ua, "Chrome")
    ensures name == "Firefox" <==> !Text.Contains(ua, "Chrome") && Text.Contains(ua, "Firefox")
    ensures name == "Safari" <==>
              !Text.Contains(ua, "Chrome") && !Text.Contains(ua, "Firefox") && Text.Contains(ua, "Safari")
    ensures name == "Edge" <==>
              !Text.Contains(ua, "Chrome") && !Text.Contains(ua, "Firefox") && !Text.Contains(ua, "Safari") &&
              Text.Contains(ua, "Edge")
    ensures name == "Unknown" <==>
              !Text.Contains(ua, "Chrome") && !Text.Contains(ua, "Firefox") && !Text.Contains(ua, "Safari") &&
              !Text.Contains(ua, "Edge")
  {
    if Text.Contains(ua, "Chrome") then "Chrome"
    else if Text.Contains(ua, "Firefox") then "Firefox"
    else if Text.Contains(ua, "Safari") then "Safari"
    else if Text.Contains(ua, "Edge") then "Edge"
    else "Unknown"
  }

  /** `/mobile/i` then `/tablet/i`: letter case is ignored. */
  function DeviceType(ua: string): (device: string)
    ensures device == "Mobile" <==> Text.Contains(Text.Lower(ua), "mobile")
    ensures device == "Tablet" <==> !Text.Contains(Text.Lower(ua), "mobile") && Text.Contains(Text.Lower(ua), "tablet")
    ensures device == "Desktop" <==> !Text.Contains(Text.Lower(ua), "mobile") && !Text.Contains(Text.Lower(ua), "tablet")
  {
    if Text.Contains(Text.Lower(ua), "mobile") then "Mobile"
    else if Text.Contains(Text.Lower(ua), "tablet") then "Tablet"
    else "Desktop"
  }

  /** The first of Win, Mac, Linux, Android, iOS found in the user agent. */
  function Platform(ua: string): (platform: string)
    ensures platform == "Windows" <==> Text.Contains(ua, "Win")
    ensures platform == "MacOS" <==> !Text.Contains(ua, "Win") && Text.Contains(ua, "Mac")
    ensures platform == "Linux" <==>
              !Text.Contains(ua, "Win") && !Text.Contains(ua, "Mac") && Text.Contains(ua, "Linux")
    ensures platform == "Android" <==>
              !Text.Contains(ua, "Win") && !Text.Contains(ua, "Mac") && !Text.Contains(ua, "Linux") &&
              Text.Contains(ua, "Android")
    ensures platform == "iOS" <==>
              !Text.Contains(ua, "Win") && !Text.Contains(ua, "Mac") && !Text.Contains(ua, "Linux") &&
              !Text.Contains(ua, "Android") && Text.Contains(ua, "iOS")
    ensures platform == "Unknown" <==>
              !Text.Contains(ua, "Win") && !Text.Contains(ua, "Mac") && !Text.Contains(ua, "Linux") &&
              !Text.Contains(ua, "Android") && !Text.Contains(ua, "iOS")
  {
    if Text.Contains(ua, "Win") then "Windows"
    else if Text.Contains(ua, "Mac") then "MacOS"
    else if Text.Contains(ua, "Linux") then "Linux"
    else if Text.Contains(ua, "Android") then "Android"
    else if Text.Contains(ua, "iOS") then "iOS"
    else "Unknown"
  }

  /** Chromium-based Edge announces itself with "Chrome" too, so it is counted as Chrome. */
  lemma EdgeWithChromeIsChrome()
    ensures BrowserName("Mozilla/5.0 Chrome/120.0 Edg/120.0 Edge") == "Chrome"
  {
    var ua := "Mozilla/5.0 Chrome/120.0 Edg/120.0 Edge";
    assert ua[12..][..6] == ua[12..18] == "Chrome";
    ContainsAt(ua, "Chrome", 12);
  }

  /** Android user agents also name Linux, which is checked first. */
  lemma AndroidWithLinuxIsLinux(ua: string)
    requires Text.Contains(ua, "Linux") && Text.Contains(ua, "Android")
    requires !Text.Contains(ua, "Win") && !Text.Contains(ua, "Mac")
    ensures Platform(ua) == "Linux"
  {
  }

  /** An occurrence at a known position is found. */
  lemma {:induction false} ContainsAt(s: string, t: string, i: nat)
    requires i <= |s| && Text.IsPrefix(t, s[i..])
    ensures Text.Contains(s, t)
    decreases i
  {
    if i > 0 {
      assert s[1..][i - 1..] == s[i..];
      ContainsAt(s[1..], t, i - 1);
    } else {
      assert s[0..] == s;
    }
  }

  /** The time zone, or "Unknown" when none is reported. */
  function Location(timeZone: Option<string>): (location: string)
    ensures timeZone.Some? && timeZone.value != "" ==> location == timeZone.value
    ensures timeZone.None? || timeZone.value == "" ==> location == "Unknown"
  {
    if timeZone.Some? && timeZone.value != "" then timeZone.value else "Unknown"
  }

  const SessionKey := "analytics-session-id"

  /** A fresh id: `session-<now>-<random>`. */
  function NewSessionId(now: nat, random: string): (id: string)
    ensures |id| > 0
  {
    "session-" + Text.NatToString(now) + "-" + random
  }

  /** `getSessionId` on a storage snapshot: the stored id if there is a non-empty one, else a new id, which is stored. */
  function SessionLookup(storage: map<string, string>, now: nat, random: string): (r: (string, map<string, string>))
    ensures SessionKey in storage && storage[SessionKey] != "" ==> r == (storage[SessionKey], storage)
    ensures !(SessionKey in storage && storage[SessionKey] != "") ==>
              r == (NewSessionId(now, random), storage[SessionKey := NewSessionId(now, random)])
  {
    if SessionKey in storage && storage[SessionKey] != "" then (storage[SessionKey], storage)
    else
      var id := NewSessionId(now, random);
      (id, storage[SessionKey := id])
  }

  /** Within a session every later lookup returns the id the first one returned, whatever the clock and random part. */
  lemma SessionIdStable(storage: map<string, string>, now1: nat, random1: string, now2: nat, random2: string)
    ensures var (id1, after1) := SessionLookup(storage, now1, random1);
            SessionLookup(after1, now2, random2) == (id1, after1)
  {
  }

  class SessionStorage {
    var items: map<string, string>

    constructor (initial: map<string, string>)
      ensures items == initial
    {
      items := initial;
    }

    method GetSessionId(now: nat, random: string) returns (id: string)
      modifies this
      ensures (id, items) == SessionLookup(old(items), now, random)
    {
      if SessionKey in items && items[SessionKey] != "" {
        return items[SessionKey];
      }
      id := "session-" + Text.NatToString(now) + "-" + random;
      items := items[SessionKey := id];
    }
  }

  /** What a visit record carries. */
  datatype VisitInput = VisitInput(page: string, browser: string, device: string, location: string, sessionId: string)

  datatype DownloadInput = DownloadInput(browser: string, device: string, platform: string, version: string,
                                         location: string, sessionId: string)

  function MakeVisit(page: string, ua: string, timeZone: Option<string>, sessionId: string): VisitInput {
    VisitInput(page, BrowserName(ua), DeviceType(ua), Location(timeZone), sessionId)
  }

  function MakeDownload(ua: string, timeZone: Option<string>, sessionId: string): DownloadInput {
    DownloadInput(BrowserName(ua), DeviceType(ua), Platform(ua), "1.0.0", Location(timeZone), sessionId)
  }

  /**
   * The pages recorded when the visit effect runs once per page in `pages`,
   * starting with the flag `tracked`: only the first run records.
   */
  function VisitsRecorded(tracked: bool, pages: seq<string>): (recorded: seq<string>)
    ensures |recorded| <= 1
    ensures recorded != [] <==> !tracked && pages != []
    ensures recorded != [] ==> recorded[0] == pages[0]
    decreases |pages|
  {
    if pages == [] then []
    else if tracked then VisitsRecorded(true, pages[1..])
    else [pages[0]] + VisitsRecorded(true, pages[1..])
  }

  /** `useVisitTracking`'s ref flag. */
  class VisitTracker {
    var hasTracked: bool

    constructor ()
      ensures !hasTracked
    {
      hasTracked := false;
    }

    /** One run of the effect (on mount and on every page change). */
    method OnPage(page: string, ua: string, timeZone: Option<string>, sessionId: string) returns (recorded: Option<VisitInput>)
      modifies this
      ensures hasTracked
      ensures recorded.Some? <==> !old(hasTracked)
      ensures recorded.Some? ==> recorded.value == MakeVisit(page, ua, timeZone, sessionId)
    {
      if hasTracked {
        return None;
      }
      hasTracked := true;
      recorded := Some(MakeVisit(page, ua, timeZone, sessionId));
    }
  }

  /** `usePWAInstallTracking`'s ref flag: only the first `appinstalled` event is recorded. */
  class InstallTracker {
    var hasTracked: bool

    constructor ()
      ensures !hasTracked
    {
      hasTracked := false;
    }

    method OnAppInstalled(ua: string, timeZone: Option<string>, sessionId: string) returns (recorded: Option<DownloadInput>)
      modifies this
      ensures hasTracked
      ensures recorded.Some? <==> !old(hasTracked)
      ensures recorded.Some? ==> recorded.value == MakeDownload(ua, timeZone, sessionId) && recorded.value.version == "1.0.0"
    {
      if hasTracked {
        return None;
      }
      hasTracked := true;
      recorded := Some(MakeDownload(ua, timeZone, sessionId));
    }
  }
}
