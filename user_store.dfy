/**
 * The front end's user store (`frontend/src/stores/user.js`): the profile,
 * the selections and settings of the current session, and the history of
 * finished sessions, with the getters over the history and the duration
 * formatter. JavaScript objects are JSON objects here; the clock's readings
 * are parameters.
 */
module UserStore {
  import opened Wrappers
  import opened Json
  import opened Text

  /** How many sessions `recentSessions` lists. */
  const RecentCount: nat := 5

  /** `{ ...a, ...b }`: every key of either, with the value of `b` where both have it. */
  function Merge(a: map<string, Json>, b: map<string, Json>): (r: map<string, Json>)
    ensures forall k :: k in r <==> k in a || k in b
    ensures forall k :: k in b ==> r[k] == b[k]
    ensures forall k :: k in a && k !in b ==> r[k] == a[k]
  {
    a + b
  }

  /** Merging the same keys twice is merging them once. */
  lemma MergeIdempotent(a: map<string, Json>, b: map<string, Json>)
    ensures Merge(Merge(a, b), b) == Merge(a, b)
  {
  }

  /** The profile `resetUserData` installs. */
  const ResetProfile: map<string, Json> :=
    map["id" := JNull, "name" := JStr(""), "email" := JStr(""),
        "preferences" := JObj(map["sport" := JNull, "fitnessLevel" := JStr("beginner"), "goals" := JArr([]),
                                  "notifications" := JBool(true)])]

  /** The sample profile the page opens with. */
  const SampleProfile: map<string, Json> :=
    map["id" := JStr("user_001"), "name" := JStr("John Doe"), "email" := JStr("john@example.com"),
        "preferences" := JObj(map["sport" := JStr("running"), "fitnessLevel" := JStr("intermediate"),
                                  "goals" := JArr([JStr("endurance"), JStr("weight-loss")]),
                                  "notifications" := JBool(true)])]

  /** The agent selected when the page opens. */
  const CoachAgent: Json :=
    JObj(map["id" := JStr("coach"), "name" := JStr("The Coach"), "emoji" := JStr("💪"),
             "description" := JStr("Structured, motivating, results-focused")])

  /** The settings of a new session. */
  const DefaultSessionData: map<string, Json> :=
    map["duration" := JNum(30), "intensity" := JStr("medium"), "mood" := JStr("energetic")]

  /** The two sample sessions, dated `yesterday` and `threeDaysAgo`. */
  function SampleHistory(yesterday: string, threeDaysAgo: string): seq<map<string, Json>> {
    [ map["id" := JStr("session_001"), "sport" := JStr("running"), "duration" := JNum(1800),
          "completedPercentage" := JNum(95), "agent" := JStr("The Coach"), "date" := JStr(yesterday)],
      map["id" := JStr("session_002"), "sport" := JStr("gym"), "duration" := JNum(2700),
          "completedPercentage" := JNum(88), "agent" := JStr("The Motivator"), "date" := JStr(threeDaysAgo)] ]
  }

  /** The id `addSessionToHistory` gives a session added at clock reading `stamp` (milliseconds). */
  function SessionId(stamp: int): string {
    "session_" + IntToString(stamp)
  }

  /** A session as it is appended: its own fields, then the id and the date, which win. */
  function Stamped(session: map<string, Json>, stamp: int, date: string): (r: map<string, Json>)
    ensures "id" in r && r["id"] == JStr(SessionId(stamp))
    ensures "date" in r && r["date"] == JStr(date)
    ensures forall k :: k in session && k != "id" && k != "date" ==> k in r && r[k] == session[k]
    ensures forall k :: k in r ==> k in session || k == "id" || k == "date"
  {
    Merge(session, map["id" := JStr(SessionId(stamp)), "date" := JStr(date)])
  }

  class Store {
    var profile: map<string, Json>
    var selectedSport: Json
    var selectedAgent: Json
    var sessionData: map<string, Json>
    var history: seq<map<string, Json>>
    var currentRoute: string

    /**
     * The store as the page opens: the sample profile, running with the coach,
     * a 30-minute medium session, and two sample sessions dated `yesterday`
     * and `threeDaysAgo`.
     */
    constructor (yesterday: string, threeDaysAgo: string)
      ensures profile == SampleProfile && selectedAgent == CoachAgent
      ensures history == SampleHistory(yesterday, threeDaysAgo)
      ensures |history| == 2
      ensures "date" in history[0] && history[0]["date"] == JStr(yesterday)
      ensures "date" in history[1] && history[1]["date"] == JStr(threeDaysAgo)
      ensures selectedSport == JStr("running") && currentRoute == "/"
      ensures sessionData == DefaultSessionData
    {
      profile := SampleProfile;
      selectedSport := JStr("running");
      selectedAgent := CoachAgent;
      sessionData := DefaultSessionData;
      history := SampleHistory(yesterday, threeDaysAgo);
      currentRoute := "/";
    }

    /** `lastSession`: the newest session, `None` (null) for an empty history. */
    function LastSession(): (r: Option<map<string, Json>>)
      reads this
      ensures r.None? <==> history == []
      ensures r.Some? ==> r.value == history[|history| - 1] && r.value in history
    {
      if |history| > 0 then Some(history[|history| - 1]) else None
    }

    /** `recentSessions`: the last five sessions (or all, when fewer), newest first. */
    function RecentSessions(): (r: seq<map<string, Json>>)
      reads this
      ensures |r| == if |history| < RecentCount then |history| else RecentCount
      ensures forall i :: 0 <= i < |r| ==> r[i] == history[|history| - 1 - i]
    {
      var h := history;
      var start := if |h| < RecentCount then 0 else |h| - RecentCount;
      seq(|h| - start, i requires 0 <= i < |h| - start => h[|h| - 1 - i])
    }

    /** `totalSessions`. */
    function TotalSessions(): (n: nat)
      reads this
      ensures n == |history|
    {
      |history|
    }

    /** `setUserProfile`: a shallow merge into the profile. */
    method SetUserProfile(update: map<string, Json>)
      modifies this
      ensures profile == Merge(old(profile), update)
      ensures selectedSport == old(selectedSport) && selectedAgent == old(selectedAgent)
      ensures sessionData == old(sessionData) && history == old(history) && currentRoute == old(currentRoute)
    {
      profile := Merge(profile, update);
    }

    method SetSelectedSport(sport: Json)
      modifies this
      ensures selectedSport == sport
      ensures profile == old(profile) && selectedAgent == old(selectedAgent)
      ensures sessionData == old(sessionData) && history == old(history) && currentRoute == old(currentRoute)
    {
      selectedSport := sport;
    }

    method SetSelectedAgent(agent: Json)
      modifies this
      ensures selectedAgent == agent
      ensures profile == old(profile) && selectedSport == old(selectedSport)
      ensures sessionData == old(sessionData) && history == old(history) && currentRoute == old(currentRoute)
    {
      selectedAgent := agent;
    }

    /** `setSessionData` (and `updateSessionData`, which does the same): a shallow merge into the session data. */
    method SetSessionData(data: map<string, Json>)
      modifies this
      ensures sessionData == Merge(old(sessionData), data)
      ensures profile == old(profile) && selectedSport == old(selectedSport) && selectedAgent == old(selectedAgent)
      ensures history == old(history) && currentRoute == old(currentRoute)
    {
      sessionData := Merge(sessionData, data);
    }

    /**
     * `addSessionToHistory`, at clock reading `stamp` with `date` its ISO
     * text: one more session, the earlier ones unchanged, and the new one the
     * last and the most recent.
     */
    method AddSessionToHistory(session: map<string, Json>, stamp: int, date: string)
      modifies this
      ensures history == old(history) + [Stamped(session, stamp, date)]
      ensures TotalSessions() == old(TotalSessions()) + 1
      ensures LastSession() == Some(Stamped(session, stamp, date))
      ensures RecentSessions()[0] == Stamped(session, stamp, date)
      ensures profile == old(profile) && selectedSport == old(selectedSport) && selectedAgent == old(selectedAgent)
      ensures sessionData == old(sessionData) && currentRoute == old(currentRoute)
    {
      history := history + [Stamped(session, stamp, date)];
    }

    /** `clearSessionData`: no session data, and no sport or agent selected. */
    method ClearSessionData()
      modifies this
      ensures sessionData == map[] && selectedSport == JNull && selectedAgent == JNull
      ensures profile == old(profile) && history == old(history) && currentRoute == old(currentRoute)
    {
      sessionData := map[];
      selectedSport := JNull;
      selectedAgent := JNull;
    }

    method SetCurrentRoute(route: string)
      modifies this
      ensures currentRoute == route
      ensures profile == old(profile) && selectedSport == old(selectedSport) && selectedAgent == old(selectedAgent)
      ensures sessionData == old(sessionData) && history == old(history)
    {
      currentRoute := route;
    }

    /** `resetUserData`: the blank profile, the session data cleared, and no history. */
    method ResetUserData()
      modifies this
      ensures profile == ResetProfile && history == []
      ensures sessionData == map[] && selectedSport == JNull && selectedAgent == JNull
      ensures LastSession().None? && TotalSessions() == 0 && RecentSessions() == []
      ensures currentRoute == old(currentRoute)
    {
      profile := ResetProfile;
      ClearSessionData();
      history := [];
    }
  }

  // ---------------------------------------------------------------------------
  // formatDuration
  // ---------------------------------------------------------------------------

  /** JavaScript's `%`: the remainder takes the sign of the dividend. */
  function JsRem(a: int, b: int): (r: int)
    requires b > 0
    ensures a >= 0 ==> 0 <= r < b
    ensures a < 0 ==> -b < r <= 0
    ensures a == (if a >= 0 then a / b else -((-a) / b)) * b + r
  {
    if a >= 0 then a % b else -((-a) % b)
  }

  /**
   * `formatDuration(seconds)` for a whole number of seconds: `"{m}m {s}s"`
   * with `m` the floor of the minutes when that is positive, else `"{s}s"`,
   * `s` being JavaScript's remainder.
   */
  function FormatDuration(seconds: int): (text: string)
    ensures |text| >= 2 && text[|text| - 1] == 's'
  {
    var mins := seconds / 60;   // the divisor is positive, so this is the floor
    var secs := JsRem(seconds, 60);
    if mins > 0 then IntToString(mins) + "m " + IntToString(secs) + "s" else IntToString(secs) + "s"
  }

  /** For a non-negative duration, the minutes and seconds shown add up to it, with the seconds below 60. */
  lemma DurationParts(seconds: nat)
    ensures var m, r := seconds / 60, seconds % 60;
      && m * 60 + r == seconds && 0 <= r < 60
      && FormatDuration(seconds) == if m > 0 then NatToString(m) + "m " + NatToString(r) + "s" else NatToString(r) + "s"
  {
  }

  /** A non-empty decimal numeral's value. */
  function ReadNumeral(s: string): (r: Option<nat>)
    ensures r.Some? <==> s != [] && AllDigits(s)
  {
    if s != [] && AllDigits(s) then Some(DecimalValue(s)) else None
  }

  /** Reads a duration text back into seconds; `None` for a text not of either shape. */
  function ReadDuration(text: string): (r: Option<nat>)
  {
    if |text| == 0 || text[|text| - 1] != 's' then None else ReadClock(text[..|text| - 1])
  }

  /** The part before the final `s`: a numeral of seconds, or minutes, `"m "` and seconds. */
  function ReadClock(body: string): (r: Option<nat>)
  {
    var k := Find(body, 'm');
    if k < 0 then ReadNumeral(body)
    else if k + 2 <= |body| && body[k + 1] == ' ' then
      match (ReadNumeral(body[..k]), ReadNumeral(body[k + 2..]))
      case (Some(mins), Some(secs)) => Some(mins * 60 + secs)
      case _ => None
    else None
  }

  /** Every non-negative duration reads back from its text. */
  lemma DurationRoundTrip(seconds: nat)
    ensures ReadDuration(FormatDuration(seconds)) == Some(seconds)
  {
    var m, r := seconds / 60, seconds % 60;
    DurationParts(seconds);
    NatToStringRoundTrip(r);
    if m > 0 {
      NatToStringRoundTrip(m);
      ReadMinutes(NatToString(m), NatToString(r));
    } else {
      ReadSeconds(NatToString(r));
    }
  }

  /** A text of the seconds-only shape reads back as its numeral. */
  lemma ReadSeconds(rs: string)
    requires rs != [] && AllDigits(rs)
    ensures ReadDuration(rs + "s") == Some(DecimalValue(rs))
  {
    var text := rs + "s";
    assert text[..|text| - 1] == rs;
    NoLetterInDigits(rs);
  }

  /** A text of the minutes-and-seconds shape reads back as sixty times the first numeral plus the second. */
  lemma ReadMinutes(ms: string, rs: string)
    requires ms != [] && AllDigits(ms) && rs != [] && AllDigits(rs)
    ensures ReadDuration(ms + "m " + rs + "s") == Some(DecimalValue(ms) * 60 + DecimalValue(rs))
  {
    var body := ms + ("m " + rs);
    var text := body + "s";
    assert ms + "m " + rs + "s" == text;
    assert text[..|text| - 1] == body;
    NoLetterInDigits(ms);
    MinutesShape(body, ms, rs);
    MinutesBody(body, ms, rs);
  }

  /** The part before the final `s` of the minutes-and-seconds shape reads as sixty times the minutes plus the seconds. */
  lemma MinutesBody(body: string, ms: string, rs: string)
    requires ms != [] && AllDigits(ms) && rs != [] && AllDigits(rs)
    requires Find(body, 'm') == |ms| && |ms| + 2 <= |body| && body[|ms| + 1] == ' '
    requires body[..|ms|] == ms && body[|ms| + 2..] == rs
    ensures ReadClock(body) == Some(DecimalValue(ms) * 60 + DecimalValue(rs))
  {
    ClockShape(body, |ms|, DecimalValue(ms), DecimalValue(rs));
  }

  /** Where the first `m` of the minutes-and-seconds shape sits, and what lies on either side of it. */
  lemma MinutesShape(body: string, ms: string, rs: string)
    requires 'm' !in ms && body == ms + ("m " + rs)
    ensures Find(body, 'm') == |ms| && |ms| + 2 <= |body| && body[|ms| + 1] == ' '
    ensures body[..|ms|] == ms && body[|ms| + 2..] == rs
  {
    FindAfter(ms, "m " + rs, 'm');
  }

  /** A body whose first `m` is followed by a space, with numerals on either side, reads as minutes and seconds. */
  lemma ClockShape(body: string, k: nat, mins: nat, secs: nat)
    requires Find(body, 'm') == k && k + 2 <= |body| && body[k + 1] == ' '
    requires ReadNumeral(body[..k]) == Some(mins) && ReadNumeral(body[k + 2..]) == Some(secs)
    ensures ReadClock(body) == Some(mins * 60 + secs)
  {
  }

  /** The first `c` of `a + b` is the first character of `b` when `a` has none. */
  lemma {:induction false} FindAfter(a: string, b: string, c: char)
    requires c !in a && b != [] && b[0] == c
    ensures Find(a + b, c) == |a|
    decreases |a|
  {
    if a != [] {
      assert (a + b)[1..] == a[1..] + b;
      FindAfter(a[1..], b, c);
    }
  }

  /** A decimal numeral has no letter `m`. */
  lemma NoLetterInDigits(s: string)
    requires AllDigits(s)
    ensures 'm' !in s
  {
    assert forall i :: 0 <= i < |s| ==> s[i] != 'm';
  }
}
