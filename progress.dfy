/**
 * `get_user_progress`: a user's session reports over the last `days` days,
 * newest first, summarised by their count, mean exertion and success rate,
 * with the ten newest listed. The HTTP endpoint and both tool servers share
 * this computation. Statistics are exact reals; the two-decimal rounding of
 * the reply is not modelled.
 */
module Progress {
  import opened Wrappers
  import opened Entities
  import opened Adjustment
  import opened Engine

  /** The `days` query parameter when none is given. */
  const DefaultPeriodDays := 30
  const SecondsPerDay := 86400
  /** How many of the newest reports the summary lists. */
  const RecentLimit: nat := 10

  /** `datetime.utcnow() - timedelta(days=days)`, in seconds; a negative period moves it into the future. */
  function Cutoff(now: int, days: int): int {
    now - days * SecondsPerDay
  }

  /** The report rows of the user dated at or after the cutoff (the WHERE clause of the query). */
  function PeriodReports(t: Tables, userId: int, cutoff: int): (s: set<nat>)
    ensures s <= t.reports.Keys
    ensures forall k :: k in s <==> k in t.reports && t.reports[k].userId == userId && t.reports[k].date >= cutoff
  {
    set k | k in t.reports && t.reports[k].userId == userId && t.reports[k].date >= cutoff
  }

  /** The progress reply. `recent` holds the ids of the listed report rows. */
  datatype Summary = Summary(userId: int, periodDays: int, totalSessions: nat, averageRpe: real,
                             successRate: real, recent: seq<nat>)

  /** The statistics over the query's rows `ordered`, newest first: zero mean and rate when there are none. */
  function Summarize(t: Tables, userId: int, days: int, ordered: seq<nat>): (s: Summary)
    requires forall i :: 0 <= i < |ordered| ==> ordered[i] in t.reports
    ensures s.totalSessions == |ordered|
    ensures |s.recent| == if |ordered| < RecentLimit then |ordered| else RecentLimit
    ensures forall i :: 0 <= i < |s.recent| ==> s.recent[i] == ordered[i]
  {
    var w := SignalsOf(t, ordered);
    Summary(userId, days, |ordered|, MeanRpe(w), SuccessRate(w),
            if |ordered| < RecentLimit then ordered else ordered[..RecentLimit])
  }

  /** With no report in the period, the count, the mean and the rate are all zero and nothing is listed. */
  lemma SummaryEmpty(t: Tables, userId: int, days: int)
    ensures var s := Summarize(t, userId, days, []);
      s.totalSessions == 0 && s.averageRpe == 0.0 && s.successRate == 0.0 && s.recent == []
  {
  }

  /**
   * The success rate is a fraction, and when every report's exertion lies on
   * the 1-10 scale so does the mean of a non-empty period.
   */
  lemma SummaryBounds(t: Tables, userId: int, days: int, ordered: seq<nat>)
    requires forall i :: 0 <= i < |ordered| ==> ordered[i] in t.reports
    requires forall i :: 0 <= i < |ordered| ==> 1.0 <= t.reports[ordered[i]].rpe <= 10.0
    ensures var s := Summarize(t, userId, days, ordered);
      && 0.0 <= s.successRate <= 1.0
      && (|ordered| > 0 ==> 1.0 <= s.averageRpe <= 10.0)
  {
    if |ordered| > 0 {
      MeanRpeBounds(SignalsOf(t, ordered), 1.0, 10.0);
    }
  }

  /**
   * Over the rows of the period in query order, the count is that of the
   * period's reports and the listed ones are what the query limited to ten
   * returns: the newest ten, newest first.
   */
  lemma RecentNewest(t: Tables, userId: int, days: int, now: int, ordered: seq<nat>)
    requires TopByKey(PeriodReports(t, userId, Cutoff(now, days)), ReportDates(t),
                      |PeriodReports(t, userId, Cutoff(now, days))|, ordered)
    ensures var s := Summarize(t, userId, days, ordered);
      && s.totalSessions == |PeriodReports(t, userId, Cutoff(now, days))|
      && TopByKey(PeriodReports(t, userId, Cutoff(now, days)), ReportDates(t), RecentLimit, s.recent)
  {
    var s := Summarize(t, userId, days, ordered);
    TopPrefix(PeriodReports(t, userId, Cutoff(now, days)), ReportDates(t),
              |PeriodReports(t, userId, Cutoff(now, days))|, ordered, |s.recent|);
    assert s.recent == ordered[..|s.recent|];
  }

  /** The query and the statistics for one user over `days` days before `now`. */
  method UserProgress(t: Tables, userId: int, days: int, now: int) returns (s: Summary, ordered: seq<nat>)
    ensures TopByKey(PeriodReports(t, userId, Cutoff(now, days)), ReportDates(t),
                     |PeriodReports(t, userId, Cutoff(now, days))|, ordered)
    ensures forall i :: 0 <= i < |ordered| ==> ordered[i] in t.reports
    ensures s == Summarize(t, userId, days, ordered)
  {
    var rows := PeriodReports(t, userId, Cutoff(now, days));
    ordered := SelectTopByKey(rows, ReportDates(t), |rows|);
    s := Summarize(t, userId, days, ordered);
  }

  /**
   * `GET /users/{user_id}/progress`: 404 (`None`) for an unknown user, else the
   * summary over the rows `ordered` the query returned. Nothing is written.
   */
  method GetUserProgress(db: Database, userId: int, days: Option<int>, now: int) returns (reply: Option<Summary>, ordered: seq<nat>)
    ensures FindUser(db.committed, userId).None? <==> reply.None?
    ensures reply.Some? ==>
      var period := days.GetOr(DefaultPeriodDays);
      && TopByKey(PeriodReports(db.committed, userId, Cutoff(now, period)), ReportDates(db.committed),
                  |PeriodReports(db.committed, userId, Cutoff(now, period))|, ordered)
      && (forall i :: 0 <= i < |ordered| ==> ordered[i] in db.committed.reports)
      && reply.value == Summarize(db.committed, userId, period, ordered)
    ensures reply.Some? && days.None? ==> reply.value.periodDays == DefaultPeriodDays
  {
    var t := db.committed;
    if FindUser(t, userId).None? {
      return None, [];
    }
    var s;
    s, ordered := UserProgress(t, userId, days.GetOr(DefaultPeriodDays), now);
    reply := Some(s);
  }
}
