/**
 * `adjust_exercise_by_history`: the background task that reads an exercise
 * instance and its most recent reports in a session of its own, applies the
 * adjustment decision and commits the new current prescription.
 */
module Engine {
  import opened Wrappers
  import opened Entities
  import opened Adjustment

  /** The report rows of one user for one exercise instance (the WHERE clause of the history query). */
  function HistoryOf(t: Tables, userId: nat, instanceId: nat): (s: set<nat>)
    ensures s <= t.reports.Keys
    ensures forall k :: k in s <==> k in t.reports && t.reports[k].userId == userId && t.reports[k].instanceId == instanceId
  {
    set k | k in t.reports && t.reports[k].userId == userId && t.reports[k].instanceId == instanceId
  }

  /** The exertion and success of the listed reports, in order. */
  function SignalsOf(t: Tables, ids: seq<nat>): (w: seq<Signal>)
    requires forall i :: 0 <= i < |ids| ==> ids[i] in t.reports
    ensures |w| == |ids|
    ensures forall i :: 0 <= i < |ids| ==> w[i] == Signal(t.reports[ids[i]].rpe, t.reports[ids[i]].success)
  {
    seq(|ids|, i requires 0 <= i < |ids| => Signal(t.reports[ids[i]].rpe, t.reports[ids[i]].success))
  }

  /** Every instance's effective current reps lie in [1, RepCap(target)] and its effective sets are positive. */
  ghost predicate InBand(t: Tables) {
    forall k :: k in t.instances ==>
      && 1 <= Effective(t.instances[k].currentReps, t.instances[k].targetReps) <= RepCap(t.instances[k].targetReps)
      && 1 <= Effective(t.instances[k].currentSets, t.instances[k].targetSets)
  }

  /** `b` has the same instances as `a`, each with the same target prescription and day. */
  ghost predicate TargetsKept(a: Tables, b: Tables) {
    && a.instances.Keys == b.instances.Keys
    && forall k :: k in a.instances ==>
         && b.instances[k].targetReps == a.instances[k].targetReps
         && b.instances[k].targetSets == a.instances[k].targetSets
         && b.instances[k].planDayId == a.instances[k].planDayId
  }

  /** The tables after writing prescription `p` into instance `instanceId`. */
  function Written(t: Tables, instanceId: nat, p: Prescription, now: int): (t': Tables)
    requires instanceId in t.instances
    ensures t'.instances.Keys == t.instances.Keys
    ensures t'.users == t.users && t'.plans == t.plans && t'.planDays == t.planDays && t'.exerciseTypes == t.exerciseTypes
  {
    t.(instances := t.instances[instanceId := t.instances[instanceId].(
      currentReps := Some(p.reps), currentSets := Some(p.sets), lastUpdated := Some(now))])
  }

  /** Writing a prescription keeps every target, and one inside the band keeps the tables in it. */
  lemma WrittenKeeps(t: Tables, instanceId: nat, p: Prescription, now: int)
    requires instanceId in t.instances
    requires 1 <= p.reps <= RepCap(t.instances[instanceId].targetReps)
    requires 1 <= Effective(t.instances[instanceId].currentSets, t.instances[instanceId].targetSets) ==> 1 <= p.sets
    ensures TargetsKept(t, Written(t, instanceId, p, now))
    ensures InBand(t) ==> InBand(Written(t, instanceId, p, now))
  {
  }

  /** The decided prescription lies in the band whenever the current one does. */
  lemma DecisionInBand(i: ExerciseInstance, w: seq<Signal>)
    requires |w| >= 2
    requires 1 <= Effective(i.currentReps, i.targetReps) <= RepCap(i.targetReps)
    ensures var p := Decide(i.currentReps, i.currentSets, i.targetReps, i.targetSets, w).value;
      && 1 <= p.reps <= RepCap(i.targetReps)
      && (1 <= Effective(i.currentSets, i.targetSets) ==> 1 <= p.sets)
  {
    RepsStayInBand(i.currentReps, i.currentSets, i.targetReps, i.targetSets, w);
    SetsNeverIncrease(i.currentReps, i.currentSets, i.targetReps, i.targetSets, w);
  }

  /**
   * One adjustment. Returns the report ids the history query read (newest
   * first) and the prescription written, `None` when nothing was written: the
   * instance is missing or fewer than two reports exist. Only the instance's
   * `current_reps`, `current_sets` and `last_updated` ever change.
   */
  method AdjustByHistory(db: Database, instanceId: nat, userId: nat, now: int)
    returns (window: seq<nat>, written: Option<Prescription>)
    modifies db
    ensures var t := old(db.committed);
      instanceId !in t.instances ==> window == [] && written.None?
    ensures var t := old(db.committed);
      instanceId in t.instances ==>
        && TopByKey(HistoryOf(t, userId, instanceId), ReportDates(t), HistoryWindow, window)
        && written == Decide(t.instances[instanceId].currentReps, t.instances[instanceId].currentSets,
                             t.instances[instanceId].targetReps, t.instances[instanceId].targetSets,
                             SignalsOf(t, window))
    ensures written.None? <==>
      instanceId !in old(db.committed).instances || |HistoryOf(old(db.committed), userId, instanceId)| < 2
    ensures written.None? ==> db.committed == old(db.committed)
    ensures var t := old(db.committed);
      written.Some? ==>
        db.committed == t.(instances := t.instances[instanceId := t.instances[instanceId].(
          currentReps := Some(written.value.reps),
          currentSets := Some(written.value.sets),
          lastUpdated := Some(now))])
    ensures db.committed == Adjusted(old(db.committed), instanceId, window, now)
    ensures TargetsKept(old(db.committed), db.committed)
    ensures InBand(old(db.committed)) ==> InBand(db.committed)
  {
    var t := db.committed;
    window, written := [], None;
    if instanceId !in t.instances {
      return;
    }
    var instance := t.instances[instanceId];
    window := SelectTopByKey(HistoryOf(t, userId, instanceId), ReportDates(t), HistoryWindow);
    if |window| < 2 {
      return;
    }
    var w := SignalsOf(t, window);
    written := Decide(instance.currentReps, instance.currentSets, instance.targetReps, instance.targetSets, w);
    var p := written.value;
    db.committed := Written(t, instanceId, p, now);
    if InBand(t) {
      DecisionInBand(instance, w);
      WrittenKeeps(t, instanceId, p, now);
    } else {
      assert TargetsKept(t, Written(t, instanceId, p, now));
    }
  }

  /** Every listed id is a report row. */
  ghost predicate InReports(t: Tables, ids: seq<nat>) {
    forall i :: 0 <= i < |ids| ==> ids[i] in t.reports
  }

  /**
   * The tables after one adjustment of `instanceId` whose history query read
   * the report rows `window`: nothing changes for a missing instance or a
   * window under two reports; otherwise the decision is written.
   */
  ghost function Adjusted(t: Tables, instanceId: nat, window: seq<nat>, now: int): (t': Tables)
    ensures TargetsKept(t, t')
    ensures t'.reports == t.reports
    ensures t'.users == t.users && t'.plans == t.plans && t'.planDays == t.planDays && t'.exerciseTypes == t.exerciseTypes
  {
    if instanceId in t.instances && |window| >= 2 && InReports(t, window) then
      var i := t.instances[instanceId];
      Written(t, instanceId, Decide(i.currentReps, i.currentSets, i.targetReps, i.targetSets, SignalsOf(t, window)).value, now)
    else t
  }

  /** One adjustment keeps the band. */
  lemma AdjustedInBand(t: Tables, instanceId: nat, window: seq<nat>, now: int)
    requires InBand(t)
    ensures InBand(Adjusted(t, instanceId, window, now))
  {
    if instanceId in t.instances && |window| >= 2 && InReports(t, window) {
      var i := t.instances[instanceId];
      var w := SignalsOf(t, window);
      DecisionInBand(i, w);
      WrittenKeeps(t, instanceId, Decide(i.currentReps, i.currentSets, i.targetReps, i.targetSets, w).value, now);
    }
  }

  /** The tables after the adjustments of `scheduled`, in order, the k-th reading the rows `windows[k]`. */
  ghost function Replayed(t: Tables, scheduled: seq<nat>, windows: seq<seq<nat>>, now: int): (r: Tables)
    requires |windows| == |scheduled|
    ensures r.instances.Keys == t.instances.Keys && r.reports == t.reports
    ensures r.users == t.users && r.plans == t.plans && r.planDays == t.planDays && r.exerciseTypes == t.exerciseTypes
    decreases |scheduled|
  {
    if scheduled == [] then t
    else
      var n := |scheduled| - 1;
      Adjusted(Replayed(t, scheduled[..n], windows[..n], now), scheduled[n], windows[n], now)
  }

  /**
   * A replay changes only instances: the other tables, every instance's
   * target and day, and the band are kept.
   */
  lemma {:induction false} ReplayedKeeps(t: Tables, scheduled: seq<nat>, windows: seq<seq<nat>>, now: int)
    requires |windows| == |scheduled|
    ensures var t' := Replayed(t, scheduled, windows, now);
      && TargetsKept(t, t')
      && t'.users == t.users && t'.plans == t.plans && t'.planDays == t.planDays
      && t'.reports == t.reports && t'.exerciseTypes == t.exerciseTypes
    ensures InBand(t) ==> InBand(Replayed(t, scheduled, windows, now))
    decreases |scheduled|
  {
    if scheduled != [] {
      var n := |scheduled| - 1;
      var mid := Replayed(t, scheduled[..n], windows[..n], now);
      ReplayedKeeps(t, scheduled[..n], windows[..n], now);
      if InBand(t) {
        AdjustedInBand(mid, scheduled[n], windows[n], now);
      }
    }
  }

  /**
   * Each adjustment read the newest reports of the user on its instance, and
   * nothing for a missing instance. Reports do not change while the tasks
   * run, so these are the rows of the store the run started from.
   */
  ghost predicate WindowsRead(t: Tables, scheduled: seq<nat>, windows: seq<seq<nat>>, userId: nat) {
    && |windows| == |scheduled|
    && forall k :: 0 <= k < |scheduled| ==>
         if scheduled[k] in t.instances then TopByKey(HistoryOf(t, userId, scheduled[k]), ReportDates(t), HistoryWindow, windows[k])
         else windows[k] == []
  }

  /**
   * The background tasks of one report batch, run one after another in the
   * order they were scheduled (each in its own session), the k-th reading the
   * report rows `windows[k]`. The store afterwards is the replay of those
   * adjustments: targets are never touched, and the repetition band is kept.
   */
  method RunScheduled(db: Database, scheduled: seq<nat>, userId: nat, now: int) returns (windows: seq<seq<nat>>)
    modifies db
    ensures WindowsRead(old(db.committed), scheduled, windows, userId)
    ensures db.committed == Replayed(old(db.committed), scheduled, windows, now)
    ensures TargetsKept(old(db.committed), db.committed)
    ensures InBand(old(db.committed)) ==> InBand(db.committed)
    ensures db.committed.users == old(db.committed).users
    ensures db.committed.plans == old(db.committed).plans
    ensures db.committed.planDays == old(db.committed).planDays
    ensures db.committed.reports == old(db.committed).reports
    ensures db.committed.exerciseTypes == old(db.committed).exerciseTypes
  {
    var t0 := db.committed;
    windows := [];
    var i := 0;
    while i < |scheduled|
      invariant 0 <= i <= |scheduled|
      invariant WindowsRead(t0, scheduled[..i], windows, userId)
      invariant db.committed == Replayed(t0, scheduled[..i], windows, now)
    {
      ReplayedKeeps(t0, scheduled[..i], windows, now);
      ghost var mid := db.committed;
      var window, _ := AdjustByHistory(db, scheduled[i], userId, now);
      ReadInStore(t0, mid, scheduled[i], userId, window);
      RunStep(t0, scheduled, windows, userId, now, i, window);
      windows := windows + [window];
      i := i + 1;
    }
    assert scheduled[..i] == scheduled;
    ReplayedKeeps(t0, scheduled, windows, now);
  }

  /** What an adjustment read in a replayed store it also reads in the store the run started from. */
  lemma ReadInStore(t0: Tables, mid: Tables, instanceId: nat, userId: nat, window: seq<nat>)
    requires mid.reports == t0.reports && mid.instances.Keys == t0.instances.Keys
    requires instanceId !in mid.instances ==> window == []
    requires instanceId in mid.instances ==>
      TopByKey(HistoryOf(mid, userId, instanceId), ReportDates(mid), HistoryWindow, window)
    ensures instanceId !in t0.instances ==> window == []
    ensures instanceId in t0.instances ==>
      TopByKey(HistoryOf(t0, userId, instanceId), ReportDates(t0), HistoryWindow, window)
  {
    assert HistoryOf(mid, userId, instanceId) == HistoryOf(t0, userId, instanceId);
    assert ReportDates(mid) == ReportDates(t0);
  }

  /** One more task extends the replay and the windows read by one step. */
  lemma RunStep(t0: Tables, scheduled: seq<nat>, windows: seq<seq<nat>>, userId: nat, now: int, i: nat, window: seq<nat>)
    requires i < |scheduled|
    requires WindowsRead(t0, scheduled[..i], windows, userId)
    requires scheduled[i] !in t0.instances ==> window == []
    requires scheduled[i] in t0.instances ==>
      TopByKey(HistoryOf(t0, userId, scheduled[i]), ReportDates(t0), HistoryWindow, window)
    ensures WindowsRead(t0, scheduled[..i + 1], windows + [window], userId)
    ensures Replayed(t0, scheduled[..i + 1], windows + [window], now) ==
            Adjusted(Replayed(t0, scheduled[..i], windows, now), scheduled[i], window, now)
  {
    assert scheduled[..i + 1][..i] == scheduled[..i];
    assert (windows + [window])[..i] == windows;
  }
}
