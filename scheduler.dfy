// The group schedules of core/scheduler.py: the two cron jobs of a scheduled
// group and their bookkeeping, the status the scheduler writes to a group,
// the configuration sync, and the retention of database backups. The job
// store is a map from job id to job; the `forwarding_groups` rows the
// scheduler reads and writes are a map from group id to row; the time of
// day is a parameter.
module Scheduler {
  import opened Wrappers
  import opened PyStr
  import T = PyTime
  import GP = GroupProcessor

  /** The number of backups kept. */
  const BackupsKept: nat := 7

  // ---------------------------------------------------------------- groups and jobs

  /** The columns of a `forwarding_groups` row the scheduler uses; a NULL bound is `""`. */
  datatype GroupRow = GroupRow(status: String, scheduleStart: String, scheduleEnd: String)

  /** A cron job of a group: at `hour:minute` every day, activate or deactivate the group. */
  datatype GroupJob = GroupJob(hour: int, minute: int, activate: bool, groupId: int)

  /** An entry of `scheduled_jobs`. */
  datatype JobInfo = JobInfo(startJobId: String, endJobId: String, startTime: String, endTime: String)

  function StartJobId(groupId: int): String
  {
    "group_" + IntToString(groupId) + "_start"
  }

  function EndJobId(groupId: int): String
  {
    "group_" + IntToString(groupId) + "_end"
  }

  /**
   * The job ids of different groups never collide, and no start job id is
   * an end job id, so with `replace_existing` a group only ever replaces
   * its own jobs.
   */
  lemma JobIdsDistinct(a: int, b: int)
    ensures StartJobId(a) == StartJobId(b) ==> a == b
    ensures EndJobId(a) == EndJobId(b) ==> a == b
    ensures StartJobId(a) != EndJobId(b)
  {
    var sa, sb := IntToString(a), IntToString(b);
    if StartJobId(a) == StartJobId(b) {
      assert StartJobId(a) == "group_" + (sa + "_start") && StartJobId(b) == "group_" + (sb + "_start");
      SamePrefix("group_", sa + "_start", sb + "_start");
      SameSuffix(sa, sb, "_start");
      IntToStringInjective(a, b);
    }
    if EndJobId(a) == EndJobId(b) {
      assert EndJobId(a) == "group_" + (sa + "_end") && EndJobId(b) == "group_" + (sb + "_end");
      SamePrefix("group_", sa + "_end", sb + "_end");
      SameSuffix(sa, sb, "_end");
      IntToStringInjective(a, b);
    }
    var s, e := StartJobId(a), EndJobId(b);
    assert s[|s| - 1] == 't' && e[|e| - 1] == 'd';
  }

  /** `map(int, s.split(':'))` unpacked into two names: exactly two integer fields. */
  function SplitTime(s: String): (r: Option<(int, int)>)
    ensures r.Some? ==> |Split(s, ":")| == 2
  {
    var parts := Split(s, ":");
    if |parts| != 2 then None
    else
      match (ParseInt(parts[0]), ParseInt(parts[1]))
      case (Some(h), Some(m)) => Some((h, m))
      case _ => None
  }

  /** `CronTrigger(hour=h, minute=m)` accepts the hour and the minute. */
  predicate CronValid(t: (int, int))
  {
    0 <= t.0 <= 23 && 0 <= t.1 <= 59
  }

  /**
   * What `_add_group_schedule` stores for two bounds: nothing when a bound
   * does not split or the start trigger refuses its time, only the start
   * job when the end trigger refuses its time, both jobs otherwise.
   */
  datatype Plan = NoJobs | StartOnly(start: (int, int)) | BothJobs(start: (int, int), end: (int, int))

  function PlanOf(start: String, end: String): (r: Plan)
    ensures r.NoJobs? <==> SplitTime(start).None? || SplitTime(end).None? || !CronValid(SplitTime(start).value)
    ensures r.BothJobs? ==>
      (CronValid(r.start) && CronValid(r.end) && SplitTime(start) == Some(r.start) && SplitTime(end) == Some(r.end))
  {
    var s, e := SplitTime(start), SplitTime(end);
    if s.None? || e.None? || !CronValid(s.value) then NoJobs
    else if !CronValid(e.value) then StartOnly(s.value)
    else BothJobs(s.value, e.value)
  }

  /** Every scheduled group has its two jobs in the store under its own ids. */
  predicate Consistent(jobs: map<String, GroupJob>, scheduled: map<int, JobInfo>)
  {
    forall g :: g in scheduled ==>
      scheduled[g].startJobId == StartJobId(g) && scheduled[g].endJobId == EndJobId(g)
      && StartJobId(g) in jobs && EndJobId(g) in jobs
      && jobs[StartJobId(g)].groupId == g && jobs[StartJobId(g)].activate
      && jobs[EndJobId(g)].groupId == g && !jobs[EndJobId(g)].activate
  }

  /** Storing a group's start job keeps every scheduled group's jobs in place. */
  lemma StoreStartConsistent(jobs: map<String, GroupJob>, scheduled: map<int, JobInfo>, g: int, job: GroupJob)
    requires Consistent(jobs, scheduled) && job.groupId == g && job.activate
    ensures Consistent(jobs[StartJobId(g) := job], scheduled)
  {
    JobIdsDistinctAll(g);
  }

  /** Storing both jobs of a group and recording it keeps the store consistent. */
  lemma StoreBothConsistent(jobs: map<String, GroupJob>, scheduled: map<int, JobInfo>, g: int,
                            sj: GroupJob, ej: GroupJob, startTime: String, endTime: String)
    requires Consistent(jobs, scheduled) && sj.groupId == g && sj.activate && ej.groupId == g && !ej.activate
    ensures Consistent(jobs[StartJobId(g) := sj][EndJobId(g) := ej],
                       scheduled[g := JobInfo(StartJobId(g), EndJobId(g), startTime, endTime)])
  {
    JobIdsDistinctAll(g);
  }

  /** Dropping a group's jobs and its record keeps the store consistent. */
  lemma DropConsistent(jobs: map<String, GroupJob>, scheduled: map<int, JobInfo>, g: int)
    requires Consistent(jobs, scheduled)
    ensures Consistent(jobs - {StartJobId(g), EndJobId(g)}, scheduled - {g})
  {
    JobIdsDistinctAll(g);
  }

  /** The status `_check_current_schedule_status` writes, `None` when a bound does not parse. */
  function WindowStatus(start: String, end: String, clock: T.TimeOfDay): (r: Option<String>)
    ensures r.Some? <==> T.FromIsoFormat(start).Some? && T.FromIsoFormat(end).Some?
    ensures r == Some("active") || r == Some("scheduled") || r.None?
  {
    match (T.FromIsoFormat(start), T.FromIsoFormat(end))
    case (Some(s), Some(e)) => Some(if T.InWindow(clock, s, e) then "active" else "scheduled")
    case _ => None
  }

  /**
   * The scheduler's status check and the pipeline's gate agree: where the
   * scheduler can decide, it writes `active` exactly when the pipeline's
   * window lets messages through.
   */
  lemma StatusAgreesWithGate(start: String, end: String, clock: T.TimeOfDay)
    requires WindowStatus(start, end, clock).Some?
    ensures WindowStatus(start, end, clock) == Some("active") <==> GP.InScheduleTime(start, end, clock)
  {
  }

  /** Splitting at `:` past a character that is not `:`. */
  lemma SplitOther(c: char, rest: String)
    requires c != ':'
    ensures Split([c] + rest, ":") == [[c] + Split(rest, ":")[0]] + Split(rest, ":")[1..]
  {
    var s := [c] + rest;
    assert s[..1] == [c] && s[1..] == rest;
  }

  /** Splitting at a leading `:`. */
  lemma SplitColon(rest: String)
    ensures Split([':'] + rest, ":") == [""] + Split(rest, ":")
  {
    var s := [':'] + rest;
    assert s[..1] == ":" && s[1..] == rest;
  }

  /** `":00:00".split(":")`. */
  lemma SplitMinutesSeconds()
    ensures Split(":00:00", ":") == ["", "00", "00"]
  {
    assert Split("", ":") == [""];
    SplitOther('0', "");
    assert "0" == ['0'] + "" && Split("0", ":") == ["0"];
    SplitOther('0', "0");
    assert "00" == ['0'] + "0" && Split("00", ":") == ["00"];
    SplitColon("00");
    assert ":00" == [':'] + "00" && Split(":00", ":") == ["", "00"];
    SplitOther('0', ":00");
    assert "0:00" == ['0'] + ":00" && Split("0:00", ":") == ["0", "00"];
    SplitOther('0', "0:00");
    assert "00:00" == ['0'] + "0:00" && Split("00:00", ":") == ["00", "00"];
    SplitColon("00:00");
    assert ":00:00" == [':'] + "00:00";
  }

  /** `"09:00:00".split(":")` has three fields. */
  lemma SplitSeconds()
    ensures Split("09:00:00", ":") == ["09", "00", "00"]
  {
    SplitMinutesSeconds();
    var tail: seq<String> := ["", "00", "00"];
    SplitOther('9', ":00:00");
    assert "9:00:00" == ['9'] + ":00:00" && ['9'] + tail[0] == "9" && tail[1..] == ["00", "00"];
    assert Split("9:00:00", ":") == ["9", "00", "00"];
    var mid: seq<String> := ["9", "00", "00"];
    SplitOther('0', "9:00:00");
    assert "09:00:00" == ['0'] + "9:00:00" && ['0'] + mid[0] == "09" && mid[1..] == ["00", "00"];
  }

  /**
   * A time with seconds passes the `fromisoformat` check of
   * `add_group_schedule` but not the two-field split of
   * `_add_group_schedule`, so no job is created for it.
   */
  lemma SecondsFormNotScheduled()
    ensures T.FromIsoFormat("09:00:00").Some? && SplitTime("09:00:00").None?
  {
    SplitSeconds();
    var s := "09:00:00";
    assert s[0..2] == "09" && s[3..5] == "00" && s[6..8] == "00";
    assert DigitsValue("09") == 9 by {
      assert "09"[..1] == "0";
    }
    assert DigitsValue("00") == 0 by {
      assert "00"[..1] == "0";
    }
  }

  /** The row with its status replaced; an UPDATE of a missing row changes nothing. */
  function WithStatus(table: map<int, GroupRow>, groupId: int, status: String): (r: map<int, GroupRow>)
    ensures r.Keys == table.Keys
    ensures groupId in table ==> r[groupId] == table[groupId].(status := status)
    ensures forall g :: g in table && g != groupId ==> r[g] == table[g]
  {
    if groupId in table then table[groupId := table[groupId].(status := status)] else table
  }

  /** The row with its schedule replaced; an UPDATE of a missing row changes nothing. */
  function WithSchedule(table: map<int, GroupRow>, groupId: int, start: String, end: String): (r: map<int, GroupRow>)
    ensures r.Keys == table.Keys
    ensures groupId in table ==> r[groupId] == table[groupId].(scheduleStart := start, scheduleEnd := end)
    ensures forall g :: g in table && g != groupId ==> r[g] == table[g]
  {
    if groupId in table then table[groupId := table[groupId].(scheduleStart := start, scheduleEnd := end)] else table
  }

  /** Same groups with the same schedules; statuses may differ. */
  predicate SameSchedules(t0: map<int, GroupRow>, t: map<int, GroupRow>)
  {
    t.Keys == t0.Keys
    && forall g :: g in t ==> t[g].scheduleStart == t0[g].scheduleStart && t[g].scheduleEnd == t0[g].scheduleEnd
  }

  /** A row with both schedule bounds set. */
  predicate HasSchedule(row: GroupRow)
  {
    row.scheduleStart != "" && row.scheduleEnd != ""
  }

  /**
   * After a sync over group `g`: a group with a schedule has jobs when it
   * had them before (with the old times, changed bounds are not picked up)
   * or when both bounds split into valid cron fields; a group without one
   * has none.
   */
  predicate Synced(table: map<int, GroupRow>, jobs0: map<int, JobInfo>, jobs: map<int, JobInfo>, g: int)
    requires g in table
  {
    var row := table[g];
    if HasSchedule(row) then
      (g in jobs0 ==> g in jobs && jobs[g] == jobs0[g])
      && (g !in jobs0 ==>
            (g in jobs <==> PlanOf(row.scheduleStart, row.scheduleEnd).BothJobs?))
    else g !in jobs
  }

  // ---------------------------------------------------------------- backups

  /** Python's `<=` on strings: code point by code point, a prefix first. */
  predicate NameLe(a: String, b: String)
    decreases |a|
  {
    |a| == 0 || (|b| > 0 && (a[0] < b[0] || (a[0] == b[0] && NameLe(a[1..], b[1..]))))
  }

  lemma {:induction false} NameLeTotal(a: String, b: String)
    ensures NameLe(a, b) || NameLe(b, a)
    decreases |a|
  {
    if |a| > 0 && |b| > 0 && a[0] == b[0] {
      NameLeTotal(a[1..], b[1..]);
    }
  }

  lemma {:induction false} NameLeTransitive(a: String, b: String, c: String)
    requires NameLe(a, b) && NameLe(b, c)
    ensures NameLe(a, c)
    decreases |a|
  {
    if |a| > 0 && |b| > 0 && |c| > 0 && a[0] == b[0] && b[0] == c[0] {
      NameLeTransitive(a[1..], b[1..], c[1..]);
    }
  }

  predicate NamesSorted(s: seq<String>)
  {
    forall i, j :: 0 <= i < j < |s| ==> NameLe(s[i], s[j])
  }

  /** Places `x` after every name that is not larger. */
  function InsertName(s: seq<String>, x: String): (r: seq<String>)
    ensures multiset(r) == multiset(s) + multiset{x} && |r| == |s| + 1
  {
    if |s| == 0 then [x]
    else if NameLe(s[|s| - 1], x) then s + [x]
    else
      var front := s[..|s| - 1];
      assert s == front + [s[|s| - 1]];
      InsertName(front, x) + [s[|s| - 1]]
  }

  lemma {:induction false} InsertNameSorted(s: seq<String>, x: String)
    requires NamesSorted(s)
    ensures NamesSorted(InsertName(s, x))
  {
    if |s| > 0 {
      var last := s[|s| - 1];
      var front := s[..|s| - 1];
      if NameLe(last, x) {
        forall i | 0 <= i < |s| ensures NameLe(s[i], x) {
          if i < |s| - 1 {
            NameLeTransitive(s[i], last, x);
          }
        }
      } else {
        NameLeTotal(last, x);
        InsertNameSorted(front, x);
        var mid := InsertName(front, x);
        forall y | y in mid ensures NameLe(y, last) {
          assert y in multiset(mid);
          if y != x {
            assert y in multiset(front);
            var i :| 0 <= i < |front| && front[i] == y;
          }
        }
        assert InsertName(s, x) == mid + [last];
      }
    }
  }

  /** `sorted(...)` of a directory listing. */
  function SortNames(s: seq<String>): (r: seq<String>)
    ensures NamesSorted(r) && multiset(r) == multiset(s) && |r| == |s|
  {
    if |s| == 0 then []
    else
      assert s == s[..|s| - 1] + [s[|s| - 1]];
      var front := SortNames(s[..|s| - 1]);
      InsertNameSorted(front, s[|s| - 1]);
      InsertName(front, s[|s| - 1])
  }

  /**
   * Backup retention in `_backup_data`: of the name-sorted backups all but
   * the last seven are deleted. Returns the deleted and the kept names.
   */
  function Retention(listing: seq<String>): (r: (seq<String>, seq<String>))
    ensures |r.1| == (if |listing| > BackupsKept then BackupsKept else |listing|)
    ensures multiset(r.0) + multiset(r.1) == multiset(listing)
  {
    var sorted := SortNames(listing);
    var cut := if |sorted| > BackupsKept then |sorted| - BackupsKept else 0;
    assert sorted == sorted[..cut] + sorted[cut..];
    (sorted[..cut], sorted[cut..])
  }

  /** No kept backup sorts before a deleted one: the seven kept are the newest by name. */
  lemma RetentionKeepsLatest(listing: seq<String>)
    ensures var r := Retention(listing);
      forall d, k :: d in r.0 && k in r.1 ==> NameLe(d, k)
  {
    var sorted := SortNames(listing);
    var r := Retention(listing);
    var cut := |r.0|;
    forall d, k | d in r.0 && k in r.1 ensures NameLe(d, k) {
      var i :| 0 <= i < |r.0| && r.0[i] == d;
      var j :| 0 <= j < |r.1| && r.1[j] == k;
      assert sorted[i] == d && sorted[cut + j] == k;
    }
  }

  /** Running retention again on what it kept deletes nothing more. */
  lemma RetentionIdempotent(listing: seq<String>)
    ensures Retention(Retention(listing).1).0 == []
  {
    var kept := Retention(listing).1;
    assert |kept| <= BackupsKept;
    var again := Retention(kept);
    assert |again.0| + |again.1| == |SortNames(kept)| == |kept|;
  }

  // ---------------------------------------------------------------- the scheduler

  /**
   * The state after `_add_group_schedule` carried out `plan` for the group:
   * with no jobs nothing changes; a start job alone replaces the group's
   * start job; both jobs replace both, record the group, and write the
   * current window status when both bounds parse as times.
   */
  ghost predicate Planned(groupId: int, plan: Plan, start: String, end: String, clock: T.TimeOfDay,
                          table0: map<int, GroupRow>, jobs0: map<String, GroupJob>, scheduled0: map<int, JobInfo>,
                          status0: map<int, String>, table: map<int, GroupRow>, jobs: map<String, GroupJob>,
                          scheduled: map<int, JobInfo>, status: map<int, String>)
  {
    match plan
    case NoJobs => jobs == jobs0 && scheduled == scheduled0 && table == table0 && status == status0
    case StartOnly(s) =>
      jobs == jobs0[StartJobId(groupId) := GroupJob(s.0, s.1, true, groupId)]
      && scheduled == scheduled0 && table == table0 && status == status0
    case BothJobs(s, e) =>
      jobs == jobs0[StartJobId(groupId) := GroupJob(s.0, s.1, true, groupId)][EndJobId(groupId) := GroupJob(e.0, e.1, false, groupId)]
      && scheduled == scheduled0[groupId := JobInfo(StartJobId(groupId), EndJobId(groupId), start, end)]
      && var w := WindowStatus(start, end, clock);
         (w.None? ==> table == table0 && status == status0)
         && (w.Some? ==> table == WithStatus(table0, groupId, w.value) && status == status0[groupId := w.value])
  }

  /** Job id `k` belongs to one of the groups `ids`. */
  predicate OwnedBy(k: String, ids: seq<int>)
  {
    exists g :: g in ids && (k == StartJobId(g) || k == EndJobId(g))
  }

  /**
   * Everything outside the groups `ids` is as it was: the other groups'
   * rows and recorded statuses, and every job that is not one of theirs.
   */
  ghost predicate OthersKept(ids: seq<int>, table0: map<int, GroupRow>, jobs0: map<String, GroupJob>, status0: map<int, String>,
                       table: map<int, GroupRow>, jobs: map<String, GroupJob>, status: map<int, String>)
  {
    (forall h :: h !in ids ==> (h in table <==> h in table0) && (h in table ==> table[h] == table0[h]))
    && (forall h :: h !in ids ==> (h in status <==> h in status0) && (h in status ==> status[h] == status0[h]))
    && (forall k :: !OwnedBy(k, ids) ==> (k in jobs <==> k in jobs0) && (k in jobs ==> jobs[k] == jobs0[k]))
  }

  class TaskScheduler {
    /** The `forwarding_groups` rows, by group id. */
    var table: map<int, GroupRow>
    /** The cron jobs of the job store, by job id. */
    var jobs: map<String, GroupJob>
    var scheduledJobs: map<int, JobInfo>
    /** The last status written for each group (`updated_at` is not modelled). */
    var jobStatus: map<int, String>
    var isRunning: bool

    /** Every scheduled group has its two jobs in the store under its own ids. */
    predicate Valid()
      reads this
    {
      Consistent(jobs, scheduledJobs)
    }

    constructor (table: map<int, GroupRow>)
      ensures Valid() && this.table == table
      ensures jobs == map[] && scheduledJobs == map[] && jobStatus == map[] && !isRunning
    {
      this.table := table;
      jobs := map[];
      scheduledJobs := map[];
      jobStatus := map[];
      isRunning := false;
    }

    /** `_update_group_status`: the row's status and the recorded status. */
    method UpdateGroupStatus(groupId: int, status: String)
      modifies this
      ensures table == WithStatus(old(table), groupId, status) && jobStatus == old(jobStatus)[groupId := status]
      ensures jobs == old(jobs) && scheduledJobs == old(scheduledJobs) && isRunning == old(isRunning)
    {
      table := WithStatus(table, groupId, status);
      jobStatus := jobStatus[groupId := status];
    }

    /** `_activate_group`, the start job's action. */
    method ActivateGroup(groupId: int)
      modifies this
      ensures table == WithStatus(old(table), groupId, "active") && jobStatus == old(jobStatus)[groupId := "active"]
      ensures jobs == old(jobs) && scheduledJobs == old(scheduledJobs) && isRunning == old(isRunning)
    {
      UpdateGroupStatus(groupId, "active");
    }

    /** `_deactivate_group`, the end job's action: the group goes back to `scheduled`. */
    method DeactivateGroup(groupId: int)
      modifies this
      ensures table == WithStatus(old(table), groupId, "scheduled") && jobStatus == old(jobStatus)[groupId := "scheduled"]
      ensures jobs == old(jobs) && scheduledJobs == old(scheduledJobs) && isRunning == old(isRunning)
    {
      UpdateGroupStatus(groupId, "scheduled");
    }

    /** `_check_current_schedule_status`: the status of the window now; nothing when a bound does not parse. */
    method CheckCurrentScheduleStatus(groupId: int, start: String, end: String, clock: T.TimeOfDay)
      modifies this
      ensures var w := WindowStatus(start, end, clock);
        (w.None? ==> table == old(table) && jobStatus == old(jobStatus))
        && (w.Some? ==> table == WithStatus(old(table), groupId, w.value) && jobStatus == old(jobStatus)[groupId := w.value])
      ensures jobs == old(jobs) && scheduledJobs == old(scheduledJobs) && isRunning == old(isRunning)
    {
      var s := T.FromIsoFormat(start);
      var e := T.FromIsoFormat(end);
      if s.None? || e.None? {
        return;
      }
      var status := if T.InWindow(clock, s.value, e.value) then "active" else "scheduled";
      UpdateGroupStatus(groupId, status);
    }

    /**
     * `_add_group_schedule`: both bounds must split into two integers, or
     * nothing happens. The start job is stored once its trigger accepts the
     * time, the end job likewise; only with both stored is the group
     * recorded in `scheduled_jobs` and its current status checked. An end
     * time the trigger refuses leaves the start job behind.
     */
    method AddGroupScheduleJobs(groupId: int, start: String, end: String, clock: T.TimeOfDay)
      requires Valid()
      modifies this
      ensures Valid() && isRunning == old(isRunning)
      ensures Planned(groupId, PlanOf(start, end), start, end, clock, old(table), old(jobs), old(scheduledJobs), old(jobStatus),
                      table, jobs, scheduledJobs, jobStatus)
    {
      StoreJobs(groupId, PlanOf(start, end), start, end, clock);
    }

    /** The stores of `_add_group_schedule` for a given plan. */
    method StoreJobs(groupId: int, plan: Plan, start: String, end: String, clock: T.TimeOfDay)
      requires Valid()
      modifies this
      ensures Valid() && isRunning == old(isRunning)
      ensures Planned(groupId, plan, start, end, clock, old(table), old(jobs), old(scheduledJobs), old(jobStatus),
                      table, jobs, scheduledJobs, jobStatus)
    {
      if plan.NoJobs? {
        return;
      }
      var startJob := GroupJob(plan.start.0, plan.start.1, true, groupId);
      StoreStartConsistent(jobs, scheduledJobs, groupId, startJob);
      jobs := jobs[StartJobId(groupId) := startJob];
      if plan.StartOnly? {
        return;
      }
      var endJob := GroupJob(plan.end.0, plan.end.1, false, groupId);
      StoreBothConsistent(old(jobs), scheduledJobs, groupId, startJob, endJob, start, end);
      jobs := jobs[EndJobId(groupId) := endJob];
      scheduledJobs := scheduledJobs[groupId := JobInfo(StartJobId(groupId), EndJobId(groupId), start, end)];
      CheckCurrentScheduleStatus(groupId, start, end, clock);
    }

    /**
     * `_remove_group_schedule`: an unscheduled group is left alone;
     * otherwise its two jobs leave the store and its entries leave
     * `scheduled_jobs` and `job_status`.
     */
    method RemoveGroupScheduleJobs(groupId: int)
      requires Valid()
      modifies this
      ensures Valid()
      ensures groupId !in old(scheduledJobs) ==>
        jobs == old(jobs) && scheduledJobs == old(scheduledJobs) && jobStatus == old(jobStatus)
      ensures groupId in old(scheduledJobs) ==>
        jobs == old(jobs) - {StartJobId(groupId), EndJobId(groupId)}
        && scheduledJobs == old(scheduledJobs) - {groupId} && jobStatus == old(jobStatus) - {groupId}
      ensures table == old(table) && isRunning == old(isRunning)
    {
      if groupId in scheduledJobs {
        var info := scheduledJobs[groupId];
        DropConsistent(jobs, scheduledJobs, groupId);
        if info.startJobId in jobs {
          jobs := jobs - {info.startJobId};
          jobs := jobs - {info.endJobId};
        }
        assert jobs == old(jobs) - {StartJobId(groupId), EndJobId(groupId)};
        scheduledJobs := scheduledJobs - {groupId};
        jobStatus := jobStatus - {groupId};
      }
    }

    /**
     * `add_group_schedule`: a bound `fromisoformat` refuses is an error with
     * nothing changed; otherwise the jobs are attempted, the row's schedule
     * is written, and success is reported whether or not jobs were made.
     */
    method AddGroupSchedule(groupId: int, start: String, end: String, clock: T.TimeOfDay) returns (ok: bool)
      requires Valid()
      modifies this
      ensures Valid()
      ensures ok <==> T.FromIsoFormat(start).Some? && T.FromIsoFormat(end).Some?
      ensures !ok ==> table == old(table) && jobs == old(jobs) && scheduledJobs == old(scheduledJobs) && jobStatus == old(jobStatus)
      ensures ok ==>
        (table.Keys == old(table.Keys)
         && (groupId in table ==> table[groupId].scheduleStart == start && table[groupId].scheduleEnd == end))
      ensures ok && !PlanOf(start, end).BothJobs? ==> scheduledJobs == old(scheduledJobs)
      ensures ok ==> exists mid ::
        Planned(groupId, PlanOf(start, end), start, end, clock, old(table), old(jobs), old(scheduledJobs), old(jobStatus),
                mid, jobs, scheduledJobs, jobStatus)
        && table == WithSchedule(mid, groupId, start, end)
      ensures isRunning == old(isRunning)
    {
      if T.FromIsoFormat(start).None? || T.FromIsoFormat(end).None? {
        return false;
      }
      AddGroupScheduleJobs(groupId, start, end, clock);
      ghost var mid := table;
      table := WithSchedule(table, groupId, start, end);
      ok := true;
    }

    /** `remove_group_schedule`: the jobs go and the row's schedule is cleared. */
    method RemoveGroupSchedule(groupId: int) returns (ok: bool)
      requires Valid()
      modifies this
      ensures Valid() && ok
      ensures groupId !in scheduledJobs && jobs.Keys == old(jobs.Keys) - (if groupId in old(scheduledJobs) then {StartJobId(groupId), EndJobId(groupId)} else {})
      ensures groupId !in old(scheduledJobs) ==>
        jobs == old(jobs) && scheduledJobs == old(scheduledJobs) && jobStatus == old(jobStatus)
      ensures groupId in old(scheduledJobs) ==>
        jobs == old(jobs) - {StartJobId(groupId), EndJobId(groupId)}
        && scheduledJobs == old(scheduledJobs) - {groupId} && jobStatus == old(jobStatus) - {groupId}
      ensures table == WithSchedule(old(table), groupId, "", "") && isRunning == old(isRunning)
    {
      RemoveGroupScheduleJobs(groupId);
      table := WithSchedule(table, groupId, "", "");
      ok := true;
    }

    /** One group of `_config_sync_task`. */
    method SyncGroup(g: int, clock: T.TimeOfDay)
      requires Valid() && g in table
      modifies this
      ensures Valid() && SameSchedules(old(table), table)
      ensures Synced(table, old(scheduledJobs), scheduledJobs, g)
      ensures forall h :: h != g ==> (h in scheduledJobs <==> h in old(scheduledJobs))
                                     && (h in scheduledJobs ==> scheduledJobs[h] == old(scheduledJobs)[h])
      ensures HasSchedule(old(table)[g]) && g !in old(scheduledJobs) ==>
        Planned(g, PlanOf(old(table)[g].scheduleStart, old(table)[g].scheduleEnd), old(table)[g].scheduleStart,
                old(table)[g].scheduleEnd, clock, old(table), old(jobs), old(scheduledJobs), old(jobStatus),
                table, jobs, scheduledJobs, jobStatus)
      ensures !HasSchedule(old(table)[g]) && g in old(scheduledJobs) ==>
        table == old(table) && jobs == old(jobs) - {StartJobId(g), EndJobId(g)}
        && scheduledJobs == old(scheduledJobs) - {g} && jobStatus == old(jobStatus) - {g}
      // a scheduled group with its jobs, or an unscheduled one without, is left alone
      ensures HasSchedule(old(table)[g]) == (g in old(scheduledJobs)) ==>
        table == old(table) && jobs == old(jobs) && scheduledJobs == old(scheduledJobs) && jobStatus == old(jobStatus)
      ensures OthersKept([g], old(table), old(jobs), old(jobStatus), table, jobs, jobStatus)
      ensures isRunning == old(isRunning)
    {
      var row := table[g];
      if HasSchedule(row) {
        if g !in scheduledJobs {
          var plan := PlanOf(row.scheduleStart, row.scheduleEnd);
          StoreJobs(g, plan, row.scheduleStart, row.scheduleEnd, clock);
          PlannedEntries(g, plan, row.scheduleStart, row.scheduleEnd, clock, old(table), old(jobs), old(scheduledJobs),
                         old(jobStatus), table, jobs, scheduledJobs, jobStatus);
          PlannedKeepsOthers(g, plan, row.scheduleStart, row.scheduleEnd, clock, old(table), old(jobs), old(scheduledJobs),
                             old(jobStatus), table, jobs, scheduledJobs, jobStatus);
        } else {
          OwnJobsOnly(g);
        }
      } else if g in scheduledJobs {
        RemoveGroupScheduleJobs(g);
        OwnJobsOnly(g);
      } else {
        OwnJobsOnly(g);
      }
    }

    /**
     * The state after syncing the groups `done`, starting from `table0`,
     * `jobs0`, `scheduled0` and `status0`: those groups are in line with
     * their rows and everything outside them is as it was.
     */
    ghost predicate SyncedSoFar(done: seq<int>, table0: map<int, GroupRow>, jobs0: map<String, GroupJob>,
                                scheduled0: map<int, JobInfo>, status0: map<int, String>)
      reads this
    {
      Valid() && SameSchedules(table0, table)
      && (forall g :: g in done ==> g in table && Synced(table, scheduled0, scheduledJobs, g))
      && (forall h :: h !in done ==> (h in scheduledJobs <==> h in scheduled0)
                                     && (h in scheduledJobs ==> scheduledJobs[h] == scheduled0[h]))
      && OthersKept(done, table0, jobs0, status0, table, jobs, jobStatus)
    }

    /** One round of `_config_sync_task`'s loop: group `g` joins the synced groups. */
    method SyncNext(done: seq<int>, g: int, clock: T.TimeOfDay, ghost table0: map<int, GroupRow>,
                    ghost jobs0: map<String, GroupJob>, ghost scheduled0: map<int, JobInfo>, ghost status0: map<int, String>)
      requires SyncedSoFar(done, table0, jobs0, scheduled0, status0) && g in table
      modifies this
      ensures SyncedSoFar(done + [g], table0, jobs0, scheduled0, status0) && isRunning == old(isRunning)
    {
      SyncGroup(g, clock);
      SyncAgain(table, scheduled0, old(scheduledJobs), scheduledJobs, done, g);
      KeptAgain(done, g, table0, jobs0, status0, old(table), old(jobs), old(jobStatus), table, jobs, jobStatus);
    }

    /**
     * `_config_sync_task` over the groups `ids` as read: every group is
     * brought in line with its row, and the other groups' rows, statuses,
     * jobs and entries are untouched.
     */
    method ConfigSync(ids: seq<int>, clock: T.TimeOfDay)
      requires Valid() && forall g :: g in ids ==> g in table
      modifies this
      ensures Valid() && SameSchedules(old(table), table)
      ensures forall g :: g in ids ==> Synced(table, old(scheduledJobs), scheduledJobs, g)
      ensures forall h :: h !in ids ==> (h in scheduledJobs <==> h in old(scheduledJobs))
                                        && (h in scheduledJobs ==> scheduledJobs[h] == old(scheduledJobs)[h])
      ensures OthersKept(ids, old(table), old(jobs), old(jobStatus), table, jobs, jobStatus)
      ensures isRunning == old(isRunning)
    {
      var i := 0;
      while i < |ids|
        invariant 0 <= i <= |ids|
        invariant SyncedSoFar(ids[..i], old(table), old(jobs), old(scheduledJobs), old(jobStatus))
        invariant isRunning == old(isRunning)
      {
        assert ids[..i + 1] == ids[..i] + [ids[i]];
        SyncNext(ids[..i], ids[i], clock, old(table), old(jobs), old(scheduledJobs), old(jobStatus));
        i := i + 1;
      }
      assert ids[..i] == ids;
    }

    /** `stop`: the bookkeeping is cleared. */
    method Stop()
      modifies this
      ensures Valid() && !isRunning && scheduledJobs == map[] && jobStatus == map[]
      ensures table == old(table) && jobs == old(jobs)
    {
      isRunning := false;
      scheduledJobs := map[];
      jobStatus := map[];
    }
  }

  /** The job ids of one group against every other group's. */
  lemma JobIdsDistinctAll(g: int)
    ensures forall h :: h != g ==> StartJobId(h) != StartJobId(g) && EndJobId(h) != EndJobId(g)
    ensures forall h :: StartJobId(h) != EndJobId(g) && EndJobId(h) != StartJobId(g)
  {
    forall h ensures (h != g ==> StartJobId(h) != StartJobId(g) && EndJobId(h) != EndJobId(g))
                     && StartJobId(h) != EndJobId(g) && EndJobId(h) != StartJobId(g) {
      JobIdsDistinct(h, g);
      JobIdsDistinct(g, h);
    }
  }

  /** What a plan does to `scheduled_jobs`: only the group's own entry can appear. */
  lemma PlannedEntries(groupId: int, plan: Plan, start: String, end: String, clock: T.TimeOfDay,
                       table0: map<int, GroupRow>, jobs0: map<String, GroupJob>, scheduled0: map<int, JobInfo>,
                       status0: map<int, String>, table: map<int, GroupRow>, jobs: map<String, GroupJob>,
                       scheduled: map<int, JobInfo>, status: map<int, String>)
    requires Planned(groupId, plan, start, end, clock, table0, jobs0, scheduled0, status0, table, jobs, scheduled, status)
    ensures groupId in scheduled <==> groupId in scheduled0 || plan.BothJobs?
    ensures groupId in scheduled0 && !plan.BothJobs? ==> scheduled[groupId] == scheduled0[groupId]
    ensures forall h :: h != groupId ==> (h in scheduled <==> h in scheduled0) && (h in scheduled ==> scheduled[h] == scheduled0[h])
    ensures SameSchedules(table0, table)
  {
  }

  /** The only jobs a group owns are its start and end jobs. */
  lemma OwnJobsOnly(g: int)
    ensures forall k :: OwnedBy(k, [g]) <==> k == StartJobId(g) || k == EndJobId(g)
  {
    forall k ensures OwnedBy(k, [g]) <==> k == StartJobId(g) || k == EndJobId(g) {
      if k == StartJobId(g) || k == EndJobId(g) {
        assert g in [g];
      }
    }
  }

  /** A plan carried out for `groupId` touches nothing outside that group. */
  lemma PlannedKeepsOthers(groupId: int, plan: Plan, start: String, end: String, clock: T.TimeOfDay,
                           table0: map<int, GroupRow>, jobs0: map<String, GroupJob>, scheduled0: map<int, JobInfo>,
                           status0: map<int, String>, table: map<int, GroupRow>, jobs: map<String, GroupJob>,
                           scheduled: map<int, JobInfo>, status: map<int, String>)
    requires Planned(groupId, plan, start, end, clock, table0, jobs0, scheduled0, status0, table, jobs, scheduled, status)
    ensures OthersKept([groupId], table0, jobs0, status0, table, jobs, status)
  {
    OwnJobsOnly(groupId);
  }

  /** Keeping the groups outside `done`, then those outside `[g]`, keeps those outside `done + [g]`. */
  lemma KeptAgain(done: seq<int>, g: int,
                  table0: map<int, GroupRow>, jobs0: map<String, GroupJob>, status0: map<int, String>,
                  table1: map<int, GroupRow>, jobs1: map<String, GroupJob>, status1: map<int, String>,
                  table: map<int, GroupRow>, jobs: map<String, GroupJob>, status: map<int, String>)
    requires OthersKept(done, table0, jobs0, status0, table1, jobs1, status1)
    requires OthersKept([g], table1, jobs1, status1, table, jobs, status)
    ensures OthersKept(done + [g], table0, jobs0, status0, table, jobs, status)
  {
    forall k | OwnedBy(k, done) || OwnedBy(k, [g])
      ensures OwnedBy(k, done + [g])
    {
      if OwnedBy(k, done) {
        var h :| h in done && (k == StartJobId(h) || k == EndJobId(h));
        assert h in done + [g];
      } else {
        assert g in done + [g];
      }
    }
  }

  /**
   * Syncing group `g` after the groups `done`: every group already synced
   * stays synced, a repeat of `g` included, and groups not yet visited keep
   * their entries.
   */
  lemma SyncAgain(table: map<int, GroupRow>, jobs0: map<int, JobInfo>, before: map<int, JobInfo>, after: map<int, JobInfo>,
                  done: seq<int>, g: int)
    requires g in table && forall h :: h in done ==> h in table
    requires forall h :: h in done ==> Synced(table, jobs0, before, h)
    requires forall h :: h !in done ==> (h in before <==> h in jobs0) && (h in before ==> before[h] == jobs0[h])
    requires Synced(table, before, after, g)
    requires forall h :: h != g ==> (h in after <==> h in before) && (h in after ==> after[h] == before[h])
    ensures forall h :: h in done + [g] ==> Synced(table, jobs0, after, h)
    ensures forall h :: h !in done + [g] ==> (h in after <==> h in jobs0) && (h in after ==> after[h] == jobs0[h])
  {
    forall h | h in done + [g] ensures Synced(table, jobs0, after, h) {
      if h != g {
        assert h in done;
      }
    }
  }
}
