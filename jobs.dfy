/** The background job registry: jobs with a status and progress counters, kept
    in a table in insertion order; creating a job when the table is full first
    evicts the older half of the finished jobs. The clock and the generated job
    id are parameters of the operations that use them. */
module Jobs {
  import opened Wrappers
  import opened Seqs
  import opened Models

  datatype JobStatus = Pending | Running | Completed | Failed | Cancelled {
    function Value(): string {
      match this
      case Pending => "pending"
      case Running => "running"
      case Completed => "completed"
      case Failed => "failed"
      case Cancelled => "cancelled"
    }

    /** The statuses the cleanup may evict. */
    predicate IsTerminal() { this == Completed || this == Failed || this == Cancelled }
  }

  datatype JobProgress = JobProgress(current: int, total: int, successful: int, errors: int, message: string)

  const NoProgress := JobProgress(0, 0, 0, 0, "")

  /** The `percentage` property: 0 for a zero total, else `current / total * 100`. */
  function Percentage(p: JobProgress): (r: real)
    ensures p.total == 0 ==> r == 0.0
    ensures p.total != 0 ==> r * (p.total as real) == (p.current as real) * 100.0
    ensures 0 <= p.current <= p.total ==> 0.0 <= r <= 100.0
  {
    if p.total == 0 then 0.0
    else
      var r := (p.current as real) / (p.total as real) * 100.0;
      assert 0 <= p.current <= p.total ==> r <= 100.0 by {
        if 0 <= p.current <= p.total {
          assert (p.current as real) / (p.total as real) <= 1.0;
        }
      }
      r
  }

  /** The observable state of one job. */
  datatype JobRecord = JobRecord(
    id: string,
    jobType: string,
    status: JobStatus,
    progress: JobProgress,
    result: Json,
    error: Option<string>,
    createdAt: Timestamp,
    startedAt: Option<Timestamp>,
    completedAt: Option<Timestamp>)

  function RecId(r: JobRecord): string { r.id }

  /** A job as `Job(id=..., type=...)` constructs it. */
  function NewRecord(id: string, jobType: string, now: Timestamp): JobRecord {
    JobRecord(id, jobType, Pending, NoProgress, JNull, None, now, None, None)
  }

  /** The state changes the manager applies to one job. */
  datatype JobOp =
    | SetProgress(current: Option<int>, total: Option<int>, successful: Option<int>,
                  errors: Option<int>, message: Option<string>)
    | Start(now: Timestamp)
    | Complete(res: Json, now: Timestamp)
    | Fail(err: string, now: Timestamp)
    | Cancel(now: Timestamp)

  function Step(r: JobRecord, op: JobOp): JobRecord {
    match op
    case SetProgress(c, t, s, e, m) =>
      var p := r.progress;
      r.(progress := JobProgress(c.GetOr(p.current), t.GetOr(p.total), s.GetOr(p.successful),
                                 e.GetOr(p.errors), m.GetOr(p.message)))
    case Start(now) => r.(status := Running, startedAt := Some(now))
    case Complete(res, now) => r.(status := Completed, completedAt := Some(now), result := res)
    case Fail(err, now) => r.(status := Failed, completedAt := Some(now), error := Some(err))
    case Cancel(now) =>
      if r.status == Pending || r.status == Running then r.(status := Cancelled, completedAt := Some(now))
      else r
  }

  /** Applies `op` to the job with the given id, if there is one. */
  function Apply(recs: seq<JobRecord>, id: string, op: JobOp): (r: seq<JobRecord>)
    ensures |r| == |recs|
  {
    seq(|recs|, i requires 0 <= i < |recs| => if recs[i].id == id then Step(recs[i], op) else recs[i])
  }

  /** A job is stamped when its being finished implies it has a completion time. */
  predicate Stamped(r: JobRecord) { r.status.IsTerminal() ==> r.completedAt.Some? }

  /** `update_progress` changes exactly the supplied counters and nothing else. */
  lemma ProgressChangesOnlySupplied(r: JobRecord, c: Option<int>, t: Option<int>, s: Option<int>,
                                    e: Option<int>, m: Option<string>)
    ensures var q := Step(r, SetProgress(c, t, s, e, m));
      q.(progress := r.progress) == r
      && (q.progress.current == r.progress.current <== c.None?)
      && (c.Some? ==> q.progress.current == c.value)
      && (q.progress.total == r.progress.total <== t.None?)
      && (t.Some? ==> q.progress.total == t.value)
      && (q.progress.successful == r.progress.successful <== s.None?)
      && (s.Some? ==> q.progress.successful == s.value)
      && (q.progress.errors == r.progress.errors <== e.None?)
      && (e.Some? ==> q.progress.errors == e.value)
      && (q.progress.message == r.progress.message <== m.None?)
      && (m.Some? ==> q.progress.message == m.value)
  {
  }

  /** `cancel_job` cancels exactly the pending and running jobs and leaves any
      other job as it was. */
  lemma CancelOnlyActive(r: JobRecord, now: Timestamp)
    ensures Step(r, Cancel(now)).status == Cancelled <==> r.status in {Pending, Running, Cancelled}
    ensures r.status in {Pending, Running} ==> Step(r, Cancel(now)).completedAt == Some(now)
    ensures r.status !in {Pending, Running} ==> Step(r, Cancel(now)) == r
  {
  }

  /** `complete_job` and `fail_job` have no guard: from any status they finish
      the job; `start_job` has none either, so even a finished job can be
      restarted. */
  lemma FinishFromAnyStatus(r: JobRecord, res: Json, err: string, now: Timestamp)
    ensures Step(r, Complete(res, now)).status == Completed && Step(r, Complete(res, now)).result == res
    ensures Step(r, Fail(err, now)).status == Failed && Step(r, Fail(err, now)).error == Some(err)
    ensures Step(r, Start(now)).status == Running
  {
  }

  /** Every operation keeps a job stamped, so a finished job created through the
      manager always has a completion time, and the cleanup's fallback to the
      creation time is never taken for such jobs. */
  lemma StepKeepsStamped(r: JobRecord, op: JobOp)
    requires Stamped(r)
    ensures Stamped(Step(r, op))
    ensures Step(r, op).id == r.id && Step(r, op).jobType == r.jobType && Step(r, op).createdAt == r.createdAt
  {
  }

  /** Applying an operation touches at most the job with that id and keeps every id. */
  lemma ApplyFrame(recs: seq<JobRecord>, id: string, op: JobOp)
    ensures forall i :: 0 <= i < |recs| ==> Apply(recs, id, op)[i].id == recs[i].id
    ensures forall i :: 0 <= i < |recs| && recs[i].id != id ==> Apply(recs, id, op)[i] == recs[i]
    ensures (forall i :: 0 <= i < |recs| ==> recs[i].id != id) ==> Apply(recs, id, op) == recs
    ensures KeysDistinct(recs, RecId) ==> KeysDistinct(Apply(recs, id, op), RecId)
  {
    var r := Apply(recs, id, op);
    assert forall i :: 0 <= i < |recs| ==> RecId(r[i]) == RecId(recs[i]);
  }

  // ----------------------------------------------------------------- cleanup

  /** `completed_at or created_at`: a datetime is always truthy. */
  function CleanupKey(r: JobRecord): real {
    (if r.completedAt.Some? then r.completedAt.value else r.createdAt) as real
  }

  predicate IsTerminalRecord(r: JobRecord) { r.status.IsTerminal() }

  function Terminal(recs: seq<JobRecord>): seq<JobRecord> { Filter(recs, IsTerminalRecord) }

  /** The finished jobs oldest first, stable for equal keys, and the first half of them. */
  function Victims(recs: seq<JobRecord>): seq<JobRecord> {
    var sorted := SortBy(Terminal(recs), CleanupKey);
    sorted[..|sorted| / 2]
  }

  /** The records whose id is not in `ids`, in order. */
  function Without(recs: seq<JobRecord>, ids: set<string>): (r: seq<JobRecord>)
    ensures |r| <= |recs|
    ensures forall x | x in r :: x in recs && x.id !in ids
    ensures forall x | x in recs && x.id !in ids :: x in r
  {
    if recs == [] then []
    else (if recs[0].id in ids then [] else [recs[0]]) + Without(recs[1..], ids)
  }

  ghost function AfterCleanup(recs: seq<JobRecord>): seq<JobRecord> {
    Without(recs, KeySet(Victims(recs), RecId))
  }

  lemma {:induction false} WithoutSize(recs: seq<JobRecord>, ids: set<string>)
    requires KeysDistinct(recs, RecId)
    ensures |Without(recs, ids)| == |recs| - |ids * KeySet(recs, RecId)|
  {
    if recs != [] {
      var t := recs[1..];
      KeysDistinctCons(recs, RecId);
      KeySetCons(recs, RecId);
      WithoutSize(t, ids);
      if recs[0].id in ids {
        assert ids * KeySet(recs, RecId) == {recs[0].id} + ids * KeySet(t, RecId);
      } else {
        assert ids * KeySet(recs, RecId) == ids * KeySet(t, RecId);
      }
    }
  }

  /** The victims are finished jobs of the table, with distinct ids. */
  lemma VictimsFacts(recs: seq<JobRecord>)
    requires KeysDistinct(recs, RecId)
    ensures forall v | v in Victims(recs) :: v in recs && v.status.IsTerminal()
    ensures |Victims(recs)| == |Terminal(recs)| / 2
    ensures KeysDistinct(Victims(recs), RecId)
    ensures |KeySet(Victims(recs), RecId)| == |Terminal(recs)| / 2
  {
    var sorted := SortBy(Terminal(recs), CleanupKey);
    KeysDistinctFilter(recs, IsTerminalRecord, RecId);
    KeysDistinctPermutation(Terminal(recs), sorted, RecId);
    var v := Victims(recs);
    assert forall x | x in v :: x in sorted;
    KeySetSize(v, RecId);
  }

  /** A record of a table with distinct ids whose id is a victim's id is that victim. */
  lemma VictimById(recs: seq<JobRecord>, r: JobRecord)
    requires KeysDistinct(recs, RecId)
    requires r in recs && r.id in KeySet(Victims(recs), RecId)
    ensures r in Victims(recs)
  {
    VictimsFacts(recs);
    var v :| v in Victims(recs) && RecId(v) == r.id;
    var i :| 0 <= i < |recs| && recs[i] == r;
    var j :| 0 <= j < |recs| && recs[j] == v;
    assert RecId(recs[i]) == RecId(recs[j]);
  }

  /** `_cleanup_old_jobs` removes exactly half (rounded down) of the k finished
      jobs and keeps every pending or running one. */
  lemma CleanupRemovesHalf(recs: seq<JobRecord>)
    requires KeysDistinct(recs, RecId)
    ensures |AfterCleanup(recs)| == |recs| - |Terminal(recs)| / 2
    ensures forall r | r in recs && !r.status.IsTerminal() :: r in AfterCleanup(recs)
    ensures forall r | r in recs && r !in AfterCleanup(recs) :: r.status.IsTerminal()
  {
    var ids := KeySet(Victims(recs), RecId);
    VictimsFacts(recs);
    assert ids <= KeySet(recs, RecId);
    assert ids * KeySet(recs, RecId) == ids;
    WithoutSize(recs, ids);
    forall r | r in recs && r !in AfterCleanup(recs) ensures r.status.IsTerminal() {
      VictimById(recs, r);
    }
  }

  /** The evicted jobs are the oldest finished ones: none of them is newer, by
      `completed_at or created_at`, than a finished job that stays. */
  lemma CleanupEvictsOldest(recs: seq<JobRecord>)
    requires KeysDistinct(recs, RecId)
    ensures forall v, r | v in Victims(recs) && r in AfterCleanup(recs) && r.status.IsTerminal() ::
      CleanupKey(v) <= CleanupKey(r)
    ensures forall v | v in Victims(recs) :: v !in AfterCleanup(recs)
  {
    forall v, r | v in Victims(recs) && r in AfterCleanup(recs) && r.status.IsTerminal()
      ensures CleanupKey(v) <= CleanupKey(r)
    {
      VictimNotNewer(recs, v, r);
    }
    forall v | v in Victims(recs) ensures v !in AfterCleanup(recs) {
      assert RecId(v) in KeySet(Victims(recs), RecId);
    }
  }

  lemma VictimNotNewer(recs: seq<JobRecord>, v: JobRecord, r: JobRecord)
    requires v in Victims(recs) && r in AfterCleanup(recs) && r.status.IsTerminal()
    ensures CleanupKey(v) <= CleanupKey(r)
  {
    var sorted := SortBy(Terminal(recs), CleanupKey);
    var h := |sorted| / 2;
    var ids := KeySet(Victims(recs), RecId);
    assert r in recs && r.id !in ids;
    assert r in Terminal(recs);
    assert r in sorted;
    var a :| 0 <= a < h && sorted[a] == v;
    var b :| 0 <= b < |sorted| && sorted[b] == r;
    assert r !in Victims(recs);
    assert forall i :: 0 <= i < h ==> Victims(recs)[i] == sorted[i];
    assert b >= h;
  }

  /** `self.jobs[job_id] = job`: replaces the entry with that id in place, or appends. */
  function Put(recs: seq<JobRecord>, rec: JobRecord): (r: seq<JobRecord>)
    ensures rec in r
  {
    match IndexOf(recs, RecId, rec.id)
    case Some(k) => assert recs[k := rec][k] == rec; recs[k := rec]
    case None => recs + [rec]
  }

  /** The table after `create_job`: cleanup when the table has reached
      `max_jobs`, then the new job stored under its id. */
  ghost function AfterCreate(recs: seq<JobRecord>, maxJobs: int, rec: JobRecord): seq<JobRecord> {
    Put(if |recs| >= maxJobs then AfterCleanup(recs) else recs, rec)
  }

  /** With a fresh id, `create_job` adds the new job, keeps every pending or
      running job, and changes the table size by one minus the evicted half. */
  lemma CreateKeepsActive(recs: seq<JobRecord>, maxJobs: int, rec: JobRecord)
    requires KeysDistinct(recs, RecId)
    requires forall r | r in recs :: r.id != rec.id
    ensures rec in AfterCreate(recs, maxJobs, rec)
    ensures forall r | r in recs && !r.status.IsTerminal() :: r in AfterCreate(recs, maxJobs, rec)
    ensures |recs| < maxJobs ==> AfterCreate(recs, maxJobs, rec) == recs + [rec]
    ensures |recs| >= maxJobs ==> |AfterCreate(recs, maxJobs, rec)| == |recs| - |Terminal(recs)| / 2 + 1
  {
    CleanupRemovesHalf(recs);
    var kept := if |recs| >= maxJobs then AfterCleanup(recs) else recs;
    assert forall i :: 0 <= i < |kept| ==> kept[i] in kept;
    assert IndexOf(kept, RecId, rec.id).None?;
  }

  /** A colliding id replaces the earlier job in place: `create_job` relies on the
      shortened uuid being unused. */
  lemma CreateCollisionReplaces(recs: seq<JobRecord>, maxJobs: int, rec: JobRecord, k: nat)
    requires |recs| < maxJobs && k < |recs| && recs[k].id == rec.id
    requires KeysDistinct(recs, RecId)
    ensures AfterCreate(recs, maxJobs, rec) == recs[k := rec]
  {
    var i := IndexOf(recs, RecId, rec.id).value;
    if i != k {
      assert false;
    }
  }

  // -------------------------------------------------------------- the objects

  class Job {
    const id: string
    const jobType: string
    const createdAt: Timestamp
    var status: JobStatus
    var progress: JobProgress
    var result: Json
    var error: Option<string>
    var startedAt: Option<Timestamp>
    var completedAt: Option<Timestamp>

    constructor (id: string, jobType: string, now: Timestamp)
      ensures Snapshot() == NewRecord(id, jobType, now)
    {
      this.id := id;
      this.jobType := jobType;
      this.createdAt := now;
      status := Pending;
      progress := NoProgress;
      result := JNull;
      error := None;
      startedAt := None;
      completedAt := None;
    }

    function Snapshot(): JobRecord
      reads this
    {
      JobRecord(id, jobType, status, progress, result, error, createdAt, startedAt, completedAt)
    }
  }

  function JobId(j: Job): string { j.id }

  function NegCreatedAt(j: Job): real { -(j.createdAt as real) }

  function Snapshots(js: seq<Job>): (r: seq<JobRecord>)
    reads js
    ensures |r| == |js|
    ensures forall i :: 0 <= i < |js| ==> r[i] == js[i].Snapshot()
  {
    seq(|js|, i reads js requires 0 <= i < |js| => js[i].Snapshot())
  }

  class JobManager {
    /** The `jobs` dictionary as its values in insertion order; each key is its job's id. */
    var jobs: seq<Job>
    const maxJobs: int

    ghost predicate Valid()
      reads this
    {
      KeysDistinct(jobs, JobId)
    }

    function Records(): seq<JobRecord>
      reads this, jobs
    {
      Snapshots(jobs)
    }

    lemma RecordsDistinct()
      requires Valid()
      ensures KeysDistinct(Records(), RecId)
    {
    }

    constructor (maxJobs: int)
      ensures Valid() && Records() == [] && this.maxJobs == maxJobs
    {
      jobs := [];
      this.maxJobs := maxJobs;
    }

    /** `get_job`: the job stored under the id, or None. */
    function GetJob(id: string): (r: Option<Job>)
      reads this
      requires Valid()
      ensures r.Some? ==> r.value in jobs && r.value.id == id
      ensures r.None? <==> forall j | j in jobs :: j.id != id
    {
      match IndexOf(jobs, JobId, id)
      case Some(k) => Some(jobs[k])
      case None => None
    }

    /** `list_jobs`: the jobs of the given type (all of them when the type is
        None or empty), newest first; equal creation times keep table order. */
    function ListJobs(jobType: Option<string>): (r: seq<Job>)
      reads this
      ensures forall j | j in r :: j in jobs && (jobType.Some? && jobType.value != "" ==> j.jobType == jobType.value)
      ensures forall j | j in jobs && (jobType.None? || jobType.value == "" || j.jobType == jobType.value) :: j in r
      ensures forall i, k :: 0 <= i < k < |r| ==> r[i].createdAt >= r[k].createdAt
      ensures jobType.None? || jobType.value == "" ==> multiset(r) == multiset(jobs)
      ensures jobType.Some? && jobType.value != "" ==>
                multiset(r) == multiset(Filter(jobs, (j: Job) => j.jobType == jobType.value))
    ensures var js := if jobType.Some? && jobType.value != "" then Filter(jobs, (j: Job) => j.jobType == jobType.value) else jobs;
            forall v :: Filter(r, KeyIs(NegCreatedAt, v)) == Filter(js, KeyIs(NegCreatedAt, v))
    {
      var js := if jobType.Some? && jobType.value != "" then Filter(jobs, (j: Job) => j.jobType == jobType.value) else jobs;
      var r := SortBy(js, NegCreatedAt);
      assert forall i, k :: 0 <= i < k < |r| ==> NegCreatedAt(r[i]) <= NegCreatedAt(r[k]);
      forall v ensures Filter(r, KeyIs(NegCreatedAt, v)) == Filter(js, KeyIs(NegCreatedAt, v)) {
        SortStable(js, NegCreatedAt, v);
      }
      r
    }

    /** The position of the job stored under `id`. */
    function Find(id: string): (k: Option<nat>)
      reads this
      ensures k.Some? ==> k.value < |jobs| && jobs[k.value].id == id
      ensures k.None? ==> forall i :: 0 <= i < |jobs| ==> jobs[i].id != id
    {
      IndexOf(jobs, JobId, id)
    }

    /** `update_progress`: sets the supplied counters of the job; an unknown id changes nothing. */
    method UpdateProgress(id: string, current: Option<int>, total: Option<int>, successful: Option<int>,
                          errors: Option<int>, message: Option<string>)
      requires Valid()
      modifies jobs
      ensures Valid()
      ensures Records() == Apply(old(Records()), id, SetProgress(current, total, successful, errors, message))
    {
      var k := Find(id);
      OnlyAt(k);
      if k.None? {
        ApplyFrame(Records(), id, SetProgress(current, total, successful, errors, message));
        return;
      }
      var job := jobs[k.value];
      ghost var op := SetProgress(current, total, successful, errors, message);
      ghost var before := job.Snapshot();
      var p := job.progress;
      if current.Some? { p := p.(current := current.value); }
      if total.Some? { p := p.(total := total.value); }
      if successful.Some? { p := p.(successful := successful.value); }
      if errors.Some? { p := p.(errors := errors.value); }
      if message.Some? { p := p.(message := message.value); }
      job.progress := p;
      assert job.Snapshot() == Step(before, op);
      OnlyOneChanged(k.value);
      ApplyAt(old(Records()), k.value, op);
    }

    /** `start_job`: marks the job running and records the start time; no guard on the prior status. */
    method StartJob(id: string, now: Timestamp)
      requires Valid()
      modifies jobs
      ensures Valid()
      ensures Records() == Apply(old(Records()), id, Start(now))
    {
      var k := Find(id);
      OnlyAt(k);
      if k.Some? {
        var job := jobs[k.value];
        job.status := Running;
        job.startedAt := Some(now);
        OnlyOneChanged(k.value);
        ApplyAt(old(Records()), k.value, Start(now));
      } else {
        ApplyFrame(Records(), id, Start(now));
      }
    }

    /** `complete_job`: marks the job completed and stores the result, whatever its status. */
    method CompleteJob(id: string, res: Json, now: Timestamp)
      requires Valid()
      modifies jobs
      ensures Valid()
      ensures Records() == Apply(old(Records()), id, Complete(res, now))
    {
      var k := Find(id);
      OnlyAt(k);
      if k.Some? {
        var job := jobs[k.value];
        job.status := Completed;
        job.completedAt := Some(now);
        job.result := res;
        OnlyOneChanged(k.value);
        ApplyAt(old(Records()), k.value, Complete(res, now));
      } else {
        ApplyFrame(Records(), id, Complete(res, now));
      }
    }

    /** `fail_job`: marks the job failed and stores the error, whatever its status. */
    method FailJob(id: string, err: string, now: Timestamp)
      requires Valid()
      modifies jobs
      ensures Valid()
      ensures Records() == Apply(old(Records()), id, Fail(err, now))
    {
      var k := Find(id);
      OnlyAt(k);
      if k.Some? {
        var job := jobs[k.value];
        job.status := Failed;
        job.completedAt := Some(now);
        job.error := Some(err);
        OnlyOneChanged(k.value);
        ApplyAt(old(Records()), k.value, Fail(err, now));
      } else {
        ApplyFrame(Records(), id, Fail(err, now));
      }
    }

    /** `cancel_job`: true exactly when the job exists and was pending or running. */
    method CancelJob(id: string, now: Timestamp) returns (cancelled: bool)
      requires Valid()
      modifies jobs
      ensures Valid()
      ensures cancelled <==> exists i :: 0 <= i < |old(Records())| && old(Records())[i].id == id
                                         && old(Records())[i].status in {Pending, Running}
      ensures Records() == Apply(old(Records()), id, Cancel(now))
    {
      var k := Find(id);
      OnlyAt(k);
      CancelGuard(id);
      if k.Some? && (jobs[k.value].status == Pending || jobs[k.value].status == Running) {
        var job := jobs[k.value];
        job.status := Cancelled;
        job.completedAt := Some(now);
        OnlyOneChanged(k.value);
        ApplyAt(old(Records()), k.value, Cancel(now));
        cancelled := true;
      } else {
        ApplyFrame(Records(), id, Cancel(now));
        if k.Some? {
          ApplyAt(Records(), k.value, Cancel(now));
        }
        cancelled := false;
      }
    }

    /** The guard of `cancel_job`, read on the job found under `id`, is a statement
        about the records: some record with that id is pending or running. */
    lemma CancelGuard(id: string)
      requires Valid()
      ensures (Find(id).Some? && jobs[Find(id).value].status in {Pending, Running})
              <==> exists i :: 0 <= i < |Records()| && Records()[i].id == id && Records()[i].status in {Pending, Running}
    {
      var k := Find(id);
      OnlyAt(k);
      if k.Some? {
        assert Records()[k.value].id == id;
      }
    }

    /** The job under an id is the only one with that id. */
    lemma OnlyAt(k: Option<nat>)
      requires Valid() && (k.Some? ==> k.value < |jobs|)
      ensures k.Some? ==> forall i :: 0 <= i < |jobs| && i != k.value ==> jobs[i] != jobs[k.value] && Records()[i].id != jobs[k.value].id
    {
      if k.Some? {
        forall i | 0 <= i < |jobs| && i != k.value ensures JobId(jobs[i]) != JobId(jobs[k.value]) {
        }
      }
    }

    /** Only `jobs[k]` differs from the old state: the records differ only at `k`. */
    twostate lemma OnlyOneChanged(k: nat)
      requires old(Valid()) && unchanged(this) && k < |jobs|
      requires forall i :: 0 <= i < |jobs| && i != k ==> unchanged(jobs[i])
      ensures Valid()
      ensures Records() == old(Records())[k := jobs[k].Snapshot()]
    {
      forall i | 0 <= i < |jobs| ensures Records()[i] == old(Records())[k := jobs[k].Snapshot()][i] {
      }
    }

    /** `del self.jobs[id]` for an id that is present. */
    method Delete(id: string)
      requires Valid() && Find(id).Some?
      modifies this
      ensures Valid()
      ensures Records() == Without(old(Records()), {id})
    {
      var k := Find(id).value;
      ghost var before := Records();
      RecordsDistinct();
      WithoutOne(before, k, id);
      ghost var js := jobs;
      KeysDistinctSplice(jobs, k, JobId);
      jobs := jobs[..k] + jobs[k + 1..];
      SnapshotsUnchanged(js);
      SnapshotsSplice(js, k);
    }

    lemma FindPresent(r: JobRecord)
      requires r in Records()
      ensures Find(r.id).Some?
    {
      var m :| 0 <= m < |Records()| && Records()[m] == r;
      assert jobs[m].id == r.id;
    }

    /** `_cleanup_old_jobs`: deletes the older half of the finished jobs, one by one. */
    method CleanupOldJobs()
      requires Valid()
      modifies this
      ensures Valid()
      ensures Records() == AfterCleanup(old(Records()))
    {
      var recs := Records();
      var victims := Victims(recs);
      RecordsDistinct();
      VictimsFacts(recs);
      WithoutNothing(recs);
      assert KeySet(victims[..0], RecId) == {};
      var i := 0;
      while i < |victims|
        invariant 0 <= i <= |victims|
        invariant Valid()
        invariant Records() == Without(recs, KeySet(victims[..i], RecId))
      {
        var id := victims[i].id;
        NextVictimPresent(recs, victims, i);
        FindPresent(victims[i]);
        Delete(id);
        WithoutTwice(recs, KeySet(victims[..i], RecId), id);
        KeySetSnoc(victims, i, RecId);
        i := i + 1;
      }
      assert victims[..|victims|] == victims;
    }

    /** `self.jobs[job.id] = job`. */
    method Store(job: Job)
      requires Valid()
      modifies this
      ensures Valid()
      ensures Records() == Put(old(Records()), job.Snapshot())
    {
      var js := jobs;
      ghost var kept := Records();
      ghost var rec := job.Snapshot();
      var k := Find(job.id);
      IndexOfSame(js, kept, job.id);
      label Kept:
      match k {
        case Some(i) =>
          jobs := jobs[i := job];
          SnapshotsUnchanged@Kept(js);
          SnapshotsUpdate(js, i, job);
          KeysDistinctUpdate(js, i, job, JobId);
          assert Snapshots(js) == kept && job.Snapshot() == rec;
        case None =>
          jobs := jobs + [job];
          SnapshotsUnchanged@Kept(js);
          SnapshotsAppend(js, job);
          KeysDistinctAppend(js, job, JobId);
          assert Snapshots(js) == kept && job.Snapshot() == rec;
      }
    }

    /** `create_job`: a pending job under `newId`, created at `now`, after a
        cleanup when the table has reached `max_jobs`. */
    method CreateJob(newId: string, jobType: string, now: Timestamp) returns (job: Job)
      requires Valid()
      modifies this
      ensures Valid() && fresh(job)
      ensures job.Snapshot() == NewRecord(newId, jobType, now)
      ensures Records() == AfterCreate(old(Records()), maxJobs, NewRecord(newId, jobType, now))
    {
      job := new Job(newId, jobType, now);
      assert Records() == old(Records());
      if |jobs| >= maxJobs {
        CleanupOldJobs();
      }
      Store(job);
    }
  }

  lemma SnapshotsUpdate(js: seq<Job>, i: nat, j: Job)
    requires i < |js|
    ensures Snapshots(js[i := j]) == Snapshots(js)[i := j.Snapshot()]
  {
    var l, r := Snapshots(js[i := j]), Snapshots(js)[i := j.Snapshot()];
    forall m | 0 <= m < |l| ensures l[m] == r[m] {
    }
  }

  lemma SnapshotsAppend(js: seq<Job>, j: Job)
    ensures Snapshots(js + [j]) == Snapshots(js) + [j.Snapshot()]
  {
    var l, r := Snapshots(js + [j]), Snapshots(js) + [j.Snapshot()];
    forall m | 0 <= m < |l| ensures l[m] == r[m] {
      if m < |js| { assert (js + [j])[m] == js[m]; }
    }
  }

  /** With distinct ids, applying `op` by id changes exactly position `k`. */
  lemma ApplyAt(recs: seq<JobRecord>, k: nat, op: JobOp)
    requires k < |recs| && KeysDistinct(recs, RecId)
    ensures Apply(recs, recs[k].id, op) == recs[k := Step(recs[k], op)]
  {
    forall i | 0 <= i < |recs| ensures Apply(recs, recs[k].id, op)[i] == recs[k := Step(recs[k], op)][i] {
      if i != k { assert RecId(recs[i]) != RecId(recs[k]); }
    }
  }

  twostate lemma SnapshotsUnchanged(js: seq<Job>)
    requires forall i :: 0 <= i < |js| ==> unchanged(js[i])
    ensures Snapshots(js) == old(Snapshots(js))
  {
  }

  lemma SnapshotsSplice(js: seq<Job>, k: nat)
    requires k < |js|
    ensures Snapshots(js[..k] + js[k + 1..]) == Snapshots(js)[..k] + Snapshots(js)[k + 1..]
  {
    var l, r := Snapshots(js[..k] + js[k + 1..]), Snapshots(js)[..k] + Snapshots(js)[k + 1..];
    forall i | 0 <= i < |l| ensures l[i] == r[i] {
      SnapshotsSpliceAt(js, k, i);
    }
  }

  lemma SnapshotsSpliceAt(js: seq<Job>, k: nat, i: nat)
    requires k < |js| && i < |js| - 1
    ensures Snapshots(js[..k] + js[k + 1..])[i] == (Snapshots(js)[..k] + Snapshots(js)[k + 1..])[i]
  {
    var ks := js[..k] + js[k + 1..];
    var all := Snapshots(js);
    var m := if i < k then i else i + 1;
    assert ks[i] == js[m];
    assert (all[..k] + all[k + 1..])[i] == all[m];
  }

  /** While the cleanup loop runs, the next victim is still in the table. */
  lemma NextVictimPresent(recs: seq<JobRecord>, victims: seq<JobRecord>, i: nat)
    requires KeysDistinct(victims, RecId) && i < |victims|
    requires forall v | v in victims :: v in recs
    ensures victims[i] in Without(recs, KeySet(victims[..i], RecId))
  {
    var v := victims[i];
    assert v.id !in KeySet(victims[..i], RecId);
    assert v in Without(recs, KeySet(victims[..i], RecId));
  }

  lemma IndexOfSame(js: seq<Job>, recs: seq<JobRecord>, id: string)
    requires |js| == |recs| && forall i :: 0 <= i < |js| ==> recs[i].id == js[i].id
    ensures IndexOf(recs, RecId, id) == IndexOf(js, JobId, id)
  {
    if js != [] {
      IndexOfSame(js[1..], recs[1..], id);
    }
  }

  lemma {:induction false} WithoutOne(recs: seq<JobRecord>, k: nat, id: string)
    requires k < |recs| && recs[k].id == id
    requires KeysDistinct(recs, RecId)
    ensures Without(recs, {id}) == recs[..k] + recs[k + 1..]
  {
    if k == 0 {
      WithoutNone(recs[1..], id);
      assert recs[1..] == recs[..0] + recs[1..];
    } else {
      var t := recs[1..];
      KeysDistinctCons(recs, RecId);
      assert RecId(recs[0]) != RecId(recs[k]);
      WithoutOne(t, k - 1, id);
      SpliceCons(recs, k);
      assert Without(recs, {id}) == [recs[0]] + Without(t, {id});
    }
  }

  /** Removing position `k > 0` keeps the head and removes position `k - 1` of the tail. */
  lemma SpliceCons<T>(s: seq<T>, k: nat)
    requires 0 < k < |s|
    ensures s[..k] + s[k + 1..] == [s[0]] + (s[1..][..k - 1] + s[1..][k..])
  {
    assert s[1..][..k - 1] == s[1..k] && s[1..][k..] == s[k + 1..];
    assert s[..k] == [s[0]] + s[1..k];
  }

  lemma {:induction false} WithoutNothing(recs: seq<JobRecord>)
    ensures Without(recs, {}) == recs
  {
    if recs != [] {
      WithoutNothing(recs[1..]);
    }
  }

  lemma {:induction false} WithoutNone(recs: seq<JobRecord>, id: string)
    requires forall i :: 0 <= i < |recs| ==> RecId(recs[i]) != id
    ensures Without(recs, {id}) == recs
  {
    if recs != [] {
      WithoutNone(recs[1..], id);
    }
  }

  lemma {:induction false} WithoutTwice(recs: seq<JobRecord>, ids: set<string>, id: string)
    ensures Without(Without(recs, ids), {id}) == Without(recs, ids + {id})
  {
    if recs != [] {
      var t := recs[1..];
      WithoutTwice(t, ids, id);
      if recs[0].id in ids {
        assert Without(recs, ids) == Without(t, ids);
        assert Without(recs, ids + {id}) == Without(t, ids + {id});
      } else {
        var w := Without(recs, ids);
        assert w == [recs[0]] + Without(t, ids);
        assert w[1..] == Without(t, ids);
        if recs[0].id == id {
          assert Without(w, {id}) == Without(Without(t, ids), {id});
          assert Without(recs, ids + {id}) == Without(t, ids + {id});
        } else {
          assert Without(w, {id}) == [recs[0]] + Without(Without(t, ids), {id});
          assert Without(recs, ids + {id}) == [recs[0]] + Without(t, ids + {id});
        }
      }
    }
  }
}
