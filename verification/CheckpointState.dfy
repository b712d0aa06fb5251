/**
 * The state of compute/checkpoint_agent.py: jobs, managed checkpoints, and the order in which finished jobs are
 * forgotten.
 */
module CheckpointState {
  import opened Basics
  import opened CheckpointRequest

  const MAX_FINISHED_JOBS: nat := 500
  const MAX_STATE_BYTES: nat := 8 * 1024 * 1024
  const RETENTION: nat := 30 * 86_400

  type JobId = nat
  type FileName = string

  datatype Status = Queued | Downloading | Completed | Failed | Canceled

  datatype Job = Job(id: JobId, request: Request, status: Status, received: nat, digest: Option<string>, size: Option<nat>,
                     created: nat, updated: nat, error: Option<nat>)

  datatype Item = Item(name: FileName, digest: string, size: nat, job: JobId)

  type Jobs = map<JobId, Job>
  type Managed = map<FileName, Item>

  /** The contents of state.json. */
  datatype Saved = Saved(jobs: Jobs, managed: Managed)

  predicate Finished(job: Job) {
    job.status == Completed || job.status == Failed || job.status == Canceled
  }

  // ----- what every state keeps ------------------------------------------------------------------

  /** The waiting and the running jobs. */
  function Active(jobs: Jobs): (r: set<JobId>)
    ensures forall id :: id in r <==> id in jobs && !Finished(jobs[id])
  {
    set id | id in jobs && !Finished(jobs[id])
  }

  function Waiting(jobs: Jobs): (r: set<JobId>)
    ensures forall id :: id in r <==> id in jobs && jobs[id].status == Queued
  {
    set id | id in jobs && jobs[id].status == Queued
  }

  predicate WellFormed(jobs: Jobs, maximum: nat) {
    forall id | id in jobs :: jobs[id].id == id && RequestOk(jobs[id].request, maximum)
  }

  /** Idempotency keys are unique. */
  predicate KeysUnique(jobs: Jobs) {
    forall i, j | i in jobs && j in jobs && i != j :: jobs[i].request.key != jobs[j].request.key
  }

  predicate JobsOk(jobs: Jobs, queueSize: nat, maximum: nat) {
    WellFormed(jobs, maximum) && KeysUnique(jobs) && |Active(jobs)| <= queueSize + 1
  }

  predicate ManagedOk(managed: Managed) {
    forall name | name in managed :: managed[name].name == name && Path(name) && Digest(managed[name].digest) && managed[name].size >= 1
  }

  /** Nothing but a job's progress changes, and no finished job becomes active. */
  predicate Follows(jobs: Jobs, next: Jobs) {
    forall id | id in next ::
      id in jobs && next[id].id == jobs[id].id && next[id].request == jobs[id].request && (Finished(jobs[id]) ==> Finished(next[id]))
  }

  lemma FollowsOk(jobs: Jobs, next: Jobs, queueSize: nat, maximum: nat)
    requires JobsOk(jobs, queueSize, maximum) && Follows(jobs, next)
    ensures JobsOk(next, queueSize, maximum)
  {
    hide RequestOk;
    SubsetSize(Active(next), Active(jobs));
  }

  /** A new job fits if fewer than `queueSize` wait and at most one runs. */
  lemma SubmitOk(jobs: Jobs, job: Job, queueSize: nat, maximum: nat, running: set<JobId>)
    requires JobsOk(jobs, queueSize, maximum) && job.id !in jobs && RequestOk(job.request, maximum)
    requires forall id | id in jobs :: jobs[id].request.key != job.request.key
    requires |Waiting(jobs)| < queueSize
    requires |running| <= 1 && forall id | id in jobs && jobs[id].status == Downloading :: id in running
    ensures JobsOk(jobs[job.id := job], queueSize, maximum)
  {
    hide RequestOk;
    var next := jobs[job.id := job];
    SubsetSize(Active(next), Waiting(jobs) + running + {job.id});
    assert |Waiting(jobs) + running| <= |Waiting(jobs)| + |running|;
  }

  // ----- pruning ---------------------------------------------------------------------------------

  /** The newest first: by the time of the last change, then by ID. */
  predicate Newer(a: Job, b: Job) {
    a.updated > b.updated || (a.updated == b.updated && a.id > b.id)
  }

  /** The finished jobs that are newer. */
  function NewerThan(jobs: Jobs, id: JobId): (r: set<JobId>)
    requires id in jobs
    ensures forall j :: j in r <==> j in jobs && Finished(jobs[j]) && Newer(jobs[j], jobs[id])
  {
    set j | j in jobs && Finished(jobs[j]) && Newer(jobs[j], jobs[id])
  }

  /** A job is kept unless it is finished and either `keep` finished ones are newer or it is too old. */
  predicate Keeps(jobs: Jobs, keep: nat, cutoff: int, id: JobId)
    requires id in jobs
  {
    Finished(jobs[id]) ==> |NewerThan(jobs, id)| < keep && jobs[id].updated >= cutoff
  }

  /** The jobs `_prune_locked` keeps. */
  function Pruned(jobs: Jobs, keep: nat, cutoff: int): (r: Jobs)
    ensures forall id :: id in r <==> id in jobs && Keeps(jobs, keep, cutoff, id)
    ensures forall id | id in r :: r[id] == jobs[id]
  {
    map id | id in jobs && Keeps(jobs, keep, cutoff, id) :: jobs[id]
  }

  /** `next` is `jobs` without its oldest finished jobs: no active job is gone, and with a finished one all newer
      finished ones are kept. */
  predicate Trimmed(jobs: Jobs, next: Jobs) {
    && (forall id | id in next :: id in jobs && next[id] == jobs[id])
    && (forall id | id in jobs && !Finished(jobs[id]) :: id in next)
    && (forall i, j | i in next && j in jobs && Finished(next[i]) && Finished(jobs[j]) && Newer(jobs[j], next[i]) :: j in next)
  }

  function FinishedSet(jobs: Jobs): (r: set<JobId>)
    ensures forall id :: id in r <==> id in jobs && Finished(jobs[id])
  {
    set id | id in jobs && Finished(jobs[id])
  }

  lemma PrunedIsTrimmed(jobs: Jobs, keep: nat, cutoff: int)
    requires forall id | id in jobs :: jobs[id].id == id
    ensures Trimmed(jobs, Pruned(jobs, keep, cutoff))
  {
    var next := Pruned(jobs, keep, cutoff);
    forall i, j | i in next && j in jobs && Finished(next[i]) && Finished(jobs[j]) && Newer(jobs[j], next[i])
      ensures j in next
    {
      SubsetSize(NewerThan(jobs, j), NewerThan(jobs, i));
    }
  }

  lemma TrimmedTwice(a: Jobs, b: Jobs, c: Jobs)
    requires Trimmed(a, b) && Trimmed(b, c)
    ensures Trimmed(a, c)
  {
  }

  lemma TrimmedFollows(jobs: Jobs, next: Jobs)
    requires Trimmed(jobs, next)
    ensures Follows(jobs, next)
  {
  }

  /** Jobs of which each one has fewer than `keep` newer among them number at most `keep`. */
  lemma {:induction false} NewestAreFew(jobs: Jobs, ids: set<JobId>, keep: nat)
    requires forall id | id in jobs :: jobs[id].id == id
    requires forall id | id in ids :: id in jobs && Finished(jobs[id]) && |NewerThan(jobs, id) * ids| < keep
    ensures |ids| <= keep
  {
    if ids != {} {
      var oldest := Oldest(jobs, ids);
      assert ids - {oldest} <= NewerThan(jobs, oldest) * ids;
      SubsetSize(ids - {oldest}, NewerThan(jobs, oldest) * ids);
    }
  }

  lemma {:induction false} Oldest(jobs: Jobs, ids: set<JobId>) returns (oldest: JobId)
    requires ids != {} && forall id | id in ids :: id in jobs && jobs[id].id == id
    ensures oldest in ids && forall id | id in ids && id != oldest :: Newer(jobs[id], jobs[oldest])
    decreases |ids|
  {
    oldest :| oldest in ids;
    if ids != {oldest} {
      var rest := ids - {oldest};
      assert rest != {};
      var o := Oldest(jobs, rest);
      if Newer(jobs[oldest], jobs[o]) {
        oldest := o;
      }
    }
  }

  /** Pruning leaves at most `keep` finished jobs. */
  lemma PrunedIsSmall(jobs: Jobs, keep: nat, cutoff: int)
    requires forall id | id in jobs :: jobs[id].id == id
    ensures |FinishedSet(Pruned(jobs, keep, cutoff))| <= keep
  {
    var ids := FinishedSet(Pruned(jobs, keep, cutoff));
    forall id | id in ids
      ensures |NewerThan(jobs, id) * ids| < keep
    {
      SubsetSize(NewerThan(jobs, id) * ids, NewerThan(jobs, id));
    }
    NewestAreFew(jobs, ids, keep);
  }

  /** The finished jobs that are not too old. */
  function Recent(jobs: Jobs, cutoff: int): (r: set<JobId>)
    ensures forall id :: id in r <==> id in jobs && Finished(jobs[id]) && jobs[id].updated >= cutoff
  {
    set id | id in jobs && Finished(jobs[id]) && jobs[id].updated >= cutoff
  }

  /** Those of `ids` with fewer than `keep` newer ones among them. */
  function Foremost(jobs: Jobs, ids: set<JobId>, keep: nat): set<JobId>
    requires forall id | id in ids :: id in jobs
  {
    set id | id in ids && |NewerThan(jobs, id) * ids| < keep
  }

  lemma OldestIsLast(jobs: Jobs, ids: set<JobId>, oldest: JobId, keep: nat)
    requires (forall id | id in ids :: id in jobs && Finished(jobs[id])) && oldest in ids
    requires forall id | id in ids && id != oldest :: Newer(jobs[id], jobs[oldest])
    ensures NewerThan(jobs, oldest) * ids == ids - {oldest}
    ensures forall id | id in ids - {oldest} :: NewerThan(jobs, id) * ids == NewerThan(jobs, id) * (ids - {oldest})
  {
    forall id | id in ids - {oldest}
      ensures oldest !in NewerThan(jobs, id)
    {
      assert Newer(jobs[id], jobs[oldest]);
    }
  }

  lemma {:induction false} ForemostCounts(jobs: Jobs, ids: set<JobId>, keep: nat)
    requires forall id | id in jobs :: jobs[id].id == id
    requires forall id | id in ids :: id in jobs && Finished(jobs[id])
    ensures |Foremost(jobs, ids, keep)| == if keep < |ids| then keep else |ids|
    decreases |ids|
  {
    hide NewerThan, Newer, Finished, Foremost;
    if ids == {} {
      ForemostOf(jobs, ids, keep);
      assert Foremost(jobs, ids, keep) == {};
    } else {
      var oldest := Oldest(jobs, ids);
      var rest := ids - {oldest};
      ForemostCounts(jobs, rest, keep);
      OldestIsLast(jobs, ids, oldest, keep);
      ForemostOf(jobs, ids, keep);
      ForemostOf(jobs, rest, keep);
      OneMoreCounts(Foremost(jobs, ids, keep), Foremost(jobs, rest, keep), rest, oldest, |rest| < keep);
      assert |ids| == |rest| + 1;
    }
  }

  lemma OneMoreCounts(all: set<JobId>, some: set<JobId>, rest: set<JobId>, one: JobId, more: bool)
    requires some <= rest && one !in rest && all <= rest + {one} && (one in all <==> more)
    requires forall id | id in rest :: id in all <==> id in some
    ensures |all| == |some| + if more then 1 else 0
  {
    assert all == some + if more then {one} else {};
  }

  lemma ForemostOf(jobs: Jobs, ids: set<JobId>, keep: nat)
    requires forall id | id in ids :: id in jobs
    ensures forall id :: id in Foremost(jobs, ids, keep) <==> id in ids && |NewerThan(jobs, id) * ids| < keep
  {
  }

  /** Exactly how many finished jobs pruning leaves: `keep`, or all that are not too old. */
  lemma PrunedCounts(jobs: Jobs, keep: nat, cutoff: int)
    requires forall id | id in jobs :: jobs[id].id == id
    ensures FinishedSet(Pruned(jobs, keep, cutoff)) <= Recent(jobs, cutoff)
    ensures |FinishedSet(Pruned(jobs, keep, cutoff))| == if keep < |Recent(jobs, cutoff)| then keep else |Recent(jobs, cutoff)|
  {
    var ids := Recent(jobs, cutoff);
    ForemostCounts(jobs, ids, keep);
    forall id | id in ids
      ensures NewerThan(jobs, id) * ids == NewerThan(jobs, id)
    {
    }
    assert FinishedSet(Pruned(jobs, keep, cutoff)) == Foremost(jobs, ids, keep);
  }

  /** What is forgotten is no younger than what is kept. */
  lemma TrimmedKeepsYounger(jobs: Jobs, next: Jobs)
    requires Trimmed(jobs, next)
    ensures forall i, j | i in next && Finished(next[i]) && j in jobs && j !in next :: Finished(jobs[j]) && jobs[j].updated <= next[i].updated
  {
  }

  // ----- sorting ---------------------------------------------------------------------------------

  predicate NewestFirst(jobs: Jobs, ids: seq<JobId>) {
    && (forall i | 0 <= i < |ids| :: ids[i] in jobs)
    && (forall i, j | 0 <= i < j < |ids| :: Newer(jobs[ids[i]], jobs[ids[j]]))
  }

  /** `sorted` puts an ID in its place. */
  function Place(jobs: Jobs, id: JobId, ids: seq<JobId>): (r: seq<JobId>)
    requires id in jobs && NewestFirst(jobs, ids) && id !in ids
    requires forall i | i in jobs :: jobs[i].id == i
    ensures NewestFirst(jobs, r)
    ensures forall x :: x in r <==> x == id || x in ids
  {
    if ids == [] || Newer(jobs[id], jobs[ids[0]]) then [id] + ids
    else
      assert ids == [ids[0]] + ids[1..];
      var rest := Place(jobs, id, ids[1..]);
      assert forall k | 0 <= k < |ids[1..]| :: ids[1..][k] == ids[k + 1] && Newer(jobs[ids[0]], jobs[ids[1..][k]]);
      assert forall x | x in rest :: Newer(jobs[ids[0]], jobs[x]);
      [ids[0]] + rest
  }

  method SortFinished(jobs: Jobs) returns (r: seq<JobId>)
    requires forall i | i in jobs :: jobs[i].id == i
    ensures NewestFirst(jobs, r)
    ensures forall id :: id in r <==> id in jobs && Finished(jobs[id])
  {
    var rest := FinishedSet(jobs);
    r := [];
    while rest != {}
      invariant NewestFirst(jobs, r)
      invariant forall id :: id in r <==> id in jobs && Finished(jobs[id]) && id !in rest
      invariant forall id | id in rest :: id in jobs && Finished(jobs[id])
      decreases |rest|
    {
      var id :| id in rest;
      r := Place(jobs, id, r);
      rest := rest - {id};
    }
  }

  /** In the sorted list, one more is newer than each next. */
  lemma OneMoreIsNewer(jobs: Jobs, ids: seq<JobId>, i: nat)
    requires NewestFirst(jobs, ids) && (forall id :: id in ids <==> id in jobs && Finished(jobs[id]))
    requires 0 < i < |ids|
    ensures NewerThan(jobs, ids[i]) == NewerThan(jobs, ids[i - 1]) + {ids[i - 1]}
    ensures ids[i - 1] !in NewerThan(jobs, ids[i - 1])
  {
    forall id
      ensures id in NewerThan(jobs, ids[i]) <==> id in NewerThan(jobs, ids[i - 1]) || id == ids[i - 1]
    {
      if id in NewerThan(jobs, ids[i]) {
        var k :| 0 <= k < |ids| && ids[k] == id;
        assert k < i;
      }
    }
  }

  /** The index in the sorted list is the number of newer finished jobs. */
  lemma {:induction false} IndexIsRank(jobs: Jobs, ids: seq<JobId>, i: nat)
    requires NewestFirst(jobs, ids) && (forall id :: id in ids <==> id in jobs && Finished(jobs[id]))
    requires i < |ids|
    ensures |NewerThan(jobs, ids[i])| == i
  {
    if i == 0 {
      forall k | 0 <= k < |ids|
        ensures !Newer(jobs[ids[k]], jobs[ids[0]])
      {
      }
      assert NewerThan(jobs, ids[0]) == {};
    } else {
      IndexIsRank(jobs, ids, i - 1);
      OneMoreIsNewer(jobs, ids, i);
    }
  }

  /** What `_prune_locked` lists for removal. */
  method Removals(jobs: Jobs, keep: nat, cutoff: int) returns (remove: seq<JobId>)
    requires forall i | i in jobs :: jobs[i].id == i
    ensures forall id :: id in remove <==> id in jobs && !Keeps(jobs, keep, cutoff, id)
  {
    var finished := SortFinished(jobs);
    remove := [];
    for index := 0 to |finished|
      invariant forall id :: id in remove <==> id in finished[..index] && !Keeps(jobs, keep, cutoff, id)
    {
      IndexIsRank(jobs, finished, index);
      if index >= keep || jobs[finished[index]].updated < cutoff {
        remove := remove + [finished[index]];
      }
      assert finished[..index + 1] == finished[..index] + [finished[index]];
    }
    assert finished[..|finished|] == finished;
  }

  // ----- what a restart and the worker make of a job --------------------------------------------

  /** What the worker thread has in hand: Failing after an exception left `_run_job`, Gone when the thread has ended. */
  datatype Worker = Idle | Holding(id: JobId) | Running(id: JobId) | Failing(id: JobId) | Gone

  /** A job that waits again, for the next process. */
  function Requeued(job: Job, now: nat): Job {
    job.(status := Queued, received := 0, updated := now, error := None)
  }

  /** A job as it is after a restart. */
  function Recovered(job: Job, now: nat): Job {
    if Finished(job) then job else Requeued(job, now)
  }

  function RecoveredJobs(jobs: Jobs, stamps: JobId -> nat): (r: Jobs)
    ensures r.Keys == jobs.Keys && forall id | id in jobs :: r[id] == Recovered(jobs[id], stamps(id))
  {
    map id | id in jobs :: Recovered(jobs[id], stamps(id))
  }

  /** The jobs that may not be forgotten. */
  function Unfinished(jobs: Jobs): Jobs {
    map id | id in jobs && !Finished(jobs[id]) :: jobs[id]
  }

  /** What the JSON text guarantees: fewer jobs take no more bytes, and a job put back to waiting takes no more. */
  ghost predicate Encoding(size: (Jobs, Managed) -> nat) {
    && (forall jobs, next, managed | Trimmed(jobs, next) :: size(next, managed) <= size(jobs, managed))
    && (forall jobs, stamps, managed :: size(RecoveredJobs(jobs, stamps), managed) <= size(jobs, managed))
  }

  // ----- what lasts ------------------------------------------------------------------------------

  /** Every unfinished job is in the file, unfinished and as it was asked for. */
  predicate Lasts(jobs: Jobs, disk: Option<Saved>) {
    forall id | id in jobs && !Finished(jobs[id]) ::
      && disk.Some? && id in disk.value.jobs
      && !Finished(disk.value.jobs[id]) && disk.value.jobs[id].request == jobs[id].request
  }

  lemma LastsTrimmed(before: Jobs, was: Option<Saved>, next: Jobs, managed: Managed, disk: Option<Saved>)
    requires disk == Some(Saved(next, managed)) || (Lasts(before, was) && Trimmed(before, next) && disk == was)
    ensures Lasts(next, disk)
  {
  }

  lemma LastsChanged(before: Jobs, was: Option<Saved>, id: JobId, job: Job, next: Jobs, managed: Managed, disk: Option<Saved>)
    requires Lasts(before, was) && id in before && (Finished(job) || (!Finished(before[id]) && job.request == before[id].request))
    requires Trimmed(before[id := job], next) && (disk == was || disk == Some(Saved(next, managed)))
    ensures Lasts(next, disk)
  {
  }
}
