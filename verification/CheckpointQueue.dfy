/**
 * The download queue of compute/checkpoint_agent.py, class CheckpointAgent: one worker, persistent jobs, cancellation,
 * a size-bounded state file and restart recovery. Each method is one region under the agent's lock; a process may end
 * between any two of them and start again with Restart.
 */
module CheckpointQueue {
  import opened Basics
  import Texts
  import opened CheckpointRequest
  import opened CheckpointState
  import opened CheckpointRoom

  datatype Persisted = Written | TooLarge | Broken

  datatype Submitted = Accepted(id: JobId) | Existing(id: JobId) | KeyConflict | QueueFull | NotRecorded | Rejected(why: CheckpointRequest.Fault)

  datatype Outcome = Canceled | Failed(code: nat) | Installed(digest: string, size: nat)

  /** What `delete_checkpoint` answers before it opens the file, and after. */
  datatype Asked = InvalidName | MatchRequired | NoMatch | Missing | Busy | Begun

  datatype Removal = FileMissing | NotRegular | OtherContent | Changed | Unlinked(saved: bool)

  /** What identifies a file and its content: device, inode, size and time of the last change. */
  datatype Stat = Stat(device: nat, inode: nat, size: nat, changed: nat, regular: bool)

  /** The file that a deletion opened, before and after it was hashed. */
  datatype Look = Look(before: Stat, digest: string, after: Stat)

  /** A file that kept its identity while it was read has been hashed. */
  predicate Hashes(look: Look, content: Stat -> string) {
    look.before == look.after ==> look.digest == content(look.before)
  }

  /** The file is there, it was hashed to the digest, and it has not changed since it was opened. */
  predicate Intact(look: Option<Look>, current: Option<Stat>, digest: string) {
    && look.Some? && look.value.before.regular && look.value.digest == digest
    && current.Some? && current.value.regular && look.value.before == current.value == look.value.after
  }

  /** The digest an If-Match header names. */
  function Supplied(ifMatch: Option<string>): Option<string> {
    if ifMatch.None? then None
    else
      var s := Texts.Strip(ifMatch.value);
      var digest := if |s| >= 2 && s[0] == s[|s| - 1] == '"' then s[1..|s| - 1] else s;
      if Digest(digest) then Some(Lower(digest)) else None
  }

  lemma DigestEnds(digest: string)
    requires Digest(digest)
    ensures |digest| == 64 && digest[0] != '"' && digest[63] != '"' && !Texts.Space(digest[0]) && !Texts.Space(digest[63])
  {
  }

  /** A header names a digest with or without quotation marks, in either case; half quoted it names none. */
  lemma SuppliedIs(digest: string)
    requires Digest(digest)
    ensures Supplied(Some(digest)) == Some(Lower(digest)) && Supplied(Some("\"" + digest + "\"")) == Some(Lower(digest))
    ensures Supplied(Some("\"" + digest)) == None && Supplied(None) == None
  {
    hide Texts.Strip, Texts.Space, Digest, Lower;
    assert !Texts.Space('"') by {
      QuoteIsNoSpace();
    }
    DigestEnds(digest);
    StripsNothing(digest);
    Quoted(digest);
    HalfQuoted(digest);
  }

  lemma QuoteIsNoSpace()
    ensures !Texts.Space('"')
  {
  }

  lemma Quoted(digest: string)
    requires Digest(digest) && |digest| == 64 && !Texts.Space('"')
    ensures Supplied(Some("\"" + digest + "\"")) == Some(Lower(digest))
  {
    hide Texts.Strip, Texts.Space, Digest, Lower;
    var s := "\"" + digest + "\"";
    StripsNothing(s);
    assert s[1..|s| - 1] == digest;
  }

  lemma HalfQuoted(digest: string)
    requires |digest| == 64 && digest[63] != '"' && !Texts.Space(digest[63]) && !Texts.Space('"')
    ensures Supplied(Some("\"" + digest)) == None
  {
    hide Texts.Strip, Texts.Space, Lower;
    var s := "\"" + digest;
    StripsNothing(s);
    assert s[64] == digest[63];
  }

  lemma StripsNothing(s: string)
    requires s != "" && !Texts.Space(s[0]) && !Texts.Space(s[|s| - 1])
    ensures Texts.Strip(s) == s
  {
  }

  /** An installed file has been hashed, is no empty one and within the size limit. */
  predicate OutcomeOk(outcome: Outcome, maximum: nat) {
    outcome.Installed? ==> 1 <= outcome.size <= maximum && Digest(outcome.digest)
  }

  datatype Fault = NoFault | NotFound | AlreadyFinished | NotSaved

  type Flags = map<JobId, bool>
  type Order = map<JobId, nat>

  const CANCELED: nat := 1
  const INTERNAL_ERROR: nat := 2

  // ----- what every region keeps -----------------------------------------------------------------

  /** Only the job in the worker's hands is downloading, and it is there. */
  predicate WorkerOk(jobs: Jobs, worker: Worker) {
    && (forall id | id in jobs && jobs[id].status == Downloading :: worker == Running(id) || worker == Failing(id))
    && (worker.Running? ==> worker.id in jobs && jobs[worker.id].status == Downloading)
  }

  /** Every waiting job has its place in the queue or is in the worker's hand, and is not cancelled. */
  predicate QueueOk(jobs: Jobs, order: Order, worker: Worker, cancel: Flags) {
    forall id | id in jobs && jobs[id].status == Queued ::
      (id in order || worker == Holding(id)) && !(id in cancel && cancel[id])
  }

  /** Places are numbered in the order of arrival, all after the last one taken. */
  predicate OrderOk(order: Order, sequence: nat, taken: nat) {
    && taken <= sequence
    && (forall id | id in order :: taken < order[id] <= sequence)
    && (forall i, j | i in order && j in order && order[i] == order[j] :: i == j)
  }

  /** Flags are dropped only with the job. */
  predicate FlagsTrimmed(cancel: Flags, next: Flags) {
    forall id | id in next :: id in cancel && next[id] == cancel[id]
  }

  datatype Limits = Limits(queueSize: nat, maximum: nat)

  /** The invariant of the memory, but for the order's numbers and the managed files. */
  predicate MemoryOk(l: Limits, jobs: Jobs, order: Order, worker: Worker, cancel: Flags, stopping: bool) {
    && JobsOk(jobs, l.queueSize, l.maximum) && WorkerOk(jobs, worker)
    && (!stopping ==> QueueOk(jobs, order, worker, cancel))
  }

  /** Forgetting finished jobs keeps it. */
  lemma TrimKeeps(l: Limits, jobs: Jobs, next: Jobs, order: Order, worker: Worker, cancel: Flags, flags: Flags, stopping: bool)
    requires MemoryOk(l, jobs, order, worker, cancel, stopping) && Trimmed(jobs, next) && FlagsTrimmed(cancel, flags)
    ensures MemoryOk(l, next, order, worker, flags, stopping)
  {
    hide RequestOk;
    TrimmedFollows(jobs, next);
    FollowsOk(jobs, next, l.queueSize, l.maximum);
  }

  lemma SubmitKeeps(l: Limits, jobs: Jobs, order: Order, worker: Worker, cancel: Flags, stopping: bool, job: Job, place: nat)
    requires MemoryOk(l, jobs, order, worker, cancel, stopping) && RequestOk(job.request, l.maximum)
    requires job.id !in jobs && job.status == Queued && |Waiting(jobs)| < l.queueSize
    requires forall j | j in jobs :: jobs[j].request.key != job.request.key
    ensures MemoryOk(l, jobs[job.id := job], order[job.id := place], worker, cancel[job.id := false], stopping)
  {
    hide RequestOk;
    SubmitOk(jobs, job, l.queueSize, l.maximum, InHand(worker));
  }

  /** One job's progress keeps what concerns the jobs alone. */
  lemma ReplaceOk(l: Limits, jobs: Jobs, job: Job)
    requires JobsOk(jobs, l.queueSize, l.maximum) && job.id in jobs && job.request == jobs[job.id].request
    requires Finished(jobs[job.id]) ==> Finished(job)
    ensures JobsOk(jobs[job.id := job], l.queueSize, l.maximum)
  {
    hide RequestOk;
    FollowsOk(jobs, jobs[job.id := job], l.queueSize, l.maximum);
  }

  /** A job that ends leaves the queue and the worker's hands. */
  lemma EndKeeps(l: Limits, jobs: Jobs, order: Order, worker: Worker, cancel: Flags, stopping: bool, job: Job, flag: bool, next: Worker)
    requires MemoryOk(l, jobs, order, worker, cancel, stopping) && job.id in jobs && Finished(job)
    requires job.request == jobs[job.id].request
    requires next == worker || (worker != Idle && worker != Gone && worker.id == job.id && (next == Idle || next == Failing(job.id) || next == Gone))
    requires next != Running(job.id)
    ensures MemoryOk(l, jobs[job.id := job], order - {job.id}, next, cancel[job.id := flag], stopping)
    ensures MemoryOk(l, jobs[job.id := job], order, next, cancel, stopping)
  {
    hide RequestOk;
    ReplaceOk(l, jobs, job);
    hide JobsOk;
    if !stopping {
      EndQueue(jobs, order, worker, cancel, job, flag, next);
    }
  }

  lemma EndQueue(jobs: Jobs, order: Order, worker: Worker, cancel: Flags, job: Job, flag: bool, next: Worker)
    requires QueueOk(jobs, order, worker, cancel) && job.id in jobs && Finished(job)
    requires next == worker || (worker != Idle && worker != Gone && worker.id == job.id)
    ensures QueueOk(jobs[job.id := job], order - {job.id}, next, cancel[job.id := flag])
    ensures QueueOk(jobs[job.id := job], order, next, cancel)
  {
  }

  /** A job the worker holds starts. */
  lemma StartKeeps(l: Limits, jobs: Jobs, order: Order, cancel: Flags, stopping: bool, job: Job)
    requires MemoryOk(l, jobs, order, Holding(job.id), cancel, stopping) && job.id in jobs && jobs[job.id].status == Queued
    requires job.status == Downloading && job.request == jobs[job.id].request
    ensures MemoryOk(l, jobs[job.id := job], order, Running(job.id), cancel[job.id := false], stopping)
  {
    hide RequestOk;
    ReplaceOk(l, jobs, job);
    hide JobsOk;
  }

  /** A running job goes back to waiting only when the agent stops. */
  lemma RequeueKeeps(l: Limits, jobs: Jobs, order: Order, cancel: Flags, job: Job)
    requires MemoryOk(l, jobs, order, Running(job.id), cancel, true) && job.id in jobs
    requires job.status == Queued && job.request == jobs[job.id].request
    ensures MemoryOk(l, jobs[job.id := job], order, Idle, cancel, true)
  {
    hide RequestOk;
    ReplaceOk(l, jobs, job);
    hide JobsOk;
  }

  lemma ProgressKeeps(l: Limits, jobs: Jobs, order: Order, worker: Worker, cancel: Flags, stopping: bool, job: Job)
    requires MemoryOk(l, jobs, order, worker, cancel, stopping) && job.id in jobs
    requires job.request == jobs[job.id].request && job.status == jobs[job.id].status
    ensures MemoryOk(l, jobs[job.id := job], order, worker, cancel, stopping)
  {
    hide RequestOk;
    ReplaceOk(l, jobs, job);
    hide JobsOk;
  }

  /** The worker lets go of a job that is not waiting, or that a stop has taken from it. */
  lemma LetGoKeeps(l: Limits, jobs: Jobs, order: Order, id: JobId, cancel: Flags, stopping: bool)
    requires MemoryOk(l, jobs, order, Holding(id), cancel, stopping)
    requires id in jobs && jobs[id].status == Queued && !(id in cancel && cancel[id]) ==> stopping
    ensures MemoryOk(l, jobs, order, Idle, cancel, stopping)
  {
    hide RequestOk;
  }

  lemma FailKeeps(l: Limits, jobs: Jobs, order: Order, worker: Worker, cancel: Flags, stopping: bool, id: JobId)
    requires MemoryOk(l, jobs, order, worker, cancel, stopping) && (worker == Running(id) || worker == Idle)
    ensures MemoryOk(l, jobs, order, Failing(id), cancel, stopping)
  {
    hide RequestOk;
  }

  /** A job that was kept is the job that was put in. */
  lemma NewJobIs(before: Jobs, jobs: Jobs, id: JobId, request: Request, now: nat)
    requires id in jobs && Trimmed(before[id := NewJob(id, request, now)], jobs)
    ensures jobs[id].request == request
  {
  }

  lemma StoredDiffers(jobs: Jobs, request: Request)
    ensures forall j | j in jobs && jobs[j].request != request :: Stored(jobs[j].request) != Stored(request)
  {
    hide RequestOk, Parse;
    forall j | j in jobs && Stored(jobs[j].request) == Stored(request)
      ensures jobs[j].request == request
    {
      StoredIsOne(jobs[j].request, request);
    }
  }

  /** A submitted job as it is first recorded. */
  function NewJob(id: JobId, request: Request, now: nat): Job {
    Job(id, request, Queued, 0, None, None, now, now, None)
  }

  ghost predicate Dropped(jobs: Jobs, next: Jobs, remove: seq<JobId>) {
    (forall id :: id in next <==> id in jobs && id !in remove) && forall id | id in next :: next[id] == jobs[id]
  }

  lemma DroppedIsPruned(jobs: Jobs, next: Jobs, remove: seq<JobId>, keep: nat, cutoff: int)
    requires Dropped(jobs, next, remove)
    requires forall id :: id in remove <==> id in jobs && !Keeps(jobs, keep, cutoff, id)
    ensures next == Pruned(jobs, keep, cutoff)
    ensures remove != [] <==> next != jobs
  {
    hide Keeps;
    if remove != [] {
      assert remove[0] in remove;
    } else {
      assert next == jobs;
    }
  }

  lemma WellFormedIs(jobs: Jobs, l: Limits)
    requires JobsOk(jobs, l.queueSize, l.maximum)
    ensures WellFormed(jobs, l.maximum)
  {
  }

  lemma TrimmedJobs(jobs: Jobs, next: Jobs, l: Limits)
    requires Trimmed(jobs, next) && JobsOk(jobs, l.queueSize, l.maximum)
    ensures JobsOk(next, l.queueSize, l.maximum)
  {
    TrimmedFollows(jobs, next);
    FollowsOk(jobs, next, l.queueSize, l.maximum);
  }

  lemma TrimmedSame(jobs: Jobs, cancel: Flags)
    ensures Trimmed(jobs, jobs) && FlagsTrimmed(cancel, cancel)
  {
  }

  lemma FlagsTwice(a: Flags, b: Flags, c: Flags)
    requires FlagsTrimmed(a, b) && FlagsTrimmed(b, c)
    ensures FlagsTrimmed(a, c)
  {
  }

  lemma TrimmedForm(jobs: Jobs, next: Jobs, maximum: nat)
    requires Trimmed(jobs, next) && WellFormed(jobs, maximum)
    ensures WellFormed(next, maximum)
  {
  }

  class CheckpointAgent {
    const limits: Limits
    const size: (Jobs, Managed) -> nat

    var jobs: Jobs
    var managed: Managed
    var order: Order
    var sequence: nat
    var cancel: Flags
    var stopping: bool
    var worker: Worker
    var disk: Option<Saved>
    var deleting: map<FileName, Item> // _deleting, with the record each deletion saw
    ghost var taken: nat // the place of the last job the worker took

    ghost predicate DiskOk()
      reads this`disk
    {
      disk.Some? ==>
        && JobsOk(disk.value.jobs, limits.queueSize, limits.maximum) && ManagedOk(disk.value.managed)
        && size(disk.value.jobs, disk.value.managed) <= MAX_STATE_BYTES
    }

    ghost predicate Valid()
      reads this
    {
      && MemoryOk(limits, jobs, order, worker, cancel, stopping)
      && OrderOk(order, sequence, taken) && ManagedOk(managed) && DiskOk()
    }

    /** A process before it has read the file; Restart reads it. */
    constructor (limits: Limits, size: (Jobs, Managed) -> nat, disk: Option<Saved>)
      ensures this.limits == limits && this.size == size && this.disk == disk
    {
      this.limits, this.size, this.disk := limits, size, disk;
      jobs, managed, order, sequence, cancel := map[], map[], map[], 0, map[];
      stopping, worker, taken, deleting := false, Idle, 0, map[];
    }

    /** `_prune_locked`. */
    method Prune(keep: nat, now: int) returns (changed: bool)
      requires WellFormed(jobs, limits.maximum)
      modifies this`jobs, this`cancel
      ensures jobs == Pruned(old(jobs), keep, now - RETENTION)
      ensures FlagsTrimmed(old(cancel), cancel)
      ensures changed <==> jobs != old(jobs)
      ensures Trimmed(old(jobs), jobs) && |FinishedSet(jobs)| <= keep
    {
      PrunedIsTrimmed(jobs, keep, now - RETENTION);
      PrunedIsSmall(jobs, keep, now - RETENTION);
      hide Trimmed, FinishedSet, Keeps, WellFormed, Pruned;
      var remove := Removals(jobs, keep, now - RETENTION);
      Drop(remove);
      DroppedIsPruned(old(jobs), jobs, remove, keep, now - RETENTION);
      changed := remove != [];
    }

    method Drop(remove: seq<JobId>)
      modifies this`jobs, this`cancel
      ensures Dropped(old(jobs), jobs, remove)
      ensures FlagsTrimmed(old(cancel), cancel)
    {
      for i := 0 to |remove|
        modifies this`jobs, this`cancel
        invariant Dropped(old(jobs), jobs, remove[..i])
        invariant FlagsTrimmed(old(cancel), cancel)
      {
        jobs := jobs - {remove[i]};
        cancel := cancel - {remove[i]};
        assert remove[..i + 1] == remove[..i] + [remove[i]];
      }
      assert remove[..|remove|] == remove;
    }

    /** The first part of `_persist_locked`, with the clock's successive readings: forget until the payload is small
        or no finished job is left. */
    method Shrink(readings: nat -> int) returns (payload: nat)
      requires WellFormed(jobs, limits.maximum)
      modifies this`jobs, this`cancel
      ensures Trimmed(old(jobs), jobs) && FlagsTrimmed(old(cancel), cancel)
      ensures |FinishedSet(jobs)| <= MAX_FINISHED_JOBS
      ensures payload == size(jobs, managed)
      ensures payload <= MAX_STATE_BYTES / 2 || FinishedSet(jobs) == {}
      ensures var first := Pruned(old(jobs), MAX_FINISHED_JOBS, readings(0) - RETENTION);
        size(first, managed) <= MAX_STATE_BYTES / 2 ==> jobs == first
    {
      hide Trimmed, FlagsTrimmed, Pruned, WellFormed, Finished;
      var changed := Prune(MAX_FINISHED_JOBS, readings(0));
      TrimmedForm(old(jobs), jobs, limits.maximum);
      ghost var first := jobs;
      payload := size(jobs, managed);
      var keep := MAX_FINISHED_JOBS;
      var reading := 1;
      while payload > MAX_STATE_BYTES / 2 && keep > 0
        modifies this`jobs, this`cancel
        invariant Trimmed(old(jobs), jobs) && FlagsTrimmed(old(cancel), cancel) && WellFormed(jobs, limits.maximum)
        invariant |FinishedSet(jobs)| <= keep <= MAX_FINISHED_JOBS
        invariant payload == size(jobs, managed)
        invariant jobs == first || size(first, managed) > MAX_STATE_BYTES / 2
        decreases keep
      {
        keep := keep / 2;
        ghost var before, flags := jobs, cancel;
        changed := Prune(keep, readings(reading));
        TrimmedTwice(old(jobs), before, jobs);
        FlagsTwice(old(cancel), flags, cancel);
        TrimmedForm(old(jobs), jobs, limits.maximum);
        payload := size(jobs, managed);
        reading := reading + 1;
      }
    }

    /** `_persist_locked`; `ok` is false when the file cannot be written, which leaves it as it was. */
    method Persist(readings: nat -> int, ok: bool) returns (r: Persisted)
      requires JobsOk(jobs, limits.queueSize, limits.maximum) && ManagedOk(managed) && DiskOk()
      modifies this`jobs, this`cancel, this`disk
      ensures DiskOk()
      ensures Trimmed(old(jobs), jobs) && FlagsTrimmed(old(cancel), cancel)
      ensures |FinishedSet(jobs)| <= MAX_FINISHED_JOBS
      ensures size(jobs, managed) <= MAX_STATE_BYTES / 2 || FinishedSet(jobs) == {}
      ensures var first := Pruned(old(jobs), MAX_FINISHED_JOBS, readings(0) - RETENTION);
        size(first, managed) <= MAX_STATE_BYTES / 2 ==> jobs == first
      ensures r == if size(jobs, managed) > MAX_STATE_BYTES then TooLarge else if ok then Written else Broken
      ensures disk == if r == Written then Some(Saved(jobs, managed)) else old(disk)
    {
      WellFormedIs(jobs, limits);
      hide JobsOk, ManagedOk, Trimmed, FlagsTrimmed, FinishedSet, Pruned;
      var payload := Shrink(readings);
      if payload > MAX_STATE_BYTES {
        return TooLarge;
      }
      if !ok {
        return Broken;
      }
      TrimmedJobs(old(jobs), jobs, limits);
      disk := Some(Saved(jobs, managed));
      return Written;
    }

    /** `submit`: a body is refused, or its request goes on to the region below. */
    method Post(body: Json, id: JobId, now: nat, readings: nat -> int, ok: bool) returns (r: Submitted)
      requires Valid() && id !in jobs && id !in order && id !in cancel && worker != Holding(id)
      modifies this`jobs, this`cancel, this`order, this`sequence, this`disk
      ensures Valid()
      ensures r.Rejected? <==> Parse(body, limits.maximum).Err?
      ensures r.Rejected? ==>
        && r.why == Parse(body, limits.maximum).fault
        && jobs == old(jobs) && order == old(order) && cancel == old(cancel) && disk == old(disk)
      ensures r.Existing? ==> r.id in old(jobs) && Stored(old(jobs)[r.id].request) == Normal(body)
      ensures r.KeyConflict? ==> forall j | j in old(jobs) :: Stored(old(jobs)[j].request) != Normal(body)
      ensures r.Accepted? ==>
        && id in jobs && Stored(jobs[id].request) == Normal(body) && order == old(order)[id := sequence]
        && disk == Some(Saved(jobs, managed))
        && Trimmed(old(jobs)[id := NewJob(id, Parse(body, limits.maximum).value, now)], jobs)
      ensures !r.Accepted? ==> Trimmed(old(jobs), jobs) && disk == old(disk)
    {
      TrimmedSame(jobs, cancel);
      hide MemoryOk, OrderOk, ManagedOk, DiskOk, Trimmed, Fits, RequestOk, Parse, Stored, Normal, Waiting;
      var parsed := Parse(body, limits.maximum);
      if parsed.Err? {
        return Rejected(parsed.fault);
      }
      ParsedIsOk(body, limits.maximum);
      StoredIsNormal(body, limits.maximum);
      ghost var before := jobs;
      r := Submit(parsed.value, id, now, readings, ok);
      if r.Accepted? {
        NewJobIs(before, jobs, id, parsed.value, now);
      }
      StoredDiffers(before, parsed.value);
    }

    /** `submit` of a parsed request; `id` is fresh. */
    method Submit(request: Request, id: JobId, now: nat, readings: nat -> int, ok: bool) returns (r: Submitted)
      requires Valid() && RequestOk(request, limits.maximum)
      requires id !in jobs && id !in order && id !in cancel && worker != Holding(id)
      modifies this`jobs, this`cancel, this`order, this`sequence, this`disk
      ensures Valid() && !r.Rejected?
      ensures (r.Existing? || r.KeyConflict?) <==> exists j :: j in old(jobs) && old(jobs)[j].request.key == request.key
      ensures r.Existing? ==> r.id in old(jobs) && old(jobs)[r.id].request == request
      ensures r.KeyConflict? ==> forall j | j in old(jobs) :: old(jobs)[j].request != request
      ensures r.QueueFull? ==> |Waiting(old(jobs))| >= limits.queueSize
      ensures r.Accepted? || r.NotRecorded? ==> |Waiting(old(jobs))| < limits.queueSize
      ensures r.Accepted? ==>
        && r.id == id && Trimmed(old(jobs)[id := NewJob(id, request, now)], jobs) && id in jobs
        && order == old(order)[id := sequence] && sequence == old(sequence) + 1
        && disk == Some(Saved(jobs, managed))
      ensures r.Accepted? ==> FlagsTrimmed(old(cancel)[id := false], cancel)
      ensures r.Accepted? ==> id in jobs && jobs[id] == Job(id, request, Queued, 0, None, None, now, now, None)
      ensures !r.Accepted? ==> order == old(order) && disk == old(disk) && Trimmed(old(jobs), jobs)
      ensures !r.Accepted? && !r.NotRecorded? ==> jobs == old(jobs) && cancel == old(cancel)
      ensures Fits(old(jobs)[id := NewJob(id, request, now)], managed, size, ok) ==> !r.NotRecorded?
    {
      hide RequestOk;
      MemoryIs(limits, jobs, order, worker, cancel, stopping);
      TrimmedSame(jobs, cancel);
      hide Trimmed, FlagsTrimmed, MemoryOk, OrderOk, ManagedOk, WellFormed, Fits;
      if j :| j in jobs && jobs[j].request.key == request.key {
        return if jobs[j].request != request then KeyConflict else Existing(j);
      }
      if |Waiting(jobs)| >= limits.queueSize {
        return QueueFull;
      }
      ghost var enrolled := jobs[id := NewJob(id, request, now)];
      r := Enroll(request, id, now, readings, ok);
      if r.Accepted? {
        OneKept(enrolled, jobs, id);
      }
    }

    /** The rest of `submit`, for a new key and a free place. */
    method Enroll(request: Request, id: JobId, now: nat, readings: nat -> int, ok: bool) returns (r: Submitted)
      requires Valid() && RequestOk(request, limits.maximum)
      requires id !in jobs && id !in order && id !in cancel && worker != Holding(id)
      requires |Waiting(jobs)| < limits.queueSize && forall j | j in jobs :: jobs[j].request.key != request.key
      modifies this`jobs, this`cancel, this`order, this`sequence, this`disk
      ensures Valid()
      ensures r == Accepted(id) || r.NotRecorded?
      ensures r.Accepted? ==>
        && Trimmed(old(jobs)[id := NewJob(id, request, now)], jobs) && id in jobs
        && order == old(order)[id := sequence] && sequence == old(sequence) + 1
        && disk == Some(Saved(jobs, managed))
      ensures r.Accepted? ==> FlagsTrimmed(old(cancel)[id := false], cancel)
      ensures r.NotRecorded? ==> order == old(order) && disk == old(disk) && Trimmed(old(jobs), jobs)
      ensures Fits(old(jobs)[id := NewJob(id, request, now)], managed, size, ok) ==> r.Accepted?
    {
      hide Trimmed, FlagsTrimmed, MemoryOk, OrderOk, ManagedOk, DiskOk, Fits, RequestOk;
      NewPlace(order, sequence, taken, id);
      var written := RecordNew(NewJob(id, request, now), readings, ok);
      if !written {
        return NotRecorded;
      }
      sequence := sequence + 1;
      order := order[id := sequence];
      return Accepted(id);
    }

    method RecordNew(job: Job, readings: nat -> int, ok: bool) returns (written: bool)
      requires Valid() && RequestOk(job.request, limits.maximum) && job.status == Queued
      requires job.id !in jobs && job.id !in order && job.id !in cancel && worker != Holding(job.id)
      requires |Waiting(jobs)| < limits.queueSize && forall j | j in jobs :: jobs[j].request.key != job.request.key
      modifies this`jobs, this`cancel, this`disk
      ensures DiskOk()
      ensures if written
        then job.id in jobs && Trimmed(old(jobs)[job.id := job], jobs) && disk == Some(Saved(jobs, managed))
          && MemoryOk(limits, jobs, order[job.id := sequence + 1], worker, cancel, stopping)
        else Trimmed(old(jobs), jobs) && disk == old(disk) && MemoryOk(limits, jobs, order, worker, cancel, stopping)
      ensures written ==> FlagsTrimmed(old(cancel)[job.id := false], cancel)
      ensures Fits(old(jobs)[job.id := job], managed, size, ok) ==> written
    {
      hide Trimmed, FlagsTrimmed, MemoryOk, OrderOk, ManagedOk, JobsOk, DiskOk, FinishedSet, Pruned, Fits, RequestOk;
      ghost var before, flags := jobs, cancel;
      SubmitKeeps(limits, jobs, order, worker, cancel, stopping, job, sequence + 1);
      MemoryIs(limits, jobs[job.id := job], order[job.id := sequence + 1], worker, cancel[job.id := false], stopping);
      jobs := jobs[job.id := job];
      cancel := cancel[job.id := false];
      var persisted := Persist(readings, ok);
      SubmitSettles(limits, before, jobs, order, worker, flags, cancel, stopping, job, sequence + 1);
      SaveableFits(before[job.id := job], jobs, managed, size, ok);
      written := persisted == Written;
      if !written {
        jobs := jobs - {job.id};
        cancel := cancel - {job.id};
      }
    }

    /** A region's changes are saved; the region has put the order and the worker as they will be. */
    method Save(readings: nat -> int, ok: bool) returns (r: Persisted)
      requires MemoryOk(limits, jobs, order, worker, cancel, stopping) && ManagedOk(managed) && DiskOk()
      modifies this`jobs, this`cancel, this`disk
      ensures MemoryOk(limits, jobs, order, worker, cancel, stopping) && DiskOk()
      ensures Trimmed(old(jobs), jobs)
      ensures disk == if r == Written then Some(Saved(jobs, managed)) else old(disk)
      ensures FlagsTrimmed(old(cancel), cancel)
      ensures r == if size(jobs, managed) > MAX_STATE_BYTES then TooLarge else if ok then Written else Broken
      ensures r == TooLarge ==> FinishedSet(jobs) == {}
      ensures Encoding(size) ==> (r == TooLarge <==> size(Unfinished(old(jobs)), managed) > MAX_STATE_BYTES)
      ensures Fits(old(jobs), managed, size, ok) ==> r == Written
    {
      hide Trimmed, FlagsTrimmed, MemoryOk, ManagedOk, JobsOk, DiskOk, Pruned, Fits, Encoding, Unfinished;
      MemoryIs(limits, jobs, order, worker, cancel, stopping);
      ghost var before, flags := jobs, cancel;
      r := Persist(readings, ok);
      TrimKeeps(limits, before, jobs, order, worker, flags, cancel, stopping);
      SaveableFits(before, jobs, managed, size, ok);
      if Encoding(size) {
        TooLargeIff(size, before, jobs, managed);
      }
    }

    /** `cancel`: a waiting job ends at once, a running one is told to stop. */
    method Cancel(id: JobId, now: nat, readings: nat -> int, ok: bool) returns (fault: Fault)
      requires Valid()
      modifies this`jobs, this`cancel, this`order, this`disk
      ensures Valid()
      ensures fault == NotFound <==> id !in old(jobs)
      ensures fault == AlreadyFinished <==> id in old(jobs) && Finished(old(jobs)[id])
      ensures fault == NotFound || fault == AlreadyFinished ==>
        jobs == old(jobs) && cancel == old(cancel) && order == old(order) && disk == old(disk)
      ensures id in old(jobs) && old(jobs)[id].status == Downloading ==>
        jobs == old(jobs) && cancel == old(cancel)[id := true] && order == old(order) && disk == old(disk)
      ensures id in old(jobs) && old(jobs)[id].status == Queued && id in jobs ==>
        jobs[id] == old(jobs)[id].(status := Status.Canceled, updated := now, error := Some(CANCELED))
      ensures id in old(jobs) && old(jobs)[id].status == Queued ==>
        && Trimmed(old(jobs)[id := Ended(old(jobs)[id], CheckpointState.Canceled, CANCELED, now)], jobs)
        && order == old(order) - {id}
        && disk == (if fault == NoFault then Some(Saved(jobs, managed)) else old(disk))
        && (Fits(old(jobs)[id := Ended(old(jobs)[id], CheckpointState.Canceled, CANCELED, now)], managed, size, ok) ==> fault == NoFault)
    {
      hide Trimmed, FlagsTrimmed, MemoryOk, OrderOk, ManagedOk, DiskOk, Fits;
      if id !in jobs {
        return NotFound;
      }
      if Finished(jobs[id]) {
        return AlreadyFinished;
      }
      WorkerIs(limits, jobs, order, worker, cancel, stopping, id);
      if jobs[id].status != Queued {
        FlagKeeps(limits, jobs, order, worker, cancel, stopping, id);
        cancel := cancel[id := true];
        return NoFault;
      }
      var job := Ended(jobs[id], CheckpointState.Canceled, CANCELED, now);
      EndKeeps(limits, jobs, order, worker, cancel, stopping, job, true, worker);
      Leaves(order, sequence, taken, id);
      cancel := cancel[id := true];
      jobs := jobs[id := job];
      order := order - {id};
      ghost var ended := jobs;
      var r := Save(readings, ok);
      OneKept(ended, jobs, id);
      return if r == Written then NoFault else NotSaved;
    }

    /** `_next_job_locked`: the oldest waiting job; entries of jobs that ended are dropped. */
    method NextJob() returns (next: Option<JobId>)
      requires Valid() && worker == Idle && !stopping
      modifies this`order
      ensures next.None? ==> Valid() && order == map[]
      ensures next.Some? ==>
        && next.value in old(order) && next.value in jobs && jobs[next.value].status == Queued
        && MemoryOk(limits, jobs, order, Holding(next.value), cancel, stopping)
        && OrderOk(order, sequence, old(order)[next.value]) && old(order)[next.value] > taken
        && AheadOfAll(jobs, old(order), order, next.value)
    {
      hide MemoryOk, OrderOk, ManagedOk, DiskOk, Thinned, AheadOfAll;
      Unchanged(jobs, order);
      while order != map[]
        modifies this`order
        invariant Valid()
        invariant Thinned(jobs, old(order), order)
        decreases |order|
      {
        PlacesDiffer(order, sequence, taken);
        var id := First(order);
        TakeKeeps(limits, jobs, order, sequence, taken, cancel, id);
        Thins(jobs, old(order), order, id);
        order := order - {id};
        if id in jobs && jobs[id].status == Queued {
          return Some(id);
        }
      }
      return None;
    }

    /** The region of `_worker_loop` that waits for a job. */
    method TakeNext()
      requires Valid() && worker == Idle
      modifies this`order, this`worker, this`taken
      ensures Valid()
      ensures stopping ==> worker == Gone && order == old(order)
      ensures !stopping ==> worker == Idle || worker.Holding?
      ensures worker == Idle ==> Waiting(jobs) == {}
      ensures worker.Holding? ==>
        && worker.id in old(order) && taken == old(order)[worker.id] > old(taken)
        && worker.id in jobs && jobs[worker.id].status == Queued
        && AheadOfAll(jobs, old(order), order, worker.id)
    {
      hide MemoryOk, OrderOk, ManagedOk, DiskOk, AheadOfAll;
      if stopping {
        StopKeeps(limits, jobs, order, worker, cancel, stopping, Gone);
        worker := Gone;
        return;
      }
      ghost var before := order;
      var next := NextJob();
      if next.Some? {
        worker := Holding(next.value);
        taken := before[next.value];
      } else {
        NoneWaits(limits, jobs, order, cancel);
      }
    }

    /** The first region of `_run_job`. */
    method Begin(now: nat, readings: nat -> int, ok: bool)
      requires Valid() && worker.Holding?
      modifies this`jobs, this`cancel, this`worker, this`disk
      ensures Valid()
      ensures var id := old(worker).id;
        if id in old(jobs) && old(jobs)[id].status == Queued && !(id in old(cancel) && old(cancel)[id]) then
          && Trimmed(old(jobs)[id := old(jobs)[id].(status := Downloading, updated := now)], jobs)
          && (if worker == Running(id) then disk == Some(Saved(jobs, managed)) else worker == Failing(id) && disk == old(disk))
          && (Fits(old(jobs)[id := old(jobs)[id].(status := Downloading, updated := now)], managed, size, ok) ==> worker == Running(id))
        else worker == Idle && jobs == old(jobs) && disk == old(disk) && cancel == old(cancel)
    {
      hide Trimmed, FlagsTrimmed, MemoryOk, OrderOk, ManagedOk, DiskOk, Fits;
      var id := worker.id;
      if id !in jobs || jobs[id].status != Queued || (id in cancel && cancel[id]) {
        LetGoKeeps(limits, jobs, order, id, cancel, stopping);
        worker := Idle;
        return;
      }
      WorkerIs(limits, jobs, order, worker, cancel, stopping, id);
      var job := jobs[id].(status := Downloading, updated := now);
      StartKeeps(limits, jobs, order, cancel, stopping, job);
      cancel := cancel[id := false];
      jobs := jobs[id := job];
      worker := Running(id);
      var r := Save(readings, ok);
      if r != Written {
        FailKeeps(limits, jobs, order, worker, cancel, stopping, id);
        worker := Failing(id);
      }
    }

    /** The region of `_download` after each chunk; it is not saved. */
    method Progress(total: nat, now: nat)
      requires Valid() && worker.Running?
      modifies this`jobs
      ensures Valid()
      ensures jobs == old(jobs)[worker.id := old(jobs)[worker.id].(received := total, updated := now)]
    {
      hide RequestOk;
      WorkerIs(limits, jobs, order, worker, cancel, stopping, worker.id);
      ProgressKeeps(limits, jobs, order, worker, cancel, stopping, jobs[worker.id].(received := total, updated := now));
      hide MemoryOk;
      jobs := jobs[worker.id := jobs[worker.id].(received := total, updated := now)];
    }

    /** The region of `_run_job`, `_finish_error` or `_requeue_for_restart` that ends a download. */
    method End(outcome: Outcome, now: nat, readings: nat -> int, ok: bool)
      requires Valid() && worker.Running? && OutcomeOk(outcome, limits.maximum)
      modifies this`jobs, this`managed, this`cancel, this`worker, this`disk
      ensures Valid()
      ensures var id := old(worker).id;
        && id in old(jobs) && Trimmed(old(jobs)[id := AfterDownload(old(jobs)[id], outcome, stopping, now)], jobs)
        && managed == (if outcome.Installed?
             then old(managed)[old(jobs)[id].request.target := Item(old(jobs)[id].request.target, outcome.digest, outcome.size, id)]
             else old(managed))
        && (if worker == Idle then disk == Some(Saved(jobs, managed)) else worker == Failing(id) && disk == old(disk))
        && (Fits(old(jobs)[id := AfterDownload(old(jobs)[id], outcome, stopping, now)], managed, size, ok) ==> worker == Idle)
        && (Encoding(size) ==> (worker == Idle <==>
              ok && size(Unfinished(old(jobs)[id := AfterDownload(old(jobs)[id], outcome, stopping, now)]), managed) <= MAX_STATE_BYTES))
        && (worker.Failing? && id in jobs && Finished(jobs[id]) ==> size(jobs, managed) <= MAX_STATE_BYTES)
      ensures var id, was := old(worker).id, old(jobs)[old(worker).id];
        && (stopping && !outcome.Installed? ==>
              id in jobs && jobs[id] == was.(status := Queued, received := 0, updated := now, error := None))
        && (!stopping && outcome.Canceled? && id in jobs ==>
              jobs[id] == was.(status := Status.Canceled, updated := now, error := Some(CANCELED)))
        && (!stopping && outcome.Failed? && id in jobs ==>
              jobs[id] == was.(status := Status.Failed, updated := now, error := Some(outcome.code)))
        && (outcome.Installed? && id in jobs ==>
              jobs[id] == was.(status := Completed, received := outcome.size, digest := Some(outcome.digest),
                               size := Some(outcome.size), updated := now, error := None))
    {
      hide Trimmed, FlagsTrimmed, MemoryOk, OrderOk, DiskOk, Fits, Encoding, Unfinished, RequestOk, Path, Digest, FinishedSet, Finished, AfterDownload;
      var id := worker.id;
      WorkerIs(limits, jobs, order, worker, cancel, stopping, id);
      TargetIs(limits, jobs, order, worker, cancel, stopping, id);
      DownloadEnds(limits, jobs, order, id, cancel, stopping, outcome, now);
      var job := AfterDownload(jobs[id], outcome, stopping, now);
      if outcome.Installed? {
        var target := jobs[id].request.target;
        managed := managed[target := Item(target, outcome.digest, outcome.size, id)];
      }
      ghost var ended := jobs[id := job];
      jobs := jobs[id := job];
      worker := Idle;
      var r := Save(readings, ok);
      OneKept(ended, jobs, id);
      DownloadIs(old(jobs)[id], outcome, stopping, now);
      NoneFinished(jobs);
      if r != Written {
        FailKeeps(limits, jobs, order, worker, cancel, stopping, id);
        worker := Failing(id);
      }
    }

    /** The exception handler of `_worker_loop`: the job fails; the exception ends the worker if even that cannot be
        recorded, because the other unfinished jobs and the managed files alone make the state too large. */
    method Recover(now: nat, readings: nat -> int, ok: bool)
      requires Valid() && worker.Failing?
      modifies this`jobs, this`cancel, this`worker, this`disk
      ensures Valid()
      ensures var id := old(worker).id;
        if id in old(jobs) then
          && Trimmed(old(jobs)[id := Ended(old(jobs)[id], CheckpointState.Failed, INTERNAL_ERROR, now)], jobs)
          && (worker == Idle || worker == Gone) && (worker == Gone <==> size(jobs, managed) > MAX_STATE_BYTES)
          && (Encoding(size) ==> (worker == Gone <==> size(Unfinished(old(jobs) - {id}), managed) > MAX_STATE_BYTES))
          && (disk == old(disk) || disk == Some(Saved(jobs, managed)))
          && (Fits(old(jobs)[id := Ended(old(jobs)[id], CheckpointState.Failed, INTERNAL_ERROR, now)], managed, size, ok) ==>
                worker == Idle && disk == Some(Saved(jobs, managed)))
        else worker == Idle && jobs == old(jobs) && disk == old(disk)
      ensures var id := old(worker).id;
        id in jobs ==> jobs[id] == old(jobs)[id].(status := Status.Failed, updated := now, error := Some(INTERNAL_ERROR))
    {
      hide Trimmed, FlagsTrimmed, MemoryOk, OrderOk, ManagedOk, DiskOk, FinishedSet, Fits, Encoding, Unfinished;
      var id := worker.id;
      if id !in jobs {
        NothingFails(limits, jobs, order, worker, cancel, stopping);
        worker := Idle;
        return;
      }
      WorkerIs(limits, jobs, order, worker, cancel, stopping, id);
      var job := Ended(jobs[id], CheckpointState.Failed, INTERNAL_ERROR, now);
      EndKeeps(limits, jobs, order, worker, cancel, stopping, job, false, Idle);
      ghost var before := jobs;
      jobs := jobs[id := job];
      worker := Idle;
      var r := Save(readings, ok);
      FailedIsForgettable(before, job);
      OneKept(before[id := job], jobs, id);
      if r == TooLarge {
        StopKeeps(limits, jobs, order, worker, cancel, stopping, Gone);
        worker := Gone;
      }
    }

    /** `close`. */
    method Close()
      requires Valid()
      modifies this`stopping, this`cancel
      ensures Valid() && stopping
      ensures cancel.Keys == old(cancel).Keys && forall id | id in cancel :: cancel[id]
    {
      stopping := true;
      cancel := map id | id in cancel :: true;
    }

    /** The first region of `delete_checkpoint`: what the client named is what is recorded, and nobody else deletes it. */
    method BeginDelete(name: FileName, ifMatch: Option<string>) returns (r: Asked)
      modifies this`deleting
      ensures r.InvalidName? <==> !Path(name)
      ensures r.MatchRequired? <==> Path(name) && (ifMatch.None? || ifMatch == Some(""))
      ensures r.Missing? || r.Busy? || r.Begun? ==> Supplied(ifMatch).Some?
      ensures r.Missing? ==> name !in managed
      ensures r.Busy? || r.Begun? ==> name in managed && Supplied(ifMatch) == Some(managed[name].digest)
      ensures r.NoMatch? ==> Supplied(ifMatch).None? || (name in managed && Supplied(ifMatch) != Some(managed[name].digest))
      ensures r.Busy? ==> name in old(deleting)
      ensures deleting == if r.Begun? then old(deleting)[name := managed[name]] else old(deleting)
      ensures r.Begun? ==> name !in old(deleting)
    {
      if !Path(name) {
        return InvalidName;
      }
      if ifMatch.None? || ifMatch.value == "" {
        return MatchRequired;
      }
      var supplied := Supplied(ifMatch);
      if supplied.None? {
        return NoMatch;
      }
      if name !in managed {
        return Missing;
      }
      if supplied.value != managed[name].digest {
        return NoMatch;
      }
      if name in deleting {
        return Busy;
      }
      deleting := deleting[name := managed[name]];
      return Begun;
    }

    /** The rest of `delete_checkpoint`, after the file was opened and hashed (`look`): the file goes, with its record, if
        the one there now (`current`) is that file, unchanged, and the record is the one the first region saw. So what
        is unlinked has the digest that was asked for. */
    method Delete(name: FileName, look: Option<Look>, current: Option<Stat>, readings: nat -> int, ok: bool, ghost content: Stat -> string)
        returns (r: Removal)
      requires Valid() && name in deleting
      modifies this`jobs, this`managed, this`cancel, this`disk
      ensures Valid()
      ensures r.Unlinked? <==> Intact(look, current, deleting[name].digest) && name in old(managed) && old(managed)[name] == deleting[name]
      ensures r.Unlinked? && Hashes(look.value, content) ==> content(current.value) == deleting[name].digest
      ensures r.FileMissing? ==> look.None? || current.None?
      ensures r.NotRegular? <==> look.Some? && !look.value.before.regular
      ensures r.OtherContent? <==> look.Some? && look.value.before.regular && look.value.digest != deleting[name].digest
      ensures !r.Unlinked? ==> managed == old(managed) && jobs == old(jobs) && cancel == old(cancel) && disk == old(disk)
      ensures r.Unlinked? ==>
        && managed == old(managed) - {name} && Trimmed(old(jobs), jobs)
        && disk == (if r.saved then Some(Saved(jobs, managed)) else old(disk))
        && (Fits(old(jobs), managed, size, ok) ==> r.saved)
    {
      hide Trimmed, FlagsTrimmed, MemoryOk, OrderOk, DiskOk, Fits, Path, Digest;
      if look.None? {
        return FileMissing;
      }
      if !look.value.before.regular {
        return NotRegular;
      }
      if look.value.digest != deleting[name].digest {
        return OtherContent;
      }
      if current.None? {
        return FileMissing;
      }
      var same := current.value.regular && look.value.before == current.value && current.value == look.value.after;
      if !same || name !in managed || managed[name] != deleting[name] {
        return Changed;
      }
      managed := managed - {name};
      var persisted := Save(readings, ok);
      return Unlinked(persisted == Written);
    }

    /** The last: others may delete it again. */
    method EndDelete(name: FileName)
      modifies this`deleting
      ensures deleting == old(deleting) - {name}
    {
      deleting := deleting - {name};
    }

    /** The state file has room for what the worker may have to record. */
    ghost predicate Room()
      reads this
    {
      Roomy(size, jobs, managed, worker, stopping)
    }

    /** No unfinished job would be lost in a crash. */
    ghost predicate Durable()
      reads this
    {
      Lasts(jobs, disk)
    }

    /** One turn of a running process: an event that cannot happen now is passed over. */
    method Perform(turn: Turn)
      requires Valid() && !turn.event.Restarts?
      modifies this
      ensures Valid()
      ensures Compact(size, limits.maximum) && old(Room()) ==> Room()
      ensures old(Durable()) ==> Durable()
    {
      if turn.event.Takes? || turn.event.Begins? || turn.event.Progresses? || turn.event.Ends? || turn.event.Recovers? {
        Work(turn);
      } else {
        Serve(turn);
      }
    }

    /** A request, or the end of the agent. */
    method Serve(turn: Turn)
      requires Valid()
      modifies this
      ensures Valid()
      ensures Compact(size, limits.maximum) && old(Room()) ==> Room()
      ensures old(Durable()) ==> Durable()
    {
      hide MemoryOk, OrderOk, ManagedOk, DiskOk, Trimmed, Fits, FinishedSet, AheadOfAll, Waiting, Compact, Roomy, Parse, Stored, Normal, Lasts;
      ghost var roomy := Compact(size, limits.maximum) && Room();
      ghost var before, records, stopped, file, durable := jobs, managed, stopping, disk, Durable();
      match turn.event
      case Submits(body, id) =>
        if id !in jobs && id !in order && id !in cancel && worker != Holding(id) {
          var r := Post(body, id, turn.now, turn.readings, turn.ok);
          if durable {
            LastsTrimmed(before, file, jobs, managed, disk);
          }
          SavedIsSmall();
          if roomy {
            PostStaysRoomy(size, limits.maximum, before, managed, worker, stopping, id, Parse(body, limits.maximum), turn.now, jobs, r);
          }
        }
      case Cancels(id) =>
        var r := Cancel(id, turn.now, turn.readings, turn.ok);
        if durable {
          CancelLasts(before, file, id, turn.now, jobs, managed, disk);
        }
        if roomy {
          CancelStaysRoomy(size, limits.maximum, before, managed, worker, stopping, id, turn.now, jobs);
        }
      case BeginsDelete(name, ifMatch) => var r := BeginDelete(name, ifMatch);
      case Deletes(name, look, current) =>
        if name in deleting {
          var r := Delete(name, look, current, turn.readings, turn.ok, stat => "");
          if durable {
            DeleteLasts(before, file, jobs, managed, disk);
          }
          if roomy {
            DeleteStaysRoomy(size, limits.maximum, before, records, worker, stopping, name, jobs, managed);
          }
        }
      case EndsDelete(name) => EndDelete(name);
      case Closes =>
        Close();
        if roomy {
          SameStaysRoomy(size, limits.maximum, jobs, managed, worker, stopped, worker, stopping);
        }
      case _ =>
    }

    /** One turn of the worker. */
    method Work(turn: Turn)
      requires Valid()
      modifies this
      ensures Valid()
      ensures Compact(size, limits.maximum) && old(Room()) ==> Room()
      ensures old(Durable()) ==> Durable()
    {
      hide MemoryOk, OrderOk, ManagedOk, DiskOk, Trimmed, Fits, FinishedSet, AheadOfAll, Waiting, Compact, Roomy, Lasts;
      ghost var roomy := Compact(size, limits.maximum) && Room();
      ghost var before, records, was, file, durable := jobs, managed, worker, disk, Durable();
      match turn.event
      case Takes =>
        if worker == Idle {
          TakeNext();
          if roomy {
            SameStaysRoomy(size, limits.maximum, jobs, managed, was, stopping, worker, stopping);
          }
        }
      case Begins =>
        if worker.Holding? {
          Begin(turn.now, turn.readings, turn.ok);
          if durable {
            BeginLasts(before, file, was.id, turn.now, jobs, managed, disk);
          }
          SavedIsSmall();
          if roomy {
            BeginStaysRoomy(size, limits.maximum, before, managed, was, stopping, turn.now, jobs, worker);
          }
        }
      case Progresses(total) =>
        if worker.Running? {
          WorkerIs(limits, jobs, order, worker, cancel, stopping, worker.id);
          Progress(total, turn.now);
          if durable {
            ProgressLasts(before, file, was.id, jobs, managed, disk);
          }
          if roomy {
            ProgressStaysRoomy(size, limits.maximum, before, managed, worker, stopping, jobs);
          }
        }
      case Ends(outcome) =>
        if worker.Running? && OutcomeOk(outcome, limits.maximum) {
          RunningIs(limits, jobs, order, worker, cancel, stopping);
          End(outcome, turn.now, turn.readings, turn.ok);
          if durable {
            LastsChanged(before, file, was.id, AfterDownload(before[was.id], outcome, stopping, turn.now), jobs, managed, disk);
          }
          if roomy {
            EndStaysRoomy(size, limits.maximum, before, records, was.id, stopping, outcome, turn.now, jobs, managed, worker);
          }
        }
      case Recovers =>
        if worker.Failing? {
          FailingIs(limits, jobs, order, worker, cancel, stopping);
          Recover(turn.now, turn.readings, turn.ok);
          if durable {
            RecoverLasts(before, file, was.id, turn.now, jobs, managed, disk);
          }
          if roomy {
            RecoverStaysRoomy(size, limits.maximum, before, managed, was.id, stopping, turn.now, jobs, worker);
          }
        }
      case _ =>
    }

    lemma SavedIsSmall()
      requires DiskOk()
      ensures disk == Some(Saved(jobs, managed)) ==> size(jobs, managed) <= MAX_STATE_BYTES
    {
    }

    /** Over any run, with a crash and a restart between any two regions: at most one job downloads, and at most
        queue_size + 1 are unfinished, in memory and in the file. Where a record takes no more bytes than two jobs,
        the worker of a running agent ends only when the agent stops. */
    method AnyRun(turns: seq<Turn>) returns (up: bool)
      requires DiskOk()
      modifies this
      ensures DiskOk() && (up ==> Valid() && |Downloads(jobs)| <= 1 && |Waiting(jobs)| + |Downloads(jobs)| <= limits.queueSize + 1)
      ensures disk.Some? ==> |Active(disk.value.jobs)| <= limits.queueSize + 1
      ensures up ==> Durable()
      ensures Compact(size, limits.maximum) && up && worker == Gone ==> stopping
    {
      up := false;
      for i := 0 to |turns|
        invariant DiskOk() && (up ==> Valid() && Durable()) && (Compact(size, limits.maximum) && up ==> Room())
      {
        if turns[i].event.Restarts? {
          up := Start(turns[i]);
        } else if up {
          Perform(turns[i]);
        }
      }
      if up {
        QueueIsBounded(limits, jobs, order, worker, cancel, stopping);
      }
    }

    /** A process ends at any moment of a run, and another one starts: every job that had not finished waits again. */
    method Crash(turn: Turn) returns (up: bool)
      requires DiskOk() && Durable() && turn.event.Restarts?
      modifies this
      ensures up ==> forall id | id in old(jobs) && !Finished(old(jobs)[id]) ::
        id in jobs && jobs[id].status == Queued && id in order && jobs[id].request == old(jobs)[id].request
    {
      up := Start(turn);
    }

    /** A download that a stop interrupts is resumed by the next process, saved or not. */
    method StopAndResume(outcome: Outcome, now: nat, readings: nat -> int, ok: bool, turn: Turn) returns (up: bool)
      requires Valid() && Durable() && worker.Running? && stopping && !outcome.Installed? && turn.event.Restarts?
      modifies this
      ensures up ==> old(worker).id in Waiting(jobs) && old(worker).id in order
    {
      hide MemoryOk, OrderOk, ManagedOk, DiskOk, Trimmed, Fits, Encoding, Lasts;
      RunningIs(limits, jobs, order, worker, cancel, stopping);
      ghost var before, file, id := jobs, disk, worker.id;
      End(outcome, now, readings, ok);
      LastsChanged(before, file, id, AfterDownload(before[id], outcome, stopping, now), jobs, managed, disk);
      up := Crash(turn);
    }

    /** What `AnyRun` does when a process starts. */
    method Start(turn: Turn) returns (up: bool)
      requires DiskOk() && turn.event.Restarts?
      modifies this
      ensures DiskOk() && (up ==> Valid() && Durable()) && (Compact(size, limits.maximum) && up ==> Room())
      ensures up && old(disk).Some? ==> Resumes(old(disk).value.jobs, jobs, order)
    {
      hide MemoryOk, OrderOk, ManagedOk, Compact, Roomy, PutBackOk, Encoding, JobsOk, Lasts, Resumes;
      ghost var saved := if disk.Some? then disk.value else Saved(map[], map[]);
      ghost var written := disk.Some?;
      up := Restart(turn.event.stamps, turn.now, turn.readings, turn.ok);
      if up {
        RestartLasts(limits, saved, written, turn.event.stamps, jobs, order, cancel, managed, disk);
      }
      if up && Compact(size, limits.maximum) {
        RestartIsRoomy(size, limits, saved, written, turn.event.stamps, jobs, order, cancel);
      }
    }

    /** A process that ended anywhere starts again: only the file is left. `stamps` are the times given to recovered
        jobs. */
    method Restart(stamps: JobId -> nat, now: int, readings: nat -> int, ok: bool) returns (started: bool)
      requires DiskOk()
      modifies this
      ensures DiskOk() && (!started ==> disk == old(disk))
      ensures started ==> Valid() && !stopping && worker == Idle
      ensures started ==>
        var saved := if old(disk).Some? then old(disk).value else Saved(map[], map[]);
        managed == saved.managed && PutBackOk(limits, saved, stamps, jobs, order, cancel)
      ensures started ==> disk == old(disk) || disk == Some(Saved(jobs, managed))
      ensures started && old(disk).Some? ==> Resumes(old(disk).value.jobs, jobs, order)
      ensures Encoding(size) && ok ==> started
    {
      hide RequestOk, Parse, Stored, Readable, ManagedOk, MemoryOk, PutBackOk, JobsOk, Encoding, OrderOk, Resumes;
      worker, stopping, order, sequence, cancel := Idle, false, map[], 0, map[];
      taken, deleting := 0, map[];
      jobs, managed := map[], map[];
      if disk.None? {
        NothingYet(limits, stamps);
        return true;
      }
      var saved := disk.value;
      SavedIsReadable(limits, saved, size(saved.jobs, saved.managed));
      if !Readable(saved, size(saved.jobs, saved.managed), limits.maximum) {
        return false;
      }
      started := Load(saved, stamps, now, readings, ok);
      WellFormedIs(saved.jobs, limits);
      if started {
        PutBackResumes(limits, saved, stamps, jobs, order, cancel, sequence, taken);
      }
    }

    /** The first part of `_load_state`: unfinished jobs wait again, in their order. */
    method PutBack(saved: Saved, stamps: JobId -> nat)
      requires JobsOk(saved.jobs, limits.queueSize, limits.maximum)
      modifies this`jobs, this`managed, this`order, this`sequence, this`cancel
      ensures managed == saved.managed && OrderOk(order, sequence, 0)
      ensures PutBackOk(limits, saved, stamps, jobs, order, cancel)
    {
      hide JobsOk, WorkerOk, WellFormed, Waiting, Active, Ordered, PutBackOk, OrderOk, RequestOk;
      var next, recovered := RecoveredJobs(saved.jobs, stamps), Active(saved.jobs);
      RecoveredOk(limits, saved.jobs, stamps);
      RecoveredQueue(limits, next, recovered);
      var places, last := EnqueueAll(next, recovered);
      var flags := map id | id in recovered :: false;
      RecoveredKeeps(limits, saved, stamps, next, recovered, places, flags);
      jobs, managed, cancel, order, sequence := next, saved.managed, flags, places, last;
    }

    /** `_load_state` of a readable file. */
    method Load(saved: Saved, stamps: JobId -> nat, now: int, readings: nat -> int, ok: bool) returns (started: bool)
      requires DiskOk() && disk == Some(saved) && worker == Idle && !stopping && taken == 0
      modifies this`jobs, this`managed, this`order, this`sequence, this`cancel, this`disk
      ensures DiskOk() && (!started ==> disk == old(disk))
      ensures started ==> Valid() && managed == saved.managed && PutBackOk(limits, saved, stamps, jobs, order, cancel)
      ensures started ==> disk == old(disk) || disk == Some(Saved(jobs, managed))
      ensures Encoding(size) && ok ==> started
    {
      hide JobsOk, Trimmed, FlagsTrimmed, MemoryOk, OrderOk, Pruned, FinishedSet, ManagedOk, PutBackOk, Active, WellFormed, Encoding;
      PutBack(saved, stamps);
      PutBackIs(limits, saved, stamps, jobs, order, cancel);
      ghost var first, flags := jobs, cancel;
      var changed := Prune(MAX_FINISHED_JOBS, now);
      PutBackTrims(limits, saved, stamps, first, jobs, order, flags, cancel);
      if Active(saved.jobs) == {} && !changed {
        PutBackIs(limits, saved, stamps, jobs, order, cancel);
        return true;
      }
      started := Settle(saved, stamps, readings, ok);
      PutBackIs(limits, saved, stamps, jobs, order, cancel);
    }

    /** The last part of `_load_state`: what changed is saved. */
    method Settle(saved: Saved, stamps: JobId -> nat, readings: nat -> int, ok: bool) returns (started: bool)
      requires DiskOk() && disk == Some(saved) && worker == Idle && !stopping && managed == saved.managed
      requires PutBackOk(limits, saved, stamps, jobs, order, cancel)
      modifies this`jobs, this`cancel, this`disk
      ensures DiskOk() && (!started ==> disk == old(disk))
      ensures PutBackOk(limits, saved, stamps, jobs, order, cancel)
      ensures started ==> disk == old(disk) || disk == Some(Saved(jobs, managed))
      ensures Encoding(size) && ok ==> started
    {
      PutBackIs(limits, saved, stamps, jobs, order, cancel);
      hide JobsOk, Trimmed, FlagsTrimmed, MemoryOk, FinishedSet, PutBackOk, Encoding;
      ghost var before, flags := jobs, cancel;
      var r := Save(readings, ok);
      PutBackTrims(limits, saved, stamps, before, jobs, order, flags, cancel);
      StaysSmall(limits, size, saved, stamps, jobs, order, cancel);
      started := r == Written;
    }
  }

  /** A job after its download: installed, ended, or, when the agent stops, waiting again. */
  function AfterDownload(job: Job, outcome: Outcome, stopping: bool, now: nat): Job {
    match outcome
    case Installed(digest, size) =>
      job.(status := Completed, received := size, digest := Some(digest), size := Some(size), updated := now, error := None)
    case Canceled => if stopping then Requeued(job, now) else Ended(job, CheckpointState.Canceled, CANCELED, now)
    case Failed(code) => if stopping then Requeued(job, now) else Ended(job, CheckpointState.Failed, code, now)
  }

  /** What is missing of the places is not of waiting jobs. */
  predicate Thinned(jobs: Jobs, order: Order, next: Order) {
    && (forall id | id in next :: id in order && next[id] == order[id])
    && (forall id | id in order && id !in next :: id !in jobs || jobs[id].status != Queued)
  }

  lemma Unchanged(jobs: Jobs, order: Order)
    ensures Thinned(jobs, order, order)
  {
  }

  lemma Thins(jobs: Jobs, order: Order, next: Order, id: JobId)
    requires Thinned(jobs, order, next) && id in next && forall j | j in next && j != id :: next[id] < next[j]
    ensures id !in jobs || jobs[id].status != Queued ==> Thinned(jobs, order, next - {id})
    ensures id in order && order[id] == next[id]
    ensures AheadOfAll(jobs, order, next - {id}, id)
  {
  }

  /** Every other waiting job keeps its place, and that is later. */
  predicate AheadOfAll(jobs: Jobs, order: Order, next: Order, id: JobId) {
    id in order && forall j | j in order && j in jobs && jobs[j].status == Queued && j != id ::
      j in next && next[j] == order[j] > order[id]
  }

  lemma PlacesDiffer(order: Order, sequence: nat, taken: nat)
    requires OrderOk(order, sequence, taken)
    ensures forall i, j | i in order && j in order && order[i] == order[j] :: i == j
  {
  }

  /** The first place. */
  method First(order: Order) returns (id: JobId)
    requires order != map[] && forall i, j | i in order && j in order && order[i] == order[j] :: i == j
    ensures id in order && forall j | j in order && j != id :: order[id] < order[j]
  {
    var rest := order.Keys;
    id :| id in rest;
    rest := rest - {id};
    while rest != {}
      invariant id in order && rest <= order.Keys
      invariant forall j | j in order && j != id && j !in rest :: order[id] < order[j]
      decreases |rest|
    {
      var j :| j in rest;
      if order[j] < order[id] {
        id := j;
      }
      rest := rest - {j};
    }
  }

  lemma StopKeeps(l: Limits, jobs: Jobs, order: Order, worker: Worker, cancel: Flags, stopping: bool, next: Worker)
    requires MemoryOk(l, jobs, order, worker, cancel, stopping) && worker == Idle && next == Gone
    ensures MemoryOk(l, jobs, order, next, cancel, stopping)
  {
  }

  lemma NothingFails(l: Limits, jobs: Jobs, order: Order, worker: Worker, cancel: Flags, stopping: bool)
    requires MemoryOk(l, jobs, order, worker, cancel, stopping) && worker.Failing? && worker.id !in jobs
    ensures MemoryOk(l, jobs, order, Idle, cancel, stopping)
  {
  }

  lemma TakeKeeps(l: Limits, jobs: Jobs, order: Order, sequence: nat, taken: nat, cancel: Flags, id: JobId)
    requires MemoryOk(l, jobs, order, Idle, cancel, false) && OrderOk(order, sequence, taken)
    requires id in order && forall j | j in order && j != id :: order[id] < order[j]
    ensures if id in jobs && jobs[id].status == Queued
      then MemoryOk(l, jobs, order - {id}, Holding(id), cancel, false) && OrderOk(order - {id}, sequence, order[id])
      else MemoryOk(l, jobs, order - {id}, Idle, cancel, false) && OrderOk(order - {id}, sequence, taken)
    ensures order[id] > taken
  {
    hide JobsOk;
  }

  lemma NoneWaits(l: Limits, jobs: Jobs, order: Order, cancel: Flags)
    requires MemoryOk(l, jobs, order, Idle, cancel, false) && order == map[]
    ensures Waiting(jobs) == {}
  {
  }

  /** Every job is under its ID, and its request is parsed again with the same result. */
  predicate Reparses(jobs: Jobs, maximum: nat) {
    forall id | id in jobs :: jobs[id].id == id && Parse(Stored(jobs[id].request), maximum) == Ok(jobs[id].request)
  }

  /** What `_load_state` accepts. */
  predicate Readable(saved: Saved, payload: nat, maximum: nat) {
    payload <= MAX_STATE_BYTES && Reparses(saved.jobs, maximum) && ManagedOk(saved.managed)
  }

  /** Every file that was saved is accepted, and no other. */
  lemma ReparsesWhenWellFormed(jobs: Jobs, maximum: nat)
    ensures Reparses(jobs, maximum) <==> WellFormed(jobs, maximum)
  {
    hide Parse, Stored, RequestOk;
    forall id | id in jobs
      ensures Parse(Stored(jobs[id].request), maximum) == Ok(jobs[id].request) <==> RequestOk(jobs[id].request, maximum)
    {
      ReparsesIff(jobs[id].request, maximum);
    }
  }

  lemma SavedIsReadable(l: Limits, saved: Saved, payload: nat)
    requires JobsOk(saved.jobs, l.queueSize, l.maximum) && ManagedOk(saved.managed) && payload <= MAX_STATE_BYTES
    ensures Readable(saved, payload, l.maximum)
  {
    hide ManagedOk, Reparses, WellFormed;
    ReparsesWhenWellFormed(saved.jobs, l.maximum);
  }

  lemma NoneFinished(jobs: Jobs)
    ensures FinishedSet(jobs) == {} ==> forall id | id in jobs :: !Finished(jobs[id])
  {
    assert forall id | id in jobs && Finished(jobs[id]) :: id in FinishedSet(jobs);
  }

  /** A job that is unfinished is kept, and one that is kept is what it was. */
  lemma OneKept(jobs: Jobs, next: Jobs, id: JobId)
    requires Trimmed(jobs, next) && id in jobs
    ensures !Finished(jobs[id]) ==> id in next
    ensures id in next ==> next[id] == jobs[id]
  {
  }

  lemma DownloadIs(job: Job, outcome: Outcome, stopping: bool, now: nat)
    ensures var next := AfterDownload(job, outcome, stopping, now);
      && (stopping && !outcome.Installed? ==>
            !Finished(next) && next == job.(status := Queued, received := 0, updated := now, error := None))
      && (!stopping && outcome.Canceled? ==> next == job.(status := Status.Canceled, updated := now, error := Some(CANCELED)))
      && (!stopping && outcome.Failed? ==> next == job.(status := Status.Failed, updated := now, error := Some(outcome.code)))
      && (outcome.Installed? ==>
            next == job.(status := Completed, received := outcome.size, digest := Some(outcome.digest), size := Some(outcome.size),
                         updated := now, error := None))
  {
  }

  lemma DownloadEnds(l: Limits, jobs: Jobs, order: Order, id: JobId, cancel: Flags, stopping: bool, outcome: Outcome, now: nat)
    requires MemoryOk(l, jobs, order, Running(id), cancel, stopping) && id in jobs && jobs[id].id == id
    ensures MemoryOk(l, jobs[id := AfterDownload(jobs[id], outcome, stopping, now)], order, Idle, cancel, stopping)
  {
    hide MemoryOk;
    var job := AfterDownload(jobs[id], outcome, stopping, now);
    if Finished(job) {
      EndKeeps(l, jobs, order, Running(id), cancel, stopping, job, false, Idle);
    } else {
      RequeueKeeps(l, jobs, order, cancel, job);
    }
  }

  lemma TargetIs(l: Limits, jobs: Jobs, order: Order, worker: Worker, cancel: Flags, stopping: bool, id: JobId)
    requires MemoryOk(l, jobs, order, worker, cancel, stopping) && id in jobs
    ensures Path(jobs[id].request.target)
  {
    hide Path, QueueOk, WorkerOk, KeysUnique;
  }

  /** The memory after a restart: every unfinished job of the file waits, in the order of creation; nothing else is
      missing but the oldest finished jobs. */
  ghost predicate PutBackOk(l: Limits, saved: Saved, stamps: JobId -> nat, jobs: Jobs, order: Order, cancel: Flags) {
    && MemoryOk(l, jobs, order, Idle, cancel, false)
    && Trimmed(RecoveredJobs(saved.jobs, stamps), jobs)
    && Waiting(jobs) == Active(saved.jobs) && order.Keys == Waiting(jobs) && Ordered(jobs, order) && cancel.Keys <= order.Keys
  }

  /** The file can be written, and it is small enough for this state even if nothing is forgotten. */
  ghost predicate Fits(jobs: Jobs, managed: Managed, size: (Jobs, Managed) -> nat, ok: bool) {
    ok && Encoding(size) && size(jobs, managed) <= MAX_STATE_BYTES
  }

  lemma SaveableFits(jobs: Jobs, next: Jobs, managed: Managed, size: (Jobs, Managed) -> nat, ok: bool)
    requires Trimmed(jobs, next)
    ensures Fits(jobs, managed, size, ok) ==> ok && size(next, managed) <= MAX_STATE_BYTES
  {
  }

  lemma NothingYet(l: Limits, stamps: JobId -> nat)
    ensures PutBackOk(l, Saved(map[], map[]), stamps, map[], map[], map[])
    ensures MemoryOk(l, map[], map[], Idle, map[], false) && ManagedOk(map[]) && OrderOk(map[], 0, 0)
  {
    assert Active(map[]) == {} && Waiting(map[]) == {};
  }

  /** A job that ended without its file. */
  function Ended(job: Job, status: Status, code: nat, now: nat): Job {
    job.(status := status, updated := now, error := Some(code))
  }

  lemma Leaves(order: Order, sequence: nat, taken: nat, id: JobId)
    requires OrderOk(order, sequence, taken)
    ensures OrderOk(order - {id}, sequence, taken)
  {
  }

  lemma WorkerIs(l: Limits, jobs: Jobs, order: Order, worker: Worker, cancel: Flags, stopping: bool, id: JobId)
    requires MemoryOk(l, jobs, order, worker, cancel, stopping)
    ensures id in jobs ==> jobs[id].id == id && (jobs[id].status != Downloading ==> worker != Running(id))
    ensures worker.Running? ==> worker.id in jobs && jobs[worker.id].id == worker.id && jobs[worker.id].status == Downloading
  {
  }

  lemma FlagKeeps(l: Limits, jobs: Jobs, order: Order, worker: Worker, cancel: Flags, stopping: bool, id: JobId)
    requires MemoryOk(l, jobs, order, worker, cancel, stopping) && id in jobs && jobs[id].status != Queued
    ensures MemoryOk(l, jobs, order, worker, cancel[id := true], stopping)
  {
  }

  lemma NewPlace(order: Order, sequence: nat, taken: nat, id: JobId)
    requires OrderOk(order, sequence, taken)
    ensures OrderOk(order[id := sequence + 1], sequence + 1, taken)
  {
  }

  /** After the new job is recorded it has its place; taken back, nothing but old finished jobs is missing. */
  lemma SubmitSettles(l: Limits, before: Jobs, jobs: Jobs, order: Order, worker: Worker, flags: Flags, cancel: Flags,
                      stopping: bool, job: Job, place: nat)
    requires MemoryOk(l, before, order, worker, flags, stopping) && job.id !in before && job.id !in flags && !Finished(job)
    requires MemoryOk(l, before[job.id := job], order[job.id := place], worker, flags[job.id := false], stopping)
    requires Trimmed(before[job.id := job], jobs) && FlagsTrimmed(flags[job.id := false], cancel)
    ensures job.id in jobs && MemoryOk(l, jobs, order[job.id := place], worker, cancel, stopping)
    ensures JobsOk(jobs, l.queueSize, l.maximum)
    ensures Trimmed(before, jobs - {job.id}) && MemoryOk(l, jobs - {job.id}, order, worker, cancel - {job.id}, stopping)
  {
    hide MemoryOk;
    TrimKeeps(l, before[job.id := job], jobs, order[job.id := place], worker, flags[job.id := false], cancel, stopping);
    TrimKeeps(l, before, jobs - {job.id}, order, worker, flags, cancel - {job.id}, stopping);
    MemoryIs(l, jobs, order[job.id := place], worker, cancel, stopping);
  }

  lemma MemoryIs(l: Limits, jobs: Jobs, order: Order, worker: Worker, cancel: Flags, stopping: bool)
    requires MemoryOk(l, jobs, order, worker, cancel, stopping)
    ensures JobsOk(jobs, l.queueSize, l.maximum) && WellFormed(jobs, l.maximum) && KeysUnique(jobs)
  {
  }

  function InHand(worker: Worker): (r: set<JobId>)
    ensures |r| <= 1
  {
    if worker.Running? || worker.Failing? then {worker.id} else {}
  }

  // ----- restart ---------------------------------------------------------------------------------

  /** The order in which recovered jobs are put back: by creation, then by ID. */
  predicate Before(a: Job, b: Job) {
    a.created < b.created || (a.created == b.created && a.id < b.id)
  }

  lemma RecoveredOk(l: Limits, jobs: Jobs, stamps: JobId -> nat)
    requires JobsOk(jobs, l.queueSize, l.maximum)
    ensures JobsOk(RecoveredJobs(jobs, stamps), l.queueSize, l.maximum)
    ensures Waiting(RecoveredJobs(jobs, stamps)) == Active(jobs)
    ensures WorkerOk(RecoveredJobs(jobs, stamps), Idle)
  {
    hide RequestOk;
    FollowsOk(jobs, RecoveredJobs(jobs, stamps), l.queueSize, l.maximum);
  }

  /** Places in the order of creation. */
  predicate Ordered(jobs: Jobs, order: Order) {
    forall i, j | i in order && j in order && i in jobs && j in jobs && Before(jobs[i], jobs[j]) :: order[i] < order[j]
  }

  /** The first created of some jobs. */
  method Earliest(jobs: Jobs, ids: set<JobId>) returns (id: JobId)
    requires ids != {} && forall i | i in ids :: i in jobs && jobs[i].id == i
    ensures id in ids && forall j | j in ids && j != id :: Before(jobs[id], jobs[j])
  {
    var rest := ids;
    id :| id in rest;
    rest := rest - {id};
    while rest != {}
      invariant id in ids && rest <= ids
      invariant forall j | j in ids && j != id && j !in rest :: Before(jobs[id], jobs[j])
      decreases |rest|
    {
      var j :| j in rest;
      if Before(jobs[j], jobs[id]) {
        id := j;
      }
      rest := rest - {j};
    }
  }

  /** The loop of `_load_state` that enqueues the recovered jobs, in their order. */
  method EnqueueAll(jobs: Jobs, ids: set<JobId>) returns (order: Order, sequence: nat)
    requires forall i | i in ids :: i in jobs && jobs[i].id == i
    ensures order.Keys == ids && Ordered(jobs, order) && OrderOk(order, sequence, 0)
  {
    order, sequence := map[], 0;
    var rest := ids;
    while rest != {}
      invariant order.Keys == ids - rest && rest <= ids && OrderOk(order, sequence, 0) && Ordered(jobs, order)
      invariant forall i, j | i in order && j in rest :: Before(jobs[i], jobs[j])
      decreases |rest|
    {
      var id := Earliest(jobs, rest);
      sequence := sequence + 1;
      order := order[id := sequence];
      rest := rest - {id};
    }
  }

  lemma RecoveredQueue(l: Limits, jobs: Jobs, recovered: set<JobId>)
    requires JobsOk(jobs, l.queueSize, l.maximum) && recovered == Waiting(jobs)
    ensures WellFormed(jobs, l.maximum) && forall id | id in recovered :: id in jobs && jobs[id].id == id
  {
  }

  lemma RecoveredKeeps(l: Limits, saved: Saved, stamps: JobId -> nat, jobs: Jobs, recovered: set<JobId>, order: Order, cancel: Flags)
    requires JobsOk(jobs, l.queueSize, l.maximum) && WorkerOk(jobs, Idle) && jobs == RecoveredJobs(saved.jobs, stamps)
    requires recovered == Waiting(jobs) == Active(saved.jobs) && order.Keys == recovered && Ordered(jobs, order)
    requires cancel.Keys <= order.Keys && forall id | id in cancel :: !cancel[id]
    ensures PutBackOk(l, saved, stamps, jobs, order, cancel)
  {
    hide JobsOk;
    TrimmedSame(jobs, cancel);
  }

  /** Exactly the unfinished jobs of the file wait, as they were asked for, the first created first; of two created at once
      the one with the smaller ID. */
  predicate Resumes(saved: Jobs, jobs: Jobs, order: Order) {
    && (forall id | id in saved && !Finished(saved[id]) ::
          id in jobs && id in order && jobs[id].status == Queued && jobs[id].received == 0 && jobs[id].error == None
          && jobs[id].request == saved[id].request && jobs[id].created == saved[id].created)
    && (forall id | id in order :: id in saved && !Finished(saved[id]))
    && (forall i, j | i in order && j in order :: order[i] < order[j] <==>
          i != j && (saved[i].created < saved[j].created || (saved[i].created == saved[j].created && i < j)))
    && (forall id | id in jobs && Finished(jobs[id]) :: id in saved && saved[id] == jobs[id])
  }

  lemma PutBackResumes(l: Limits, saved: Saved, stamps: JobId -> nat, jobs: Jobs, order: Order, cancel: Flags, sequence: nat, taken: nat)
    requires PutBackOk(l, saved, stamps, jobs, order, cancel) && WellFormed(saved.jobs, l.maximum)
    requires OrderOk(order, sequence, taken)
    ensures Resumes(saved.jobs, jobs, order)
  {
    hide MemoryOk, RequestOk, Before;
    PutBackJobs(l, saved, stamps, jobs, order, cancel);
    forall i, j | i in order && j in order && i != j
      ensures order[i] < order[j] <==> Before(jobs[i], jobs[j])
    {
      BeforeIsTotal(jobs[i], jobs[j]);
    }
    forall i, j | i in order && j in order && i != j
      ensures Before(jobs[i], jobs[j]) <==>
        saved.jobs[i].created < saved.jobs[j].created || (saved.jobs[i].created == saved.jobs[j].created && i < j)
    {
      BeforeIs(jobs[i], jobs[j]);
    }
  }

  lemma BeforeIs(a: Job, b: Job)
    ensures Before(a, b) <==> a.created < b.created || (a.created == b.created && a.id < b.id)
  {
  }

  lemma BeforeIsTotal(a: Job, b: Job)
    requires a.id != b.id
    ensures Before(a, b) <==> !Before(b, a)
  {
  }

  lemma PutBackJobs(l: Limits, saved: Saved, stamps: JobId -> nat, jobs: Jobs, order: Order, cancel: Flags)
    requires PutBackOk(l, saved, stamps, jobs, order, cancel) && WellFormed(saved.jobs, l.maximum)
    ensures forall id | id in saved.jobs && !Finished(saved.jobs[id]) ::
      id in order && id in jobs && jobs[id] == Requeued(saved.jobs[id], stamps(id)) && jobs[id].id == id
    ensures forall id | id in order :: id in saved.jobs && !Finished(saved.jobs[id])
    ensures forall id | id in jobs && Finished(jobs[id]) :: id in saved.jobs && saved.jobs[id] == jobs[id]
  {
    hide MemoryOk, RequestOk, Ordered;
    forall id | id in saved.jobs && !Finished(saved.jobs[id])
      ensures id in order && id in jobs
    {
      assert id in Active(saved.jobs);
    }
    forall id | id in order
      ensures id in saved.jobs && !Finished(saved.jobs[id])
    {
      assert id in Active(saved.jobs);
    }
  }

  lemma PutBackIs(l: Limits, saved: Saved, stamps: JobId -> nat, jobs: Jobs, order: Order, cancel: Flags)
    requires PutBackOk(l, saved, stamps, jobs, order, cancel)
    ensures MemoryOk(l, jobs, order, Idle, cancel, false) && WellFormed(jobs, l.maximum)
  {
  }

  /** Forgetting finished jobs leaves the queue of a restarted agent. */
  lemma PutBackTrims(l: Limits, saved: Saved, stamps: JobId -> nat, jobs: Jobs, next: Jobs, order: Order, cancel: Flags, flags: Flags)
    requires PutBackOk(l, saved, stamps, jobs, order, cancel) && Trimmed(jobs, next) && FlagsTrimmed(cancel, flags)
    ensures PutBackOk(l, saved, stamps, next, order, flags)
  {
    hide MemoryOk, RecoveredJobs;
    TrimKeeps(l, jobs, next, order, Idle, cancel, flags, false);
    TrimmedTwice(RecoveredJobs(saved.jobs, stamps), jobs, next);
    assert Waiting(next) == Waiting(jobs);
  }

  lemma StaysSmall(l: Limits, size: (Jobs, Managed) -> nat, saved: Saved, stamps: JobId -> nat, jobs: Jobs, order: Order, cancel: Flags)
    requires size(saved.jobs, saved.managed) <= MAX_STATE_BYTES && PutBackOk(l, saved, stamps, jobs, order, cancel)
    ensures Encoding(size) ==> size(jobs, saved.managed) <= MAX_STATE_BYTES
  {
    hide RequestOk, Path, Digest, MemoryOk, WellFormed;
  }

  // ----- what lasts ------------------------------------------------------------------------------

  lemma CancelLasts(before: Jobs, was: Option<Saved>, id: JobId, now: nat, next: Jobs, managed: Managed, disk: Option<Saved>)
    requires Lasts(before, was)
    requires (next == before && disk == was) || (
      && id in before && Trimmed(before[id := Ended(before[id], CheckpointState.Canceled, CANCELED, now)], next)
      && (disk == was || disk == Some(Saved(next, managed))))
    ensures Lasts(next, disk)
  {
    hide Lasts, Trimmed;
    if !(next == before && disk == was) {
      LastsChanged(before, was, id, Ended(before[id], CheckpointState.Canceled, CANCELED, now), next, managed, disk);
    }
  }

  lemma DeleteLasts(before: Jobs, was: Option<Saved>, next: Jobs, managed: Managed, disk: Option<Saved>)
    requires Lasts(before, was)
    requires (next == before && disk == was) || (Trimmed(before, next) && (disk == was || disk == Some(Saved(next, managed))))
    ensures Lasts(next, disk)
  {
    hide Lasts, Trimmed;
    if !(next == before && disk == was) {
      LastsTrimmed(before, was, next, managed, disk);
    }
  }

  lemma BeginLasts(before: Jobs, was: Option<Saved>, id: JobId, now: nat, next: Jobs, managed: Managed, disk: Option<Saved>)
    requires Lasts(before, was)
    requires (next == before && disk == was) || (
      && id in before && before[id].status == Queued
      && Trimmed(before[id := before[id].(status := Downloading, updated := now)], next)
      && (disk == was || disk == Some(Saved(next, managed))))
    ensures Lasts(next, disk)
  {
    hide Lasts, Trimmed;
    if !(next == before && disk == was) {
      LastsChanged(before, was, id, before[id].(status := Downloading, updated := now), next, managed, disk);
    }
  }

  lemma ProgressLasts(before: Jobs, was: Option<Saved>, id: JobId, next: Jobs, managed: Managed, disk: Option<Saved>)
    requires Lasts(before, was) && id in before && before[id].status == Downloading && disk == was
    requires exists total, now :: next == before[id := before[id].(received := total, updated := now)]
    ensures Lasts(next, disk)
  {
    hide Lasts;
    var total, now :| next == before[id := before[id].(received := total, updated := now)];
    LastsChanged(before, was, id, before[id].(received := total, updated := now), next, managed, disk);
  }

  lemma RecoverLasts(before: Jobs, was: Option<Saved>, id: JobId, now: nat, next: Jobs, managed: Managed, disk: Option<Saved>)
    requires Lasts(before, was) && (disk == was || disk == Some(Saved(next, managed)))
    requires if id in before then Trimmed(before[id := Ended(before[id], CheckpointState.Failed, INTERNAL_ERROR, now)], next)
      else next == before && disk == was
    ensures Lasts(next, disk)
  {
    hide Lasts, Trimmed;
    if id in before {
      LastsChanged(before, was, id, Ended(before[id], CheckpointState.Failed, INTERNAL_ERROR, now), next, managed, disk);
    }
  }

  lemma RestartLasts(l: Limits, saved: Saved, written: bool, stamps: JobId -> nat, jobs: Jobs, order: Order, cancel: Flags,
                     managed: Managed, disk: Option<Saved>)
    requires PutBackOk(l, saved, stamps, jobs, order, cancel)
    requires disk == Some(Saved(jobs, managed)) || (if written then disk == Some(saved) else saved == Saved(map[], map[]))
    ensures Lasts(jobs, disk)
  {
    hide MemoryOk, Ordered;
  }

  // ----- room ------------------------------------------------------------------------------------

  lemma SameStaysRoomy(size: Sizes, maximum: nat, jobs: Jobs, managed: Managed, worker: Worker, stopping: bool,
                       next: Worker, stops: bool)
    requires Compact(size, maximum) && Roomy(size, jobs, managed, worker, stopping) && (stopping ==> stops)
    requires next == worker || next == Idle || next.Holding? || (next == Gone && stops)
    ensures Roomy(size, jobs, managed, next, stops)
  {
  }

  lemma PostStaysRoomy(size: Sizes, maximum: nat, jobs: Jobs, managed: Managed, worker: Worker, stopping: bool,
                       id: JobId, request: Parsed<Request>, now: nat, next: Jobs, r: Submitted)
    requires Compact(size, maximum) && Roomy(size, jobs, managed, worker, stopping)
    requires r.Accepted? ==>
      request.Ok? && Trimmed(jobs[id := NewJob(id, request.value, now)], next) && size(next, managed) <= MAX_STATE_BYTES
    requires !r.Accepted? ==> Trimmed(jobs, next)
    ensures Roomy(size, next, managed, worker, stopping)
  {
    hide Compact, Core, Trimmed, Rested;
    if r.Accepted? {
      var job := NewJob(id, request.value, now);
      CoreChanges(jobs, id, job);
      CoreTrims(jobs[id := job], next);
      SavedIsRoomy(size, maximum, next, managed, worker, stopping);
    } else {
      TrimmedStaysRoomy(size, maximum, jobs, managed, worker, stopping, next, {});
    }
  }

  lemma TrimmedStaysRoomy(size: Sizes, maximum: nat, jobs: Jobs, managed: Managed, worker: Worker, stopping: bool,
                          next: Jobs, names: set<FileName>)
    requires Compact(size, maximum) && Roomy(size, jobs, managed, worker, stopping) && Trimmed(jobs, next)
    ensures Roomy(size, next, managed - names, worker, stopping)
    ensures Roomy(size, next, managed, worker, stopping)
  {
    hide Compact, Core, Rested;
    CoreTrims(jobs, next);
    FewerStaysRoomy(size, maximum, jobs, managed, worker, stopping, next, names, worker, stopping);
    FewerStaysRoomy(size, maximum, jobs, managed, worker, stopping, next, {}, worker, stopping);
    assert managed - {} == managed;
  }

  /** What happens to one unfinished job, when finished ones may be forgotten. */
  lemma ChangeStaysRoomy(size: Sizes, maximum: nat, jobs: Jobs, managed: Managed, worker: Worker, stopping: bool,
                         id: JobId, job: Job, next: Jobs, after: Worker)
    requires Compact(size, maximum) && Roomy(size, jobs, managed, worker, stopping)
    requires id in jobs && (Finished(job) || (!Finished(jobs[id]) && Requeued(job, 0) == Requeued(jobs[id], 0)))
    requires Trimmed(jobs[id := job], next) && (job.status == Queued ==> job == Requeued(job, job.updated))
    requires GoesOn(worker, after, stopping, next)
    ensures Roomy(size, next, managed, after, stopping)
  {
    hide Compact, Core, Rested, Roomy;
    RoomyIsRested(size, jobs, managed, worker, stopping);
    CoreChanges(jobs, id, job);
    CoreTrims(jobs[id := job], next);
    FewerStaysRoomy(size, maximum, jobs, managed, worker, stopping, next, {}, after, stopping);
    assert managed - {} == managed;
  }

  lemma RoomyIsRested(size: Sizes, jobs: Jobs, managed: Managed, worker: Worker, stopping: bool)
    requires Roomy(size, jobs, managed, worker, stopping)
    ensures Rested(jobs) && (worker == Gone ==> stopping)
  {
  }

  lemma CancelStaysRoomy(size: Sizes, maximum: nat, jobs: Jobs, managed: Managed, worker: Worker, stopping: bool,
                         id: JobId, now: nat, next: Jobs)
    requires Compact(size, maximum) && Roomy(size, jobs, managed, worker, stopping)
    requires next == jobs || (id in jobs && Trimmed(jobs[id := Ended(jobs[id], CheckpointState.Canceled, CANCELED, now)], next))
    ensures Roomy(size, next, managed, worker, stopping)
  {
    hide Compact, Roomy, Trimmed;
    if next != jobs {
      ChangeStaysRoomy(size, maximum, jobs, managed, worker, stopping, id, Ended(jobs[id], CheckpointState.Canceled, CANCELED, now), next, worker);
    }
  }

  lemma DeleteStaysRoomy(size: Sizes, maximum: nat, jobs: Jobs, managed: Managed, worker: Worker, stopping: bool,
                         name: FileName, next: Jobs, less: Managed)
    requires Compact(size, maximum) && Roomy(size, jobs, managed, worker, stopping)
    requires (next == jobs && less == managed) || (Trimmed(jobs, next) && less == managed - {name})
    ensures Roomy(size, next, less, worker, stopping)
  {
    hide Compact, Roomy, Trimmed;
    if less == managed - {name} && Trimmed(jobs, next) {
      TrimmedStaysRoomy(size, maximum, jobs, managed, worker, stopping, next, {name});
    }
  }

  lemma BeginStaysRoomy(size: Sizes, maximum: nat, jobs: Jobs, managed: Managed, worker: Worker, stopping: bool,
                        now: nat, next: Jobs, after: Worker)
    requires Compact(size, maximum) && Roomy(size, jobs, managed, worker, stopping) && worker.Holding?
    requires (next == jobs && after == Idle) || (
      && worker.id in jobs && jobs[worker.id].status == Queued
      && Trimmed(jobs[worker.id := jobs[worker.id].(status := Downloading, updated := now)], next)
      && (after == Failing(worker.id) || (after == Running(worker.id) && size(next, managed) <= MAX_STATE_BYTES)))
    ensures Roomy(size, next, managed, after, stopping)
  {
    hide Compact, Roomy, Core, Rested;
    if next == jobs && after == Idle {
      SameStaysRoomy(size, maximum, jobs, managed, worker, stopping, after, stopping);
    } else {
      var job := jobs[worker.id].(status := Downloading, updated := now);
      RoomyIsRested(size, jobs, managed, worker, stopping);
      CoreChanges(jobs, worker.id, job);
      CoreTrims(jobs[worker.id := job], next);
      if after.Running? {
        SavedIsRoomy(size, maximum, next, managed, after, stopping);
      } else {
        ChangeStaysRoomy(size, maximum, jobs, managed, worker, stopping, worker.id, job, next, after);
      }
    }
  }

  lemma ProgressStaysRoomy(size: Sizes, maximum: nat, jobs: Jobs, managed: Managed, worker: Worker, stopping: bool, next: Jobs)
    requires Compact(size, maximum) && Roomy(size, jobs, managed, worker, stopping) && worker.Running?
    requires worker.id in jobs && jobs[worker.id].status == Downloading
    requires exists total, now :: next == jobs[worker.id := jobs[worker.id].(received := total, updated := now)]
    ensures Roomy(size, next, managed, worker, stopping)
  {
    hide Compact, Roomy;
    var total, now :| next == jobs[worker.id := jobs[worker.id].(received := total, updated := now)];
    ChangeStaysRoomy(size, maximum, jobs, managed, worker, stopping, worker.id, jobs[worker.id].(received := total, updated := now), next, worker);
  }

  lemma EndStaysRoomy(size: Sizes, maximum: nat, jobs: Jobs, managed: Managed, id: JobId, stopping: bool,
                      outcome: Outcome, now: nat, next: Jobs, records: Managed, after: Worker)
    requires Compact(size, maximum) && Roomy(size, jobs, managed, Running(id), stopping) && OutcomeOk(outcome, maximum)
    requires id in jobs && jobs[id].status == Downloading && RequestOk(jobs[id].request, maximum)
    requires Trimmed(jobs[id := AfterDownload(jobs[id], outcome, stopping, now)], next)
    requires records == if outcome.Installed?
      then managed[jobs[id].request.target := Item(jobs[id].request.target, outcome.digest, outcome.size, id)] else managed
    requires after == Idle || after == Failing(id)
    requires after == Failing(id) && id in next && Finished(next[id]) ==> size(next, records) <= MAX_STATE_BYTES
    ensures Roomy(size, next, records, after, stopping)
  {
    hide Compact, Roomy, Core, Rested, RequestOk, Digest;
    var job := AfterDownload(jobs[id], outcome, stopping, now);
    if outcome.Installed? {
      RoomyIsRested(size, jobs, managed, Running(id), stopping);
      CoreHas(jobs, jobs);
      CoreChanges(jobs, id, job);
      CoreTrims(jobs[id := job], next);
      InstalledStaysRoomy(size, maximum, jobs, managed, id, stopping, next, Item(jobs[id].request.target, outcome.digest, outcome.size, id), after);
    } else {
      ChangeStaysRoomy(size, maximum, jobs, managed, Running(id), stopping, id, job, next, after);
    }
  }

  lemma RecoverStaysRoomy(size: Sizes, maximum: nat, jobs: Jobs, managed: Managed, id: JobId, stopping: bool,
                          now: nat, next: Jobs, after: Worker)
    requires Compact(size, maximum) && Roomy(size, jobs, managed, Failing(id), stopping)
    requires forall j | j in jobs && jobs[j].status == Downloading :: j == id
    requires if id in jobs then
        && Trimmed(jobs[id := Ended(jobs[id], CheckpointState.Failed, INTERNAL_ERROR, now)], next) && (after == Idle || after == Gone)
        && (Encoding(size) ==> (after == Gone <==> size(Unfinished(jobs - {id}), managed) > MAX_STATE_BYTES))
      else next == jobs && after == Idle
    ensures Roomy(size, next, managed, after, stopping) && after == Idle
  {
    hide Compact, Roomy, Core, Rested, Encoding, Unfinished, Trimmed;
    if id in jobs {
      CompactEncodes(size, maximum);
      FailureFits(size, maximum, jobs, managed, id, stopping);
      ChangeStaysRoomy(size, maximum, jobs, managed, Failing(id), stopping, id, Ended(jobs[id], CheckpointState.Failed, INTERNAL_ERROR, now), next, after);
    } else {
      SameStaysRoomy(size, maximum, jobs, managed, Failing(id), stopping, after, stopping);
    }
  }

  lemma RestartIsRoomy(size: Sizes, l: Limits, saved: Saved, written: bool, stamps: JobId -> nat, jobs: Jobs, order: Order, cancel: Flags)
    requires Compact(size, l.maximum) && PutBackOk(l, saved, stamps, jobs, order, cancel)
    requires if written then size(saved.jobs, saved.managed) <= MAX_STATE_BYTES else saved == Saved(map[], map[])
    ensures Roomy(size, jobs, saved.managed, Idle, false)
  {
    hide Compact, MemoryOk, Core, Rested, Trimmed, Ordered;
    var first := RecoveredJobs(saved.jobs, stamps);
    CoreRecovers(saved.jobs, stamps);
    CoreTrims(first, jobs);
    if written {
      CoreIsSmaller(size, l.maximum, saved.jobs, saved.managed);
      forall id | id in Core(jobs)
        ensures Small(size, Core(jobs) - {id}, saved.managed)
      {
        FewerIsSmaller(size, l.maximum, Core(jobs), Core(jobs) - {id}, saved.managed);
      }
    } else {
      assert Core(saved.jobs) == map[] by {
        CoreHas(map[], map[]);
      }
    }
  }

  lemma RunningIs(l: Limits, jobs: Jobs, order: Order, worker: Worker, cancel: Flags, stopping: bool)
    requires MemoryOk(l, jobs, order, worker, cancel, stopping) && worker.Running?
    ensures worker.id in jobs && jobs[worker.id].status == Downloading && RequestOk(jobs[worker.id].request, l.maximum)
  {
    hide RequestOk;
  }

  lemma FailingIs(l: Limits, jobs: Jobs, order: Order, worker: Worker, cancel: Flags, stopping: bool)
    requires MemoryOk(l, jobs, order, worker, cancel, stopping) && worker.Failing?
    ensures forall j | j in jobs && jobs[j].status == Downloading :: j == worker.id
  {
    hide RequestOk;
  }

  // ----- any run --------------------------------------------------------------------------------

  /** What may happen next, by a request, the worker or a crash, and what the clock and the disk do meanwhile. */
  datatype Event =
    | Submits(body: Json, id: JobId)
    | Cancels(id: JobId)
    | BeginsDelete(name: FileName, ifMatch: Option<string>)
    | Deletes(name: FileName, look: Option<Look>, current: Option<Stat>)
    | EndsDelete(name: FileName)
    | Takes
    | Begins
    | Progresses(total: nat)
    | Ends(outcome: Outcome)
    | Recovers
    | Closes
    | Restarts(stamps: JobId -> nat)

  datatype Turn = Turn(event: Event, now: nat, readings: nat -> int, ok: bool)

  // ----- what the invariant says -----------------------------------------------------------------

  function Downloads(jobs: Jobs): (r: set<JobId>)
    ensures forall id :: id in r <==> id in jobs && jobs[id].status == Downloading
  {
    set id | id in jobs && jobs[id].status == Downloading
  }

  /** At most one job is downloading, and with the waiting ones there are at most `queueSize + 1`. */
  lemma QueueIsBounded(l: Limits, jobs: Jobs, order: Order, worker: Worker, cancel: Flags, stopping: bool)
    requires MemoryOk(l, jobs, order, worker, cancel, stopping)
    ensures |Downloads(jobs)| <= 1 && |Waiting(jobs)| + |Downloads(jobs)| <= l.queueSize + 1
  {
    hide WellFormed, KeysUnique, QueueOk;
    ActiveSplits(jobs);
    SubsetSize(Downloads(jobs), InHand(worker));
  }

  lemma ActiveSplits(jobs: Jobs)
    ensures |Active(jobs)| == |Waiting(jobs)| + |Downloads(jobs)|
  {
    assert Active(jobs) == Waiting(jobs) + Downloads(jobs);
    assert Waiting(jobs) * Downloads(jobs) == {};
  }

  lemma FailedIsForgettable(jobs: Jobs, job: Job)
    requires Finished(job)
    ensures Unfinished(jobs[job.id := job]) == Unfinished(jobs - {job.id})
  {
  }

  /** Exactly when a state cannot be saved for its size: when the jobs that may not be forgotten and the managed files
      alone are too large. */
  lemma TooLargeIff(size: (Jobs, Managed) -> nat, jobs: Jobs, next: Jobs, managed: Managed)
    requires Encoding(size) && Trimmed(jobs, next)
    requires size(next, managed) <= MAX_STATE_BYTES / 2 || FinishedSet(next) == {}
    ensures size(next, managed) > MAX_STATE_BYTES <==> size(Unfinished(jobs), managed) > MAX_STATE_BYTES
  {
    if FinishedSet(next) == {} {
      forall id | id in next
        ensures !Finished(next[id])
      {
        assert id !in FinishedSet(next);
      }
      assert next == Unfinished(jobs);
    } else {
      assert Trimmed(next, Unfinished(jobs));
    }
  }
}
