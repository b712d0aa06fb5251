/**
 * Why the worker of compute/checkpoint_agent.py can record every failure: room in the state file for all unfinished
 * jobs but one, which every region keeps when a managed record takes no more bytes than two jobs.
 */
module CheckpointRoom {
  import opened Basics
  import Texts
  import opened CheckpointRequest
  import opened CheckpointState

  type Sizes = (Jobs, Managed) -> nat

  // ----- what the JSON text guarantees -----------------------------------------------------------

  /** Fewer jobs, some of them waiting again. */
  predicate Lighter(next: Jobs, jobs: Jobs) {
    forall id | id in next ::
      id in jobs && (next[id] == jobs[id] || (!Finished(jobs[id]) && next[id] == Requeued(jobs[id], next[id].updated)))
  }

  /** What an installed job records of itself. */
  predicate RecordOf(item: Item, request: Request, maximum: nat) {
    item.name == request.target && Digest(item.digest) && 1 <= item.size <= maximum
  }

  /** A record takes no more bytes than its job and another one; fewer jobs or records take no more, and neither does a
      job put back to waiting. */
  ghost predicate Compact(size: Sizes, maximum: nat) {
    && (forall jobs, next, managed | Lighter(next, jobs) :: size(next, managed) <= size(jobs, managed))
    && (forall jobs, managed: Managed, names: set<FileName> :: size(jobs, managed - names) <= size(jobs, managed))
    && (forall jobs: Jobs, managed: Managed, i, j, item |
          i in jobs && j in jobs && i != j && RequestOk(jobs[i].request, maximum) && RecordOf(item, jobs[i].request, maximum) ::
            size(jobs - {i, j}, managed[item.name := item]) <= size(jobs, managed))
  }

  /** It guarantees what the sizes of saved states rest on elsewhere. */
  lemma CompactEncodes(size: Sizes, maximum: nat)
    requires Compact(size, maximum)
    ensures Encoding(size)
  {
    forall jobs, next, managed | Trimmed(jobs, next)
      ensures size(next, managed) <= size(jobs, managed)
    {
      assert Lighter(next, jobs);
    }
    forall jobs, stamps, managed
      ensures size(RecoveredJobs(jobs, stamps), managed) <= size(jobs, managed)
    {
      assert Lighter(RecoveredJobs(jobs, stamps), jobs);
    }
  }

  // ----- the invariant ---------------------------------------------------------------------------

  /** The unfinished jobs, as if all of them waited. */
  function Core(jobs: Jobs): (r: Jobs)
    ensures forall id :: id in r <==> id in jobs && !Finished(jobs[id])
    ensures forall id | id in r :: r[id] == Requeued(jobs[id], 0)
  {
    map id | id in jobs && !Finished(jobs[id]) :: Requeued(jobs[id], 0)
  }

  /** Waiting jobs have received nothing. */
  predicate Rested(jobs: Jobs) {
    forall id | id in jobs && jobs[id].status == Queued :: jobs[id] == Requeued(jobs[id], jobs[id].updated)
  }

  predicate Small(size: Sizes, jobs: Jobs, managed: Managed) {
    size(jobs, managed) <= MAX_STATE_BYTES
  }

  /** There is room for all unfinished jobs but any one; for all of them, while one is downloading or the one that failed
      is finished. The worker is gone only when the agent stops. */
  ghost predicate Roomy(size: Sizes, jobs: Jobs, managed: Managed, worker: Worker, stopping: bool) {
    && Rested(jobs)
    && (forall id | id in Core(jobs) :: Small(size, Core(jobs) - {id}, managed))
    && (worker.Running? || (worker.Failing? && worker.id in jobs && Finished(jobs[worker.id])) ==> Small(size, Core(jobs), managed))
    && (worker == Gone ==> stopping)
  }

  predicate Submap(next: Jobs, jobs: Jobs) {
    forall id | id in next :: id in jobs && next[id] == jobs[id]
  }

  lemma FewerIsSmaller(size: Sizes, maximum: nat, jobs: Jobs, next: Jobs, managed: Managed)
    requires Compact(size, maximum) && Submap(next, jobs) && Small(size, jobs, managed)
    ensures Small(size, next, managed)
  {
    assert Lighter(next, jobs);
  }

  lemma CoreIsSmaller(size: Sizes, maximum: nat, jobs: Jobs, managed: Managed)
    requires Compact(size, maximum) && Small(size, jobs, managed)
    ensures Small(size, Core(jobs), managed)
  {
    assert Lighter(Core(jobs), jobs);
  }

  lemma CoreTrims(jobs: Jobs, next: Jobs)
    requires Trimmed(jobs, next)
    ensures Core(next) == Core(jobs)
    ensures Rested(jobs) ==> Rested(next)
  {
  }

  lemma CoreRecovers(jobs: Jobs, stamps: JobId -> nat)
    ensures Core(RecoveredJobs(jobs, stamps)) == Core(jobs) && Rested(RecoveredJobs(jobs, stamps))
  {
  }

  lemma CoreChanges(jobs: Jobs, id: JobId, job: Job)
    ensures Finished(job) ==> Core(jobs[id := job]) == Core(jobs) - {id}
    ensures id in jobs && !Finished(job) && !Finished(jobs[id]) && Requeued(job, 0) == Requeued(jobs[id], 0) ==>
      Core(jobs[id := job]) == Core(jobs)
    ensures Rested(jobs) && (job.status == Queued ==> job == Requeued(job, job.updated)) ==> Rested(jobs[id := job])
  {
  }

  /** A state that has been saved is roomy. */
  lemma SavedIsRoomy(size: Sizes, maximum: nat, jobs: Jobs, managed: Managed, worker: Worker, stopping: bool)
    requires Compact(size, maximum) && Small(size, jobs, managed) && Rested(jobs) && (worker == Gone ==> stopping)
    ensures Roomy(size, jobs, managed, worker, stopping)
  {
    CoreIsSmaller(size, maximum, jobs, managed);
    forall id | id in Core(jobs)
      ensures Small(size, Core(jobs) - {id}, managed)
    {
      FewerIsSmaller(size, maximum, Core(jobs), Core(jobs) - {id}, managed);
    }
  }

  /** The worker's next state after a step that adds no record. */
  predicate GoesOn(worker: Worker, next: Worker, stopping: bool, jobs: Jobs) {
    || next == worker || next == Idle || next.Holding? || (next == Gone && stopping)
    || (next.Failing? && (worker == Running(next.id) || (next.id in jobs ==> !Finished(jobs[next.id]))))
  }

  /** Fewer unfinished jobs and fewer records stay roomy. */
  lemma FewerStaysRoomy(size: Sizes, maximum: nat, jobs: Jobs, managed: Managed, worker: Worker, stopping: bool,
                        next: Jobs, names: set<FileName>, after: Worker, stops: bool)
    requires Compact(size, maximum) && Roomy(size, jobs, managed, worker, stopping) && Rested(next)
    requires Submap(Core(next), Core(jobs)) && (stopping ==> stops) && GoesOn(worker, after, stops, next)
    requires after.Failing? && after.id in next ==> after.id in jobs
    ensures Roomy(size, next, managed - names, after, stops)
  {
    hide Compact, Core, Rested;
    forall id | id in Core(next)
      ensures Small(size, Core(next) - {id}, managed - names)
    {
      FewerIsSmaller(size, maximum, Core(jobs) - {id}, Core(next) - {id}, managed);
      LessIsSmaller(size, maximum, Core(next) - {id}, managed, names);
    }
    CoreHas(jobs, next);
    if after.Running? || (after.Failing? && after.id in next && Finished(next[after.id])) {
      if !worker.Running? && !Finished(jobs[after.id]) {
        FewerIsSmaller(size, maximum, Core(jobs) - {after.id}, Core(next), managed);
      } else {
        FewerIsSmaller(size, maximum, Core(jobs), Core(next), managed);
      }
      LessIsSmaller(size, maximum, Core(next), managed, names);
    }
  }

  lemma CoreHas(jobs: Jobs, next: Jobs)
    ensures forall id :: id in Core(jobs) <==> id in jobs && !Finished(jobs[id])
    ensures forall id :: id in Core(next) <==> id in next && !Finished(next[id])
  {
  }

  lemma LessIsSmaller(size: Sizes, maximum: nat, jobs: Jobs, managed: Managed, names: set<FileName>)
    requires Compact(size, maximum) && Small(size, jobs, managed)
    ensures Small(size, jobs, managed - names)
  {
  }

  lemma RecordFits(size: Sizes, maximum: nat, core: Jobs, managed: Managed, i: JobId, j: JobId, item: Item)
    requires Compact(size, maximum) && Small(size, core, managed) && i in core && j in core && i != j
    requires RequestOk(core[i].request, maximum) && RecordOf(item, core[i].request, maximum)
    ensures Small(size, core - {i} - {j}, managed[item.name := item])
  {
    hide RequestOk, RecordOf;
    assert core - {i} - {j} == core - {i, j};
  }

  /** A download that ends with its file leaves room: its record takes the place of its job and of any other one. */
  lemma InstalledStaysRoomy(size: Sizes, maximum: nat, jobs: Jobs, managed: Managed, id: JobId, stopping: bool,
                            next: Jobs, item: Item, after: Worker)
    requires Compact(size, maximum) && Roomy(size, jobs, managed, Running(id), stopping) && Rested(next)
    requires id in Core(jobs) && RequestOk(jobs[id].request, maximum) && RecordOf(item, jobs[id].request, maximum)
    requires Core(next) == Core(jobs) - {id}
    requires after == Idle || (after == Failing(id) && (id in next ==> Small(size, next, managed[item.name := item])))
    ensures Roomy(size, next, managed[item.name := item], after, stopping)
  {
    hide Compact, RequestOk, RecordOf;
    var installed := managed[item.name := item];
    assert Core(jobs)[id].request == jobs[id].request;
    forall j | j in Core(next)
      ensures Small(size, Core(next) - {j}, installed)
    {
      RecordFits(size, maximum, Core(jobs), managed, id, j, item);
    }
    if id in next && after == Failing(id) {
      CoreIsSmaller(size, maximum, next, installed);
    }
  }

  lemma OthersAreLighter(jobs: Jobs, id: JobId)
    requires Rested(jobs) && forall j | j in jobs && jobs[j].status == Downloading :: j == id
    ensures Lighter(Unfinished(jobs - {id}), Core(jobs) - {id})
  {
    forall j | j in Unfinished(jobs - {id})
      ensures jobs[j] == Requeued(Core(jobs)[j], jobs[j].updated)
    {
      assert jobs[j].status == Queued;
    }
  }

  /** So the failure of a job can be recorded, whatever else is unfinished. */
  lemma FailureFits(size: Sizes, maximum: nat, jobs: Jobs, managed: Managed, id: JobId, stopping: bool)
    requires Compact(size, maximum) && Roomy(size, jobs, managed, Failing(id), stopping) && id in jobs
    requires forall j | j in jobs && jobs[j].status == Downloading :: j == id
    ensures Small(size, Unfinished(jobs - {id}), managed)
  {
    hide Core, Lighter, Rested, Unfinished;
    OthersAreLighter(jobs, id);
    CoreHas(jobs, jobs);
    if id !in Core(jobs) {
      assert Core(jobs) - {id} == Core(jobs);
    }
  }

  // ----- the text of state.json ------------------------------------------------------------------

  function StatusText(status: Status): string {
    match status
    case Queued => "queued"
    case Downloading => "downloading"
    case Completed => "completed"
    case Failed => "failed"
    case Canceled => "canceled"
  }

  function NumberBytes(n: Option<nat>): nat {
    if n.None? then |"null"| else |Texts.Decimal(n.value)|
  }

  /** A job's entry, with its comma: names, times, its ID twice and its fingerprint take 444 bytes; `messages` are the
      characters of the code and the message of each error. */
  function JobBytes(job: Job, messages: nat -> nat): nat {
    var r := job.request;
    444 + |r.source.repo| + |r.source.filename| + |r.source.revision| + |r.target| + |r.sha256| + NumberBytes(r.size) + |r.key|
    + |StatusText(job.status)| + |Texts.Decimal(job.received)| + NumberBytes(job.size)
    + (if job.digest.None? then |"null"| else |job.digest.value| + 2)
    + (if job.error.None? then |"null"| else |"{\"code\":\"\",\"message\":\"\"}"| + messages(job.error.value))
  }

  function Entry(messages: nat -> nat): Job -> nat {
    job => JobBytes(job, messages)
  }

  /** A record's entry, with its comma: its path stands in it twice. */
  function RecordBytes(item: Item): nat {
    117 + 2 * |item.name| + |item.digest| + |Texts.Decimal(item.size)|
  }

  /** Entries with commas between them. */
  function Joined(bytes: nat): nat {
    if bytes == 0 then 0 else bytes - 1
  }

  /** The length of what `_state_payload` prints. */
  ghost function PayloadBytes(messages: nat -> nat, jobs: Jobs, managed: Managed): nat {
    |"{\"jobs\":{},\"managed\":{},\"version\":1}"| + Joined(Total(jobs, Entry(messages))) + Joined(Total(managed, RecordBytes))
  }

  ghost function Payload(messages: nat -> nat): Sizes {
    (jobs: Jobs, managed: Managed) => PayloadBytes(messages, jobs, managed)
  }

  lemma WaitingIsShorter(job: Job, updated: nat, messages: nat -> nat)
    requires !Finished(job)
    ensures JobBytes(Requeued(job, updated), messages) <= JobBytes(job, messages)
  {
    assert |Texts.Decimal(0)| == 1;
  }

  lemma RecordIsShorter(i: Job, j: Job, item: Item, maximum: nat, messages: nat -> nat)
    requires RequestOk(i.request, maximum) && RecordOf(item, i.request, maximum) && maximum <= 1024 * 1024 * 1024 * 1024 * 1024
    ensures RecordBytes(item) <= JobBytes(i, messages) + JobBytes(j, messages) - 1
  {
    assert |item.name| <= 512;
    PetabyteHasDigits(item.size);
  }

  lemma PetabyteHasDigits(n: nat)
    requires n <= 1024 * 1024 * 1024 * 1024 * 1024
    ensures |Texts.Decimal(n)| <= 16
  {
    assert Texts.Power10(4) == 10_000;
    assert Texts.Power10(8) == 100_000_000;
    assert Texts.Power10(12) == 1_000_000_000_000;
    assert Texts.Power10(16) == 10_000_000_000_000_000;
    Texts.DecimalLength(n, 16);
  }

  lemma LighterIsShorter(next: Jobs, jobs: Jobs, messages: nat -> nat)
    requires Lighter(next, jobs)
    ensures Total(next, Entry(messages)) <= Total(jobs, Entry(messages))
  {
    hide JobBytes;
    forall id | id in next
      ensures JobBytes(next[id], messages) <= JobBytes(jobs[id], messages)
    {
      if next[id] != jobs[id] {
        WaitingIsShorter(jobs[id], next[id].updated, messages);
      }
    }
    TotalAtMost(jobs, next, Entry(messages));
  }

  lemma TwoJobsLess(jobs: Jobs, i: JobId, j: JobId, value: Job -> nat)
    requires i in jobs && j in jobs && i != j
    ensures Total(jobs, value) == Total(jobs - {i, j}, value) + value(jobs[i]) + value(jobs[j])
  {
    TotalWithout(jobs, value, i);
    TotalWithout(jobs - {i}, value, j);
    assert jobs - {i} - {j} == jobs - {i, j};
  }

  lemma RecordMore(managed: Managed, item: Item)
    ensures Total(managed[item.name := item], RecordBytes) <= Total(managed, RecordBytes) + RecordBytes(item)
  {
    hide RecordBytes;
    var next := managed[item.name := item];
    TotalWithout(next, RecordBytes, item.name);
    TotalAtMost(managed, next - {item.name}, RecordBytes);
  }

  lemma InstalledIsShorter(jobs: Jobs, managed: Managed, i: JobId, j: JobId, item: Item, maximum: nat, messages: nat -> nat)
    requires i in jobs && j in jobs && i != j && maximum <= 1024 * 1024 * 1024 * 1024 * 1024
    requires RequestOk(jobs[i].request, maximum) && RecordOf(item, jobs[i].request, maximum)
    ensures PayloadBytes(messages, jobs - {i, j}, managed[item.name := item]) <= PayloadBytes(messages, jobs, managed)
  {
    hide JobBytes, RecordBytes, RequestOk, RecordOf;
    TwoJobsLess(jobs, i, j, Entry(messages));
    RecordMore(managed, item);
    RecordIsShorter(jobs[i], jobs[j], item, maximum, messages);
  }

  /** The text of state.json is such an encoding, within the largest size limit the agent can be configured with. */
  lemma PayloadIsCompact(messages: nat -> nat, maximum: nat)
    requires maximum <= 1024 * 1024 * 1024 * 1024 * 1024
    ensures Compact(Payload(messages), maximum)
  {
    hide JobBytes, RecordBytes, RequestOk, RecordOf, Lighter;
    var size := Payload(messages);
    forall jobs, next, managed | Lighter(next, jobs)
      ensures size(next, managed) <= size(jobs, managed)
    {
      LighterIsShorter(next, jobs, messages);
    }
    forall jobs, managed: Managed, names: set<FileName>
      ensures size(jobs, managed - names) <= size(jobs, managed)
    {
      TotalAtMost(managed, managed - names, RecordBytes);
    }
    forall jobs: Jobs, managed: Managed, i, j, item | i in jobs && j in jobs && i != j
      && RequestOk(jobs[i].request, maximum) && RecordOf(item, jobs[i].request, maximum)
      ensures size(jobs - {i, j}, managed[item.name := item]) <= size(jobs, managed)
    {
      InstalledIsShorter(jobs, managed, i, j, item, maximum, messages);
    }
  }
}
