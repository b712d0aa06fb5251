/**
 * A run in which the worker of compute/checkpoint_agent.py ends although nobody stops the agent: records take more
 * bytes than two jobs, so neither an installed checkpoint nor the failure of the next job can be recorded.
 */
module CheckpointBulk {
  import opened Basics
  import opened Texts
  import opened CheckpointRequest
  import opened CheckpointState
  import opened CheckpointQueue

  /** One record alone is too large. */
  function Bulky(jobs: Jobs, managed: Managed): nat {
    |jobs| + (MAX_STATE_BYTES + 1) * |managed|
  }

  lemma BulkyEncodes()
    ensures Encoding(Bulky)
  {
    forall jobs, next, managed | Trimmed(jobs, next)
      ensures Bulky(next, managed) <= Bulky(jobs, managed)
    {
      SubsetSize(next.Keys, jobs.Keys);
    }
    forall jobs, stamps, managed
      ensures Bulky(RecoveredJobs(jobs, stamps), managed) <= Bulky(jobs, managed)
    {
      assert RecoveredJobs(jobs, stamps).Keys == jobs.Keys;
    }
  }

  lemma BulkyIs(jobs: Jobs, managed: Managed)
    ensures managed == map[] ==> Bulky(jobs, managed) == |jobs|
    ensures managed != map[] ==> Bulky(jobs, managed) > MAX_STATE_BYTES
  {
    if managed != map[] {
      assert managed.Keys != {};
    }
  }

  function Repeated(c: char, n: nat): (r: string)
    ensures |r| == n && forall i | 0 <= i < n :: r[i] == c
  {
    seq(n, i => c)
  }

  function Zeros(): string {
    Repeated('0', 64)
  }

  function Wanted(name: char): Request {
    Request(Source("a/b", [name] + ".safetensors", "main"), [name] + ".safetensors", Zeros(), None, [name])
  }

  lemma RepositoryIs()
    ensures RepoId("a/b")
  {
    SplitNothing("b");
    assert "a/b"[1..] == "/b" && "/b"[1..] == "b";
    assert Split("/b") == [""] + ["b"] == ["", "b"];
    assert ["", "b"][1..] == ["b"] && ['a'] + "" == "a";
    assert Split("a/b") == ["a"] + ["b"] == ["a", "b"];
  }

  lemma TargetIsPath(name: char)
    requires 'a' <= name <= 'z'
    ensures Path([name] + ".safetensors")
  {
    hide Split;
    var target := [name] + ".safetensors";
    SplitNothing(target);
    assert target[1..] == ".safetensors";
    assert target[|target| - |".safetensors"|..] == ".safetensors";
  }

  lemma DigestIs()
    ensures Digest(Zeros()) && Lower(Zeros()) == Zeros()
  {
  }

  lemma WantedIsOk(name: char, maximum: nat)
    requires 'a' <= name <= 'z'
    ensures RequestOk(Wanted(name), maximum)
  {
    hide RepoId, Path, Digest;
    RepositoryIs();
    TargetIsPath(name);
    DigestIs();
  }

  lemma KeysDiffer()
    ensures Wanted('a').key != Wanted('b').key
  {
    assert Wanted('a').key[0] == 'a' && Wanted('b').key[0] == 'b';
  }

  lemma NothingForgotten(jobs: Jobs, next: Jobs)
    requires Trimmed(jobs, next) && forall id | id in jobs :: !Finished(jobs[id])
    ensures next == jobs
  {
  }

  lemma AllWait(jobs: Jobs)
    requires forall id | id in jobs :: jobs[id].status == Queued
    ensures forall id | id in jobs :: !Finished(jobs[id])
  {
  }

  lemma SmallFits(jobs: Jobs)
    requires |jobs| <= MAX_STATE_BYTES
    ensures Fits(jobs, map[], Bulky, true)
  {
    BulkyEncodes();
  }

  lemma EmptyIs(l: Limits, stamps: JobId -> nat, jobs: Jobs, order: Order, cancel: Flags)
    requires PutBackOk(l, Saved(map[], map[]), stamps, jobs, order, cancel)
    ensures jobs == map[] && order == map[] && cancel == map[] && Waiting(jobs) == {}
  {
    hide MemoryOk, Ordered;
    assert Waiting(jobs) == Active(map[]) == {};
    assert order.Keys == {} && cancel.Keys == {};
  }

  lemma OneWaits(a: Job)
    requires a.status == Queued
    ensures Waiting(map[1 := a]) == {1} && |map[1 := a]| == 1
  {
  }

  lemma TwoWait(a: Job, b: Job)
    requires a.status == Queued && b.status == Queued
    ensures Waiting(map[1 := a, 2 := b]) == {1, 2} && map[1 := a, 2 := b].Keys == {1, 2} && |map[1 := a, 2 := b]| == 2
  {
    assert |{1, 2}| == 2;
  }

  /** An agent that has just started, without a state file. */
  method Started() returns (agent: CheckpointAgent)
    ensures fresh(agent) && agent.Valid() && agent.size == Bulky && agent.managed == map[] && agent.limits == Limits(4, 1)
    ensures agent.worker == Idle && !agent.stopping
    ensures agent.jobs == map[] && agent.order == map[] && agent.cancel == map[] && Waiting(agent.jobs) == {}
  {
    hide RequestOk, MemoryOk, OrderOk, ManagedOk, PutBackOk, Encoding, Waiting, Bulky;
    BulkyEncodes();
    agent := new CheckpointAgent(Limits(4, 1), Bulky, None);
    var up := agent.Restart(id => 0, 0, reading => 0, true);
    EmptyIs(agent.limits, id => 0, agent.jobs, agent.order, agent.cancel);
  }

  /** One more waiting job. */
  method Ask(agent: CheckpointAgent, request: Request, id: JobId)
    requires agent.Valid() && agent.size == Bulky && agent.managed == map[] && RequestOk(request, agent.limits.maximum)
    requires agent.worker == Idle && id !in agent.jobs && id !in agent.order && id !in agent.cancel
    requires |Waiting(agent.jobs)| < agent.limits.queueSize && |agent.jobs| < 4
    requires forall j | j in agent.jobs :: agent.jobs[j].status == Queued && agent.jobs[j].request.key != request.key
    modifies agent
    ensures agent.Valid() && agent.managed == map[] && agent.worker == Idle && agent.stopping == old(agent.stopping)
    ensures agent.jobs == old(agent.jobs)[id := NewJob(id, request, 0)] && agent.order.Keys == old(agent.order).Keys + {id}
    ensures forall i | i in agent.cancel :: i in old(agent.cancel) || i == id
  {
    hide RequestOk, MemoryOk, OrderOk, ManagedOk, Trimmed, Fits, Encoding, Waiting, Bulky, CheckpointAgent.DiskOk, Finished;
    ghost var next := agent.jobs[id := NewJob(id, request, 0)];
    assert next.Keys == agent.jobs.Keys + {id};
    SmallFits(next);
    AllWait(next);
    var r := agent.Submit(request, id, 0, reading => 0, true);
    NothingForgotten(next, agent.jobs);
  }

  /** An agent with two waiting jobs. */
  method TwoWaiting() returns (agent: CheckpointAgent)
    ensures fresh(agent) && agent.Valid() && agent.size == Bulky && agent.managed == map[] && agent.limits.maximum > 0
    ensures agent.worker == Idle && !agent.stopping
    ensures agent.jobs.Keys == {1, 2} == Waiting(agent.jobs)
  {
    hide RequestOk, MemoryOk, OrderOk, ManagedOk, Waiting, Bulky, Wanted, CheckpointAgent.DiskOk;
    agent := Started();
    var a, b := Wanted('a'), Wanted('b');
    KeysDiffer();
    WantedIsOk('a', 1);
    WantedIsOk('b', 1);
    ghost var one, two := NewJob(1, a, 0), NewJob(2, b, 0);
    OneWaits(one);
    TwoWait(one, two);
    Ask(agent, a, 1);
    Ask(agent, b, 2);
    assert agent.jobs == map[1 := one, 2 := two];
  }

  lemma HeldIsNotCancelled(l: Limits, jobs: Jobs, order: Order, id: JobId, cancel: Flags)
    requires MemoryOk(l, jobs, order, Holding(id), cancel, false) && id in jobs && jobs[id].status == Queued
    ensures !(id in cancel && cancel[id])
  {
    hide JobsOk;
  }

  lemma Downloading(jobs: Jobs, id: JobId, next: Jobs)
    requires jobs.Keys == Waiting(jobs) && id in jobs
    requires Trimmed(jobs[id := jobs[id].(status := Status.Downloading, updated := 0)], next)
    ensures next == jobs[id := jobs[id].(status := Status.Downloading, updated := 0)]
  {
  }

  lemma Forgotten(jobs: Jobs, id: JobId, done: Job, next: Jobs)
    requires jobs.Keys == {1, 2} && id in jobs && Finished(done) && (forall j | j in jobs && j != id :: jobs[j].status == Queued)
    requires Trimmed(jobs[id := done], next) && !(id in next && Finished(next[id]))
    ensures next.Keys == {1, 2} - {id} == Waiting(next) && id !in next
  {
  }

  /** The first download starts. */
  method StartOne(agent: CheckpointAgent) returns (ghost id: JobId)
    requires agent.Valid() && agent.size == Bulky && agent.managed == map[] && agent.worker == Idle && !agent.stopping
    requires agent.jobs.Keys == {1, 2} == Waiting(agent.jobs)
    modifies agent
    ensures agent.Valid() && agent.managed == map[] && agent.worker == Running(id) && !agent.stopping
    ensures id in old(agent.jobs) && agent.jobs == old(agent.jobs)[id := old(agent.jobs)[id].(status := Status.Downloading, updated := 0)]
  {
    hide RequestOk, MemoryOk, OrderOk, ManagedOk, Trimmed, Fits, Encoding, Waiting, Bulky, AheadOfAll;
    ghost var before := agent.jobs;
    agent.TakeNext();
    id := agent.worker.id;
    HeldIsNotCancelled(agent.limits, agent.jobs, agent.order, id, agent.cancel);
    ghost var begun := before[id := before[id].(status := Status.Downloading, updated := 0)];
    assert |begun.Keys| == |{1, 2}| == 2;
    SmallFits(begun);
    agent.Begin(0, reading => 0, true);
    Downloading(before, id, agent.jobs);
  }

  /** It is installed, which cannot be saved: its job is forgotten, and the other one still waits. */
  method InstallOne(agent: CheckpointAgent, ghost id: JobId)
    requires agent.Valid() && agent.size == Bulky && agent.worker == Running(id) && !agent.stopping
    requires agent.jobs.Keys == {1, 2} && agent.limits.maximum > 0 && id in agent.jobs
    requires forall j | j in agent.jobs && j != id :: agent.jobs[j].status == Queued
    modifies agent
    ensures agent.Valid() && agent.managed != map[] && agent.worker == Idle && !agent.stopping
    ensures agent.jobs.Keys == Waiting(agent.jobs) && agent.jobs != map[]
  {
    hide RequestOk, MemoryOk, OrderOk, ManagedOk, Trimmed, Fits, Encoding, Waiting, Bulky, AheadOfAll, Unfinished;
    BulkyEncodes();
    DigestIs();
    ghost var begun := agent.jobs;
    ghost var done := AfterDownload(begun[id], Installed(Zeros(), 1), false, 0);
    agent.End(Installed(Zeros(), 1), 0, reading => 0, true);
    assert begun[id].request.target in agent.managed;
    BulkyIs(Unfinished(begun[id := done]), agent.managed);
    BulkyIs(agent.jobs, agent.managed);
    Forgotten(begun, id, done, agent.jobs);
    agent.Recover(0, reading => 0, true);
    assert (if id == 1 then 2 else 1) in agent.jobs.Keys;
  }

  lemma TheOthersWait(jobs: Jobs)
    ensures forall j :: j in Waiting(jobs) ==> jobs[j].status == Queued
  {
  }

  /** The next cannot begin, its failure cannot be recorded either, and the worker ends. */
  method AWorkerEnds() returns (agent: CheckpointAgent)
    ensures agent.Valid() && Encoding(agent.size)
    ensures agent.worker == Gone && !agent.stopping
  {
    hide RequestOk, MemoryOk, OrderOk, ManagedOk, Trimmed, Fits, Encoding, Waiting, Bulky, AheadOfAll, Unfinished;
    BulkyEncodes();
    agent := TwoWaiting();
    TheOthersWait(agent.jobs);
    ghost var first := StartOne(agent);
    InstallOne(agent, first);
    ghost var before := agent.jobs;
    agent.TakeNext();
    ghost var id := agent.worker.id;
    HeldIsNotCancelled(agent.limits, agent.jobs, agent.order, id, agent.cancel);
    agent.Begin(0, reading => 0, true);
    Downloading(before, id, agent.jobs);
    agent.SavedIsSmall();
    BulkyIs(agent.jobs, agent.managed);
    BulkyIs(Unfinished(agent.jobs - {id}), agent.managed);
    agent.Recover(0, reading => 0, true);
  }
}
