/**
 * The sandbox runner's lifecycle (compute/sandbox_runner.py, class SandboxManager) as a state machine.
 *
 * A step is one region under `_lock`, one engine command starting or ending, or an event of the
 * environment. Any number of creations run at once; `_cleanup_lock` is held by at most one thread, so
 * what its holder is doing is one value (`Hold`). Engine commands may fail or time out at any moment.
 */
module SandboxLifecycle {
  import opened Basics

  /** The random bits of a sandbox's id; its container is named after them. */
  type Name = nat

  /** What `_lock` protects. A sandbox's id and container name determine each other. */
  datatype Shared = Shared(
    sandboxes: set<Name>, // _sandboxes
    pending: set<Name>,   // _pending
    doomed: set<Name>,    // _doomed
    gone: set<Name>,      // sandbox objects with gone == True
    stop: bool)           // _stop

  // ----- the regions under _lock -----------------------------------------------------------------

  predicate Admits(sh: Shared, max: nat) {
    !sh.stop && |sh.sandboxes| + |sh.pending + sh.doomed| < max
  }

  function Admit(sh: Shared, n: Name): Shared {
    sh.(pending := sh.pending + {n})
  }

  /** The registration region: nothing happens once the runner is stopping. */
  function Register(sh: Shared, n: Name): Shared {
    if sh.stop then sh else sh.(sandboxes := sh.sandboxes + {n}, pending := sh.pending - {n})
  }

  function Unpend(sh: Shared, n: Name): Shared {
    sh.(pending := sh.pending - {n})
  }

  function Doom(sh: Shared, n: Name): Shared {
    sh.(doomed := sh.doomed + {n})
  }

  function Undoom(sh: Shared, n: Name): Shared {
    sh.(doomed := sh.doomed - {n})
  }

  predicate AlreadyRemoved(sh: Shared, n: Name) {
    n in sh.gone && n !in sh.doomed
  }

  function Retire(sh: Shared, n: Name): Shared {
    sh.(doomed := sh.doomed + {n}, sandboxes := sh.sandboxes - {n}, gone := sh.gone + {n})
  }

  // ----- threads ---------------------------------------------------------------------------------

  /** Where one `create` call is. */
  datatype Create =
    | Admitted  // pending; the engine has not been asked yet
    | Launching // `run` is in progress: the container may appear
    | Started   // `run` succeeded; being verified
    | Failing   // about to remove its container: waits for _cleanup_lock
    | Cleaning  // removing its container, holding _cleanup_lock
    | Leaving   // before the final region that stops being pending
    | Done

  predicate InFlight(pc: Create) {
    pc.Admitted? || pc.Launching? || pc.Started? || pc.Failing?
  }

  /** One removal the holder of _cleanup_lock still has to make. */
  datatype Job = Box(name: Name) | Container(name: Name)

  /** What the holder of _cleanup_lock does once its removals are made. */
  datatype After = Release | ThenReconcile | Creator(name: Name) | ShutdownFirst | ShutdownLast

  /** The engine's removal of one container: none in progress, in progress, or succeeded but still doomed. */
  datatype Rm = NoRm | Removing(name: Name) | Removed(name: Name)

  /** What the thread holding _cleanup_lock is doing. */
  datatype Hold =
    | Free
    | Working(todo: set<Job>, after: After, rm: Rm)
    | Listing(known: set<Name>)                          // reconcile: `ps` is in progress
    | Listed(known: set<Name>, listing: set<Name>, up: set<Name>)

  datatype Shutdown = NotAsked | Waiting | Waited(ok: bool) | Sweeping(ok: bool) | Finished(ok: bool) | Aborted

  datatype State = State(
    sh: Shared,
    creates: map<Name, Create>, // every creation this run admitted
    hold: Hold,
    shutdown: Shutdown,
    sweepFailed: bool,          // a removal of shutdown's last pass failed
    alive: set<Name>,           // containers that exist
    up: set<Name>)              // and run

  /** `foreign`: containers a previous runner process left. */
  datatype Config = Config(max: nat, foreign: set<Name>)

  predicate Init(c: Config, s: State) {
    && s.sh == Shared({}, {}, {}, {}, false)
    && s.creates == map[]
    && s.hold == Free
    && s.shutdown == NotAsked
    && !s.sweepFailed
    && s.alive <= c.foreign
    && s.up <= s.alive
  }

  datatype Step =
    // create
    | TakePlace(n: Name)
    | Refused(n: Name)      // no engine slot, or the engine program did not start
    | Launch(n: Name)
    | Appear(n: Name)       // the engine made the container
    | RunOk(n: Name)
    | RunFailed(n: Name)    // non-zero status or timeout; the container may or may not exist
    | VerifyFailed(n: Name)
    | Registers(n: Name)
    | LockToClean(n: Name)
    | Leave(n: Name)
    // the holder of _cleanup_lock
    | BeginRemove(n: Name)
    | BeginReap(chosen: set<Name>)
    | BeginReconcile
    | Start(job: Job)
    | RmOk
    | RmFailed
    | RmRaised              // the engine program did not start: the whole pass ends
    | Forget                // the region after a successful rm
    | Finish
    | ListOk
    | ListFailed
    | Decide
    // shutdown
    | SetStop
    | WaitEnds(ok: bool)
    | BeginSweep
    // environment
    | Vanish(n: Name)
    | Halt(n: Name)

  predicate At(s: State, n: Name, pc: Create) {
    n in s.creates && s.creates[n] == pc
  }

  predicate Enabled(c: Config, s: State, step: Step) {
    match step
    case TakePlace(n) => n !in s.creates && n !in c.foreign && Admits(s.sh, c.max)
    case Refused(n) => At(s, n, Admitted)
    case Launch(n) => At(s, n, Admitted)
    case Appear(n) => At(s, n, Launching)
    case RunOk(n) => At(s, n, Launching)
    case RunFailed(n) => At(s, n, Launching)
    case VerifyFailed(n) => At(s, n, Started)
    case Registers(n) => At(s, n, Started)
    case LockToClean(n) => At(s, n, Failing) && s.hold.Free?
    case Leave(n) => At(s, n, Leaving)
    case BeginRemove(n) => s.hold.Free? && (n in s.sh.sandboxes || n in s.sh.gone)
    case BeginReap(chosen) => s.hold.Free? && chosen <= s.sh.sandboxes
    case BeginReconcile => s.hold.Free?
    case Start(job) => s.hold.Working? && s.hold.rm.NoRm? && job in s.hold.todo
    case RmOk => s.hold.Working? && s.hold.rm.Removing?
    case RmFailed => s.hold.Working? && s.hold.rm.Removing?
    case RmRaised => s.hold.Working? && s.hold.rm.Removing?
    case Forget => s.hold.Working? && s.hold.rm.Removed?
    case Finish => s.hold.Working? && s.hold.rm.NoRm? && s.hold.todo == {}
    case ListOk => s.hold.Listing?
    case ListFailed => s.hold.Listing?
    case Decide => s.hold.Listed?
    case SetStop => s.shutdown.NotAsked?
    case WaitEnds(ok) => s.shutdown.Waiting? && (ok ==> s.sh.pending == {})
    case BeginSweep => s.shutdown.Waited? && s.hold.Free?
    case Vanish(n) => n in s.alive
    case Halt(n) => n in s.up
  }

  function Boxes(names: set<Name>): (jobs: set<Job>)
    ensures forall j :: j in jobs <==> j.Box? && j.name in names
  {
    set n | n in names :: Box(n)
  }

  function Containers(names: set<Name>): (jobs: set<Job>)
    ensures forall j :: j in jobs <==> j.Container? && j.name in names
  {
    set n | n in names :: Container(n)
  }

  /** reconcile's decisions: from the sandboxes known before the listing, the listing (already stale),
      and the registered and pending names read after it. */
  function Plan(known: set<Name>, listing: set<Name>, up: set<Name>, registered: set<Name>, pending: set<Name>)
    : (jobs: set<Job>)
  {
    Containers(set n | n in listing && n !in pending && n !in known && n !in registered)
    + Boxes(set n | n in known && n !in pending && (n !in listing || n !in up))
  }

  /** The holder leaves its pass and releases the lock, normally or by an exception. */
  function Unlock(s: State): State
    requires s.hold.Working?
  {
    match s.hold.after
    case Creator(n) => s.(hold := Free, creates := s.creates[n := Leaving])
    case ShutdownFirst => s.(hold := Free, shutdown := Aborted)
    case ShutdownLast => s.(hold := Free, shutdown := Aborted)
    case _ => s.(hold := Free)
  }

  /** The holder has made its removals. */
  function EndPass(s: State): State
    requires s.hold.Working?
  {
    match s.hold.after
    case ThenReconcile => s.(hold := Listing(s.sh.sandboxes))
    case ShutdownFirst => s.(hold := Working(Containers(s.sh.doomed), ShutdownLast, NoRm))
    case ShutdownLast => s.(hold := Free, shutdown := Finished(s.shutdown.Sweeping? && s.shutdown.ok))
    case _ => Unlock(s)
  }

  /** The first region of `remove` or `_remove_container`, after which `rm` is asked of the engine. */
  function StartJob(s: State, job: Job): State
    requires s.hold.Working?
  {
    var n, rest := job.name, s.hold.todo - {job};
    if job.Container? then s.(sh := Doom(s.sh, n), hold := s.hold.(todo := rest, rm := Removing(n)))
    else if AlreadyRemoved(s.sh, n) then s.(hold := s.hold.(todo := rest))
    else s.(sh := Retire(s.sh, n), hold := s.hold.(todo := rest, rm := Removing(n)))
  }

  function Apply(c: Config, s: State, step: Step): State
    requires Enabled(c, s, step)
  {
    match step
    case TakePlace(n) => s.(sh := Admit(s.sh, n), creates := s.creates[n := Admitted])
    case Refused(n) => s.(creates := s.creates[n := Leaving])
    case Launch(n) => s.(creates := s.creates[n := Launching])
    case Appear(n) => s.(alive := s.alive + {n}, up := s.up + {n})
    case RunOk(n) => s.(creates := s.creates[n := Started])
    case RunFailed(n) => s.(creates := s.creates[n := Failing])
    case VerifyFailed(n) => s.(creates := s.creates[n := Failing])
    case Registers(n) => s.(sh := Register(s.sh, n), creates := s.creates[n := if s.sh.stop then Failing else Leaving])
    case LockToClean(n) => s.(creates := s.creates[n := Cleaning], hold := Working({Container(n)}, Creator(n), NoRm))
    case Leave(n) => s.(sh := Unpend(s.sh, n), creates := s.creates[n := Done])
    case BeginRemove(n) => s.(hold := Working({Box(n)}, Release, NoRm))
    case BeginReap(chosen) =>
      s.(hold := Working(Boxes(chosen) + Containers(s.sh.doomed), ThenReconcile, NoRm))
    case BeginReconcile => s.(hold := Listing(s.sh.sandboxes))
    case Start(job) => StartJob(s, job)
    case RmOk => s.(alive := s.alive - {s.hold.rm.name}, up := s.up - {s.hold.rm.name},
                    hold := s.hold.(rm := Removed(s.hold.rm.name)))
    case RmFailed => s.(hold := s.hold.(rm := NoRm), sweepFailed := s.sweepFailed || s.hold.after.ShutdownLast?)
    case RmRaised => Unlock(s)
    case Forget => s.(sh := Undoom(s.sh, s.hold.rm.name), hold := s.hold.(rm := NoRm))
    case Finish => EndPass(s)
    case ListOk => s.(hold := Listed(s.hold.known, s.alive, s.up))
    case ListFailed => s.(hold := Free)
    case Decide =>
      s.(hold := Working(Plan(s.hold.known, s.hold.listing, s.hold.up, s.sh.sandboxes, s.sh.pending), Release, NoRm))
    case SetStop => s.(sh := s.sh.(stop := true), shutdown := Waiting)
    case WaitEnds(ok) => s.(shutdown := Waited(ok))
    case BeginSweep => s.(shutdown := Sweeping(s.shutdown.ok), sweepFailed := false,
                          hold := Working(Boxes(s.sh.sandboxes), ShutdownFirst, NoRm))
    case Vanish(n) => s.(alive := s.alive - {n}, up := s.up - {n})
    case Halt(n) => s.(up := s.up - {n})
  }

  ghost predicate Runs(c: Config, s: State, steps: seq<Step>, t: State)
    decreases |steps|
  {
    if steps == [] then s == t
    else Enabled(c, s, steps[0]) && Runs(c, Apply(c, s, steps[0]), steps[1..], t)
  }

  // ----- the invariant ---------------------------------------------------------------------------

  type Creates = map<Name, Create>

  /** What counts against max_sandboxes, leftovers of another process aside. */
  function Tracked(ours: set<Name>, sh: Shared): set<Name> {
    sh.sandboxes + (sh.pending + sh.doomed) * ours
  }

  ghost predicate Scoped(c: Config, ours: set<Name>, sh: Shared, alive: set<Name>, up: set<Name>) {
    && (forall n | n in ours :: n !in c.foreign)
    && (forall n | n in sh.pending :: n in ours)
    && (forall n | n in sh.sandboxes :: n in ours && n !in sh.doomed && n !in sh.pending && n !in sh.gone)
    && (forall n | n in sh.gone :: n in ours)
    && (forall n | n in sh.doomed :: n in ours || n in c.foreign)
    && (forall n | n in alive :: n in ours || n in c.foreign)
    && (forall n | n in up :: n in alive)
  }

  /** What a creation's own phase says about the shared sets. */
  ghost predicate PhaseOk(n: Name, pc: Create, sh: Shared, alive: set<Name>) {
    && (InFlight(pc) ==> n in sh.pending && n !in sh.doomed && n !in sh.gone)
    && (pc.Cleaning? ==> n in sh.pending && n !in sh.gone)
    && (pc.Admitted? ==> n !in alive)
    && (pc.Leaving? && n in sh.pending && n in alive ==> n in sh.doomed)
    && (pc.Done? ==> n !in sh.pending)
  }

  ghost predicate Phases(creates: Creates, sh: Shared, alive: set<Name>) {
    forall n | n in creates :: PhaseOk(n, creates[n], sh, alive)
  }

  /** Every container this run started is named in one of the three sets. */
  ghost predicate NoOrphans(ours: set<Name>, sh: Shared, alive: set<Name>) {
    forall n | n in alive && n in ours :: n in sh.sandboxes || n in sh.pending || n in sh.doomed
  }

  /** Removing `n` can neither hit a running creation or a registered sandbox nor take a place. */
  ghost predicate Removable(creates: Creates, sh: Shared, n: Name) {
    && n !in sh.sandboxes
    && (n in creates ==> creates[n].Cleaning? || (n in sh.doomed && !InFlight(creates[n])))
  }

  ghost predicate GoodJob(c: Config, creates: Creates, sh: Shared, j: Job) {
    match j
    case Box(n) => n in sh.sandboxes || n in sh.gone
    case Container(n) => Removable(creates, sh, n) && (n in creates || n in c.foreign)
  }

  ghost predicate GoodJobs(c: Config, creates: Creates, sh: Shared, hold: Hold) {
    hold.Working? ==> forall j | j in hold.todo :: GoodJob(c, creates, sh, j)
  }

  /** No two removals of a pass name the same container. */
  ghost predicate Apart(hold: Hold) {
    hold.Working? ==>
      && (forall i, j | i in hold.todo && j in hold.todo && i.name == j.name :: i == j)
      && (!hold.rm.NoRm? ==> forall j | j in hold.todo :: j.name != hold.rm.name)
  }

  ghost predicate GoodRm(creates: Creates, sh: Shared, hold: Hold, alive: set<Name>) {
    hold.Working? && !hold.rm.NoRm? ==>
      && hold.rm.name in sh.doomed && Removable(creates, sh, hold.rm.name)
      && (hold.rm.Removed? ==> hold.rm.name !in alive)
  }

  /** A failed creation that is cleaning up is the one that holds the lock. */
  ghost predicate Cleaners(creates: Creates, sh: Shared, hold: Hold, alive: set<Name>) {
    && (forall n | n in creates && creates[n].Cleaning? :: hold.Working? && hold.after == Creator(n))
    && (hold.Working? && hold.after.Creator? ==>
          var n := hold.after.name;
          && n in creates && creates[n].Cleaning?
          && hold.todo <= {Container(n)}
          && (n in alive ==> n in sh.doomed || (Container(n) in hold.todo && hold.rm.NoRm?)))
  }

  ghost predicate Listings(c: Config, creates: Creates, sh: Shared, hold: Hold) {
    && (hold.Listing? || hold.Listed? ==> hold.known <= sh.sandboxes)
    && (hold.Listed? ==>
          && hold.up <= hold.listing
          && (forall n | n in hold.listing :: n in creates || n in c.foreign)
          && (forall n | n in hold.listing && n in creates ::
                n in sh.sandboxes || n in sh.doomed || (n in sh.pending && InFlight(creates[n]) && !creates[n].Admitted?)))
  }

  /** Shutdown's two passes: the first will remove every sandbox, the last every doomed container. */
  ghost predicate Sweeps(sh: Shared, hold: Hold, shutdown: Shutdown, sweepFailed: bool) {
    && (hold.Working? && (hold.after.ShutdownFirst? || hold.after.ShutdownLast?) ==> sh.stop && shutdown.Sweeping?)
    && (hold.Working? && hold.after.ShutdownFirst? ==> forall n | n in sh.sandboxes :: Box(n) in hold.todo)
    && (hold.Working? && hold.after.ShutdownLast? ==>
          && sh.sandboxes == {}
          && (!sweepFailed ==>
                forall d | d in sh.doomed :: Container(d) in hold.todo || (!hold.rm.NoRm? && hold.rm.name == d)))
  }

  ghost predicate Stopping(sh: Shared, shutdown: Shutdown) {
    && (!shutdown.NotAsked? ==> sh.stop)
    && ((shutdown.Waited? || shutdown.Sweeping? || shutdown.Finished?) && shutdown.ok ==> sh.pending == {})
  }

  /** The books: who counts, in which phase, and that no container is forgotten. */
  ghost predicate Books(c: Config, creates: Creates, sh: Shared, alive: set<Name>, up: set<Name>) {
    && Scoped(c, creates.Keys, sh, alive, up)
    && Phases(creates, sh, alive)
    && NoOrphans(creates.Keys, sh, alive)
    && |Tracked(creates.Keys, sh)| <= c.max
  }

  /** What the holder of _cleanup_lock may rely on. */
  ghost predicate Pass(c: Config, s: State) {
    && GoodJobs(c, s.creates, s.sh, s.hold)
    && Apart(s.hold)
    && GoodRm(s.creates, s.sh, s.hold, s.alive)
    && Cleaners(s.creates, s.sh, s.hold, s.alive)
    && Listings(c, s.creates, s.sh, s.hold)
    && Sweeps(s.sh, s.hold, s.shutdown, s.sweepFailed)
    && Stopping(s.sh, s.shutdown)
  }

  ghost predicate Inv(c: Config, s: State) {
    Books(c, s.creates, s.sh, s.alive, s.up) && Pass(c, s)
  }

  lemma InitInv(c: Config, s: State)
    requires Init(c, s)
    ensures Inv(c, s)
  {
    assert Tracked({}, s.sh) == {};
  }

  // ----- every step keeps it: creations ----------------------------------------------------------

  /** Capacity: admission adds the one place it checked for; nothing else ever adds one. */
  lemma AdmissionHasRoom(sh: Shared, ours: set<Name>, n: Name, max: nat)
    requires Admits(sh, max) && n !in ours
    requires sh.pending <= ours
    ensures |Tracked(ours + {n}, Admit(sh, n))| <= max
    ensures n !in sh.doomed ==> |Tracked(ours, sh)| < max
  {
    TrackedAdmits(sh, ours, n);
    var counted := (sh.pending + sh.doomed) * ours;
    SubsetSize(counted, sh.pending + sh.doomed);
    UnionSize(sh.sandboxes, counted);
    hide Tracked;
    assert Tracked(ours, sh) == sh.sandboxes + counted by {
      TrackedIs(sh, ours);
    }
  }

  lemma TrackedIs(sh: Shared, ours: set<Name>)
    ensures Tracked(ours, sh) == sh.sandboxes + (sh.pending + sh.doomed) * ours
  {
  }

  lemma TrackedAdmits(sh: Shared, ours: set<Name>, n: Name)
    requires n !in ours && sh.pending <= ours
    ensures Tracked(ours + {n}, Admit(sh, n)) == Tracked(ours, sh) + {n}
  {
    forall x
      ensures x in Tracked(ours + {n}, Admit(sh, n)) <==> x in Tracked(ours, sh) || x == n
    {
    }
  }

  lemma FreshName(c: Config, ours: set<Name>, sh: Shared, alive: set<Name>, up: set<Name>, n: Name)
    requires Scoped(c, ours, sh, alive, up) && n !in ours && n !in c.foreign
    ensures n !in sh.doomed && n !in sh.gone && n !in alive && sh.pending <= ours
  {
  }

  lemma AdmitBooks(c: Config, s: State, n: Name)
    requires Books(c, s.creates, s.sh, s.alive, s.up) && n !in s.creates && n !in c.foreign && Admits(s.sh, c.max)
    ensures Books(c, s.creates[n := Admitted], Admit(s.sh, n), s.alive, s.up)
  {
    hide Scoped, Phases, NoOrphans, Tracked, Admits, Admit;
    var ours := s.creates.Keys;
    FreshName(c, ours, s.sh, s.alive, s.up, n);
    AdmissionHasRoom(s.sh, ours, n, c.max);
    AdmitScope(c, ours, s.sh, s.alive, s.up, n);
    AdmitPhases(s.creates, s.sh, s.alive, n);
    assert s.creates[n := Admitted].Keys == ours + {n};
  }

  lemma AdmitScope(c: Config, ours: set<Name>, sh: Shared, alive: set<Name>, up: set<Name>, n: Name)
    requires Scoped(c, ours, sh, alive, up) && NoOrphans(ours, sh, alive) && n !in ours && n !in c.foreign
    ensures Scoped(c, ours + {n}, Admit(sh, n), alive, up) && NoOrphans(ours + {n}, Admit(sh, n), alive)
  {
  }

  lemma AdmitPhases(creates: Creates, sh: Shared, alive: set<Name>, n: Name)
    requires Phases(creates, sh, alive) && n !in creates
    requires n !in sh.doomed && n !in sh.gone && n !in alive
    ensures Phases(creates[n := Admitted], Admit(sh, n), alive)
  {
  }

  lemma AdmitPass(c: Config, s: State, n: Name)
    requires Pass(c, s) && Scoped(c, s.creates.Keys, s.sh, s.alive, s.up)
    requires n !in s.creates && n !in c.foreign && !s.sh.stop
    ensures Pass(c, s.(sh := Admit(s.sh, n), creates := s.creates[n := Admitted]))
  {
  }

  predicate MayMove(pc: Create, next: Create) {
    && InFlight(pc)
    && (next.Launching? || ((next.Started? || next.Failing?) && !pc.Admitted?) || (next.Leaving? && pc.Admitted?))
  }

  /** A creation moves on without touching a shared set. */
  lemma Moves(c: Config, s: State, n: Name, pc: Create)
    requires Inv(c, s) && n in s.creates && MayMove(s.creates[n], pc)
    ensures Inv(c, s.(creates := s.creates[n := pc]))
  {
    assert s.creates[n := pc].Keys == s.creates.Keys;
    assert Phases(s.creates[n := pc], s.sh, s.alive) by {
      assert PhaseOk(n, s.creates[n], s.sh, s.alive);
    }
    MovesPass(c, s, n, pc);
  }

  lemma MovesPass(c: Config, s: State, n: Name, pc: Create)
    requires Pass(c, s) && n in s.creates && MayMove(s.creates[n], pc)
    ensures Pass(c, s.(creates := s.creates[n := pc]))
  {
  }

  lemma Appears(c: Config, s: State, n: Name)
    requires Inv(c, s) && At(s, n, Launching)
    ensures Inv(c, s.(alive := s.alive + {n}, up := s.up + {n}))
  {
  }

  lemma RegisterBooks(c: Config, s: State, n: Name)
    requires Inv(c, s) && At(s, n, Started) && !s.sh.stop
    ensures Books(c, s.creates[n := Leaving], Register(s.sh, n), s.alive, s.up)
  {
    assert PhaseOk(n, Started, s.sh, s.alive);
    RegisterScope(c, s.creates.Keys, s.sh, s.alive, s.up, n);
    RegisterPhases(s.creates, s.sh, s.alive, n);
    assert s.creates[n := Leaving].Keys == s.creates.Keys;
  }

  lemma RegisterScope(c: Config, ours: set<Name>, sh: Shared, alive: set<Name>, up: set<Name>, n: Name)
    requires Scoped(c, ours, sh, alive, up) && NoOrphans(ours, sh, alive) && !sh.stop
    requires n in ours && n in sh.pending && n !in sh.doomed && n !in sh.gone
    ensures Scoped(c, ours, Register(sh, n), alive, up) && NoOrphans(ours, Register(sh, n), alive)
    ensures Tracked(ours, Register(sh, n)) == Tracked(ours, sh)
  {
  }

  lemma RegisterPhases(creates: Creates, sh: Shared, alive: set<Name>, n: Name)
    requires Phases(creates, sh, alive) && n in creates && !sh.stop
    ensures Phases(creates[n := Leaving], Register(sh, n), alive)
  {
  }

  lemma RegisterPass(c: Config, s: State, n: Name)
    requires Pass(c, s) && At(s, n, Started) && !s.sh.stop && PhaseOk(n, Started, s.sh, s.alive)
    ensures Pass(c, s.(sh := Register(s.sh, n), creates := s.creates[n := Leaving]))
  {
  }

  lemma Cleans(c: Config, s: State, n: Name)
    requires Inv(c, s) && At(s, n, Failing) && s.hold.Free?
    ensures Inv(c, s.(creates := s.creates[n := Cleaning], hold := Working({Container(n)}, Creator(n), NoRm)))
  {
    assert s.creates[n := Cleaning].Keys == s.creates.Keys;
  }

  lemma LeaveBooks(c: Config, s: State, n: Name)
    requires Inv(c, s) && At(s, n, Leaving)
    ensures Books(c, s.creates[n := Done], Unpend(s.sh, n), s.alive, s.up)
  {
    assert PhaseOk(n, Leaving, s.sh, s.alive);
    hide Scoped, Phases, NoOrphans, Tracked, Unpend, Pass;
    LeaveScope(c, s.creates.Keys, s.sh, s.alive, s.up, n);
    LeavePhases(s.creates, s.sh, s.alive, n);
    assert s.creates[n := Done].Keys == s.creates.Keys;
  }

  lemma LeaveScope(c: Config, ours: set<Name>, sh: Shared, alive: set<Name>, up: set<Name>, n: Name)
    requires Scoped(c, ours, sh, alive, up) && NoOrphans(ours, sh, alive)
    requires n in sh.pending && n in alive ==> n in sh.doomed
    ensures Scoped(c, ours, Unpend(sh, n), alive, up) && NoOrphans(ours, Unpend(sh, n), alive)
    ensures |Tracked(ours, Unpend(sh, n))| <= |Tracked(ours, sh)|
  {
    SubsetSize(Tracked(ours, Unpend(sh, n)), Tracked(ours, sh));
  }

  lemma LeavePhases(creates: Creates, sh: Shared, alive: set<Name>, n: Name)
    requires Phases(creates, sh, alive)
    ensures Phases(creates[n := Done], Unpend(sh, n), alive)
  {
  }

  lemma LeavePass(c: Config, s: State, n: Name)
    requires Pass(c, s) && At(s, n, Leaving)
    ensures Pass(c, s.(sh := Unpend(s.sh, n), creates := s.creates[n := Done]))
  {
  }

  // ----- every step keeps it: the holder of _cleanup_lock ----------------------------------------

  /** A pass over sandboxes and, or, doomed containers begins. */
  lemma BeginsPass(c: Config, s: State, todo: set<Job>, after: After)
    requires Inv(c, s) && (s.hold.Free? || s.hold.Listed?) && (after.Release? || after.ThenReconcile?)
    requires forall j | j in todo :: GoodJob(c, s.creates, s.sh, j)
    requires forall i, j | i in todo && j in todo && i.name == j.name :: i == j
    ensures Inv(c, s.(hold := Working(todo, after, NoRm)))
  {
  }

  lemma ReapIsGood(c: Config, s: State, chosen: set<Name>)
    requires Inv(c, s) && chosen <= s.sh.sandboxes
    ensures forall j | j in Boxes(chosen) + Containers(s.sh.doomed) ::
              GoodJob(c, s.creates, s.sh, j)
  {
  }

  /** reconcile's plan from its stale snapshots: it never picks a container that a creation still needs, nor
      a registered sandbox that was listed as running, and it takes no capacity. */
  lemma PlanIsGood(c: Config, s: State)
    requires Inv(c, s) && s.hold.Listed?
    ensures forall j | j in Plan(s.hold.known, s.hold.listing, s.hold.up, s.sh.sandboxes, s.sh.pending) ::
              && GoodJob(c, s.creates, s.sh, j)
              && (j.Box? ==> j.name !in s.hold.up)
    ensures forall n :: Container(n) in Plan(s.hold.known, s.hold.listing, s.hold.up, s.sh.sandboxes, s.sh.pending)
              <==> n in s.hold.listing && n !in s.hold.known && n !in s.sh.sandboxes && n !in s.sh.pending
    ensures forall n :: Box(n) in Plan(s.hold.known, s.hold.listing, s.hold.up, s.sh.sandboxes, s.sh.pending)
              <==> n in s.hold.known && n !in s.sh.pending && !(n in s.hold.listing && n in s.hold.up)
  {
    hide Plan;
    PlanIsExact(s.hold.known, s.hold.listing, s.hold.up, s.sh.sandboxes, s.sh.pending);
  }

  lemma PlanIsExact(known: set<Name>, listing: set<Name>, up: set<Name>, registered: set<Name>, pending: set<Name>)
    ensures forall n :: Container(n) in Plan(known, listing, up, registered, pending)
              <==> n in listing && n !in known && n !in registered && n !in pending
    ensures forall n :: Box(n) in Plan(known, listing, up, registered, pending)
              <==> n in known && n !in pending && !(n in listing && n in up)
  {
  }

  lemma StartContainerBooks(c: Config, s: State, n: Name)
    requires Books(c, s.creates, s.sh, s.alive, s.up) && GoodJob(c, s.creates, s.sh, Container(n))
    ensures Books(c, s.creates, Doom(s.sh, n), s.alive, s.up)
  {
    assert Tracked(s.creates.Keys, Doom(s.sh, n)) == Tracked(s.creates.Keys, s.sh);
  }

  lemma StartContainerPass(c: Config, s: State, n: Name)
    requires Inv(c, s) && s.hold.Working? && s.hold.rm.NoRm? && Container(n) in s.hold.todo
    ensures Pass(c, StartJob(s, Container(n)))
  {
    assert GoodJob(c, s.creates, s.sh, Container(n));
  }

  lemma RetireBooks(c: Config, creates: Creates, sh: Shared, alive: set<Name>, up: set<Name>, n: Name)
    requires Books(c, creates, sh, alive, up) && (n in sh.sandboxes || n in sh.gone)
    requires !AlreadyRemoved(sh, n)
    ensures Books(c, creates, Retire(sh, n), alive, up)
  {
    RetireScope(c, creates.Keys, sh, alive, up, n);
    RetirePhases(creates, sh, alive, n);
  }

  lemma RetirePhases(creates: Creates, sh: Shared, alive: set<Name>, n: Name)
    requires Phases(creates, sh, alive) && n in creates && !InFlight(creates[n]) && !creates[n].Cleaning?
    ensures Phases(creates, Retire(sh, n), alive)
  {
  }

  lemma RetireScope(c: Config, ours: set<Name>, sh: Shared, alive: set<Name>, up: set<Name>, n: Name)
    requires Scoped(c, ours, sh, alive, up) && NoOrphans(ours, sh, alive)
    requires n in sh.sandboxes || (n in sh.gone && n in sh.doomed)
    ensures Scoped(c, ours, Retire(sh, n), alive, up) && NoOrphans(ours, Retire(sh, n), alive)
    ensures Tracked(ours, Retire(sh, n)) == Tracked(ours, sh)
  {
  }

  lemma StartBoxJobs(c: Config, creates: Creates, sh: Shared, hold: Hold, n: Name)
    requires GoodJobs(c, creates, sh, hold) && Apart(hold)
    requires hold.Working? && hold.rm.NoRm? && Box(n) in hold.todo
    requires n in sh.sandboxes + sh.gone && n in creates && !InFlight(creates[n])
    ensures GoodJobs(c, creates, Retire(sh, n), hold.(todo := hold.todo - {Box(n)}, rm := Removing(n)))
    ensures Apart(hold.(todo := hold.todo - {Box(n)}, rm := Removing(n)))
  {
  }

  lemma StartBoxPass(c: Config, s: State, n: Name)
    requires Pass(c, s) && Scoped(c, s.creates.Keys, s.sh, s.alive, s.up) && Phases(s.creates, s.sh, s.alive)
    requires s.hold.Working? && s.hold.rm.NoRm? && Box(n) in s.hold.todo
    requires n in s.sh.sandboxes + s.sh.gone && !AlreadyRemoved(s.sh, n)
    ensures Pass(c, StartJob(s, Box(n)))
  {
    StartBoxJobs(c, s.creates, s.sh, s.hold, n);
  }

  lemma StartsBox(c: Config, s: State, n: Name)
    requires Inv(c, s) && s.hold.Working? && s.hold.rm.NoRm? && Box(n) in s.hold.todo
    ensures Inv(c, StartJob(s, Box(n)))
  {
    assert GoodJob(c, s.creates, s.sh, Box(n));
    if AlreadyRemoved(s.sh, n) {
      SkipBox(c, s, n);
    } else {
      RetireBooks(c, s.creates, s.sh, s.alive, s.up, n);
      StartBoxPass(c, s, n);
    }
  }

  lemma SkipBox(c: Config, s: State, n: Name)
    requires Inv(c, s) && s.hold.Working? && s.hold.rm.NoRm? && Box(n) in s.hold.todo && AlreadyRemoved(s.sh, n)
    ensures Pass(c, s.(hold := s.hold.(todo := s.hold.todo - {Box(n)})))
  {
  }

  lemma RemovesOk(c: Config, s: State)
    requires Inv(c, s) && s.hold.Working? && s.hold.rm.Removing?
    ensures Inv(c, s.(alive := s.alive - {s.hold.rm.name}, up := s.up - {s.hold.rm.name},
                      hold := s.hold.(rm := Removed(s.hold.rm.name))))
  {
  }

  lemma ForgetBooks(c: Config, s: State)
    requires Inv(c, s) && s.hold.Working? && s.hold.rm.Removed?
    ensures Books(c, s.creates, Undoom(s.sh, s.hold.rm.name), s.alive, s.up)
  {
    SubsetSize(Tracked(s.creates.Keys, Undoom(s.sh, s.hold.rm.name)), Tracked(s.creates.Keys, s.sh));
  }

  lemma ForgetPass(c: Config, s: State)
    requires Inv(c, s) && s.hold.Working? && s.hold.rm.Removed?
    ensures Pass(c, s.(sh := Undoom(s.sh, s.hold.rm.name), hold := s.hold.(rm := NoRm)))
  {
  }

  lemma CleanerUnlocks(c: Config, s: State, n: Name)
    requires Inv(c, s) && s.hold.Working? && (s.hold.rm.Removing? || (s.hold.rm.NoRm? && s.hold.todo == {}))
    requires s.hold.after == Creator(n)
    ensures Inv(c, Unlock(s))
  {
    assert s.creates[n := Leaving].Keys == s.creates.Keys;
    assert PhaseOk(n, Leaving, s.sh, s.alive);
  }

  lemma Unlocks(c: Config, s: State)
    requires Inv(c, s) && s.hold.Working? && (s.hold.rm.Removing? || (s.hold.rm.NoRm? && s.hold.todo == {}))
    ensures Inv(c, Unlock(s))
  {
    if s.hold.after.Creator? {
      CleanerUnlocks(c, s, s.hold.after.name);
    }
  }

  lemma EndsShutdownPass(c: Config, s: State)
    requires Inv(c, s) && s.hold.Working? && s.hold.rm.NoRm? && s.hold.todo == {}
    requires s.hold.after.ShutdownFirst? || s.hold.after.ShutdownLast?
    ensures Pass(c, EndPass(s))
  {
    if s.hold.after.ShutdownFirst? {
      assert s.sh.sandboxes == {};
    }
  }

  lemma Lists(c: Config, s: State)
    requires Inv(c, s) && s.hold.Listing?
    ensures Inv(c, s.(hold := Listed(s.hold.known, s.alive, s.up)))
  {
  }

  // ----- every step keeps it: shutdown and the environment ---------------------------------------

  lemma BeginsSweep(c: Config, s: State)
    requires Pass(c, s) && s.shutdown.Waited? && s.hold.Free?
    ensures Pass(c, s.(shutdown := Sweeping(s.shutdown.ok), sweepFailed := false,
                       hold := Working(Boxes(s.sh.sandboxes), ShutdownFirst, NoRm)))
  {
  }

  lemma Loses(c: Config, s: State, n: Name)
    requires Inv(c, s)
    ensures Inv(c, s.(alive := s.alive - {n}, up := s.up - {n})) && Inv(c, s.(up := s.up - {n}))
  {
  }

  lemma Registering(c: Config, s: State, n: Name)
    requires Inv(c, s) && At(s, n, Started)
    ensures Inv(c, s.(sh := Register(s.sh, n), creates := s.creates[n := if s.sh.stop then Failing else Leaving]))
  {
    hide Pass;
    if s.sh.stop {
      Moves(c, s, n, Failing);
    } else {
      assert PhaseOk(n, Started, s.sh, s.alive);
      RegisterBooks(c, s, n);
      RegisterPass(c, s, n);
    }
  }

  lemma CreationKeepsInv(c: Config, s: State, step: Step)
    requires Inv(c, s) && Enabled(c, s, step)
    requires step.TakePlace? || step.Registers? || step.Leave? || step.LockToClean? || step.Appear?
    ensures Inv(c, Apply(c, s, step))
  {
    hide Phases, NoOrphans, Tracked;
    match step
    case TakePlace(n) => AdmitBooks(c, s, n); AdmitPass(c, s, n);
    case Appear(n) => Appears(c, s, n);
    case Registers(n) => Registering(c, s, n);
    case LockToClean(n) => Cleans(c, s, n);
    case Leave(n) => LeaveBooks(c, s, n); LeavePass(c, s, n);
  }

  lemma MoveKeepsInv(c: Config, s: State, step: Step)
    requires Inv(c, s) && Enabled(c, s, step)
    requires step.Refused? || step.Launch? || step.RunOk? || step.RunFailed? || step.VerifyFailed?
    ensures Inv(c, Apply(c, s, step))
  {
    match step
    case Refused(n) => Moves(c, s, n, Leaving);
    case Launch(n) => Moves(c, s, n, Launching);
    case RunOk(n) => Moves(c, s, n, Started);
    case RunFailed(n) => Moves(c, s, n, Failing);
    case VerifyFailed(n) => Moves(c, s, n, Failing);
  }

  lemma BeginKeepsInv(c: Config, s: State, step: Step)
    requires Inv(c, s) && Enabled(c, s, step)
    requires step.BeginRemove? || step.BeginReap? || step.Decide?
    ensures Inv(c, Apply(c, s, step))
  {
    hide Pass, Phases, NoOrphans, Tracked;
    match step
    case BeginRemove(n) => BeginsPass(c, s, {Box(n)}, Release);
    case BeginReap(chosen) =>
      ReapIsGood(c, s, chosen);
      BeginsPass(c, s, Boxes(chosen) + Containers(s.sh.doomed), ThenReconcile);
    case Decide =>
      PlanIsGood(c, s);
      BeginsPass(c, s, Plan(s.hold.known, s.hold.listing, s.hold.up, s.sh.sandboxes, s.sh.pending), Release);
  }

  lemma ListKeepsInv(c: Config, s: State, step: Step)
    requires Inv(c, s) && Enabled(c, s, step)
    requires step.BeginReconcile? || step.ListOk? || step.ListFailed?
    ensures Inv(c, Apply(c, s, step))
  {
    if step.ListOk? {
      Lists(c, s);
    }
  }

  lemma PassKeepsInv(c: Config, s: State, step: Step)
    requires Inv(c, s) && Enabled(c, s, step)
    requires step.RmOk? || step.RmFailed? || step.RmRaised? || step.Forget?
    ensures Inv(c, Apply(c, s, step))
  {
    match step
    case RmOk => RemovesOk(c, s);
    case RmRaised => Unlocks(c, s);
    case Forget => ForgetBooks(c, s); ForgetPass(c, s);
    case RmFailed =>
  }

  lemma StartKeepsInv(c: Config, s: State, job: Job)
    requires Inv(c, s) && Enabled(c, s, Start(job))
    ensures Inv(c, StartJob(s, job))
  {
    if job.Box? {
      StartsBox(c, s, job.name);
    } else {
      assert GoodJob(c, s.creates, s.sh, job);
      StartContainerBooks(c, s, job.name);
      StartContainerPass(c, s, job.name);
    }
  }

  lemma FinishKeepsInv(c: Config, s: State)
    requires Inv(c, s) && Enabled(c, s, Finish)
    ensures Inv(c, EndPass(s))
  {
    if s.hold.after.Release? || s.hold.after.Creator? {
      Unlocks(c, s);
    } else if !s.hold.after.ThenReconcile? {
      EndsShutdownPass(c, s);
    }
  }

  lemma StopsPass(c: Config, s: State)
    requires Pass(c, s) && s.shutdown.NotAsked?
    ensures Pass(c, s.(sh := s.sh.(stop := true), shutdown := Waiting))
  {
  }

  lemma Stops(c: Config, s: State)
    requires Inv(c, s) && s.shutdown.NotAsked?
    ensures Inv(c, s.(sh := s.sh.(stop := true), shutdown := Waiting))
  {
    hide Pass, Books;
    StopsPass(c, s);
    StopsBooks(c, s.creates, s.sh, s.alive, s.up);
  }

  lemma StopsBooks(c: Config, creates: Creates, sh: Shared, alive: set<Name>, up: set<Name>)
    requires Books(c, creates, sh, alive, up)
    ensures Books(c, creates, sh.(stop := true), alive, up)
  {
    hide Tracked;
    assert Tracked(creates.Keys, sh.(stop := true)) == Tracked(creates.Keys, sh) by {
      StopsTracked(creates.Keys, sh);
    }
  }

  lemma StopsTracked(ours: set<Name>, sh: Shared)
    ensures Tracked(ours, sh.(stop := true)) == Tracked(ours, sh)
  {
  }

  lemma WaitEnding(c: Config, s: State, ok: bool)
    requires Inv(c, s) && s.shutdown.Waiting? && (ok ==> s.sh.pending == {})
    ensures Inv(c, s.(shutdown := Waited(ok)))
  {
  }

  lemma OtherKeepsInv(c: Config, s: State, step: Step)
    requires Inv(c, s) && Enabled(c, s, step)
    requires step.SetStop? || step.WaitEnds? || step.BeginSweep? || step.Vanish? || step.Halt?
    ensures Inv(c, Apply(c, s, step))
  {
    hide Books, Pass;
    match step
    case BeginSweep => BeginsSweep(c, s);
    case Vanish(n) => Loses(c, s, n);
    case Halt(n) => Loses(c, s, n);
    case SetStop => Stops(c, s);
    case WaitEnds(ok) => WaitEnding(c, s, ok);
  }

  lemma StepKeepsInv(c: Config, s: State, step: Step)
    requires Inv(c, s) && Enabled(c, s, step)
    ensures Inv(c, Apply(c, s, step))
  {
    if step.Start? {
      StartKeepsInv(c, s, step.job);
    } else if step.Finish? {
      FinishKeepsInv(c, s);
    } else if step.SetStop? || step.WaitEnds? || step.BeginSweep? || step.Vanish? || step.Halt? {
      OtherKeepsInv(c, s, step);
    } else if step.RmOk? || step.RmFailed? || step.RmRaised? || step.Forget? {
      PassKeepsInv(c, s, step);
    } else if step.Refused? || step.Launch? || step.RunOk? || step.RunFailed? || step.VerifyFailed? {
      MoveKeepsInv(c, s, step);
    } else if step.TakePlace? || step.Registers? || step.Leave? || step.LockToClean? || step.Appear? {
      CreationKeepsInv(c, s, step);
    } else if step.BeginReconcile? || step.ListOk? || step.ListFailed? {
      ListKeepsInv(c, s, step);
    } else {
      BeginKeepsInv(c, s, step);
    }
  }

  // ----- what holds in every run -----------------------------------------------------------------

  lemma {:induction false} RunKeepsInv(c: Config, s: State, steps: seq<Step>, t: State)
    requires Inv(c, s) && Runs(c, s, steps, t)
    ensures Inv(c, t)
    decreases |steps|
  {
    if steps != [] {
      StepKeepsInv(c, s, steps[0]);
      RunKeepsInv(c, Apply(c, s, steps[0]), steps[1..], t);
    }
  }

  ghost predicate Reaches(c: Config, init: State, steps: seq<Step>, s: State) {
    Init(c, init) && Runs(c, init, steps, s)
  }

  lemma Reachable(c: Config, init: State, steps: seq<Step>, s: State)
    requires Reaches(c, init, steps, s)
    ensures Inv(c, s)
  {
    InitInv(c, init);
    RunKeepsInv(c, init, steps, s);
  }

  /** In every interleaving, what this run holds never exceeds the configured number of sandboxes. */
  lemma CapacityIsKept(c: Config, init: State, steps: seq<Step>, s: State)
    requires Reaches(c, init, steps, s)
    ensures |s.sh.sandboxes| + |(s.sh.pending + s.sh.doomed) * s.creates.Keys| <= c.max
  {
    Reachable(c, init, steps, s);
    var counted := (s.sh.pending + s.sh.doomed) * s.creates.Keys;
    assert s.sh.sandboxes * counted == {};
    assert Tracked(s.creates.Keys, s.sh) == s.sh.sandboxes + counted;
  }

  /** Every container this run started that still exists is registered, pending or doomed. */
  lemma NoContainerIsForgotten(c: Config, init: State, steps: seq<Step>, s: State, n: Name)
    requires Reaches(c, init, steps, s) && n in s.alive && n !in c.foreign
    ensures n in s.sh.sandboxes || n in s.sh.pending || n in s.sh.doomed
  {
    Reachable(c, init, steps, s);
  }

  /** While the engine is asked to remove a container, no creation is in flight under that name and no
      registered sandbox has it, whoever asked: a failed creation, remove, reap, reconcile or shutdown. */
  lemma RemovalHitsNothingLive(c: Config, init: State, steps: seq<Step>, s: State)
    requires Reaches(c, init, steps, s) && s.hold.Working? && s.hold.rm.Removing?
    ensures s.hold.rm.name in s.sh.doomed
    ensures s.hold.rm.name !in s.sh.sandboxes
    ensures s.hold.rm.name in s.creates ==> !InFlight(s.creates[s.hold.rm.name])
  {
    Reachable(c, init, steps, s);
  }

  /** reconcile decides from two snapshots of the manager and a listing that is older than the second. Still
      it removes as unknown only what no creation is making and nobody registered, and removes a sandbox only
      when the listing lacks it or shows it stopped. */
  lemma ReconcileIsSafe(c: Config, init: State, steps: seq<Step>, s: State, job: Job)
    requires Reaches(c, init, steps, s) && s.hold.Listed?
    requires job in Plan(s.hold.known, s.hold.listing, s.hold.up, s.sh.sandboxes, s.sh.pending)
    ensures job.Container? ==> job.name !in s.sh.sandboxes
    ensures job.Container? && job.name in s.creates ==> !InFlight(s.creates[job.name])
    ensures job.Box? ==> job.name in s.sh.sandboxes && job.name !in s.hold.up
    ensures forall n | n in s.hold.listing && n !in s.hold.known && n !in s.sh.sandboxes && n !in s.sh.pending ::
              Container(n) in Apply(c, s, Decide).hold.todo
    ensures forall n | n in s.hold.known && !(n in s.hold.listing && n in s.hold.up) :: Box(n) in Apply(c, s, Decide).hold.todo
  {
    hide Inv, Plan, InFlight;
    Reachable(c, init, steps, s);
    JobIsSafe(c, s, job);
    DecisionTakes(c, s);
  }

  lemma DecisionTakes(c: Config, s: State)
    requires Inv(c, s) && s.hold.Listed?
    ensures Apply(c, s, Decide).hold.Working?
    ensures forall n | n in s.hold.listing && n !in s.hold.known && n !in s.sh.sandboxes && n !in s.sh.pending ::
              Container(n) in Apply(c, s, Decide).hold.todo
    ensures forall n | n in s.hold.known && !(n in s.hold.listing && n in s.hold.up) :: Box(n) in Apply(c, s, Decide).hold.todo
  {
    hide Inv, Plan;
    KnownIsRegistered(c, s);
    forall n
      ensures n in s.hold.listing && n !in s.hold.known && n !in s.sh.sandboxes && n !in s.sh.pending ==>
                Container(n) in Apply(c, s, Decide).hold.todo
      ensures n in s.hold.known && !(n in s.hold.listing && n in s.hold.up) ==> Box(n) in Apply(c, s, Decide).hold.todo
    {
      DecisionIsExact(c, s, n);
    }
  }

  lemma JobIsSafe(c: Config, s: State, job: Job)
    requires Inv(c, s) && s.hold.Listed?
    requires job in Plan(s.hold.known, s.hold.listing, s.hold.up, s.sh.sandboxes, s.sh.pending)
    ensures job.Container? ==> job.name !in s.sh.sandboxes
    ensures job.Container? && job.name in s.creates ==> !InFlight(s.creates[job.name])
    ensures job.Box? ==> job.name in s.sh.sandboxes && job.name !in s.hold.up
  {
    PlanIsGood(c, s);
    assert GoodJob(c, s.creates, s.sh, job);
  }

  /** Once `_stop` is set under the lock, no sandbox is ever registered again. */
  lemma {:induction false} NothingRegistersAfterStop(c: Config, s: State, steps: seq<Step>, t: State)
    requires s.sh.stop && Runs(c, s, steps, t)
    ensures t.sh.stop && t.sh.sandboxes <= s.sh.sandboxes
    decreases |steps|
  {
    if steps != [] {
      StopsForGood(c, s, steps[0]);
      NothingRegistersAfterStop(c, Apply(c, s, steps[0]), steps[1..], t);
    }
  }

  lemma StopsForGood(c: Config, s: State, step: Step)
    requires s.sh.stop && Enabled(c, s, step)
    ensures Apply(c, s, step).sh.stop && Apply(c, s, step).sh.sandboxes <= s.sh.sandboxes
  {
  }

  /** Shutdown that waited for the pending creations and whose last removals succeeded leaves nothing. */
  lemma ShutdownLeavesNothing(c: Config, init: State, steps: seq<Step>, s: State)
    requires Reaches(c, init, steps, s) && Enabled(c, s, Finish)
    requires s.hold.after.ShutdownLast? && s.shutdown == Sweeping(true) && !s.sweepFailed
    ensures Quiet(Apply(c, s, Finish)) && Apply(c, s, Finish).sh.doomed == {}
    ensures Apply(c, s, Finish).shutdown == Finished(true)
  {
    Reachable(c, init, steps, s);
  }

  /** Stopped, with no sandbox, no creation and no container of this run. */
  ghost predicate Quiet(s: State) {
    s.sh.stop && s.sh.sandboxes == {} && s.sh.pending == {} && forall n | n in s.creates :: n !in s.alive
  }

  /** And nothing comes back, whatever a late reaper, delete or reconcile still does. */
  lemma {:induction false} QuietForGood(c: Config, s: State, steps: seq<Step>, t: State)
    requires Inv(c, s) && Quiet(s) && Runs(c, s, steps, t)
    ensures Quiet(t)
    decreases |steps|
  {
    if steps != [] {
      StepKeepsInv(c, s, steps[0]);
      QuietStep(c, s, steps[0]);
      QuietForGood(c, Apply(c, s, steps[0]), steps[1..], t);
    }
  }

  lemma QuietStep(c: Config, s: State, step: Step)
    requires Phases(s.creates, s.sh, s.alive) && Cleaners(s.creates, s.sh, s.hold, s.alive) && Quiet(s) && Enabled(c, s, step)
    ensures Quiet(Apply(c, s, step))
  {
    StopsForGood(c, s, step);
    NoneInFlight(s);
    hide Phases;
    if step.Start? {
    } else if step.TakePlace? || step.Registers? || step.Leave? || step.LockToClean? || step.Appear? {
    } else if step.Finish? || step.RmRaised? {
    } else {
    }
  }

  lemma NoneInFlight(s: State)
    requires Phases(s.creates, s.sh, s.alive) && s.sh.pending == {}
    ensures forall n | n in s.creates :: !InFlight(s.creates[n])
  {
    forall n | n in s.creates
      ensures !InFlight(s.creates[n])
    {
      assert PhaseOk(n, s.creates[n], s.sh, s.alive);
    }
  }

  // ----- what a pass achieves --------------------------------------------------------------------

  /** The steps of the holder of _cleanup_lock. */
  predicate IsHolders(step: Step) {
    || step.LockToClean? || step.BeginRemove? || step.BeginReap? || step.BeginReconcile? || step.BeginSweep?
    || step.Start? || step.RmOk? || step.RmFailed? || step.RmRaised? || step.Forget? || step.Finish?
    || step.ListOk? || step.ListFailed? || step.Decide?
  }

  /** Steps within one pass in which every removal succeeds, with any steps of others between them. */
  ghost predicate Succeeds(steps: seq<Step>) {
    forall i | 0 <= i < |steps| :: !IsHolders(steps[i]) || steps[i].Start? || steps[i].RmOk? || steps[i].Forget?
  }

  ghost predicate OnlyOthers(steps: seq<Step>) {
    forall i | 0 <= i < |steps| :: !IsHolders(steps[i])
  }

  /** Nothing of `n` is left, and nothing can come back under its name. */
  ghost predicate Cleared(c: Config, s: State, n: Name) {
    && n !in s.alive && n !in s.sh.doomed && n !in s.sh.sandboxes
    && (n in s.creates || n in c.foreign) && (n in s.creates ==> !InFlight(s.creates[n]))
  }

  /** Every one of `jobs` is still to be done, in progress, or done for good. */
  ghost predicate Progresses(c: Config, s: State, jobs: set<Job>) {
    && s.hold.Working?
    && forall j | j in jobs ::
         || j in s.hold.todo
         || (!s.hold.rm.NoRm? && s.hold.rm.name == j.name)
         || (Cleared(c, s, j.name) && forall i | i in s.hold.todo :: i.name != j.name)
  }

  /** A step of somebody else neither brings a cleared name back nor touches the pass. */
  lemma OthersLeavePass(c: Config, s: State, step: Step)
    requires Enabled(c, s, step) && !IsHolders(step)
    ensures Apply(c, s, step).hold == s.hold
    ensures forall n | Cleared(c, s, n) :: Cleared(c, Apply(c, s, step), n)
  {
  }

  lemma OthersKeepProgress(c: Config, s: State, step: Step, jobs: set<Job>)
    requires Enabled(c, s, step) && !IsHolders(step) && Progresses(c, s, jobs)
    ensures Progresses(c, Apply(c, s, step), jobs)
  {
    hide Cleared, Enabled, Apply;
    OthersLeavePass(c, s, step);
  }

  /** What is being removed can be neither registered nor in flight, ... */
  lemma UnderRemoval(c: Config, s: State)
    requires Inv(c, s) && s.hold.Working? && !s.hold.rm.NoRm?
    ensures var n := s.hold.rm.name;
      && n !in s.sh.sandboxes && (n in s.creates || n in c.foreign) && (n in s.creates ==> !InFlight(s.creates[n]))
      && (s.hold.rm.Removed? ==> n !in s.alive)
  {
  }

  /** ... and what was removed before is gone. */
  lemma RemovedBefore(c: Config, s: State, n: Name)
    requires Inv(c, s) && AlreadyRemoved(s.sh, n)
    ensures Cleared(c, s, n)
  {
    assert n in s.creates && PhaseOk(n, s.creates[n], s.sh, s.alive);
  }

  lemma StartKeepsProgress(c: Config, s: State, job: Job, jobs: set<Job>)
    requires Inv(c, s) && Enabled(c, s, Start(job)) && Progresses(c, s, jobs)
    ensures Progresses(c, StartJob(s, job), jobs)
  {
    hide Books, GoodJobs, GoodRm, Cleaners, Listings, Sweeps, Stopping;
    if job.Box? && AlreadyRemoved(s.sh, job.name) {
      RemovedBefore(c, s, job.name);
    }
  }

  lemma RmOkKeepsProgress(c: Config, s: State, jobs: set<Job>)
    requires Enabled(c, s, RmOk) && Progresses(c, s, jobs)
    ensures Progresses(c, Apply(c, s, RmOk), jobs)
  {
  }

  lemma ForgetKeepsProgress(c: Config, s: State, jobs: set<Job>)
    requires Inv(c, s) && Enabled(c, s, Forget) && Progresses(c, s, jobs)
    ensures Progresses(c, Apply(c, s, Forget), jobs)
  {
    hide Books, GoodJobs, GoodRm, Cleaners, Listings, Sweeps, Stopping;
    UnderRemoval(c, s);
  }

  lemma {:induction false} PassProgresses(c: Config, s: State, steps: seq<Step>, t: State, jobs: set<Job>)
    requires Inv(c, s) && Progresses(c, s, jobs) && Runs(c, s, steps, t) && Succeeds(steps)
    ensures Progresses(c, t, jobs)
    decreases |steps|
  {
    hide Inv, Progresses, Enabled, Apply;
    if steps != [] {
      var step, next := steps[0], Apply(c, s, steps[0]);
      StepKeepsInv(c, s, step);
      StepProgresses(c, s, step, jobs);
      assert forall i | 0 <= i < |steps[1..]| :: steps[1..][i] == steps[i + 1];
      PassProgresses(c, next, steps[1..], t, jobs);
    }
  }

  lemma StepProgresses(c: Config, s: State, step: Step, jobs: set<Job>)
    requires Inv(c, s) && Progresses(c, s, jobs) && Enabled(c, s, step) && (!IsHolders(step) || step.Start? || step.RmOk? || step.Forget?)
    ensures Progresses(c, Apply(c, s, step), jobs)
  {
    hide Inv, Progresses;
    if step.Start? {
      StartKeepsProgress(c, s, step.job, jobs);
    } else if step.RmOk? {
      RmOkKeepsProgress(c, s, jobs);
    } else if step.Forget? {
      ForgetKeepsProgress(c, s, jobs);
    } else {
      OthersKeepProgress(c, s, step, jobs);
    }
  }

  /** A pass whose removals all succeed clears every name it was to remove, whatever the others do meanwhile. */
  lemma PassClears(c: Config, s: State, steps: seq<Step>, t: State, job: Job)
    requires Inv(c, s) && s.hold.Working? && Runs(c, s, steps, t) && Succeeds(steps) && Enabled(c, t, Finish)
    requires job in s.hold.todo
    ensures Cleared(c, t, job.name)
  {
    hide Inv, Cleared;
    PassProgresses(c, s, steps, t, {job});
  }

  /** `remove` of a sandbox, and of one whose container is left from a failed removal, clears it. */
  lemma RemoveClears(c: Config, s: State, n: Name, steps: seq<Step>, t: State)
    requires Inv(c, s) && Enabled(c, s, BeginRemove(n)) && Runs(c, Apply(c, s, BeginRemove(n)), steps, t)
    requires Succeeds(steps) && Enabled(c, t, Finish)
    ensures Cleared(c, t, n)
  {
    hide Inv, Cleared, Runs;
    StepKeepsInv(c, s, BeginRemove(n));
    PassClears(c, Apply(c, s, BeginRemove(n)), steps, t, Box(n));
  }

  /** The failed creation that cleans up leaves no container. */
  lemma CleanupClears(c: Config, s: State, n: Name, steps: seq<Step>, t: State)
    requires Inv(c, s) && Enabled(c, s, LockToClean(n)) && Runs(c, Apply(c, s, LockToClean(n)), steps, t)
    requires Succeeds(steps) && Enabled(c, t, Finish)
    ensures Cleared(c, t, n)
  {
    hide Inv, Cleared, Runs;
    StepKeepsInv(c, s, LockToClean(n));
    PassClears(c, Apply(c, s, LockToClean(n)), steps, t, Container(n));
  }

  /** A reap clears the sandboxes it chose and every container that an earlier removal left doomed. */
  lemma ReapClears(c: Config, s: State, chosen: set<Name>, steps: seq<Step>, t: State)
    requires Inv(c, s) && Enabled(c, s, BeginReap(chosen)) && Runs(c, Apply(c, s, BeginReap(chosen)), steps, t)
    requires Succeeds(steps) && Enabled(c, t, Finish)
    ensures forall n | n in chosen || n in s.sh.doomed :: Cleared(c, t, n)
    ensures Apply(c, t, Finish).hold == Listing(t.sh.sandboxes)
  {
    hide Inv, Cleared, Runs;
    var begun := Apply(c, s, BeginReap(chosen));
    StepKeepsInv(c, s, BeginReap(chosen));
    forall n | n in chosen || n in s.sh.doomed
      ensures Cleared(c, t, n)
    {
      PassClears(c, begun, steps, t, if n in chosen then Box(n) else Container(n));
    }
    PassEndsAs(c, begun, steps, t);
  }

  lemma {:induction false} PassEndsAs(c: Config, s: State, steps: seq<Step>, t: State)
    requires Runs(c, s, steps, t) && Succeeds(steps) && s.hold.Working?
    ensures t.hold.Working? && t.hold.after == s.hold.after
    decreases |steps|
  {
    if steps != [] {
      PassStays(c, s, steps[0]);
      assert forall i | 0 <= i < |steps[1..]| :: steps[1..][i] == steps[i + 1];
      PassEndsAs(c, Apply(c, s, steps[0]), steps[1..], t);
    }
  }

  lemma PassStays(c: Config, s: State, step: Step)
    requires Enabled(c, s, step) && s.hold.Working? && (!IsHolders(step) || step.Start? || step.RmOk? || step.Forget?)
    ensures Apply(c, s, step).hold.Working? && Apply(c, s, step).hold.after == s.hold.after
  {
  }

  /** What reconcile decides to remove: exactly every listed container that is neither known nor registered nor pending,
      and every known sandbox that is not pending and that the listing lacks or shows stopped. */
  lemma DecisionIsExact(c: Config, s: State, n: Name)
    requires Enabled(c, s, Decide)
    ensures var next, hold := Apply(c, s, Decide), s.hold;
      && next.hold.Working? && next.hold.rm.NoRm? && next.sh == s.sh && next.alive == s.alive
      && (Container(n) in next.hold.todo <==> n in hold.listing && n !in hold.known && n !in s.sh.sandboxes && n !in s.sh.pending)
      && (Box(n) in next.hold.todo <==> n in hold.known && n !in s.sh.pending && !(n in hold.listing && n in hold.up))
  {
  }

  lemma {:induction false} OthersLeaveHold(c: Config, s: State, steps: seq<Step>, t: State)
    requires Runs(c, s, steps, t) && OnlyOthers(steps)
    ensures t.hold == s.hold
    decreases |steps|
  {
    hide Cleared;
    if steps != [] {
      OthersLeavePass(c, s, steps[0]);
      assert forall i | 0 <= i < |steps[1..]| :: steps[1..][i] == steps[i + 1];
      OthersLeaveHold(c, Apply(c, s, steps[0]), steps[1..], t);
    }
  }

  /** The states a reconcile goes through: begun at `s`, listing at `l`, deciding at `d`, done at `t`. */
  ghost predicate Reconciles(c: Config, s: State, one: seq<Step>, l: State, two: seq<Step>, d: State, three: seq<Step>, t: State) {
    && Enabled(c, s, BeginReconcile) && Runs(c, Apply(c, s, BeginReconcile), one, l) && OnlyOthers(one)
    && Enabled(c, l, ListOk) && Runs(c, Apply(c, l, ListOk), two, d) && OnlyOthers(two)
    && Enabled(c, d, Decide) && Runs(c, Apply(c, d, Decide), three, t) && Succeeds(three) && Enabled(c, t, Finish)
  }

  lemma ReconcileSees(c: Config, s: State, one: seq<Step>, l: State, two: seq<Step>, d: State, three: seq<Step>, t: State)
    requires Inv(c, s) && Reconciles(c, s, one, l, two, d, three, t)
    ensures Inv(c, d) && d.hold == Listed(s.sh.sandboxes, l.alive, l.up) && Inv(c, Apply(c, d, Decide))
  {
    hide Inv;
    OthersLeaveHold(c, Apply(c, s, BeginReconcile), one, l);
    OthersLeaveHold(c, Apply(c, l, ListOk), two, d);
    StepKeepsInv(c, s, BeginReconcile);
    RunKeepsInv(c, Apply(c, s, BeginReconcile), one, l);
    StepKeepsInv(c, l, ListOk);
    RunKeepsInv(c, Apply(c, l, ListOk), two, d);
    StepKeepsInv(c, d, Decide);
  }

  /** A reconcile whose listing and removals succeed, whatever creations, deaths and clients do meanwhile: every container
      listed that nobody had registered or was creating when it decided is gone, ... */
  lemma ReconcileClearsUnknown(c: Config, s: State, one: seq<Step>, l: State, two: seq<Step>, d: State, three: seq<Step>, t: State, n: Name)
    requires Inv(c, s) && Reconciles(c, s, one, l, two, d, three, t)
    requires n in l.alive && n !in s.sh.sandboxes && n !in d.sh.sandboxes && n !in d.sh.pending
    ensures Cleared(c, t, n)
  {
    hide Inv, Cleared, Runs;
    ReconcileSees(c, s, one, l, two, d, three, t);
    DecisionIsExact(c, d, n);
    PassClears(c, Apply(c, d, Decide), three, t, Container(n));
  }

  /** ... and every sandbox that was registered at its start, but whose container it saw missing or stopped, is
      forgotten, with what is left of its container. */
  lemma ReconcileClearsDead(c: Config, s: State, one: seq<Step>, l: State, two: seq<Step>, d: State, three: seq<Step>, t: State, n: Name)
    requires Inv(c, s) && Reconciles(c, s, one, l, two, d, three, t)
    requires n in s.sh.sandboxes && n !in l.up
    ensures Cleared(c, t, n)
  {
    hide Cleared, Runs;
    ReconcileSees(c, s, one, l, two, d, three, t);
    DecisionIsExact(c, d, n);
    KnownIsRegistered(c, d);
    hide Inv;
    PassClears(c, Apply(c, d, Decide), three, t, Box(n));
  }

  lemma KnownIsRegistered(c: Config, s: State)
    requires Inv(c, s) && s.hold.Listed?
    ensures forall n | n in s.hold.known :: n !in s.sh.pending
  {
  }

  // ----- what admission admits -------------------------------------------------------------------

  /** A new name is admitted exactly while the runner is not stopping and what is registered, pending or doomed is less
      than the limit. */
  lemma AdmissionIff(c: Config, s: State, n: Name)
    requires n !in s.creates && n !in c.foreign
    ensures Enabled(c, s, TakePlace(n)) <==> !s.sh.stop && |s.sh.sandboxes| + |s.sh.pending + s.sh.doomed| < c.max
    ensures Enabled(c, s, TakePlace(n)) ==> Apply(c, s, TakePlace(n)).sh == s.sh.(pending := s.sh.pending + {n})
  {
  }

  /** A state in which exactly `names` are pending and nothing else counts. */
  predicate Pending(s: State, names: set<Name>) {
    s.sh == Shared({}, names, {}, {}, false) && s.creates.Keys == names
  }

  /** So a runner that has begun admits max_sandboxes sandboxes, one after the other. */
  lemma {:induction false} AllPlacesCanBeTaken(c: Config, init: State, names: seq<Name>)
    requires Init(c, init) && |names| <= c.max
    requires forall i, j | 0 <= i < j < |names| :: names[i] != names[j]
    requires forall i | 0 <= i < |names| :: names[i] !in c.foreign
    ensures exists t :: Runs(c, init, Taking(names), t) && Pending(t, Of(names))
    ensures |Of(names)| == |names|
  {
    hide Enabled, Apply, Runs;
    if names == [] {
      NothingTaken(c, init);
    } else {
      var before, last := names[..|names| - 1], names[|names| - 1];
      AllPlacesCanBeTaken(c, init, before);
      var t :| Runs(c, init, Taking(before), t) && Pending(t, Of(before));
      OfAppends(names);
      TakesOne(c, t, last, Of(before));
      RunsJoin(c, init, Taking(before), t, [TakePlace(last)], Apply(c, t, TakePlace(last)));
    }
  }

  lemma NothingTaken(c: Config, init: State)
    requires Init(c, init)
    ensures Runs(c, init, Taking([]), init) && Pending(init, Of([])) && |Of([])| == 0
  {
    assert Of([]) == {} && init.creates.Keys == {};
  }

  lemma TakesOne(c: Config, t: State, n: Name, names: set<Name>)
    requires Pending(t, names) && n !in names && n !in c.foreign && |names| < c.max
    ensures Enabled(c, t, TakePlace(n)) && Runs(c, t, [TakePlace(n)], Apply(c, t, TakePlace(n)))
    ensures Pending(Apply(c, t, TakePlace(n)), names + {n})
  {
    assert t.sh.pending + t.sh.doomed == names;
    AdmissionIff(c, t, n);
    var next := Apply(c, t, TakePlace(n));
    assert [TakePlace(n)][1..] == [] && Runs(c, next, [], next);
  }

  lemma OfAppends(names: seq<Name>)
    requires names != [] && forall i, j | 0 <= i < j < |names| :: names[i] != names[j]
    ensures var before, last := names[..|names| - 1], names[|names| - 1];
      && Of(names) == Of(before) + {last} && last !in Of(before) && Taking(names) == Taking(before) + [TakePlace(last)]
      && forall i, j | 0 <= i < j < |before| :: before[i] != before[j]
  {
    var before, last := names[..|names| - 1], names[|names| - 1];
    assert forall i | 0 <= i < |before| :: before[i] == names[i];
    forall n | n in Of(names)
      ensures n in Of(before) + {last}
    {
      var i :| 0 <= i < |names| && names[i] == n;
      assert i < |before| ==> before[i] == n;
    }
  }

  function Taking(names: seq<Name>): seq<Step> {
    seq(|names|, i requires 0 <= i < |names| => TakePlace(names[i]))
  }

  function Of(names: seq<Name>): set<Name> {
    set i | 0 <= i < |names| :: names[i]
  }

  lemma {:induction false} RunsJoin(c: Config, s: State, one: seq<Step>, t: State, two: seq<Step>, u: State)
    requires Runs(c, s, one, t) && Runs(c, t, two, u)
    ensures Runs(c, s, one + two, u)
    decreases |one|
  {
    hide Enabled, Apply;
    if one == [] {
      assert one + two == two;
    } else {
      assert (one + two)[1..] == one[1..] + two;
      RunsJoin(c, Apply(c, s, one[0]), one[1..], t, two, u);
    }
  }
}
