/**
 * The regions under `_lock` of compute/sandbox_runner.py, class SandboxManager, on the object's own fields.
 * Each method is one region; its contract says which transition of SandboxLifecycle it makes.
 */
module SandboxRegions {
  import opened SandboxLifecycle

  const REMEMBER_REMOVED: nat := 4096

  datatype Admission = Admitted | Stopping | Full

  datatype Lookup = Found | Gone | Unknown

  /** `ids` without `id`. */
  function Without(ids: seq<Name>, id: Name): (r: seq<Name>)
    ensures id !in r
    ensures |r| <= |ids|
  {
    if ids == [] then []
    else if ids[0] == id then Without(ids[1..], id)
    else [ids[0]] + Without(ids[1..], id)
  }

  /** The newest `limit` of `ids`. */
  function Newest(ids: seq<Name>, limit: nat): seq<Name> {
    if |ids| <= limit then ids else ids[|ids| - limit..]
  }

  /** `_removed` after one more removal: the id moves to the end, the oldest beyond the limit are forgotten. */
  function Remember(removed: seq<Name>, id: Name, limit: nat): seq<Name> {
    Newest(Without(removed, id) + [id], limit)
  }

  /** `_removed` after removing `history`, oldest first. */
  function Remembered(history: seq<Name>, limit: nat): seq<Name> {
    if history == [] then [] else Remember(Remembered(history[..|history| - 1], limit), history[|history| - 1], limit)
  }

  /** The ids of `history`, each once, in the order of their last removal. */
  function LastRemovals(history: seq<Name>): seq<Name> {
    if history == [] then []
    else Without(LastRemovals(history[..|history| - 1]), history[|history| - 1]) + [history[|history| - 1]]
  }

  predicate Distinct(ids: seq<Name>) {
    ids == [] || (ids[0] !in ids[1..] && Distinct(ids[1..]))
  }

  lemma {:induction false} WithoutConcat(a: seq<Name>, b: seq<Name>, id: Name)
    ensures Without(a + b, id) == Without(a, id) + Without(b, id)
  {
    if a == [] {
      assert a + b == b;
    } else {
      assert (a + b)[1..] == a[1..] + b;
      WithoutConcat(a[1..], b, id);
    }
  }

  lemma {:induction false} WithoutAbsent(a: seq<Name>, id: Name)
    requires id !in a
    ensures Without(a, id) == a
  {
    if a != [] {
      WithoutAbsent(a[1..], id);
    }
  }

  lemma {:induction false} WithoutKeeps(a: seq<Name>, id: Name)
    ensures forall x :: x in Without(a, id) <==> x in a && x != id
    ensures Distinct(a) ==> Distinct(Without(a, id))
    ensures Distinct(a) ==> |Without(a, id)| == |a| - if id in a then 1 else 0
  {
    if a != [] {
      WithoutKeeps(a[1..], id);
      if a[0] == id && Distinct(a) {
        WithoutAbsent(a[1..], id);
      }
    }
  }

  lemma {:induction false} DistinctAppend(a: seq<Name>, id: Name)
    requires Distinct(a) && id !in a
    ensures Distinct(a + [id])
  {
    if a != [] {
      DistinctAppend(a[1..], id);
      assert (a + [id])[1..] == a[1..] + [id];
    }
  }

  lemma {:induction false} DistinctConcat(a: seq<Name>, b: seq<Name>)
    requires Distinct(a + b)
    ensures Distinct(b) && forall x | x in b :: x !in a
  {
    if a == [] {
      assert a + b == b;
    } else {
      assert (a + b)[1..] == a[1..] + b;
      DistinctConcat(a[1..], b);
      assert a == [a[0]] + a[1..];
    }
  }

  lemma {:induction false} LastRemovalsDistinct(history: seq<Name>)
    ensures Distinct(LastRemovals(history))
    ensures forall x :: x in LastRemovals(history) <==> x in history
  {
    if history != [] {
      var before, last := history[..|history| - 1], history[|history| - 1];
      assert history == before + [last];
      LastRemovalsDistinct(before);
      WithoutKeeps(LastRemovals(before), last);
      DistinctAppend(Without(LastRemovals(before), last), last);
    }
  }

  /** Dropping the oldest entries before or after a removal is remembered makes no difference. */
  lemma NewestStep(ids: seq<Name>, id: Name, limit: nat)
    requires Distinct(ids) && limit > 0
    ensures Remember(Newest(ids, limit), id, limit) == Newest(Without(ids, id) + [id], limit)
  {
    if |ids| > limit {
      var k := |ids| - limit;
      var older, newer := ids[..k], ids[k..];
      assert ids == older + newer;
      DistinctConcat(older, newer);
      WithoutConcat(older, newer, id);
      WithoutKeeps(newer, id);
      var kept := Without(newer, id) + [id];
      assert Without(ids, id) + [id] == Without(older, id) + kept;
      if id in newer {
        WithoutAbsent(older, id);
        NewestOfConcat(older, kept, limit);
      } else {
        NewestOfConcat(Without(older, id), kept, limit);
      }
    }
  }

  lemma NewestOfConcat(a: seq<Name>, b: seq<Name>, limit: nat)
    requires |b| >= limit
    ensures Newest(a + b, limit) == Newest(b, limit)
  {
  }

  /** After any removals, exactly the `limit` most recently removed sandboxes still answer 410. */
  lemma {:induction false} RemembersTheLatest(history: seq<Name>, limit: nat)
    requires limit > 0
    ensures Remembered(history, limit) == Newest(LastRemovals(history), limit)
  {
    if history != [] {
      RemembersTheLatest(history[..|history| - 1], limit);
      LastRemovalsDistinct(history[..|history| - 1]);
      NewestStep(LastRemovals(history[..|history| - 1]), history[|history| - 1], limit);
    }
  }

  /** The steps that are regions of this class. */
  predicate IsRegion(step: Step) {
    step.TakePlace? || step.Registers? || step.Leave? || step.Start? || step.Forget? || step.SetStop?
  }

  lemma OthersLeaveShared(c: Config, s: State, step: Step)
    requires Enabled(c, s, step) && !IsRegion(step)
    ensures Apply(c, s, step).sh == s.sh
  {
  }

  /** `state` is the state of a run of SandboxLifecycle whose shared part is in the fields. */
  class SandboxManager {
    const maxSandboxes: nat
    ghost const config: Config
    ghost var state: State
    var sandboxes: set<Name>
    var pending: set<Name>
    var doomed: set<Name>
    var gone: set<Name>
    var stop: bool
    var removed: seq<Name> // _removed, oldest first

    constructor (maxSandboxes: nat, ghost foreign: set<Name>, ghost alive: set<Name>, ghost up: set<Name>)
      requires up <= alive <= foreign
      ensures Valid() && Init(config, state) && removed == []
      ensures this.maxSandboxes == maxSandboxes && config.foreign == foreign && state.alive == alive && state.up == up
    {
      this.maxSandboxes, config := maxSandboxes, Config(maxSandboxes, foreign);
      sandboxes, pending, doomed, gone, stop, removed := {}, {}, {}, {}, false, [];
      state := State(Shared({}, {}, {}, {}, false), map[], Free, NotAsked, false, alive, up);
      new;
      InitInv(config, state);
    }

    function View(): Shared
      reads this
    {
      Shared(sandboxes, pending, doomed, gone, stop)
    }

    ghost predicate Valid()
      reads this
    {
      config.max == maxSandboxes && state.sh == View() && Inv(config, state)
    }

    /** A step that is no region of this class: of the engine, of a thread between regions, or of the environment. */
    ghost method Elsewhere(step: Step)
      requires Valid() && Enabled(config, state, step) && !IsRegion(step)
      modifies this`state
      ensures Valid() && state == Apply(config, old(state), step)
    {
      hide Inv, Enabled, Apply;
      StepKeepsInv(config, state, step);
      OthersLeaveShared(config, state, step);
      state := Apply(config, state, step);
    }

    /** create's first region, with a new random name: 503 when stopping, 429 when all places are taken. */
    method TakePlace(name: Name) returns (r: Admission)
      requires Valid() && name !in state.creates && name !in config.foreign
      modifies this`pending, this`state
      ensures Valid()
      ensures r.Stopping? <==> old(stop)
      ensures r.Admitted? <==> Enabled(config, old(state), Step.TakePlace(name))
      ensures r.Full? <==> !old(stop) && |old(sandboxes)| + |old(pending) + old(doomed)| >= maxSandboxes
      ensures state == if r.Admitted? then Apply(config, old(state), Step.TakePlace(name)) else old(state)
    {
      hide Inv;
      if stop {
        return Stopping;
      }
      if |sandboxes| + |pending + doomed| >= maxSandboxes {
        return Full;
      }
      StepKeepsInv(config, state, Step.TakePlace(name));
      state := Apply(config, state, Step.TakePlace(name));
      pending := pending + {name};
      return Admission.Admitted;
    }

    /** create's registration: registered before it stops being pending. */
    method Enter(name: Name) returns (stopping: bool)
      requires Valid() && Enabled(config, state, Registers(name))
      modifies this`sandboxes, this`pending, this`state
      ensures Valid() && state == Apply(config, old(state), Registers(name))
      ensures stopping == old(stop)
    {
      hide Inv;
      stopping := stop;
      StepKeepsInv(config, state, Registers(name));
      state := Apply(config, state, Registers(name));
      if !stopping {
        sandboxes := sandboxes + {name};
        pending := pending - {name};
      }
    }

    /** create's last region. */
    method StopPending(name: Name)
      requires Valid() && Enabled(config, state, Leave(name))
      modifies this`pending, this`state
      ensures Valid() && state == Apply(config, old(state), Leave(name))
    {
      hide Inv;
      StepKeepsInv(config, state, Leave(name));
      state := Apply(config, state, Leave(name));
      pending := pending - {name};
    }

    /** `_remove_container` before the engine's `rm` ... */
    method MarkDoomed(name: Name)
      requires Valid() && Enabled(config, state, Start(Container(name)))
      modifies this`doomed, this`state
      ensures Valid() && state == Apply(config, old(state), Start(Container(name)))
    {
      hide Inv;
      StepKeepsInv(config, state, Start(Container(name)));
      state := Apply(config, state, Start(Container(name)));
      doomed := doomed + {name};
    }

    /** ... and after it succeeded. */
    method ForgetDoomed(name: Name)
      requires Valid() && Enabled(config, state, Forget) && name == state.hold.rm.name
      modifies this`doomed, this`state
      ensures Valid() && state == Apply(config, old(state), Forget)
    {
      hide Inv;
      StepKeepsInv(config, state, Forget);
      state := Apply(config, state, Forget);
      doomed := doomed - {name};
    }

    /** shutdown's first region. */
    method Stop()
      requires Valid() && Enabled(config, state, SetStop)
      modifies this`stop, this`state
      ensures Valid() && state == Apply(config, old(state), SetStop)
    {
      hide Inv;
      StepKeepsInv(config, state, SetStop);
      state := Apply(config, state, SetStop);
      stop := true;
    }

    /** `remove`'s region: nothing when the sandbox is gone and its container too. */
    method RetireBox(name: Name) returns (again: bool)
      requires Valid() && Enabled(config, state, Start(Box(name)))
      modifies this`doomed, this`sandboxes, this`gone, this`removed, this`state
      ensures Valid() && state == Apply(config, old(state), Start(Box(name)))
      ensures again <==> !AlreadyRemoved(old(View()), name)
      ensures removed == if again then Remember(old(removed), name, REMEMBER_REMOVED) else old(removed)
    {
      hide Inv;
      StepKeepsInv(config, state, Start(Box(name)));
      state := Apply(config, state, Start(Box(name)));
      if name in gone && name !in doomed {
        return false;
      }
      doomed := doomed + {name};
      sandboxes := sandboxes - {name};
      gone := gone + {name};
      removed := Without(removed, name) + [name];
      ghost var moved := removed;
      ghost var dropped := 0;
      while |removed| > REMEMBER_REMOVED
        invariant 0 <= dropped <= |moved| && removed == moved[dropped..]
        invariant dropped > 0 ==> |removed| >= REMEMBER_REMOVED
        decreases |removed|
        modifies this`removed
      {
        removed := removed[1..];
        dropped := dropped + 1;
      }
      return true;
    }

    /** The test that admits keeps what it counts within the limit at all times. */
    lemma CountsFit()
      requires Valid()
      ensures |sandboxes + (pending + doomed) * state.creates.Keys| <= maxSandboxes
    {
    }

    /** `get`: 410 for a remembered removal, 404 otherwise. */
    method Get(name: Name) returns (r: Lookup)
      ensures r.Found? <==> name in sandboxes
      ensures r.Gone? <==> name !in sandboxes && name in removed
    {
      if name in sandboxes {
        return Found;
      }
      return if name in removed then Gone else Unknown;
    }
  }
}
