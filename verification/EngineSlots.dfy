/**
 * The engine operations of compute/sandbox_runner.py allowed at once, and each sandbox's share of them
 * (SandboxManager._slot). Each method is one region or one semaphore call of one operation.
 */
module EngineSlots {
  import opened Basics

  type Name = nat
  type Operation = nat

  /** An operation between the regions: in which sandbox, if in one, and whether it has its slot. */
  datatype Stage = Stage(box: Option<Name>, holding: bool)

  type Stages = map<Operation, Stage>
  type Shares = map<Name, nat>

  function Holding(stages: Stages): (r: set<Operation>)
    ensures forall o :: o in r <==> o in stages && stages[o].holding
  {
    set o | o in stages && stages[o].holding
  }

  function Inside(stages: Stages, box: Name): (r: set<Operation>)
    ensures forall o :: o in r <==> o in stages && stages[o].box == Some(box)
  {
    set o | o in stages && stages[o].box == Some(box)
  }

  function ShareOf(slots: Shares, box: Name): nat {
    if box in slots then slots[box] else 0
  }

  function More(slots: Shares, box: Option<Name>): Shares {
    match box
    case None => slots
    case Some(b) => slots[b := ShareOf(slots, b) + 1]
  }

  function Less(slots: Shares, box: Option<Name>): Shares
    requires box.Some? ==> ShareOf(slots, box.value) > 0
  {
    match box
    case None => slots
    case Some(b) => slots[b := ShareOf(slots, b) - 1]
  }

  /** `box.slots` counts the operations in the sandbox, within its share; the semaphore counts the rest of all slots. */
  ghost predicate Balanced(maxExecs: nat, share: nat, free: nat, slots: Shares, stages: Stages) {
    && free + |Holding(stages)| == maxExecs
    && forall box :: ShareOf(slots, box) == |Inside(stages, box)| <= share
  }

  lemma EnterBalances(maxExecs: nat, share: nat, free: nat, slots: Shares, stages: Stages, o: Operation, box: Option<Name>)
    requires Balanced(maxExecs, share, free, slots, stages) && o !in stages
    requires box.Some? ==> ShareOf(slots, box.value) < share
    ensures Balanced(maxExecs, share, free, More(slots, box), stages[o := Stage(box, false)])
  {
    var next := stages[o := Stage(box, false)];
    var counts := More(slots, box);
    assert Holding(next) == Holding(stages);
    forall b: Name
      ensures ShareOf(counts, b) == |Inside(next, b)| <= share
    {
      assert ShareOf(slots, b) == |Inside(stages, b)|;
      if box == Some(b) {
        assert Inside(next, b) == Inside(stages, b) + {o};
      } else {
        assert Inside(next, b) == Inside(stages, b);
      }
    }
  }

  lemma HoldBalances(maxExecs: nat, share: nat, free: nat, slots: Shares, stages: Stages, o: Operation, holding: bool)
    requires Balanced(maxExecs, share, free, slots, stages) && o in stages && stages[o].holding != holding
    requires holding ==> free > 0
    ensures Balanced(maxExecs, share, if holding then free - 1 else free + 1, slots, stages[o := Stage(stages[o].box, holding)])
  {
    var next := stages[o := Stage(stages[o].box, holding)];
    if holding {
      assert Holding(next) == Holding(stages) + {o};
    } else {
      assert Holding(stages) == Holding(next) + {o};
    }
    forall b: Name
      ensures Inside(next, b) == Inside(stages, b)
    {
    }
  }

  lemma LeaveBalances(maxExecs: nat, share: nat, free: nat, slots: Shares, stages: Stages, o: Operation)
    requires Balanced(maxExecs, share, free, slots, stages) && o in stages && !stages[o].holding
    ensures stages[o].box.Some? ==> ShareOf(slots, stages[o].box.value) > 0
    ensures Balanced(maxExecs, share, free, Less(slots, stages[o].box), stages - {o})
  {
    var next, box := stages - {o}, stages[o].box;
    assert Holding(next) == Holding(stages);
    if box.Some? {
      assert o in Inside(stages, box.value);
    }
    forall b: Name
      ensures ShareOf(Less(slots, box), b) == |Inside(next, b)| <= share
    {
      assert ShareOf(slots, b) == |Inside(stages, b)|;
      if box == Some(b) {
        assert Inside(next, b) == Inside(stages, b) - {o};
      } else {
        assert Inside(next, b) == Inside(stages, b);
      }
    }
  }

  /** When no operation is under way every slot is free and no sandbox has one. */
  lemma IdleIsEmpty(maxExecs: nat, share: nat, free: nat, slots: Shares)
    requires Balanced(maxExecs, share, free, slots, map[])
    ensures free == maxExecs && forall box :: ShareOf(slots, box) == 0
  {
    assert Holding(map[]) == {};
    forall box
      ensures ShareOf(slots, box) == 0
    {
      assert Inside(map[], box) == {};
    }
  }

  class Slots {
    const maxExecs: nat
    const share: nat
    var slots: Shares // box.slots
    var free: nat     // the semaphore
    ghost var stages: Stages

    constructor (maxExecs: nat, share: nat)
      ensures Valid() && this.maxExecs == maxExecs && this.share == share && stages == map[]
    {
      this.maxExecs, this.share, free, slots, stages := maxExecs, share, maxExecs, map[], map[];
      new;
      assert Holding(stages) == {};
      forall box
        ensures Inside(stages, box) == {}
      {
      }
    }

    ghost predicate Valid()
      reads this
    {
      Balanced(maxExecs, share, free, slots, stages)
    }

    /** The first region: refused exactly when the sandbox runs its share. */
    method Enter(ghost o: Operation, box: Option<Name>) returns (ok: bool)
      requires Valid() && o !in stages
      modifies this`slots, this`stages
      ensures Valid()
      ensures ok <==> box.None? || |Inside(old(stages), box.value)| < share
      ensures stages == if ok then old(stages)[o := Stage(box, false)] else old(stages)
    {
      if box.Some? {
        assert ShareOf(slots, box.value) == |Inside(stages, box.value)|;
        if ShareOf(slots, box.value) >= share {
          return false;
        }
      }
      EnterBalances(maxExecs, share, free, slots, stages, o, box);
      if box.Some? {
        slots := slots[box.value := ShareOf(slots, box.value) + 1];
      }
      stages := stages[o := Stage(box, false)];
      return true;
    }

    /** The semaphore: refused exactly when as many operations as may hold a slot. */
    method Acquire(ghost o: Operation) returns (ok: bool)
      requires Valid() && o in stages && !stages[o].holding
      modifies this`free, this`stages
      ensures Valid()
      ensures ok <==> |Holding(old(stages))| < maxExecs
      ensures stages == if ok then old(stages)[o := Stage(old(stages)[o].box, true)] else old(stages)
    {
      if free == 0 {
        return false;
      }
      HoldBalances(maxExecs, share, free, slots, stages, o, true);
      free := free - 1;
      stages := stages[o := Stage(stages[o].box, true)];
      return true;
    }

    method Release(ghost o: Operation)
      requires Valid() && o in stages && stages[o].holding
      modifies this`free, this`stages
      ensures Valid() && stages == old(stages)[o := Stage(old(stages)[o].box, false)]
    {
      HoldBalances(maxExecs, share, free, slots, stages, o, false);
      free := free + 1;
      stages := stages[o := Stage(stages[o].box, false)];
    }

    /** The last region, whether the operation had a slot or was refused one. */
    method Leave(ghost o: Operation, box: Option<Name>)
      requires Valid() && o in stages && stages[o] == Stage(box, false)
      modifies this`slots, this`stages
      ensures Valid() && stages == old(stages) - {o}
    {
      LeaveBalances(maxExecs, share, free, slots, stages, o);
      if box.Some? {
        slots := slots[box.value := ShareOf(slots, box.value) - 1];
      }
      stages := stages - {o};
    }
  }
}
