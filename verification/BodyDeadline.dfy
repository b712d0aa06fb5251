/**
 * The deadline of a request body (bananachat/read_timeout.py, class _TimedInput): a reading thread and a timer that
 * share the fields. Each method is one region; they may come in any order in which the timer fires when it is due and
 * one thread reads.
 */
module BodyDeadline {
  import opened Basics

  const TOLERANCE := 0.01
  const SHORTEST := 0.001

  /** Armed once, a timer is there for good: it waits, or its function has run. */
  datatype Timer = NoTimer | Pending(at: real) | Ran

  datatype Event = Begin(at: real) | End(at: real)

  function Max(a: real, b: real): real {
    if a < b then b else a
  }

  /** The time spent inside reads until `now`: every read from its beginning to its end, or to `now`. */
  function ReadTime(history: seq<Event>, now: real): real {
    if history == [] then 0.0
    else
      var last := history[|history| - 1];
      var earlier := ReadTime(history[..|history| - 1], last.at);
      if last.Begin? then earlier + (now - last.at) else earlier
  }

  /** Reads begin and end in turn, in time. */
  predicate Alternating(history: seq<Event>, now: real) {
    && (forall i | 0 <= i < |history| :: history[i].Begin? <==> i % 2 == 0)
    && (forall i | 0 <= i < |history| - 1 :: history[i].at <= history[i + 1].at)
    && (|history| > 0 ==> history[|history| - 1].at <= now)
  }

  predicate Reading(history: seq<Event>) {
    |history| % 2 == 1
  }

  /** Nothing is read between reads. */
  lemma IdleTimeIsFree(history: seq<Event>, now: real, later: real)
    requires Alternating(history, now) && !Reading(history) && now <= later
    ensures ReadTime(history, later) == ReadTime(history, now)
  {
    if history != [] {
      assert !history[|history| - 1].Begin?;
    }
  }

  lemma ReadTimeRuns(history: seq<Event>, now: real, later: real)
    requires Alternating(history, now) && Reading(history) && now <= later
    ensures ReadTime(history, later) == ReadTime(history, now) + (later - now)
  {
    assert history[|history| - 1].Begin?;
  }

  lemma {:induction false} ReadTimeNotNegative(history: seq<Event>, now: real)
    requires Alternating(history, now)
    ensures ReadTime(history, now) >= 0.0
  {
    if history != [] {
      var n := |history| - 1;
      assert n > 0 ==> history[n - 1].at <= history[n].at;
      ReadTimeNotNegative(history[..n], history[n].at);
    }
  }

  /** The timer is due no later than when the reads, going on from `now`, have taken `total`. */
  predicate ArmedInTime(timer: Timer, history: seq<Event>, now: real, total: real) {
    timer.Pending? && timer.at <= LastMoment(history, now, total)
  }

  /** When the read time, counted on from the beginning of the read or from `now`, reaches the total. */
  function LastMoment(history: seq<Event>, now: real, total: real): real {
    var from := if Reading(history) then history[|history| - 1].at else now;
    from + Max(total - ReadTime(history, from), SHORTEST)
  }

  /** With an armed timer that runs at most `late` after it is due, a body is waited for no longer than that past its
      total time. */
  lemma ReadTimeIsBounded(timer: Timer, history: seq<Event>, now: real, total: real, late: real)
    requires Alternating(history, now) && ArmedInTime(timer, history, now, total) && Reading(history)
    requires now <= timer.at + late && late >= 0.0
    ensures ReadTime(history, now) <= Max(total, ReadTime(history, history[|history| - 1].at) + SHORTEST) + late
  {
    var since := history[|history| - 1].at;
    assert Alternating(history, since);
    ReadTimeRuns(history, since, now);
  }

  /** The deadline only moves away while the handler is busy elsewhere. */
  lemma LastMomentWaits(history: seq<Event>, now: real, later: real, total: real)
    requires Alternating(history, now) && now <= later
    ensures LastMoment(history, now, total) <= LastMoment(history, later, total)
  {
    if !Reading(history) {
      IdleTimeIsFree(history, now, later);
    }
  }

  lemma BeginMoment(history: seq<Event>, now: real, total: real)
    requires Alternating(history, now) && !Reading(history)
    ensures Alternating(history + [Begin(now)], now) && Reading(history + [Begin(now)])
    ensures ReadTime(history + [Begin(now)], now) == ReadTime(history, now)
    ensures LastMoment(history + [Begin(now)], now, total) == LastMoment(history, now, total)
  {
    var next := history + [Begin(now)];
    assert next[..|next| - 1] == history;
  }

  lemma EndMoment(history: seq<Event>, now: real, total: real)
    requires Alternating(history, now) && Reading(history)
    ensures Alternating(history + [End(now)], now) && !Reading(history + [End(now)])
    ensures ReadTime(history + [End(now)], now) == ReadTime(history, now)
    ensures LastMoment(history, now, total) <= LastMoment(history + [End(now)], now, total)
  {
    var next := history + [End(now)];
    var since := history[|history| - 1].at;
    assert next[..|next| - 1] == history;
    assert Alternating(history, since);
    ReadTimeRuns(history, since, now);
  }

  lemma BeginKeeps(history: seq<Event>, latest: real, now: real, total: real, timer: Timer)
    requires Alternating(history, latest) && !Reading(history) && latest <= now
    ensures Alternating(history, now) && ReadTime(history, now) == ReadTime(history, latest)
    ensures var next := history + [Begin(now)];
      && Alternating(next, now) && Reading(next) && ReadTime(next, now) == ReadTime(history, latest)
      && (ArmedInTime(timer, history, latest, total) ==> ArmedInTime(timer, next, now, total))
      && ArmedInTime(Pending(now + Max(total - ReadTime(history, latest), SHORTEST)), next, now, total)
  {
    IdleTimeIsFree(history, latest, now);
    LastMomentWaits(history, latest, now, total);
    BeginMoment(history, now, total);
  }

  lemma EndKeeps(history: seq<Event>, latest: real, now: real, total: real, timer: Timer)
    requires Alternating(history, latest) && Reading(history) && latest <= now
    ensures var next, since := history + [End(now)], history[|history| - 1].at;
      && Alternating(next, now) && !Reading(next)
      && ReadTime(next, now) == ReadTime(history, since) + (now - since) >= ReadTime(history, latest)
      && (ArmedInTime(timer, history, latest, total) ==> ArmedInTime(timer, next, now, total))
  {
    var since := history[|history| - 1].at;
    assert Alternating(history, since);
    ReadTimeRuns(history, since, now);
    ReadTimeRuns(history, latest, now);
    LastMomentWaits(history, latest, now, total);
    EndMoment(history, now, total);
  }

  class TimedInput {
    const total: real
    const length: int // negative: unknown
    var received: nat
    var ended: bool
    var expired: bool
    var spent: real
    var readingSince: Option<real>
    var stopped: bool
    var timer: Timer
    ghost var history: seq<Event>
    ghost var latest: real // the latest reading of the clock

    constructor (total: real, length: int, ghost now: real)
      ensures Valid() && this.total == total && this.length == length && history == [] && latest == now
      ensures !expired && !stopped && !ended && received == 0
    {
      this.total, this.length := total, length;
      received, ended, expired, spent, readingSince, stopped, timer := 0, false, false, 0.0, None, false, NoTimer;
      history, latest := [], now;
    }

    predicate Complete()
      reads this
    {
      ended || 0 <= length <= received
    }

    /** A deadline is still to be kept. */
    predicate Waits()
      reads this
    {
      !Complete() && !stopped && !expired
    }

    /** The fields say what happened; while a deadline is to be kept a timer is armed in time; and it is called missed
        only when the reads have taken the total time, less the tolerance. */
    ghost predicate Valid()
      reads this
    {
      && Alternating(history, latest)
      && (readingSince.Some? <==> Reading(history))
      && (readingSince.Some? ==> history[|history| - 1].at == readingSince.value)
      && spent == ReadTime(history, if readingSince.Some? then readingSince.value else latest)
      && (timer.NoTimer? ==> history == [] || stopped) && (history == [] ==> timer.NoTimer?)
      && (Waits() && history != [] ==> ArmedInTime(timer, history, latest, total))
      && (expired ==> timer.Ran? && ReadTime(history, latest) >= total - TOLERANCE)
    }

    /** `_arm`. */
    method Arm(seconds: real, now: real)
      modifies this`timer
      ensures timer == if stopped then old(timer) else Pending(now + Max(seconds, SHORTEST))
    {
      if stopped {
        return;
      }
      timer := Pending(now + Max(seconds, SHORTEST));
    }

    /** The first region of `_timed`; refused when the body is too late already. */
    method BeginRead(now: real) returns (ok: bool)
      requires Valid() && !Reading(history) && latest <= now
      modifies this`readingSince, this`timer, this`history, this`latest
      ensures Valid() && latest == now
      ensures ok <==> !expired
      ensures history == if ok then old(history) + [Begin(now)] else old(history)
    {
      hide Alternating, ReadTime, ArmedInTime;
      BeginKeeps(history, latest, now, total, timer);
      latest := now;
      if expired {
        return false;
      }
      history := history + [Begin(now)];
      readingSince := Some(now);
      if timer.NoTimer? {
        Arm(total - spent, now);
      }
      return true;
    }

    /** The last region of `_timed`. */
    method EndRead(now: real)
      requires Valid() && Reading(history) && latest <= now
      modifies this`spent, this`readingSince, this`history, this`latest
      ensures Valid() && latest == now && history == old(history) + [End(now)]
    {
      hide Alternating, ReadTime, ArmedInTime;
      var since := readingSince.value;
      EndKeeps(history, latest, now, total, timer);
      spent := spent + (now - since);
      readingSince := None;
      history := history + [End(now)];
      latest := now;
    }

    /** The part of `_read` after a successful call: whether the body is refused although something came. */
    method Received(size: nat) returns (late: bool)
      requires Valid() && Reading(history)
      modifies this`received, this`ended
      ensures Valid() && received == old(received) + size
      ensures late <==> expired && !(0 <= length <= received)
      ensures ended <==> old(ended) || (size == 0 && !late)
    {
      received := received + size;
      if expired && !(0 <= length <= received) {
        return true;
      }
      if size == 0 {
        ended := true;
      }
      return false;
    }

    /** `_due`: the deadline is missed exactly when the reads have taken the total time, less the tolerance; else the
        timer waits for the moment at which they would. */
    method Due(now: real) returns (wake: bool)
      requires Valid() && timer.Pending? && timer.at <= now && latest <= now
      modifies this`expired, this`timer, this`latest
      ensures Valid() && latest == now
      ensures expired <==> old(Waits()) && ReadTime(history, now) >= total - TOLERANCE
      ensures expired <==>
        !stopped && !ended && !(0 <= length <= received) && ReadTime(history, now) >= total - TOLERANCE
      ensures old(Waits()) && !expired ==> timer == Pending(LastMoment(history, now, total))
      ensures wake <==> expired && Reading(history)
    {
      if Reading(history) {
        ReadTimeRuns(history, latest, now);
        ReadTimeRuns(history, history[|history| - 1].at, now);
      } else {
        IdleTimeIsFree(history, latest, now);
      }
      LastMomentWaits(history, latest, now, total);
      latest := now;
      if stopped || Complete() {
        timer := Ran;
        return false;
      }
      var taken := spent + if readingSince.Some? then now - readingSince.value else 0.0;
      var left := total - taken;
      if left > TOLERANCE {
        Arm(left, now);
        return false;
      }
      timer := Ran;
      expired := true;
      return readingSince.Some?;
    }

    /** `stop`: a timer whose function already waits for the lock finds the body stopped. */
    method Stop()
      requires Valid()
      modifies this`stopped
      ensures Valid() && stopped
    {
      stopped := true;
    }
  }
}
