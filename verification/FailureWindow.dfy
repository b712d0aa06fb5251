/**
 * The sliding window of compute/http_limits.py, class FailureLimiter: at most twice the limit of events per peer,
 * trimmed only when asked, answers as the full history would.
 */
module FailureWindow {
  const MAX_PEERS: nat := 1024

  type Peer = nat
  type Times = seq<real>

  /** How many failures of a history lie within the window. */
  function Recent(history: Times, now: real, window: real): nat {
    if history == [] then 0
    else (if now - history[0] > window then 0 else 1) + Recent(history[1..], now, window)
  }

  predicate Ascending(history: Times, latest: real) {
    && (forall i, j | 0 <= i < j < |history| :: history[i] <= history[j])
    && forall i | 0 <= i < |history| :: history[i] <= latest
  }

  /** What is kept are the latest of all, without those that no longer matter: out of the window, or before twice the
      limit of later ones. */
  predicate Summarizes(kept: Times, history: Times, latest: real, window: real, limit: nat) {
    && |kept| <= |history| && |kept| <= 2 * limit && kept == history[|history| - |kept|..]
    && (|kept| < |history| ==> latest - history[|history| - |kept| - 1] > window || |kept| == 2 * limit)
  }

  lemma {:induction false} RecentAll(history: Times, now: real, window: real)
    requires forall i | 0 <= i < |history| :: now - history[i] <= window
    ensures Recent(history, now, window) == |history|
  {
    if history != [] {
      RecentAll(history[1..], now, window);
    }
  }

  lemma {:induction false} RecentSplits(a: Times, b: Times, now: real, window: real)
    ensures Recent(a + b, now, window) == Recent(a, now, window) + Recent(b, now, window)
  {
    if a == [] {
      assert a + b == b;
    } else {
      assert (a + b)[1..] == a[1..] + b;
      RecentSplits(a[1..], b, now, window);
    }
  }

  lemma {:induction false} RecentNone(history: Times, now: real, window: real)
    requires forall i | 0 <= i < |history| :: now - history[i] > window
    ensures Recent(history, now, window) == 0
  {
    if history != [] {
      RecentNone(history[1..], now, window);
    }
  }

  /** Events trimmed at `now`, as many as the limit or not, are so in the full history. */
  lemma TrimmedAgrees(kept: Times, history: Times, now: real, window: real, limit: nat)
    requires Ascending(history, now) && Summarizes(kept, history, now, window, limit) && limit >= 1
    requires kept != [] ==> now - kept[0] <= window
    ensures |kept| >= limit <==> Recent(history, now, window) >= limit
  {
    var k := |history| - |kept|;
    assert history == history[..k] + kept;
    RecentSplits(history[..k], kept, now, window);
    forall i | 0 <= i < |kept|
      ensures now - kept[i] <= window
    {
      assert kept[i] == history[k + i] && kept[0] == history[k];
    }
    RecentAll(kept, now, window);
    if |kept| < limit && k > 0 {
      assert now - history[k - 1] > window;
      RecentNone(history[..k], now, window);
    }
  }

  /** A history has so many failures in the window exactly when the one that many places from its end is in it. */
  lemma RecentIff(history: Times, now: real, window: real, limit: nat)
    requires Ascending(history, now) && limit >= 1
    ensures Recent(history, now, window) >= limit <==> |history| >= limit && now - history[|history| - limit] <= window
  {
    if |history| >= limit {
      var k := |history| - limit;
      assert history == history[..k] + history[k..];
      RecentSplits(history[..k], history[k..], now, window);
      if now - history[k] <= window {
        RecentAll(history[k..], now, window);
      } else {
        RecentNone(history[..k + 1], now, window);
        assert history == history[..k + 1] + history[k + 1..];
        RecentSplits(history[..k + 1], history[k + 1..], now, window);
        RecentFits(history[k + 1..], now, window);
      }
    } else {
      RecentFits(history, now, window);
    }
  }

  lemma {:induction false} RecentFits(history: Times, now: real, window: real)
    ensures Recent(history, now, window) <= |history|
  {
    if history != [] {
      RecentFits(history[1..], now, window);
    }
  }

  lemma HistoryIff(counted: Events, failures: Events, latest: real, now: real, window: real, limit: nat, peer: Peer)
    requires Tracked(failures, counted, latest, window, limit) && latest <= now && peer in counted && limit >= 1
    ensures var h := counted[peer];
      Recent(h, now, window) >= limit <==> |h| >= limit && now - h[|h| - limit] <= window
  {
    LaterSummarizes(failures[peer], counted[peer], latest, now, window, limit);
    RecentIff(counted[peer], now, window, limit);
  }

  /** An event out of the window may be dropped. */
  lemma DropKeeps(kept: Times, history: Times, now: real, window: real, limit: nat)
    requires Summarizes(kept, history, now, window, limit) && kept != [] && now - kept[0] > window
    ensures Summarizes(kept[1..], history, now, window, limit)
  {
    assert kept[1..] == history[|history| - |kept| + 1..];
  }

  lemma LaterSummarizes(kept: Times, history: Times, latest: real, now: real, window: real, limit: nat)
    requires Ascending(history, latest) && Summarizes(kept, history, latest, window, limit) && latest <= now
    ensures Ascending(history, now) && Summarizes(kept, history, now, window, limit)
  {
  }

  /** A deque of bounded length: the oldest makes room. */
  function Append(kept: Times, event: real, bound: nat): Times {
    var longer := kept + [event];
    if |longer| <= bound then longer else longer[|longer| - bound..]
  }

  lemma AppendKeeps(kept: Times, history: Times, now: real, window: real, limit: nat)
    requires Ascending(history, now) && Summarizes(kept, history, now, window, limit)
    ensures Ascending(history + [now], now)
    ensures Summarizes(Append(kept, now, 2 * limit), history + [now], now, window, limit)
  {
    var next, longer := history + [now], kept + [now];
    assert longer == next[|next| - |longer|..];
    var bound := Append(kept, now, 2 * limit);
    assert bound == longer[|longer| - |bound|..] == next[|next| - |bound|..];
    if |bound| < |next| && |bound| < 2 * limit {
      assert next[|next| - |bound| - 1] == history[|history| - |kept| - 1];
    }
  }

  type Events = map<Peer, Times>

  /** Every peer's deque summarizes its history. */
  predicate Tracked(failures: Events, counted: Events, latest: real, window: real, limit: nat) {
    failures.Keys == counted.Keys && forall peer | peer in failures ::
      Ascending(counted[peer], latest) && Summarizes(failures[peer], counted[peer], latest, window, limit)
  }

  lemma LaterTracked(failures: Events, counted: Events, latest: real, now: real, window: real, limit: nat)
    requires Tracked(failures, counted, latest, window, limit) && latest <= now
    ensures Tracked(failures, counted, now, window, limit)
  {
    forall p | p in failures
      ensures Ascending(counted[p], now) && Summarizes(failures[p], counted[p], now, window, limit)
    {
      LaterSummarizes(failures[p], counted[p], latest, now, window, limit);
    }
  }

  lemma DropTracked(failures: Events, counted: Events, now: real, window: real, limit: nat, peer: Peer)
    requires Tracked(failures, counted, now, window, limit) && peer in failures
    requires failures[peer] != [] && now - failures[peer][0] > window
    ensures Tracked(failures[peer := failures[peer][1..]], counted, now, window, limit)
  {
    hide Summarizes, Ascending;
    DropKeeps(failures[peer], counted[peer], now, window, limit);
  }

  /** What the trimmed deque answers is what the history says; one of a limit of zero is empty. */
  lemma TrackedAnswers(failures: Events, counted: Events, now: real, window: real, limit: nat, peer: Peer)
    requires Tracked(failures, counted, now, window, limit) && peer in failures
    requires failures[peer] != [] ==> now - failures[peer][0] <= window
    ensures limit >= 1 ==> (|failures[peer]| >= limit <==> Recent(counted[peer], now, window) >= limit)
    ensures limit == 0 ==> failures[peer] == []
  {
    if limit >= 1 {
      TrimmedAgrees(failures[peer], counted[peer], now, window, limit);
    }
  }

  lemma CountTracked(failures: Events, counted: Events, now: real, window: real, limit: nat, peer: Peer)
    requires Tracked(failures, counted, now, window, limit) && peer in failures
    ensures Tracked(failures[peer := Append(failures[peer], now, 2 * limit)], counted[peer := counted[peer] + [now]], now, window, limit)
  {
    hide Summarizes, Ascending, Append;
    AppendKeeps(failures[peer], counted[peer], now, window, limit);
  }

  lemma ForgetTracked(failures: Events, counted: Events, now: real, window: real, limit: nat, peer: Peer)
    requires Tracked(failures, counted, now, window, limit)
    ensures Tracked(failures - {peer}, counted - {peer}, now, window, limit)
  {
    hide Summarizes, Ascending;
    assert (failures - {peer}).Keys == (counted - {peer}).Keys;
  }

  lemma StartTracked(failures: Events, counted: Events, now: real, window: real, limit: nat, peer: Peer)
    requires Tracked(failures, counted, now, window, limit)
    ensures Tracked(failures[peer := []], counted[peer := []], now, window, limit)
  {
    hide Summarizes, Ascending;
    NothingYet(now, window, limit);
  }

  lemma NothingYet(now: real, window: real, limit: nat)
    ensures Ascending([], now) && Summarizes([], [], now, window, limit)
  {
  }

  /** The dictionary's keys, each once. */
  predicate Ordered(order: seq<Peer>, failures: Events) {
    && |order| <= MAX_PEERS && (forall i, j | 0 <= i < j < |order| :: order[i] != order[j])
    && (forall i | 0 <= i < |order| :: order[i] in failures) && (forall peer | peer in failures :: peer in order)
  }

  lemma OrderedForgets(order: seq<Peer>, failures: Events)
    requires Ordered(order, failures) && order != []
    ensures Ordered(order[1..], failures - {order[0]})
  {
  }

  lemma OrderedGrows(order: seq<Peer>, failures: Events, peer: Peer, events: Times)
    requires Ordered(order, failures)
    ensures peer in failures ==> Ordered(order, failures[peer := events])
    ensures peer !in failures && |order| < MAX_PEERS ==> Ordered(order + [peer], failures[peer := events])
  {
  }

  lemma NoHistory(now: real, window: real)
    ensures Recent([], now, window) == 0
  {
  }

  lemma SomeMeansLimit(failures: Events, counted: Events, now: real, window: real, limit: nat, peer: Peer)
    requires Tracked(failures, counted, now, window, limit) && peer in failures && failures[peer] != []
    ensures limit >= 1
  {
  }

  lemma SameKeys(failures: Events, counted: Events, now: real, window: real, limit: nat)
    requires Tracked(failures, counted, now, window, limit)
    ensures forall peer :: peer in failures <==> peer in counted
  {
  }

  lemma FullOrder(order: seq<Peer>, failures: Events)
    requires Ordered(order, failures)
    ensures |order| <= MAX_PEERS
  {
  }

  class FailureLimiter {
    const limit: nat
    const window: real
    var order: seq<Peer>          // the order of the dictionary's keys
    var failures: map<Peer, Times>
    ghost var counted: map<Peer, Times> // every counted failure since the peer was last forgotten
    ghost var latest: real

    constructor (limit: nat, window: real, ghost now: real)
      ensures Valid() && this.limit == limit && this.window == window && counted == map[] && latest == now
    {
      this.limit, this.window := limit, window;
      order, failures, counted, latest := [], map[], map[], now;
    }

    ghost function History(peer: Peer): Times
      reads this
    {
      if peer in counted then counted[peer] else []
    }

    ghost predicate Valid()
      reads this
    {
      Ordered(order, failures) && Tracked(failures, counted, latest, window, limit)
    }

    /** The full history decides. */
    ghost predicate ShouldBlock(peer: Peer, now: real)
      reads this
    {
      limit >= 1 && Recent(History(peer), now, window) >= limit
    }

    /** `_blocked`. */
    method Blocked(peer: Peer, now: real) returns (blocked: bool)
      requires Valid() && latest <= now
      modifies this`failures, this`latest
      ensures Valid() && latest == now
      ensures blocked <==> ShouldBlock(peer, now)
      ensures blocked <==>
        var h := old(History(peer)); limit >= 1 && |h| >= limit && now - h[|h| - limit] <= window
    {
      hide Ordered, Tracked, Recent;
      SameKeys(failures, counted, latest, window, limit);
      NoHistory(now, window);
      if peer in counted && limit >= 1 {
        HistoryIff(counted, failures, latest, now, window, limit, peer);
      }
      LaterTracked(failures, counted, latest, now, window, limit);
      SameKeys(failures, counted, now, window, limit);
      latest := now;
      if peer !in failures {
        NoHistory(now, window);
        return false;
      }
      if failures[peer] == [] {
        TrackedAnswers(failures, counted, now, window, limit, peer);
        return false;
      }
      SomeMeansLimit(failures, counted, now, window, limit, peer);
      while failures[peer] != [] && now - failures[peer][0] > window
        modifies this`failures
        invariant Valid() && latest == now && peer in failures && peer in counted && limit >= 1
        decreases |failures[peer]|
      {
        DropTracked(failures, counted, now, window, limit, peer);
        OrderedGrows(order, failures, peer, failures[peer][1..]);
        failures := failures[peer := failures[peer][1..]];
      }
      TrackedAnswers(failures, counted, now, window, limit, peer);
      return |failures[peer]| >= limit;
    }

    /** `_count`. */
    method Count(peer: Peer, now: real)
      requires Valid() && latest <= now
      modifies this`order, this`failures, this`counted, this`latest
      ensures Valid() && latest == now
      ensures peer in counted && counted[peer] == old(History(peer)) + [now]
      ensures peer in old(failures) || |old(order)| < MAX_PEERS ==> counted == old(counted)[peer := counted[peer]]
      ensures peer !in old(failures) && |old(order)| == MAX_PEERS ==>
        counted == (old(counted) - {old(order)[0]})[peer := counted[peer]] && order == old(order)[1..] + [peer]
    {
      hide Ordered, Tracked, Append;
      LaterTracked(failures, counted, latest, now, window, limit);
      SameKeys(failures, counted, now, window, limit);
      FullOrder(order, failures);
      latest := now;
      MakeRoom(peer);
      CountTracked(failures, counted, now, window, limit, peer);
      SameKeys(failures, counted, now, window, limit);
      OrderedGrows(order, failures, peer, Append(failures[peer], now, 2 * limit));
      failures := failures[peer := Append(failures[peer], now, 2 * limit)];
      counted := counted[peer := counted[peer] + [now]];
    }

    /** A new peer gets a deque, in place of the first peer's when there are too many. */
    method MakeRoom(peer: Peer)
      requires Valid()
      modifies this`order, this`failures, this`counted
      ensures Valid() && peer in failures
      ensures peer in old(failures) ==> failures == old(failures) && counted == old(counted) && order == old(order)
      ensures peer !in old(failures) && |old(order)| < MAX_PEERS ==>
        counted == old(counted)[peer := []] && order == old(order) + [peer]
      ensures peer !in old(failures) && |old(order)| == MAX_PEERS ==>
        counted == (old(counted) - {old(order)[0]})[peer := []] && order == old(order)[1..] + [peer]
    {
      hide Ordered, Tracked;
      FullOrder(order, failures);
      if peer !in failures && |order| >= MAX_PEERS {
        ForgetTracked(failures, counted, latest, window, limit, order[0]);
        OrderedForgets(order, failures);
        failures := failures - {order[0]};
        counted := counted - {order[0]};
        order := order[1..];
      }
      if peer !in failures {
        StartTracked(failures, counted, latest, window, limit, peer);
        OrderedGrows(order, failures, peer, []);
        failures := failures[peer := []];
        counted := counted[peer := []];
        order := order + [peer];
      }
    }

    /** `record`: a failure is counted exactly when the full history does not block the peer. */
    method Record(peer: Peer, now: real, later: real) returns (ok: bool)
      requires Valid() && latest <= now <= later
      modifies this
      ensures Valid()
      ensures ok <==> !old(ShouldBlock(peer, now))
      ensures History(peer) == if ok then old(History(peer)) + [later] else old(History(peer))
    {
      var blocked := Blocked(peer, now);
      if blocked {
        return false;
      }
      Count(peer, later);
      return true;
    }
  }
}
