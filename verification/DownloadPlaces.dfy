/**
 * The places of bananachat/security.py for responses that hold a server thread: download places with a share for each
 * client, long-request places, reply places of the token APIs, and how a request keeps and gives back its place.
 */
module DownloadPlaces {
  import opened Basics

  type Client = nat

  /** A release function; the object it belongs to knows whether it has been called. */
  type Token = nat

  type Counts = map<Client, nat>
  type Owners = map<Token, Client>

  // ----- download places -------------------------------------------------------------------------

  /** The places taken and not given back: all of them, and those taken for one owner. */
  function Outstanding<T>(owner: map<Token, T>, released: set<Token>): (r: set<Token>)
    ensures forall t :: t in r <==> t in owner && t !in released
  {
    set t | t in owner && t !in released
  }

  function OutstandingOf<T(==)>(owner: map<Token, T>, released: set<Token>, one: T): (r: set<Token>)
    ensures forall t :: t in r <==> t in owner && t !in released && owner[t] == one
  {
    set t | t in owner && t !in released && owner[t] == one
  }

  /** The sum of the counts. */
  ghost function Sum(counts: Counts): nat {
    Total(counts, n => n)
  }

  lemma SumWithout(counts: Counts, client: Client)
    requires client in counts
    ensures Sum(counts) == counts[client] + Sum(counts - {client})
  {
    TotalWithout(counts, n => n, client);
  }

  function CountOf(counts: Counts, client: Client): nat {
    if client in counts then counts[client] else 0
  }

  lemma SumChanges(counts: Counts, client: Client, n: nat)
    ensures Sum(counts[client := n]) == Sum(counts) - CountOf(counts, client) + n
    ensures Sum(counts - {client}) == Sum(counts) - CountOf(counts, client)
  {
    SumWithout(counts[client := n], client);
    assert counts[client := n] - {client} == counts - {client};
    if client in counts {
      SumWithout(counts, client);
    } else {
      assert counts - {client} == counts;
    }
  }

  /** The numbers agree with the places that are out. */
  ghost predicate PoolOk(total: nat, perClient: nat, active: nat, clients: Counts, owner: Owners, released: set<Token>) {
    && active == |Outstanding(owner, released)| == Sum(clients) && active <= total
    && (forall client | client in clients :: 1 <= clients[client] <= perClient)
    && (forall client :: CountOf(clients, client) == |OutstandingOf(owner, released, client)|)
    && (forall t | t in released :: t in owner)
  }

  lemma OneMoreOut<T>(owner: map<Token, T>, released: set<Token>, one: T, t: Token)
    requires t !in owner && forall x | x in released :: x in owner
    ensures Outstanding(owner[t := one], released) == Outstanding(owner, released) + {t}
    ensures |Outstanding(owner[t := one], released)| == |Outstanding(owner, released)| + 1
    ensures |OutstandingOf(owner[t := one], released, one)| == |OutstandingOf(owner, released, one)| + 1
    ensures forall c | c != one :: OutstandingOf(owner[t := one], released, c) == OutstandingOf(owner, released, c)
  {
    var next := owner[t := one];
    assert Outstanding(next, released) == Outstanding(owner, released) + {t};
    assert OutstandingOf(next, released, one) == OutstandingOf(owner, released, one) + {t};
  }

  lemma OneLessOut<T>(owner: map<Token, T>, released: set<Token>, t: Token)
    requires t in owner && t !in released
    ensures Outstanding(owner, released + {t}) == Outstanding(owner, released) - {t}
    ensures |Outstanding(owner, released + {t})| == |Outstanding(owner, released)| - 1
    ensures |OutstandingOf(owner, released + {t}, owner[t])| == |OutstandingOf(owner, released, owner[t])| - 1
    ensures forall c | c != owner[t] :: OutstandingOf(owner, released + {t}, c) == OutstandingOf(owner, released, c)
  {
    var gone := released + {t};
    assert t in Outstanding(owner, released) && t in OutstandingOf(owner, released, owner[t]);
    assert Outstanding(owner, gone) == Outstanding(owner, released) - {t};
    assert OutstandingOf(owner, gone, owner[t]) == OutstandingOf(owner, released, owner[t]) - {t};
  }

  lemma TakeOk(total: nat, perClient: nat, active: nat, clients: Counts, owner: Owners, released: set<Token>, client: Client, t: Token)
    requires PoolOk(total, perClient, active, clients, owner, released) && t !in owner
    requires active < total && CountOf(clients, client) < perClient
    ensures PoolOk(total, perClient, active + 1, clients[client := CountOf(clients, client) + 1], owner[t := client], released)
    ensures Outstanding(owner[t := client], released) == Outstanding(owner, released) + {t}
  {
    hide Outstanding, OutstandingOf, Sum;
    SumChanges(clients, client, CountOf(clients, client) + 1);
    OneMoreOut(owner, released, client, t);
    var counts := clients[client := CountOf(clients, client) + 1];
    forall c
      ensures CountOf(counts, c) == |OutstandingOf(owner[t := client], released, c)|
    {
      assert CountOf(clients, c) == |OutstandingOf(owner, released, c)|;
    }
  }

  /** The counts after one place of `client` is given back. */
  function Less(clients: Counts, client: Client): Counts {
    if CountOf(clients, client) > 1 then clients[client := CountOf(clients, client) - 1] else clients - {client}
  }

  lemma ReleaseOk(total: nat, perClient: nat, active: nat, clients: Counts, owner: Owners, released: set<Token>, t: Token)
    requires PoolOk(total, perClient, active, clients, owner, released) && t in owner && t !in released
    ensures active > 0
    ensures PoolOk(total, perClient, active - 1, Less(clients, owner[t]), owner, released + {t})
    ensures Outstanding(owner, released + {t}) == Outstanding(owner, released) - {t}
  {
    hide Outstanding, OutstandingOf, Sum;
    var client, gone := owner[t], released + {t};
    OneLessOut(owner, released, t);
    forall c
      ensures CountOf(Less(clients, client), c) == |OutstandingOf(owner, gone, c)|
    {
      assert CountOf(clients, c) == |OutstandingOf(owner, released, c)|;
    }
    SumChanges(clients, client, if CountOf(clients, client) > 1 then CountOf(clients, client) - 1 else 0);
  }

  datatype Taken = Busy | Share | Place(token: Token)

  class Downloads {
    const total: nat
    const perClient: nat
    var active: nat
    var clients: Counts
    var owner: Owners        // the client each release function gives back for
    var released: set<Token> // the release functions that were called

    constructor (threads: int)
      ensures Valid() && total == (if threads < 1 then 1 else threads)
      ensures 1 <= perClient && (total >= 4 ==> 4 * perClient <= total < 4 * (perClient + 1)) && (total < 4 ==> perClient == 1)
      ensures owner == map[] && released == {}
    {
      var n := if threads < 1 then 1 else threads;
      total, perClient := n, if n / 4 < 1 then 1 else n / 4;
      active, clients, owner, released := 0, map[], map[], {};
      new;
      assert Outstanding(owner, released) == {};
      forall client
        ensures OutstandingOf(owner, released, client) == {}
      {
      }
    }

    ghost predicate Valid()
      reads this
    {
      perClient >= 1 && PoolOk(total, perClient, active, clients, owner, released)
    }

    ghost function Out(): set<Token>
      reads this
    {
      Outstanding(owner, released)
    }

    /** What `take` answers. */
    function Answer(client: Client, t: Token): Taken
      reads this
    {
      if active == total then Busy else if CountOf(clients, client) == perClient then Share else Place(t)
    }

    /** `take`; the new release function is called `t`. */
    method Take(client: Client, t: Token) returns (r: Taken)
      requires Valid() && t !in owner
      modifies this`active, this`clients, this`owner
      ensures Valid()
      ensures r == old(Answer(client, t))
      ensures r.Busy? <==> |old(Out())| == total
      ensures r.Share? <==> |old(Out())| < total && |OutstandingOf(old(owner), old(released), client)| == perClient
      ensures r.Place? ==> Out() == old(Out()) + {t} && owner == old(owner)[t := client]
      ensures !r.Place? ==> owner == old(owner) && clients == old(clients) && active == old(active)
    {
      hide PoolOk;
      PoolBounds(total, perClient, active, clients, owner, released, client);
      PoolCounts(total, perClient, active, clients, owner, released, client);
      if active >= total {
        return Busy;
      }
      if CountOf(clients, client) >= perClient {
        return Share;
      }
      TakeOk(total, perClient, active, clients, owner, released, client, t);
      active := active + 1;
      clients := clients[client := CountOf(clients, client) + 1];
      owner := owner[t := client];
      return Place(t);
    }

    /** `release`: safe to call twice. */
    method Release(t: Token)
      requires Valid() && t in owner
      modifies this`active, this`clients, this`released
      ensures Valid() && released == old(released) + {t}
      ensures Out() == old(Out()) - {t}
      ensures t in old(released) ==> active == old(active) && clients == old(clients)
      ensures t !in old(released) ==> active == old(active) - 1 && CountOf(clients, owner[t]) == CountOf(old(clients), owner[t]) - 1
    {
      hide PoolOk;
      if t in released {
        assert released + {t} == released && Out() - {t} == Out();
        return;
      }
      ReleaseOk(total, perClient, active, clients, owner, released, t);
      HasOne(total, perClient, active, clients, owner, released, t);
      released := released + {t};
      active := active - 1;
      clients := Less(clients, owner[t]);
    }
  }

  lemma PoolBounds(total: nat, perClient: nat, active: nat, clients: Counts, owner: Owners, released: set<Token>, client: Client)
    requires PoolOk(total, perClient, active, clients, owner, released)
    ensures active <= total && CountOf(clients, client) <= perClient
  {
  }

  lemma PoolCounts(total: nat, perClient: nat, active: nat, clients: Counts, owner: Owners, released: set<Token>, client: Client)
    requires PoolOk(total, perClient, active, clients, owner, released)
    ensures active == |Outstanding(owner, released)| && CountOf(clients, client) == |OutstandingOf(owner, released, client)|
  {
  }

  lemma HasOne(total: nat, perClient: nat, active: nat, clients: Counts, owner: Owners, released: set<Token>, t: Token)
    requires PoolOk(total, perClient, active, clients, owner, released) && t in owner && t !in released
    ensures CountOf(clients, owner[t]) >= 1
  {
    assert t in OutstandingOf(owner, released, owner[t]);
  }

  // ----- long-request places ---------------------------------------------------------------------

  const RESERVED_THREADS: int := 4
  const POLL_SHARE: nat := 4

  ghost predicate LongOk(limit: nat, active: nat, waiting: nat, polls: map<Token, bool>, released: set<Token>) {
    && active == |Outstanding(polls, released)| <= limit && waiting == |OutstandingOf(polls, released, true)| <= PollLimit(limit)
    && forall t | t in released :: t in polls
  }

  function PollLimit(limit: nat): nat {
    if limit / POLL_SHARE < 1 then 1 else limit / POLL_SHARE
  }

  class LongRequests {
    const limit: nat
    var active: nat
    var polls: nat
    var kind: map<Token, bool> // whether each release function belongs to a poll
    var released: set<Token>

    constructor (threads: int)
      ensures Valid() && limit == (if threads >= 6 then threads - 4 else 2) && kind == map[]
    {
      limit := if threads - RESERVED_THREADS < 2 then 2 else threads - RESERVED_THREADS;
      active, polls, kind, released := 0, 0, map[], {};
      new;
      assert Outstanding(kind, released) == {} && OutstandingOf(kind, released, true) == {};
    }

    ghost predicate Valid()
      reads this
    {
      LongOk(limit, active, polls, kind, released)
    }

    ghost function Out(): set<Token>
      reads this
    {
      Outstanding(kind, released)
    }

    /** `_take_long_request`. */
    method Take(poll: bool, t: Token) returns (ok: bool)
      requires Valid() && t !in kind
      modifies this`active, this`polls, this`kind
      ensures Valid()
      ensures ok <==> old(active) < limit && (poll ==> old(polls) < PollLimit(limit))
      ensures ok <==>
        |old(Out())| < limit && (poll ==> |OutstandingOf(old(kind), old(released), true)| < (if limit < 8 then 1 else limit / 4))
      ensures kind == if ok then old(kind)[t := poll] else old(kind)
      ensures Out() == if ok then old(Out()) + {t} else old(Out())
    {
      if active >= limit || (poll && polls >= PollLimit(limit)) {
        return false;
      }
      hide Outstanding, OutstandingOf;
      OneMoreOut(kind, released, poll, t);
      active := active + 1;
      polls := polls + if poll then 1 else 0;
      kind := kind[t := poll];
      return true;
    }

    method Release(t: Token)
      requires Valid() && t in kind
      modifies this`active, this`polls, this`released
      ensures Valid() && released == old(released) + {t}
      ensures Out() == old(Out()) - {t}
    {
      hide Outstanding, OutstandingOf;
      if t !in released {
        OneLessOut(kind, released, t);
        active := active - 1;
        polls := polls - if kind[t] then 1 else 0;
        released := released + {t};
      } else {
        assert released + {t} == released && Out() - {t} == Out();
      }
    }
  }

  // ----- requests and replies --------------------------------------------------------------------

  type RequestId = nat
  type ReplyId = nat

  /** `g.download_place`, and the release function that closing the response calls. */
  datatype Request = Request(place: Option<Token>, response: Option<Token>)

  datatype Held = Download(token: Token) | Long(token: Token)

  /** Where a call of `take_reply_place` or of the function it returned has got to: the client reserved; refused by the
      download places; holding a place; without a place again; and the client let go. */
  datatype Stage = Reserved | Refused | Holding(held: Held) | Emptied | Gone

  datatype Reply = Reply(client: Client, stage: Stage)

  /** Who will give a download place back. */
  datatype Holder = Kept(request: RequestId) | Sent(request: RequestId) | Replying(reply: ReplyId)

  type Requests = map<RequestId, Request>
  type Replies = map<ReplyId, Reply>
  type Holders = map<Token, Holder>

  datatype Sending = Delivered | RefusedBusy | RefusedShare

  /** A request that has done nothing yet keeps and sends nothing. */
  function RequestOf(requests: Requests, r: RequestId): Request {
    if r in requests then requests[r] else Request(None, None)
  }

  predicate Holds(replies: Replies, i: ReplyId, held: Held) {
    i in replies && replies[i].stage == Holding(held)
  }

  /** Whether a holder has this place. */
  predicate Has(requests: Requests, replies: Replies, holder: Holder, t: Token) {
    match holder
    case Kept(r) => RequestOf(requests, r).place == Some(t)
    case Sent(r) => RequestOf(requests, r).response == Some(t)
    case Replying(i) => Holds(replies, i, Download(t))
  }

  /** Every place that is out is held once, and nobody holds another. */
  ghost predicate HeldOnce(out: set<Token>, holders: Holders, requests: Requests, replies: Replies) {
    && holders.Keys == out
    && (forall t | t in holders :: Has(requests, replies, holders[t], t))
    && (forall holder, t | Has(requests, replies, holder, t) :: t in holders && holders[t] == holder)
  }

  predicate Live(replies: Replies, i: ReplyId, client: Client) {
    i in replies && replies[i].client == client && !replies[i].stage.Gone?
  }

  /** The clients that are reserved are those of the replies in progress, each of one. */
  ghost predicate OneReplyEach(replying: set<Client>, replies: Replies) {
    && (forall client: Client :: client in replying <==> exists i: ReplyId :: Live(replies, i, client))
    && (forall i: ReplyId, j: ReplyId, client: Client | Live(replies, i, client) && Live(replies, j, client) :: i == j)
  }

  /** A long-request place of a reply is out as long as the reply holds it. */
  ghost predicate LongHeld(out: set<Token>, replies: Replies) {
    && (forall i: ReplyId, t: Token | Holds(replies, i, Long(t)) :: t in out)
    && (forall i: ReplyId, j: ReplyId, t: Token | Holds(replies, i, Long(t)) && Holds(replies, j, Long(t)) :: i == j)
  }

  lemma KeepPlace(out: set<Token>, holders: Holders, requests: Requests, replies: Replies, r: RequestId, t: Token)
    requires HeldOnce(out, holders, requests, replies) && t !in out && RequestOf(requests, r).place.None?
    ensures HeldOnce(out + {t}, holders[t := Kept(r)], requests[r := RequestOf(requests, r).(place := Some(t))], replies)
  {
    var next := requests[r := RequestOf(requests, r).(place := Some(t))];
    assert forall h, u :: Has(next, replies, h, u) <==> Has(requests, replies, h, u) || (h == Kept(r) && u == t);
  }

  lemma SendPlace(out: set<Token>, holders: Holders, requests: Requests, replies: Replies, r: RequestId, t: Token)
    requires HeldOnce(out, holders, requests, replies) && t !in out && RequestOf(requests, r) == Request(None, None)
    ensures HeldOnce(out + {t}, holders[t := Sent(r)], requests[r := Request(None, Some(t))], replies)
  {
    var next := requests[r := Request(None, Some(t))];
    assert forall h, u :: Has(next, replies, h, u) <==> Has(requests, replies, h, u) || (h == Sent(r) && u == t);
  }

  lemma MovePlace(out: set<Token>, holders: Holders, requests: Requests, replies: Replies, r: RequestId, t: Token)
    requires HeldOnce(out, holders, requests, replies) && RequestOf(requests, r) == Request(Some(t), None)
    ensures t in out && HeldOnce(out, holders[t := Sent(r)], requests[r := Request(None, Some(t))], replies)
  {
    var next := requests[r := Request(None, Some(t))];
    assert Has(requests, replies, Kept(r), t);
    assert forall h, u :: Has(next, replies, h, u) <==> (Has(requests, replies, h, u) && h != Kept(r)) || (h == Sent(r) && u == t);
  }

  lemma DropPlace(out: set<Token>, holders: Holders, requests: Requests, replies: Replies, r: RequestId, t: Token)
    requires HeldOnce(out, holders, requests, replies) && RequestOf(requests, r).place == Some(t)
    ensures t in out && HeldOnce(out - {t}, holders - {t}, requests[r := RequestOf(requests, r).(place := None)], replies)
  {
    var next := requests[r := RequestOf(requests, r).(place := None)];
    assert Has(requests, replies, Kept(r), t);
    assert forall h, u :: Has(next, replies, h, u) <==> Has(requests, replies, h, u) && h != Kept(r);
  }

  lemma DropResponse(out: set<Token>, holders: Holders, requests: Requests, replies: Replies, r: RequestId, t: Token)
    requires HeldOnce(out, holders, requests, replies) && RequestOf(requests, r).response == Some(t)
    ensures t in out && HeldOnce(out - {t}, holders - {t}, requests[r := RequestOf(requests, r).(response := None)], replies)
  {
    var next := requests[r := RequestOf(requests, r).(response := None)];
    assert Has(requests, replies, Sent(r), t);
    assert forall h, u :: Has(next, replies, h, u) <==> Has(requests, replies, h, u) && h != Sent(r);
  }

  /** A reply that neither had nor gets a download place. */
  lemma SameHolders(out: set<Token>, holders: Holders, requests: Requests, replies: Replies, i: ReplyId, next: Reply)
    requires HeldOnce(out, holders, requests, replies) && (i in replies && replies[i].stage.Holding? ==> replies[i].stage.held.Long?)
    requires next.stage.Holding? ==> next.stage.held.Long?
    ensures HeldOnce(out, holders, requests, replies[i := next])
  {
    var after := replies[i := next];
    assert forall h, u :: Has(requests, after, h, u) <==> Has(requests, replies, h, u);
  }

  lemma ReplyPlace(out: set<Token>, holders: Holders, requests: Requests, replies: Replies, i: ReplyId, t: Token)
    requires HeldOnce(out, holders, requests, replies) && i in replies && !replies[i].stage.Holding? && t !in out
    ensures HeldOnce(out + {t}, holders[t := Replying(i)], requests, replies[i := replies[i].(stage := Holding(Download(t)))])
  {
    var after := replies[i := replies[i].(stage := Holding(Download(t)))];
    assert forall h, u :: Has(requests, after, h, u) <==> Has(requests, replies, h, u) || (h == Replying(i) && u == t);
  }

  lemma GivePlace(out: set<Token>, holders: Holders, requests: Requests, replies: Replies, i: ReplyId, t: Token)
    requires HeldOnce(out, holders, requests, replies) && Holds(replies, i, Download(t))
    ensures t in out && HeldOnce(out - {t}, holders - {t}, requests, replies[i := replies[i].(stage := Emptied)])
  {
    var after := replies[i := replies[i].(stage := Emptied)];
    assert Has(requests, replies, Replying(i), t);
    assert forall h, u :: Has(requests, after, h, u) <==> Has(requests, replies, h, u) && h != Replying(i);
  }

  lemma ReplyStarts(replying: set<Client>, replies: Replies, i: ReplyId, client: Client)
    requires OneReplyEach(replying, replies) && i !in replies && client !in replying
    ensures OneReplyEach(replying + {client}, replies[i := Reply(client, Reserved)])
  {
    var next := replies[i := Reply(client, Reserved)];
    assert Live(next, i, client);
    assert forall j: ReplyId, c: Client :: Live(next, j, c) <==> Live(replies, j, c) || (j == i && c == client);
  }

  lemma ReplyGoesOn(replying: set<Client>, replies: Replies, i: ReplyId, stage: Stage)
    requires OneReplyEach(replying, replies) && i in replies && !replies[i].stage.Gone? && !stage.Gone?
    ensures OneReplyEach(replying, replies[i := replies[i].(stage := stage)])
  {
    var next := replies[i := replies[i].(stage := stage)];
    assert forall j: ReplyId, c: Client :: Live(next, j, c) <==> Live(replies, j, c);
  }

  lemma ReplyEnds(replying: set<Client>, replies: Replies, i: ReplyId)
    requires OneReplyEach(replying, replies) && i in replies && !replies[i].stage.Gone?
    ensures OneReplyEach(replying - {replies[i].client}, replies[i := replies[i].(stage := Gone)])
  {
    var client := replies[i].client;
    var next := replies[i := replies[i].(stage := Gone)];
    assert Live(replies, i, client);
    assert forall j: ReplyId, c: Client :: Live(next, j, c) <==> Live(replies, j, c) && c != client;
  }

  lemma SameLongs(out: set<Token>, replies: Replies, i: ReplyId, next: Reply)
    requires LongHeld(out, replies) && (next.stage.Holding? ==> next.stage.held.Download?)
    ensures LongHeld(out, replies[i := next])
  {
    var after := replies[i := next];
    assert forall j: ReplyId, t: Token :: Holds(after, j, Long(t)) ==> Holds(replies, j, Long(t));
  }

  lemma LongTaken(out: set<Token>, replies: Replies, i: ReplyId, t: Token)
    requires LongHeld(out, replies) && i in replies && t !in out
    ensures LongHeld(out + {t}, replies[i := replies[i].(stage := Holding(Long(t)))])
  {
    var next := replies[i := replies[i].(stage := Holding(Long(t)))];
    assert forall j: ReplyId, u: Token :: Holds(next, j, Long(u)) ==> Holds(replies, j, Long(u)) || (j == i && u == t);
  }

  lemma LongGiven(out: set<Token>, replies: Replies, i: ReplyId, t: Token)
    requires LongHeld(out, replies) && Holds(replies, i, Long(t))
    ensures t in out && LongHeld(out - {t}, replies[i := replies[i].(stage := Emptied)])
  {
    var next := replies[i := replies[i].(stage := Emptied)];
    assert forall j: ReplyId, u: Token :: Holds(next, j, Long(u)) ==> Holds(replies, j, Long(u)) && j != i;
  }

  /** When no request keeps or sends and no reply holds anything, no download place is out. */
  lemma NothingHeld(out: set<Token>, holders: Holders, requests: Requests, replies: Replies)
    requires HeldOnce(out, holders, requests, replies)
    requires forall r | r in requests :: requests[r] == Request(None, None)
    requires forall i | i in replies :: !replies[i].stage.Holding?
    ensures out == {}
  {
    forall holder, t
      ensures !Has(requests, replies, holder, t)
    {
    }
    assert holders.Keys == {};
  }

  /** When no place is out, all counters are back. */
  lemma EmptyPool(total: nat, perClient: nat, active: nat, clients: Counts, owner: Owners, released: set<Token>)
    requires PoolOk(total, perClient, active, clients, owner, released) && Outstanding(owner, released) == {}
    ensures active == 0 && clients == map[]
  {
    forall client
      ensures CountOf(clients, client) == 0
    {
      assert OutstandingOf(owner, released, client) <= Outstanding(owner, released);
    }
    assert forall client | client in clients :: CountOf(clients, client) >= 1;
    assert clients.Keys == {};
  }

  lemma EmptyLongs(limit: nat, active: nat, waiting: nat, polls: map<Token, bool>, released: set<Token>)
    requires LongOk(limit, active, waiting, polls, released)
    ensures active <= limit && (Outstanding(polls, released) == {} ==> active == 0 && waiting == 0)
  {
    assert OutstandingOf(polls, released, true) <= Outstanding(polls, released);
    if Outstanding(polls, released) == {} {
      assert OutstandingOf(polls, released, true) == {};
    }
  }

  lemma NoReplies(replying: set<Client>, replies: Replies)
    requires OneReplyEach(replying, replies) && forall i | i in replies :: replies[i].stage.Gone?
    ensures replying == {}
  {
    assert forall i: ReplyId, client: Client :: !Live(replies, i, client);
  }

  class Server {
    const downloads: Downloads
    const longs: LongRequests
    var requests: Requests
    var replies: Replies
    var replying: set<Client> // _ReplyHolders.clients
    ghost var holders: Holders

    constructor (downloadThreads: int, httpThreads: int)
      ensures Valid() && fresh(downloads) && fresh(longs) && requests == map[] && replies == map[]
    {
      downloads := new Downloads(downloadThreads);
      longs := new LongRequests(httpThreads);
      requests, replies, replying, holders := map[], map[], {}, map[];
      new;
      assert downloads.Out() == {};
    }

    ghost predicate Valid()
      reads this, downloads, longs
    {
      && downloads.Valid() && longs.Valid()
      && HeldOnce(downloads.Out(), holders, requests, replies)
      && OneReplyEach(replying, replies) && LongHeld(longs.Out(), replies)
    }

    function Of(r: RequestId): Request
      reads this
    {
      RequestOf(requests, r)
    }

    /** `download_first` and `take_download_place`: once in a request. */
    method TakeFirst(r: RequestId, client: Client, t: Token) returns (taken: Taken)
      requires Valid() && t !in downloads.owner && Of(r) == Request(None, None)
      modifies this`requests, this`holders, downloads
      ensures Valid()
      ensures taken == old(downloads.Answer(client, t))
      ensures taken.Place? ==> requests == old(requests)[r := Request(Some(t), None)] && downloads.Out() == old(downloads.Out()) + {t}
      ensures !taken.Place? ==> requests == old(requests) && downloads.Out() == old(downloads.Out())
    {
      hide HeldOnce, OneReplyEach, LongHeld, PoolOk;
      taken := downloads.Take(client, t);
      if taken.Place? {
        KeepPlace(old(downloads.Out()), holders, requests, replies, r, t);
        requests := requests[r := Request(Some(t), None)];
        holders := holders[t := Kept(r)];
      }
    }

    /** `hold_large_response`, once for a request's response: `large` as `_large` decides; `bearer`: of a token API;
        `wraps`: the body takes the release function. A refused response is closed at once. */
    method Respond(r: RequestId, client: Client, large: bool, bearer: bool, wraps: bool, t: Token) returns (sending: Sending)
      requires Valid() && t !in downloads.owner && Of(r).response.None?
      modifies this`requests, this`holders, downloads
      ensures Valid() && Of(r).place.None? && forall other | other != r :: Of(other) == old(Of(other))
      ensures old(Of(r)).place.Some? ==>
        && sending == Delivered
        && (if large && wraps then Of(r).response == old(Of(r)).place && downloads.Out() == old(downloads.Out())
            else Of(r).response.None? && downloads.Out() == old(downloads.Out()) - {old(Of(r)).place.value})
      ensures old(Of(r)).place.None? && !large ==>
        sending == Delivered && Of(r).response.None? && downloads.Out() == old(downloads.Out())
      ensures old(Of(r)).place.None? && large && old(downloads.Answer(client, t)).Place? ==>
        && sending == Delivered
        && (if wraps then Of(r).response == Some(t) && downloads.Out() == old(downloads.Out()) + {t}
            else Of(r).response.None? && downloads.Out() == old(downloads.Out()))
      ensures old(Of(r)).place.None? && large && !old(downloads.Answer(client, t)).Place? ==>
        && Of(r).response.None? && downloads.Out() == old(downloads.Out())
        && sending == if bearer then Delivered else if old(downloads.Answer(client, t)) == Busy then RefusedBusy else RefusedShare
    {
      hide HeldOnce, OneReplyEach, LongHeld, PoolOk;
      var held := Of(r).place;
      if held.Some? {
        if large && wraps {
          MovePlace(downloads.Out(), holders, requests, replies, r, held.value);
          requests := requests[r := Request(None, held)];
          holders := holders[held.value := Sent(r)];
        } else {
          Teardown(r);
        }
        return Delivered;
      }
      if !large {
        return Delivered;
      }
      var taken := downloads.Take(client, t);
      if !taken.Place? {
        return if bearer then Delivered else if taken == Busy then RefusedBusy else RefusedShare;
      }
      if wraps {
        SendPlace(old(downloads.Out()), holders, requests, replies, r, t);
        requests := requests[r := Request(None, Some(t))];
        holders := holders[t := Sent(r)];
      } else {
        downloads.Release(t);
        assert downloads.Out() == old(downloads.Out());
      }
      return Delivered;
    }

    /** `release_download_place` when the request is torn down: whatever the view did, it keeps no place. */
    method Teardown(r: RequestId)
      requires Valid()
      modifies this`requests, this`holders, downloads
      ensures Valid() && Of(r) == old(Of(r)).(place := None) && forall other | other != r :: Of(other) == old(Of(other))
      ensures downloads.Out() == old(downloads.Out()) - (if old(Of(r)).place.Some? then {old(Of(r)).place.value} else {})
    {
      hide HeldOnce, OneReplyEach, LongHeld, PoolOk;
      if Of(r).place.Some? {
        var t := Of(r).place.value;
        DropPlace(downloads.Out(), holders, requests, replies, r, t);
        downloads.Release(t);
        requests := requests[r := Of(r).(place := None)];
        holders := holders - {t};
      }
    }

    /** The server closes the response, perhaps more than once. */
    method CloseResponse(r: RequestId)
      requires Valid()
      modifies this`requests, this`holders, downloads
      ensures Valid() && Of(r) == old(Of(r)).(response := None) && forall other | other != r :: Of(other) == old(Of(other))
      ensures downloads.Out() == old(downloads.Out()) - (if old(Of(r)).response.Some? then {old(Of(r)).response.value} else {})
    {
      hide HeldOnce, OneReplyEach, LongHeld, PoolOk;
      if Of(r).response.Some? {
        var t := Of(r).response.value;
        DropResponse(downloads.Out(), holders, requests, replies, r, t);
        downloads.Release(t);
        requests := requests[r := Of(r).(response := None)];
        holders := holders - {t};
      }
    }

    // ----- the regions of `take_reply_place` and of the function it returns ------------------------

    /** The first region, under the lock of `_ReplyHolders`: the client is reserved. */
    method Reserve(i: ReplyId, client: Client) returns (ok: bool)
      requires Valid() && i !in replies
      modifies this`replies, this`replying
      ensures Valid()
      ensures ok <==> client !in old(replying)
      ensures replying == old(replying) + {client}
      ensures replies == if ok then old(replies)[i := Reply(client, Reserved)] else old(replies)
    {
      hide HeldOnce, OneReplyEach, LongHeld, PoolOk, LongOk;
      ok := client !in replying;
      if ok {
        SameHolders(downloads.Out(), holders, requests, replies, i, Reply(client, Reserved));
        ReplyStarts(replying, replies, i, client);
        SameLongs(longs.Out(), replies, i, Reply(client, Reserved));
        replies := replies[i := Reply(client, Reserved)];
      }
      replying := replying + {client};
      assert !ok ==> replying == old(replying);
    }

    /** The second, under the download places' lock. */
    method ReplyDownload(i: ReplyId, t: Token)
      requires Valid() && i in replies && replies[i].stage.Reserved? && t !in downloads.owner
      modifies this`replies, this`holders, downloads
      ensures Valid()
      ensures var placed := old(downloads.Answer(replies[i].client, t)).Place?;
        && replies == old(replies)[i := Reply(old(replies)[i].client, if placed then Holding(Download(t)) else Refused)]
        && downloads.Out() == old(downloads.Out()) + if placed then {t} else {}
    {
      hide HeldOnce, OneReplyEach, LongHeld, PoolOk, LongOk;
      var taken := downloads.Take(replies[i].client, t);
      var next := replies[i].(stage := if taken.Place? then Holding(Download(t)) else Refused);
      ReplyGoesOn(replying, replies, i, next.stage);
      SameLongs(longs.Out(), replies, i, next);
      if taken.Place? {
        ReplyPlace(old(downloads.Out()), holders, requests, replies, i, t);
        holders := holders[t := Replying(i)];
      } else {
        SameHolders(downloads.Out(), holders, requests, replies, i, next);
      }
      replies := replies[i := next];
    }

    /** The third, under the long-request places' lock. */
    method ReplyLong(i: ReplyId, t: Token)
      requires Valid() && i in replies && replies[i].stage.Refused? && t !in longs.kind
      modifies this`replies, longs
      ensures Valid()
      ensures var placed := old(longs.active) < longs.limit;
        && replies == old(replies)[i := Reply(old(replies)[i].client, if placed then Holding(Long(t)) else Emptied)]
        && longs.Out() == old(longs.Out()) + if placed then {t} else {}
    {
      hide HeldOnce, OneReplyEach, LongHeld, PoolOk, LongOk;
      ghost var before := longs.Out();
      var ok := longs.Take(false, t);
      var next := replies[i].(stage := if ok then Holding(Long(t)) else Emptied);
      SameHolders(downloads.Out(), holders, requests, replies, i, next);
      ReplyGoesOn(replying, replies, i, next.stage);
      if ok {
        LongTaken(before, replies, i, t);
      } else {
        SameLongs(before, replies, i, next);
      }
      replies := replies[i := next];
    }

    /** `give_back` gives the place back, under its own lock; called again, it does nothing. */
    method GiveBack(i: ReplyId)
      requires Valid() && i in replies && !replies[i].stage.Reserved? && !replies[i].stage.Refused?
      modifies this`replies, this`holders, downloads, longs
      ensures Valid()
      ensures var stage := old(replies)[i].stage;
        && replies == old(replies)[i := old(replies)[i].(stage := if stage.Holding? then Emptied else stage)]
        && downloads.Out() == old(downloads.Out()) - (if stage.Holding? && stage.held.Download? then {stage.held.token} else {})
        && longs.Out() == old(longs.Out()) - (if stage.Holding? && stage.held.Long? then {stage.held.token} else {})
    {
      hide HeldOnce, OneReplyEach, LongHeld, PoolOk, LongOk;
      if !replies[i].stage.Holding? {
        return;
      }
      var held, next := replies[i].stage.held, replies[i].(stage := Emptied);
      ReplyGoesOn(replying, replies, i, Emptied);
      if held.Download? {
        GivePlace(downloads.Out(), holders, requests, replies, i, held.token);
        SameLongs(longs.Out(), replies, i, next);
        downloads.Release(held.token);
        holders := holders - {held.token};
      } else {
        SameHolders(downloads.Out(), holders, requests, replies, i, next);
        LongGiven(longs.Out(), replies, i, held.token);
        longs.Release(held.token);
      }
      replies := replies[i := next];
    }

    /** The last region, under the lock of `_ReplyHolders`: the client may reply again. */
    method Discard(i: ReplyId)
      requires Valid() && i in replies && replies[i].stage.Emptied?
      modifies this`replies, this`replying
      ensures Valid()
      ensures replies == old(replies)[i := old(replies)[i].(stage := Gone)]
      ensures replying == old(replying) - {old(replies)[i].client}
    {
      hide HeldOnce, OneReplyEach, LongHeld, PoolOk, LongOk;
      var next := replies[i].(stage := Gone);
      SameHolders(downloads.Out(), holders, requests, replies, i, next);
      ReplyEnds(replying, replies, i);
      SameLongs(longs.Out(), replies, i, next);
      replying := replying - {replies[i].client};
      replies := replies[i := next];
    }

    // ----- runs ------------------------------------------------------------------------------------

    /** Every request is torn down and its response closed, and every reply has let its client go. */
    ghost predicate Idle()
      reads this
    {
      && (forall r | r in requests :: requests[r] == Request(None, None))
      && (forall i | i in replies :: replies[i].stage.Gone?)
    }

    lemma IdleIsEmpty()
      requires Valid() && Idle()
      ensures downloads.active == 0 && downloads.clients == map[] && replying == {}
    {
      hide HeldOnce, PoolOk, OneReplyEach;
      NothingHeld(downloads.Out(), holders, requests, replies);
      EmptyPool(downloads.total, downloads.perClient, downloads.active, downloads.clients, downloads.owner, downloads.released);
      NoReplies(replying, replies);
    }

    /** One step of some request or reply. */
    method AnyStep()
      requires Valid()
      modifies this, downloads, longs
      ensures Valid()
    {
      hide HeldOnce, OneReplyEach, LongHeld, PoolOk, LongOk;
      var r: RequestId, i: ReplyId, client: Client, t: Token := *, *, *, *;
      var large, bearer, wraps := *, *, *;
      if
      case t !in downloads.owner && Of(r) == Request(None, None) => var _ := TakeFirst(r, client, t);
      case t !in downloads.owner && Of(r).response.None? => var _ := Respond(r, client, large, bearer, wraps, t);
      case true => Teardown(r);
      case true => CloseResponse(r);
      case i !in replies => var _ := Reserve(i, client);
      case i in replies && replies[i].stage.Reserved? && t !in downloads.owner => ReplyDownload(i, t);
      case i in replies && replies[i].stage.Refused? && t !in longs.kind => ReplyLong(i, t);
      case i in replies && !replies[i].stage.Reserved? && !replies[i].stage.Refused? => GiveBack(i);
      case i in replies && replies[i].stage.Emptied? => Discard(i);
      case t !in longs.kind => TakeOtherLong(large, t);
      case t in longs.kind && (forall i | i in replies :: replies[i].stage != Holding(Long(t))) => GiveOtherLong(t);
    }

    /** Another request takes a long-request place. */
    method TakeOtherLong(poll: bool, t: Token)
      requires Valid() && t !in longs.kind
      modifies longs
      ensures Valid()
    {
      hide HeldOnce, OneReplyEach, PoolOk, LongOk;
      var _ := longs.Take(poll, t);
    }

    /** Another request gives its long-request place back. */
    method GiveOtherLong(t: Token)
      requires Valid() && t in longs.kind && forall i | i in replies :: replies[i].stage != Holding(Long(t))
      modifies longs
      ensures Valid() && longs.Out() == old(longs.Out()) - {t}
    {
      hide HeldOnce, OneReplyEach, PoolOk, LongOk;
      longs.Release(t);
    }

    /** Whatever any number of requests and replies did, region by region and in any order: the limits hold, when all of
        them are through, no download place is out and every counter of the downloads and replies is back, and when no
        long-request place is out, neither is any of theirs. */
    method AnyRun(steps: nat)
      requires Valid()
      modifies this, downloads, longs
      ensures Valid() && downloads.active <= downloads.total
      ensures forall client | client in downloads.clients :: 1 <= downloads.clients[client] <= downloads.perClient
      ensures Idle() ==> downloads.active == 0 && downloads.clients == map[] && replying == {}
      ensures longs.active <= longs.limit && (longs.Out() == {} ==> longs.active == 0 && longs.polls == 0)
    {
      for k := 0 to steps
        invariant Valid()
      {
        AnyStep();
      }
      if Idle() {
        IdleIsEmpty();
      }
      EmptyLongs(longs.limit, longs.active, longs.polls, longs.kind, longs.released);
    }
  }
}
