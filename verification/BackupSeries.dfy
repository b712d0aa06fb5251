/**
 * The backup series of banana_backup/store.py: the start recorded by every authenticated index, the refusal of
 * downgrades, and retention, over a repository in which others add, replace and delete branches.
 *
 * HMAC is ideal: a tag made with a key can be computed only by who holds the key, so others can show only tags that
 * have been published.
 */
module BackupSeries {
  import opened Basics
  import opened SnapshotIds
  import opened Texts

  const MAX_UNVERIFIED := 40

  /** A branch name that reads as a snapshot ID, with the date it says; None if it is no date. */
  datatype Name = Name(text: string, at: Option<int>)

  function Parse(text: string): Name {
    Name(text, if TimeOf(text).Some? then Some(When(text)) else None)
  }

  datatype Body = Body(schema: nat, product: nat, series: nat, snapshot: Name, parts: nat, since: Option<Name>)
  datatype Tag = Mac(key: nat, body: Body) | Junk(value: nat)
  datatype Index = Index(body: Body, tag: Option<Tag>)

  /** A snapshot branch; None when no index can be read from it. */
  datatype Branch = Branch(name: Name, index: Option<Index>)

  datatype Series = Series(product: nat, series: nat, key: nat, keep: nat)

  // ----- authentication --------------------------------------------------------------------------

  datatype Checked = Yes | No | Refused

  /** `crypto.authenticate`. */
  function Authenticate(body: Body, key: nat): Index {
    Index(body, Some(Mac(key, body)))
  }

  /** `crypto.check_authentication`. */
  function CheckAuthentication(index: Index, key: nat, allowUnauthenticated: bool): Checked {
    match index.tag
    case None => if allowUnauthenticated then No else Refused
    case Some(tag) => if tag == Mac(key, index.body) then Yes else Refused
  }

  predicate Context(s: Series, name: Name, body: Body) {
    body.schema == 1 && body.product == s.product && body.series == s.series && body.snapshot == name
  }

  /** `_authenticated_index` finds an index. */
  predicate Authentic(s: Series, b: Branch) {
    b.index.Some? && Context(s, b.name, b.index.value.body) && CheckAuthentication(b.index.value, s.key, true) == Yes
  }

  predicate InTime(name: Name, now: int) {
    name.at.Some? && name.at.value <= now + FUTURE_SKEW
  }

  /** `InTime` of a parsed name is what `_plausible` decides. */
  lemma InTimeIsPlausible(text: string, now: int)
    ensures InTime(Parse(text), now) <==> Plausible(text, now)
  {
  }

  // ----- newest first ----------------------------------------------------------------------------

  predicate Dated(bs: seq<Branch>, now: int) {
    forall i | 0 <= i < |bs| :: InTime(bs[i].name, now)
  }

  predicate Descending(bs: seq<Branch>) {
    forall i, j | 0 <= i < j < |bs| :: bs[i].name.at.Some? && bs[j].name.at.Some? && bs[j].name.at.value <= bs[i].name.at.value
  }

  /** The place of `b` before the ones not newer: equal dates keep their order. */
  function Insert(b: Branch, bs: seq<Branch>, now: int): (r: seq<Branch>)
    requires InTime(b.name, now) && Dated(bs, now)
    ensures Dated(r, now) && multiset(r) == multiset(bs) + multiset{b}
    ensures Descending(bs) ==> Descending(r)
  {
    if bs == [] || bs[0].name.at.value <= b.name.at.value then
      assert [b] + bs == [b] + bs[..];
      [b] + bs
    else
      assert bs == [bs[0]] + bs[1..];
      var rest := Insert(b, bs[1..], now);
      InsertKeeps(b, bs, rest, now);
      [bs[0]] + rest
  }

  lemma InsertKeeps(b: Branch, bs: seq<Branch>, rest: seq<Branch>, now: int)
    requires bs != [] && InTime(b.name, now) && Dated(bs, now) && b.name.at.value < bs[0].name.at.value
    requires Dated(rest, now) && multiset(rest) == multiset(bs[1..]) + multiset{b}
    requires Descending(bs[1..]) ==> Descending(rest)
    ensures Descending(bs) ==> Descending([bs[0]] + rest)
  {
    if Descending(bs) {
      forall i | 0 <= i < |rest|
        ensures rest[i].name.at.value <= bs[0].name.at.value
      {
        assert rest[i] in multiset(rest);
        if rest[i] != b {
          assert rest[i] in bs[1..];
        }
      }
    }
  }

  /** The plausible names, `sorted` newest first. */
  function Newest(bs: seq<Branch>, now: int): (r: seq<Branch>)
    ensures Dated(r, now) && Descending(r)
    ensures forall b :: b in r <==> b in bs && InTime(b.name, now)
  {
    if bs == [] then []
    else
      var rest := Newest(bs[1..], now);
      assert bs == [bs[0]] + bs[1..];
      if InTime(bs[0].name, now) then
        var r := Insert(bs[0], rest, now);
        assert forall b :: b in r <==> b in multiset(r);
        r
      else rest
  }

  /** By date is how the texts sort, as `sorted` with `_snapshot_order` compares them. */
  lemma SortsAsText(a: string, b: string, now: int)
    requires SnapshotId(a) && SnapshotId(b) && InTime(Parse(a), now) && InTime(Parse(b), now)
    ensures TextBefore(Order(a), Order(b)) <==> Parse(a).at.value < Parse(b).at.value
    ensures Order(a) == Order(b) <==> Parse(a).at.value == Parse(b).at.value
  {
    OrderIsChronological(a, b);
  }

  // ----- the series' start -----------------------------------------------------------------------

  datatype Start = Found(since: Name) | Nothing | TooMany

  predicate Records(b: Branch, now: int)
    requires b.index.Some? && b.name.at.Some?
  {
    var since := b.index.value.body.since;
    since.Some? && InTime(since.value, now) && since.value.at.value <= b.name.at.value
  }

  /** What the scan of the branches from the newest on answers. */
  function Scan(s: Series, order: seq<Branch>, now: int, oldest: Option<Name>, unverified: nat): Start
    requires Dated(order, now)
  {
    if order == [] then
      if oldest.Some? then Found(oldest.value) else Nothing
    else if !Authentic(s, order[0]) then
      if unverified + 1 > MAX_UNVERIFIED then
        if oldest.Some? then Found(oldest.value) else TooMany
      else Scan(s, order[1..], now, oldest, unverified + 1)
    else if Records(order[0], now) then Found(order[0].index.value.body.since.value)
    else Scan(s, order[1..], now, Some(order[0].name), unverified)
  }

  function StartOf(s: Series, seen: seq<Branch>, now: int): Start {
    Scan(s, Newest(seen, now), now, None, 0)
  }

  /** `_authenticated_since`. */
  method AuthenticatedSince(s: Series, seen: seq<Branch>, now: int) returns (r: Start)
    ensures r == StartOf(s, seen, now)
  {
    var order := Newest(seen, now);
    var oldest, unverified := None, 0;
    for i := 0 to |order|
      invariant unverified <= MAX_UNVERIFIED
      invariant StartOf(s, seen, now) == Scan(s, order[i..], now, oldest, unverified)
    {
      var b := order[i];
      assert order[i..][0] == b && order[i..][1..] == order[i + 1..];
      if !Authentic(s, b) {
        unverified := unverified + 1;
        if unverified > MAX_UNVERIFIED {
          return if oldest.Some? then Found(oldest.value) else TooMany;
        }
      } else if Records(b, now) {
        return Found(b.index.value.body.since.value);
      } else {
        oldest := Some(b.name);
      }
    }
    return if oldest.Some? then Found(oldest.value) else Nothing;
  }

  /** What `b` says the start is: what it records, or its own name. */
  predicate Says(s: Series, b: Branch, since: Name) {
    && Authentic(s, b) && b.name.at.Some? && since.at.Some? && since.at.value <= b.name.at.value
    && (since == b.name || b.index.value.body.since == Some(since))
  }

  lemma {:induction false} ScanFindsSaid(s: Series, order: seq<Branch>, now: int, oldest: Option<Name>, unverified: nat)
    requires Dated(order, now)
    ensures var r := Scan(s, order, now, oldest, unverified);
      r.Found? ==> oldest == Some(r.since) || exists b :: b in order && Says(s, b, r.since)
  {
    if order != [] {
      var b := order[0];
      ScanFindsSaid(s, order[1..], now, oldest, unverified + 1);
      ScanFindsSaid(s, order[1..], now, Some(b.name), unverified);
      assert order == [b] + order[1..];
      assert InTime(b.name, now) && b in order;
      if Authentic(s, b) && Records(b, now) {
        assert Says(s, b, b.index.value.body.since.value);
      } else if Authentic(s, b) {
        assert Says(s, b, b.name);
      }
      assert forall x | x in order[1..] :: x in order;
    }
  }

  /** A start that is found is what an authenticated, plausibly dated branch says, and no later than that branch. */
  lemma FoundIsSaid(s: Series, seen: seq<Branch>, now: int)
    ensures var r := StartOf(s, seen, now);
      r.Found? ==> InTime(r.since, now) && exists b :: b in seen && InTime(b.name, now) && Says(s, b, r.since)
  {
    hide Says;
    var order := Newest(seen, now);
    ScanFindsSaid(s, order, now, None, 0);
    ScanIsDated(s, order, now, None, 0);
  }

  lemma {:induction false} ScanGoesOn(s: Series, order: seq<Branch>, now: int, oldest: Option<Name>, unverified: nat)
    requires Dated(order, now) && order != [] && forall b | b in order :: Authentic(s, b) && !Records(b, now)
    ensures Scan(s, order, now, oldest, unverified) == Found(order[|order| - 1].name)
  {
    assert order[0] in order;
    if |order| > 1 {
      ScanGoesOn(s, order[1..], now, Some(order[0].name), unverified);
    }
  }

  /** Where no authenticated branch records a start that can be one, as in development builds, the oldest is it. */
  lemma OldestIsStart(s: Series, seen: seq<Branch>, now: int)
    requires Newest(seen, now) != [] && forall b | b in Newest(seen, now) :: Authentic(s, b) && !Records(b, now)
    ensures StartOf(s, seen, now) == Found(Newest(seen, now)[|Newest(seen, now)| - 1].name)
  {
    ScanGoesOn(s, Newest(seen, now), now, None, 0);
  }

  /** More than MAX_UNVERIFIED branches that do not read as authenticated come before the first that does. */
  predicate Swamped(s: Series, order: seq<Branch>) {
    |order| > MAX_UNVERIFIED && forall i | 0 <= i <= MAX_UNVERIFIED :: !Authentic(s, order[i])
  }

  lemma {:induction false} ScanKeepsOldest(s: Series, order: seq<Branch>, now: int, oldest: Option<Name>, unverified: nat)
    requires Dated(order, now) && oldest.Some?
    ensures Scan(s, order, now, oldest, unverified).Found?
  {
    if order != [] {
      ScanKeepsOldest(s, order[1..], now, oldest, unverified + 1);
      ScanKeepsOldest(s, order[1..], now, Some(order[0].name), unverified);
    }
  }

  lemma {:induction false} ScanGivesUp(s: Series, order: seq<Branch>, now: int, unverified: nat)
    requires Dated(order, now) && unverified <= MAX_UNVERIFIED
    ensures Scan(s, order, now, None, unverified) == TooMany <==>
      |order| > MAX_UNVERIFIED - unverified && forall i | 0 <= i <= MAX_UNVERIFIED - unverified :: !Authentic(s, order[i])
  {
    if order == [] {
    } else if Authentic(s, order[0]) {
      ScanKeepsOldest(s, order[1..], now, Some(order[0].name), unverified);
    } else if unverified < MAX_UNVERIFIED {
      var rest := order[1..];
      ScanGivesUp(s, rest, now, unverified + 1);
      assert forall i | 0 <= i < |rest| :: rest[i] == order[i + 1];
    }
  }

  /** The scan gives up exactly when it is swamped, whatever the branches record. */
  lemma TooManyIff(s: Series, seen: seq<Branch>, now: int)
    ensures StartOf(s, seen, now) == TooMany <==> Swamped(s, Newest(seen, now))
  {
    hide Authentic;
    ScanGivesUp(s, Newest(seen, now), now, 0);
  }

  /** Every authenticated branch records the start `since`. */
  predicate AllRecord(s: Series, bs: seq<Branch>, since: Name, now: int) {
    forall b | b in bs && Authentic(s, b) && b.name.at.Some? :: Records(b, now) && b.index.value.body.since == Some(since)
  }

  predicate AnyAuthentic(s: Series, bs: seq<Branch>) {
    exists b :: b in bs && Authentic(s, b)
  }

  /** Where the authenticated branches agree, the scan finds what they record, finds nothing because nothing it could
      read is authenticated, or gives up. */
  lemma {:induction false} ScanAgrees(s: Series, order: seq<Branch>, now: int, unverified: nat, since: Name)
    requires Dated(order, now) && AllRecord(s, order, since, now)
    ensures var r := Scan(s, order, now, None, unverified);
      && (AnyAuthentic(s, order) ==> r == Found(since) || r == TooMany)
      && (!AnyAuthentic(s, order) ==> r == Nothing || r == TooMany)
  {
    if order != [] && !Authentic(s, order[0]) {
      assert AllRecord(s, order[1..], since, now);
      assert forall b :: b in order <==> b == order[0] || b in order[1..];
      ScanAgrees(s, order[1..], now, unverified + 1, since);
    } else if order != [] {
      assert order[0] in order;
    }
  }

  /** Only branches that are dated plausibly count. */
  predicate SeesOne(s: Series, seen: seq<Branch>, now: int) {
    exists b :: b in seen && InTime(b.name, now) && Authentic(s, b)
  }

  lemma StartAgrees(s: Series, seen: seq<Branch>, now: int, since: Name)
    requires AllRecord(s, seen, since, now)
    ensures StartOf(s, seen, now) ==
      if Swamped(s, Newest(seen, now)) then TooMany else if SeesOne(s, seen, now) then Found(since) else Nothing
  {
    TooManyIff(s, seen, now);
    var order := Newest(seen, now);
    ScanAgrees(s, order, now, 0, since);
    assert AnyAuthentic(s, order) <==> SeesOne(s, seen, now);
  }

  // ----- downgrades ------------------------------------------------------------------------------

  function Without(bs: seq<Branch>, name: Name): (r: seq<Branch>)
    ensures forall b :: b in r <==> b in bs && b.name != name
  {
    if bs == [] then []
    else
      assert bs == [bs[0]] + bs[1..];
      if bs[0].name == name then Without(bs[1..], name) else [bs[0]] + Without(bs[1..], name)
  }

  lemma {:induction false} ScanIsDated(s: Series, order: seq<Branch>, now: int, oldest: Option<Name>, unverified: nat)
    requires Dated(order, now) && (oldest.Some? ==> InTime(oldest.value, now))
    ensures var r := Scan(s, order, now, oldest, unverified); r.Found? ==> InTime(r.since, now)
  {
    if order != [] {
      assert InTime(order[0].name, now);
      ScanIsDated(s, order[1..], now, oldest, unverified + 1);
      ScanIsDated(s, order[1..], now, Some(order[0].name), unverified);
    }
  }

  /** Whether the start leaves an unauthenticated snapshot `name` as one that may be old enough. */
  predicate OldEnough(name: Name, start: Start, now: int) {
    match start
    case TooMany => false
    case Nothing => InTime(name, now)
    case Found(since) => InTime(name, now) && since.at.Some? && name.at.value < since.at.value
  }

  /** `_refuse_downgrade`, with `seen` what the scan can read of the other branches. */
  method RefuseDowngrade(s: Series, name: Name, seen: seq<Branch>, now: int, later: int) returns (refused: bool)
    ensures refused <==> !OldEnough(name, StartOf(s, seen, later), now)
  {
    if !InTime(name, now) {
      return true;
    }
    var start := AuthenticatedSince(s, seen, later);
    ScanIsDated(s, Newest(seen, later), later, None, 0);
    refused := start == TooMany || (start.Found? && name.at.value >= start.since.at.value);
  }

  // ----- runs ------------------------------------------------------------------------------------

  /** The repository, the listing the running command took, the indexes published with the key, and the last reading
      of the clock. */
  datatype World = World(branches: seq<Branch>, listing: seq<Branch>, made: set<Index>, clock: int)

  datatype Event =
    | List
    | Publish(id: Name, parts: nat, now: int, later: int, seen: seq<Branch>)
    | Prune(removed: set<Branch>)
    | Put(branch: Branch)
    | Drop(name: Name)

  /** A scan reads a listed branch or fails to: a fetch may fail, or the branch may have changed. */
  predicate Sees(seen: seq<Branch>, listing: seq<Branch>) {
    |seen| == |listing| && forall i | 0 <= i < |seen| :: seen[i] == listing[i] || seen[i] == Branch(listing[i].name, None)
  }

  /** What NextSnapshot ensures of a new ID. */
  predicate NextId(previous: seq<Branch>, now: int, id: Name) {
    && id.at.Some?
    && now <= id.at.value <= now + FUTURE_SKEW + 1
    && forall b | b in previous && InTime(b.name, now) :: b.name.at.value < id.at.value
  }

  predicate Genuine(s: Series, index: Index) {
    index.tag == Some(Mac(s.key, index.body))
  }

  predicate CanHappen(s: Series, w: World, e: Event) {
    match e
    case List => true
    case Publish(id, _, now, later, seen) =>
      && w.clock < now <= later && NextId(w.listing, now, id) && Sees(seen, w.listing)
      && StartOf(s, seen, later) != TooMany
      && (forall b | b in w.branches :: b.name != id)
    case Prune(_) => true
    case Put(branch) => branch.index.Some? && Genuine(s, branch.index.value) ==> branch.index.value in w.made
    case Drop(_) => true
  }

  /** The index an upload publishes. */
  function Sealed(s: Series, e: Event): Index
    requires e.Publish?
  {
    var start := StartOf(s, e.seen, e.later);
    var since := if start.Found? then start.since else e.id;
    Authenticate(Body(1, s.product, s.series, e.id, e.parts, Some(since)), s.key)
  }

  function Remaining(bs: seq<Branch>, removed: set<Branch>): (r: seq<Branch>)
    ensures forall b :: b in r <==> b in bs && b !in removed
  {
    if bs == [] then []
    else
      assert bs == [bs[0]] + bs[1..];
      if bs[0] in removed then Remaining(bs[1..], removed) else [bs[0]] + Remaining(bs[1..], removed)
  }

  function After(s: Series, w: World, e: Event): World {
    match e
    case List => w.(listing := w.branches)
    case Publish(id, _, _, later, _) =>
      var index := Sealed(s, e);
      World(w.branches + [Branch(id, Some(index))], w.listing, w.made + {index}, later)
    case Prune(removed) => w.(branches := Remaining(w.branches, removed))
    case Put(branch) => w.(branches := Without(w.branches, branch.name) + [branch])
    case Drop(name) => w.(branches := Without(w.branches, name))
  }

  /** Nothing in the repository carries a tag of the key that was not published. */
  predicate NoForgery(s: Series, bs: seq<Branch>, made: set<Index>) {
    forall b | b in bs && b.index.Some? && Genuine(s, b.index.value) :: b.index.value in made
  }

  /** An index that records `since`, no later than its own date, itself plausible after `clock`. */
  predicate Starts(s: Series, index: Index, since: Name, clock: int) {
    && Genuine(s, index) && index.body.since == Some(since) && since.at.Some? && index.body.snapshot.at.Some?
    && since.at.value <= index.body.snapshot.at.value <= clock + FUTURE_SKEW + 1
  }

  predicate OneStart(s: Series, made: set<Index>, since: Name, clock: int) {
    forall index | index in made :: Starts(s, index, since, clock)
  }

  predicate Inv(s: Series, w: World, since: Name) {
    NoForgery(s, w.branches, w.made) && NoForgery(s, w.listing, w.made) && OneStart(s, w.made, since, w.clock)
  }

  /** Uploads that have something to go by read it. */
  predicate Reads(s: Series, w: World, e: Event) {
    e.Publish? && w.made != {} ==> SeesOne(s, e.seen, e.later)
  }

  lemma ListingAgrees(s: Series, w: World, since: Name, seen: seq<Branch>, later: int)
    requires Inv(s, w, since) && Sees(seen, w.listing) && w.clock < later
    ensures AllRecord(s, seen, since, later)
  {
    forall b | b in seen && Authentic(s, b) && b.name.at.Some?
      ensures Records(b, later) && b.index.value.body.since == Some(since)
    {
      var i :| 0 <= i < |seen| && seen[i] == b;
      assert b == w.listing[i];
      assert Starts(s, b.index.value, since, w.clock);
    }
  }

  lemma OthersKeepInv(s: Series, w: World, e: Event, since: Name)
    requires Inv(s, w, since) && CanHappen(s, w, e) && !e.Publish?
    ensures Inv(s, After(s, w, e), since)
  {
    var v := After(s, w, e);
    forall b | b in v.branches && b.index.Some? && Genuine(s, b.index.value)
      ensures b.index.value in v.made
    {
    }
  }

  /** What an upload records, in a series that has a start. */
  lemma PublishRecords(s: Series, w: World, e: Event, since: Name)
    requires Inv(s, w, since) && e.Publish? && CanHappen(s, w, e)
    ensures Sealed(s, e).body.since == Some(if SeesOne(s, e.seen, e.later) then since else e.id)
  {
    ListingAgrees(s, w, since, e.seen, e.later);
    StartAgrees(s, e.seen, e.later, since);
  }

  lemma SinceIsNoLater(s: Series, w: World, e: Event, since: Name)
    requires Inv(s, w, since) && e.Publish? && CanHappen(s, w, e) && SeesOne(s, e.seen, e.later)
    ensures since.at.Some? && since.at.value <= e.id.at.value
  {
    var b :| b in e.seen && InTime(b.name, e.later) && Authentic(s, b);
    var i :| 0 <= i < |e.seen| && e.seen[i] == b;
    assert w.listing[i] == b && b in w.listing;
    assert Starts(s, b.index.value, since, w.clock);
    assert InTime(b.name, e.now);
  }

  lemma PublishKeepsInv(s: Series, w: World, e: Event, since: Name)
    requires Inv(s, w, since) && e.Publish? && CanHappen(s, w, e) && SeesOne(s, e.seen, e.later)
    ensures Inv(s, After(s, w, e), since)
  {
    PublishRecords(s, w, e, since);
    SinceIsNoLater(s, w, e, since);
    assert Starts(s, Sealed(s, e), since, e.later);
  }

  /** The first upload of a series starts it. */
  lemma FirstPublish(s: Series, w: World, e: Event, any: Name)
    requires Inv(s, w, any) && w.made == {} && e.Publish? && CanHappen(s, w, e)
    ensures Inv(s, After(s, w, e), e.id)
  {
    forall b | b in e.seen
      ensures !Authentic(s, b)
    {
      var i :| 0 <= i < |e.seen| && e.seen[i] == b;
      assert w.listing[i] in w.listing;
    }
    PublishRecords(s, w, e, any);
    assert Starts(s, Sealed(s, e), e.id, e.later);
  }

  predicate Run(s: Series, w: World, events: seq<Event>, v: World)
    decreases |events|
  {
    if events == [] then v == w
    else CanHappen(s, w, events[0]) && Run(s, After(s, w, events[0]), events[1..], v)
  }

  predicate AlwaysReads(s: Series, w: World, events: seq<Event>)
    decreases |events|
  {
    events == [] || (Reads(s, w, events[0]) && AlwaysReads(s, After(s, w, events[0]), events[1..]))
  }

  /** Before anything was made. */
  predicate Begins(s: Series, w: World) {
    w.made == {} && NoForgery(s, w.branches, {}) && NoForgery(s, w.listing, {})
  }

  lemma {:induction false} RunKeepsStart(s: Series, w: World, events: seq<Event>, v: World, since: Name)
    requires Inv(s, w, since) && w.made != {} && Run(s, w, events, v) && AlwaysReads(s, w, events)
    ensures Inv(s, v, since) && v.made != {}
    decreases |events|
  {
    if events != [] {
      if events[0].Publish? {
        PublishKeepsInv(s, w, events[0], since);
      } else {
        OthersKeepInv(s, w, events[0], since);
      }
      RunKeepsStart(s, After(s, w, events[0]), events[1..], v, since);
    }
  }

  /** Constant start: whatever others do, as long as every upload reads one authenticated snapshot, all authenticated
      indexes ever published record the same start, never later than their own ID. */
  lemma {:induction false} ConstantStart(s: Series, w: World, events: seq<Event>, v: World)
    requires Begins(s, w) && Run(s, w, events, v) && AlwaysReads(s, w, events)
    ensures exists since :: Inv(s, v, since)
    decreases |events|
  {
    var any := Name("", None);
    assert Inv(s, w, any);
    if events != [] {
      var next := After(s, w, events[0]);
      if events[0].Publish? {
        FirstPublish(s, w, events[0], any);
        RunKeepsStart(s, next, events[1..], v, events[0].id);
      } else {
        OthersKeepInv(s, w, events[0], any);
        ConstantStart(s, next, events[1..], v);
      }
    } else {
      assert Inv(s, v, any);
    }
  }

  /** Exactly when an upload keeps the start: it read an authenticated snapshot, or its own ID is the start. */
  lemma StartIsKeptIff(s: Series, w: World, e: Event, since: Name)
    requires Inv(s, w, since) && w.made != {} && e.Publish? && CanHappen(s, w, e)
    ensures Inv(s, After(s, w, e), since) <==> SeesOne(s, e.seen, e.later) || e.id == since
  {
    PublishRecords(s, w, e, since);
    assert Sealed(s, e) in After(s, w, e).made;
    if SeesOne(s, e.seen, e.later) {
      PublishKeepsInv(s, w, e, since);
    } else if e.id == since {
      assert Starts(s, Sealed(s, e), since, e.later);
    }
  }

  /** Authenticated under a name is published for that name: an index shown under another name does not count. */
  lemma AuthenticIsMade(s: Series, w: World, since: Name, b: Branch)
    requires Inv(s, w, since) && b in w.branches + w.listing && Authentic(s, b)
    ensures b.index.value in w.made && b.index.value.body.snapshot == b.name && Starts(s, b.index.value, since, w.clock)
  {
  }

  /** In a series with a start, an unauthenticated snapshot is let through exactly when its date is before the start;
      or, whatever its plausible date, when the scan could read no authenticated snapshot and was not swamped. */
  lemma ForgeriesAreRefused(s: Series, w: World, since: Name, name: Name, seen: seq<Branch>, now: int, later: int)
    requires Inv(s, w, since) && w.clock < now <= later && Sees(seen, Without(w.listing, name))
    ensures OldEnough(name, StartOf(s, seen, later), now) <==>
      && InTime(name, now) && !Swamped(s, Newest(seen, later))
      && (SeesOne(s, seen, later) ==> since.at.Some? && name.at.value < since.at.value)
  {
    hide Swamped, Newest;
    var others := w.(listing := Without(w.listing, name));
    assert Inv(s, others, since);
    ListingAgrees(s, others, since, seen, later);
    StartAgrees(s, seen, later, since);
    TooManyIff(s, seen, later);
  }

  // ----- runs without failed fetches -------------------------------------------------------------

  /** Every upload takes a listing first, no fetch of a scan fails, and from the first publication on, every listing
      finds an authenticated snapshot in the repository. `listed`: the listing is not older than the last upload. */
  predicate Undisturbed(s: Series, w: World, events: seq<Event>, listed: bool)
    decreases |events|
  {
    events == [] ||
    var e := events[0];
    && (e.List? && w.made != {} ==> AnyAuthentic(s, w.branches))
    && (e.Publish? ==> listed && e.seen == w.listing)
    && Undisturbed(s, After(s, w, e), events[1..], e.List? || (listed && !e.Publish?))
  }

  lemma UndisturbedSees(s: Series, w: World, e: Event, since: Name)
    requires Inv(s, w, since) && e.Publish? && CanHappen(s, w, e) && e.seen == w.listing && AnyAuthentic(s, w.listing)
    ensures SeesOne(s, e.seen, e.later)
  {
    var b :| b in w.listing && Authentic(s, b);
    assert Starts(s, b.index.value, since, w.clock);
  }

  lemma {:induction false} UndisturbedReads(s: Series, w: World, events: seq<Event>, v: World, listed: bool, since: Name)
    requires Inv(s, w, since) && Run(s, w, events, v) && Undisturbed(s, w, events, listed)
    requires listed && w.made != {} ==> AnyAuthentic(s, w.listing)
    ensures AlwaysReads(s, w, events)
    decreases |events|
  {
    if events != [] {
      var e := events[0];
      var next := After(s, w, e);
      if !e.Publish? {
        OthersKeepInv(s, w, e, since);
        UndisturbedReads(s, next, events[1..], v, e.List? || listed, since);
      } else if w.made == {} {
        FirstPublish(s, w, e, since);
        UndisturbedReads(s, next, events[1..], v, false, e.id);
      } else {
        UndisturbedSees(s, w, e, since);
        PublishKeepsInv(s, w, e, since);
        UndisturbedReads(s, next, events[1..], v, false, since);
      }
    }
  }

  /** In terms of the repository: while no fetch fails and some authenticated snapshot is always there to be listed,
      every authenticated index ever published records one start, whatever others push, replace and delete. */
  lemma RepositoryKeepsStart(s: Series, w: World, events: seq<Event>, v: World)
    requires Begins(s, w) && Run(s, w, events, v) && Undisturbed(s, w, events, false)
    ensures exists since :: Inv(s, v, since)
  {
    UndisturbedReads(s, w, events, v, false, Name("", None));
    ConstantStart(s, w, events, v);
  }

  // ----- what one failed fetch does --------------------------------------------------------------

  /** The index of a series' first upload. */
  function FirstIndex(s: Series, x: Name): Index {
    Authenticate(Body(1, s.product, s.series, x, 1, Some(x)), s.key)
  }

  function FirstBranch(s: Series, x: Name): Branch {
    Branch(x, Some(FirstIndex(s, x)))
  }

  /** Somebody else's snapshot, without a tag. */
  function Forgery(s: Series, y: Name): Branch {
    Branch(y, Some(Index(Body(1, s.product, s.series, y, 1, None), None)))
  }

  function Empty(t: int): World {
    World([], [], {}, t - 1)
  }

  function FirstUpload(x: Name, t: int): seq<Event> {
    [List, Publish(x, 1, t, t, [])]
  }

  /** The second upload, a microsecond later, when the fetch of the first snapshot fails. */
  function SecondUpload(x: Name, y: Name, t: int): seq<Event> {
    [List, Publish(y, 1, t + 1, t + 1, [Branch(x, None)])]
  }

  function Started(s: Series, x: Name, t: int): World {
    World([FirstBranch(s, x)], [], {FirstIndex(s, x)}, t)
  }

  lemma {:induction false} RunJoins(s: Series, w: World, one: seq<Event>, v: World, two: seq<Event>, u: World)
    requires Run(s, w, one, v) && Run(s, v, two, u)
    ensures Run(s, w, one + two, u)
    decreases |one|
  {
    hide CanHappen, After;
    if one == [] {
      assert [] + two == two;
    } else {
      assert (one + two)[1..] == one[1..] + two;
      RunJoins(s, After(s, w, one[0]), one[1..], v, two, u);
    }
  }

  lemma TwoEvents(s: Series, w: World, a: Event, b: Event)
    requires CanHappen(s, w, a) && CanHappen(s, After(s, w, a), b)
    ensures Run(s, w, [a, b], After(s, After(s, w, a), b))
  {
    hide CanHappen, After;
    assert [a, b][1..] == [b] && [b][1..] == [];
    var v := After(s, w, a);
    assert Run(s, After(s, v, b), [], After(s, v, b));
    assert Run(s, v, [b], After(s, v, b));
  }

  lemma NothingSeen(s: Series, now: int)
    ensures StartOf(s, [], now) == Nothing
  {
    assert Newest([], now) == [];
  }

  lemma AloneUnread(s: Series, name: Name, now: int)
    requires InTime(name, now)
    ensures StartOf(s, [Branch(name, None)], now) == Nothing
  {
    var b := Branch(name, None);
    assert [b][1..] == [];
    assert Newest([b], now) == [b];
    assert Scan(s, [b][1..], now, None, 1) == Nothing;
  }

  lemma FirstRuns(s: Series, x: Name, t: int)
    requires x.at == Some(t)
    ensures Begins(s, Empty(t)) && Run(s, Empty(t), FirstUpload(x, t), Started(s, x, t))
  {
    hide Run, StartOf;
    var w, e := Empty(t), FirstUpload(x, t)[1];
    NothingSeen(s, t);
    assert Sealed(s, e) == FirstIndex(s, x);
    assert CanHappen(s, w, List) && CanHappen(s, After(s, w, List), e);
    TwoEvents(s, w, List, e);
    assert After(s, After(s, w, List), e) == Started(s, x, t);
  }

  /** Indexes that record different starts. */
  predicate Forks(made: set<Index>) {
    exists a, b :: a in made && b in made && a.body.since != b.body.since
  }

  lemma SecondRuns(s: Series, x: Name, y: Name, t: int)
    requires x.at == Some(t) && y.at == Some(t + 1)
    ensures exists v :: Run(s, Started(s, x, t), SecondUpload(x, y, t), v) && Forks(v.made)
  {
    hide Run, StartOf;
    var w, e := Started(s, x, t), SecondUpload(x, y, t)[1];
    var listed := After(s, w, List);
    AloneUnread(s, x, t + 1);
    assert e.seen[0] == Branch(listed.listing[0].name, None);
    assert CanHappen(s, w, List) && CanHappen(s, listed, e);
    TwoEvents(s, w, List, e);
    var v := After(s, listed, e);
    assert Sealed(s, e) in v.made && FirstIndex(s, x) in v.made;
  }

  const FIRST_ID := "20240229T235959.999999Z-0000cafe"
  const SECOND_ID := "20240301T000000.000000Z-0000beef"
  const LEAP_NIGHT := Moment(2024, 2, 29, 23, 59, 59, 999_999)
  const MARCH := Moment(2024, 3, 1, 0, 0, 0, 0)

  lemma TheYear()
    ensures YearText(2024) == "2024"
  {
    assert Digits(2024, 4) == "2024";
  }

  lemma TheMicros()
    ensures Digits(999_999, 6) == "999999" && Digits(0, 6) == "000000"
  {
    assert Digits(99, 2) == "99";
    assert Digits(9_999, 4) == "9999";
  }

  lemma ThePairs()
    ensures Digits(0, 2) == "00" && Digits(1, 2) == "01" && Digits(2, 2) == "02" && Digits(3, 2) == "03"
    ensures Digits(23, 2) == "23" && Digits(29, 2) == "29" && Digits(59, 2) == "59"
  {
  }

  lemma TheTimes()
    ensures PrintTime(LEAP_NIGHT) == "20240229T235959.999999"
    ensures PrintTime(MARCH) == "20240301T000000.000000"
  {
    hide Digits, YearText;
    TheYear();
    TheMicros();
    ThePairs();
  }

  lemma TheIds()
    ensures NewId(LEAP_NIGHT, "0000cafe") == FIRST_ID && NewId(MARCH, "0000beef") == SECOND_ID
  {
    hide PrintTime;
    TheTimes();
  }

  lemma TheNames()
    ensures SnapshotId(FIRST_ID) && SnapshotId(SECOND_ID)
    ensures Parse(FIRST_ID).at == Some(Micros(LEAP_NIGHT)) && Parse(SECOND_ID).at == Some(Micros(LEAP_NIGHT) + 1)
  {
    hide Micros, SnapshotId, TimeOf, NewId;
    TheIds();
    NewIdIs(LEAP_NIGHT, "0000cafe");
    NewIdIs(MARCH, "0000beef");
    SuccIsNext(LEAP_NIGHT);
    assert Succ(LEAP_NIGHT) == MARCH;
  }

  /** One failed fetch of the only authenticated snapshot gives the series a second start: two uploads, each right
      after a listing, the second of them finding the first's snapshot and failing to read it. */
  lemma AFailedFetchForks(s: Series)
    ensures var t, x, y := Micros(LEAP_NIGHT), Parse(FIRST_ID), Parse(SECOND_ID);
      && Begins(s, Empty(t))
      && exists v :: Run(s, Empty(t), FirstUpload(x, t) + SecondUpload(x, y, t), v) && Forks(v.made)
  {
    hide Micros, Parse, Run, Forks, Begins;
    TheNames();
    var t, x, y := Micros(LEAP_NIGHT), Parse(FIRST_ID), Parse(SECOND_ID);
    FirstRuns(s, x, t);
    SecondRuns(s, x, y, t);
    var v :| Run(s, Started(s, x, t), SecondUpload(x, y, t), v) && Forks(v.made);
    RunJoins(s, Empty(t), FirstUpload(x, t), Started(s, x, t), SecondUpload(x, y, t), v);
  }

  /** Somebody pushes a snapshot, and the repository is listed. */
  function Pushing(s: Series, y: Name): seq<Event> {
    [Put(Forgery(s, y)), List]
  }

  function Deceived(s: Series, x: Name, y: Name, t: int): World {
    var bs := [FirstBranch(s, x), Forgery(s, y)];
    World(bs, bs, {FirstIndex(s, x)}, t)
  }

  lemma PushingRuns(s: Series, x: Name, y: Name, t: int)
    requires x.at == Some(t) && y.at == Some(t + 1)
    ensures Run(s, Started(s, x, t), Pushing(s, y), Deceived(s, x, y, t)) && Inv(s, Deceived(s, x, y, t), x)
    ensures Without(Deceived(s, x, y, t).listing, y) == [FirstBranch(s, x)]
  {
    hide Run;
    var w, e := Started(s, x, t), Put(Forgery(s, y));
    var b := FirstBranch(s, x);
    assert [b][1..] == [] && Without([b], y) == [b] + Without([], y) == [b];
    TwoEvents(s, w, e, List);
    assert After(s, After(s, w, e), List) == Deceived(s, x, y, t);
    assert Starts(s, FirstIndex(s, x), x, t);
    OthersOnly(b, Forgery(s, y));
  }

  /** And it lets a forgery through that is dated after the start: the scan goes by what it could read. */
  lemma AForgeryPasses(s: Series)
    ensures var t, x, y := Micros(LEAP_NIGHT), Parse(FIRST_ID), Parse(SECOND_ID);
      var w, seen := Deceived(s, x, y, t), [Branch(x, None)];
      && Run(s, Empty(t), FirstUpload(x, t) + Pushing(s, y), w) && Inv(s, w, x) && Sees(seen, Without(w.listing, y))
      && x.at == Some(t) && y.at == Some(t + 1) && OldEnough(y, StartOf(s, seen, t + 1), t + 1)
  {
    hide Micros, Parse, Run, Inv, StartOf;
    TheNames();
    var t, x, y := Micros(LEAP_NIGHT), Parse(FIRST_ID), Parse(SECOND_ID);
    FirstRuns(s, x, t);
    PushingRuns(s, x, y, t);
    RunJoins(s, Empty(t), FirstUpload(x, t), Started(s, x, t), Pushing(s, y), Deceived(s, x, y, t));
    AloneUnread(s, x, t + 1);
  }

  lemma OthersOnly(a: Branch, b: Branch)
    requires a.name != b.name
    ensures Without([a, b], b.name) == [a]
  {
    assert [a, b][1..] == [b] && [b][1..] == [];
    assert Without([b], b.name) == Without([], b.name) == [];
  }

  // ----- retention -------------------------------------------------------------------------------

  /** The read of an index finds it authenticated; the fetch of what is in `unread` fails. */
  predicate Verified(s: Series, b: Branch, unread: set<Branch>) {
    b !in unread && Authentic(s, b)
  }

  /** How many of the newest branches stay; None when nothing is deleted. */
  function Cut(s: Series, order: seq<Branch>, unread: set<Branch>, keep: nat, room: nat): (r: Option<nat>)
    ensures r.Some? ==> r.value <= |order|
  {
    if keep == 0 then Some(0)
    else if order == [] || room == 0 then None
    else
      var rest := if Verified(s, order[0], unread) then Cut(s, order[1..], unread, keep - 1, room)
                  else Cut(s, order[1..], unread, keep, room - 1);
      if rest.Some? then Some(rest.value + 1) else None
  }

  function VerifiedSet(s: Series, bs: seq<Branch>, unread: set<Branch>): (r: set<Branch>)
    ensures forall b :: b in r <==> b in bs && Verified(s, b, unread)
  {
    if bs == [] then {}
    else
      assert bs == [bs[0]] + bs[1..];
      (if Verified(s, bs[0], unread) then {bs[0]} else {}) + VerifiedSet(s, bs[1..], unread)
  }

  predicate NoDuplicates(bs: seq<Branch>) {
    forall i, j | 0 <= i < j < |bs| :: bs[i] != bs[j]
  }

  function HowMany(s: Series, bs: seq<Branch>, unread: set<Branch>): nat {
    if bs == [] then 0
    else (if Verified(s, bs[0], unread) then 1 else 0) + HowMany(s, bs[1..], unread)
  }

  lemma {:induction false} HowManyIsSize(s: Series, bs: seq<Branch>, unread: set<Branch>)
    requires NoDuplicates(bs)
    ensures |VerifiedSet(s, bs, unread)| == HowMany(s, bs, unread)
  {
    if bs != [] {
      HowManyIsSize(s, bs[1..], unread);
      assert bs[0] !in bs[1..];
    }
  }

  /** Exactly `keep` authenticated snapshots stand before the cut, ... */
  lemma {:induction false} CutCounts(s: Series, order: seq<Branch>, unread: set<Branch>, keep: nat, room: nat)
    requires Cut(s, order, unread, keep, room).Some?
    ensures HowMany(s, order[..Cut(s, order, unread, keep, room).value], unread) == keep
  {
    if keep > 0 {
      var rest := order[1..];
      var v := Verified(s, order[0], unread);
      var keep', room' := if v then keep - 1 else keep, if v then room else room - 1;
      CutCounts(s, rest, unread, keep', room');
      var k := Cut(s, rest, unread, keep', room').value;
      assert order[..k + 1][1..] == rest[..k];
    }
  }

  /** ... and the last of them right at it. */
  lemma {:induction false} CutIsTight(s: Series, order: seq<Branch>, unread: set<Branch>, keep: nat, room: nat)
    requires keep > 0 && Cut(s, order, unread, keep, room).Some?
    ensures var k := Cut(s, order, unread, keep, room).value; k > 0 && Verified(s, order[k - 1], unread)
  {
    var v := Verified(s, order[0], unread);
    if keep > 1 || !v {
      CutIsTight(s, order[1..], unread, if v then keep - 1 else keep, if v then room else room - 1);
    }
  }

  /** Without a cut fewer than `keep` are authenticated, or too many others come first. */
  lemma {:induction false} NoCutMeans(s: Series, order: seq<Branch>, unread: set<Branch>, keep: nat, room: nat)
    requires Cut(s, order, unread, keep, room).None?
    ensures var n := HowMany(s, order, unread); n < keep || |order| - n >= room
  {
    if order == [] {
    } else if room > 0 {
      var v := Verified(s, order[0], unread);
      NoCutMeans(s, order[1..], unread, if v then keep - 1 else keep, if v then room else room - 1);
    } else {
      VerifiedFits(s, order, unread);
    }
  }

  lemma {:induction false} VerifiedFits(s: Series, bs: seq<Branch>, unread: set<Branch>)
    ensures HowMany(s, bs, unread) <= |bs|
  {
    if bs != [] {
      VerifiedFits(s, bs[1..], unread);
    }
  }

  /** What retention deletes of a listing: all behind the cut that the server lets it delete. */
  function Doomed(s: Series, listing: seq<Branch>, unread: set<Branch>, held: set<Branch>, keep: nat, now: int): set<Branch> {
    BehindCut(s, Newest(listing, now), unread, held, keep)
  }

  function BehindCut(s: Series, order: seq<Branch>, unread: set<Branch>, held: set<Branch>, keep: nat): set<Branch> {
    var c := Cut(s, order, unread, keep, MAX_UNVERIFIED);
    if c.Some? then SetOf(order[c.value..]) - held else {}
  }

  function SetOf(bs: seq<Branch>): (r: set<Branch>)
    ensures forall b :: b in r <==> b in bs
  {
    if bs == [] then {}
    else
      assert bs == [bs[0]] + bs[1..];
      {bs[0]} + SetOf(bs[1..])
  }

  /** The report names what was deleted and nothing else. */
  ghost predicate Reported(removed: seq<Branch>, gone: set<Branch>, before: seq<Branch>) {
    forall b :: b in removed <==> b in gone && b in before
  }

  class Repository {
    var branches: seq<Branch>

    constructor (branches: seq<Branch>)
      ensures this.branches == branches
    {
      this.branches := branches;
    }

    /** What others make of it. */
    method Become(others: seq<Branch>)
      modifies this
      ensures branches == others
    {
      branches := others;
    }

    /** `git.remove`: the branch goes if it is still what was listed and may be deleted. */
    method Remove(b: Branch, held: set<Branch>) returns (ok: bool)
      modifies this
      ensures ok <==> b in old(branches) && b !in held
      ensures branches == Remaining(old(branches), {b} - held)
    {
      ok := b in branches && b !in held;
      if ok {
        branches := Remaining(branches, {b});
        assert {b} - held == {b};
      } else if b in held {
        NothingRemoved(branches, {b} - held);
      } else {
        NothingRemoved(branches, {b} - held);
      }
    }

    method RemoveOne(b: Branch, held: set<Branch>, removed: seq<Branch>, ghost before: seq<Branch>, ghost gone: set<Branch>)
        returns (r: seq<Branch>)
      requires branches == Remaining(before, gone) && Reported(removed, gone, before)
      modifies this
      ensures branches == Remaining(before, gone + ({b} - held)) && Reported(r, gone + ({b} - held), before)
    {
      var ok := Remove(b, held);
      RemainingTwice(before, gone, {b} - held);
      r := if ok then removed + [b] else removed;
    }

    /** `_prune`: deletes what is behind the `keep`-th authenticated snapshot, after at most `keep + MAX_UNVERIFIED`
        reads. */
    method Prune(s: Series, listing: seq<Branch>, unread: set<Branch>, held: set<Branch>, keep: nat, now: int)
        returns (removed: seq<Branch>, fetches: nat)
      modifies this
      ensures branches == Remaining(old(branches), Doomed(s, listing, unread, held, keep, now))
      ensures Reported(removed, Doomed(s, listing, unread, held, keep, now), old(branches))
      ensures fetches <= keep + MAX_UNVERIFIED
    {
      removed, fetches := PruneFrom(s, Newest(listing, now), unread, held, keep);
    }

    method PruneFrom(s: Series, order: seq<Branch>, unread: set<Branch>, held: set<Branch>, keep: nat)
        returns (removed: seq<Branch>, fetches: nat)
      modifies this
      ensures branches == Remaining(old(branches), BehindCut(s, order, unread, held, keep))
      ensures Reported(removed, BehindCut(s, order, unread, held, keep), old(branches))
      ensures fetches <= keep + MAX_UNVERIFIED
    {
      var counted, unverified := 0, 0;
      removed, fetches := [], 0;
      ghost var gone: set<Branch> := {};
      ghost var cut := Cut(s, order, unread, keep, MAX_UNVERIFIED);
      NothingRemoved(branches, {});
      CutStarts(s, order, unread, held, keep);
      assert Reported(removed, gone, branches);
      hide Cut, CutAt, BehindUpTo, Verified, Remaining, Reported;
      var i := 0;
      while i < |order|
        modifies this
        invariant i <= |order| && counted <= keep && unverified <= MAX_UNVERIFIED && fetches == counted + unverified
        invariant branches == Remaining(old(branches), gone)
        invariant Reported(removed, gone, old(branches))
        invariant CutAt(s, order, i, unread, keep, counted, unverified, cut)
        invariant gone == BehindUpTo(order, cut, i, held)
      {
        var b := order[i];
        CutStep(s, order, i, unread, keep, counted, unverified, cut);
        if counted < keep {
          BehindStays(order, cut, i, held);
          if unverified >= MAX_UNVERIFIED {
            break;
          }
          fetches := fetches + 1;
          if Verified(s, b, unread) {
            counted := counted + 1;
          } else {
            unverified := unverified + 1;
          }
        } else {
          BehindGrows(order, cut, i, held);
          removed := RemoveOne(b, held, removed, old(branches), gone);
          gone := gone + ({b} - held);
        }
        i := i + 1;
      }
      BehindAll(s, order, unread, held, keep);
    }
  }

  /** The cut, seen from position `i`: behind it once `keep` are counted, and else where the rest has it. */
  predicate CutAt(s: Series, order: seq<Branch>, i: nat, unread: set<Branch>, keep: nat, counted: nat, unverified: nat, cut: Option<nat>)
    requires i <= |order| && counted <= keep && unverified <= MAX_UNVERIFIED
  {
    if counted == keep then cut.Some? && cut.value <= i
    else
      var c := Cut(s, order[i..], unread, keep - counted, MAX_UNVERIFIED - unverified);
      cut == if c.Some? then Some(i + c.value) else None
  }

  lemma CutStarts(s: Series, order: seq<Branch>, unread: set<Branch>, held: set<Branch>, keep: nat)
    ensures var cut := Cut(s, order, unread, keep, MAX_UNVERIFIED);
      CutAt(s, order, 0, unread, keep, 0, 0, cut) && BehindUpTo(order, cut, 0, held) == {}
  {
    assert order[0..] == order;
  }

  lemma CutStep(s: Series, order: seq<Branch>, i: nat, unread: set<Branch>, keep: nat, counted: nat, unverified: nat, cut: Option<nat>)
    requires i < |order| && counted <= keep && unverified <= MAX_UNVERIFIED && CutAt(s, order, i, unread, keep, counted, unverified, cut)
    ensures counted == keep ==> cut.Some? && cut.value <= i && CutAt(s, order, i + 1, unread, keep, counted, unverified, cut)
    ensures counted < keep && unverified == MAX_UNVERIFIED ==> cut.None?
    ensures counted < keep && unverified < MAX_UNVERIFIED ==>
        if Verified(s, order[i], unread) then CutAt(s, order, i + 1, unread, keep, counted + 1, unverified, cut)
        else CutAt(s, order, i + 1, unread, keep, counted, unverified + 1, cut)
    ensures counted < keep && cut.Some? ==> cut.value > i
  {
    hide Authentic;
    var rest := order[i + 1..];
    assert order[i..][0] == order[i] && order[i..][1..] == rest;
    if counted < keep && unverified < MAX_UNVERIFIED {
      var left, room := keep - counted, MAX_UNVERIFIED - unverified;
      if Verified(s, order[i], unread) {
        assert Cut(s, rest, unread, left - 1, room) == Cut(s, rest, unread, keep - (counted + 1), MAX_UNVERIFIED - unverified);
      } else {
        assert Cut(s, rest, unread, left, room - 1) == Cut(s, rest, unread, keep - counted, MAX_UNVERIFIED - (unverified + 1));
      }
    }
  }

  function BehindUpTo(order: seq<Branch>, cut: Option<nat>, i: nat, held: set<Branch>): set<Branch>
    requires i <= |order|
  {
    if cut.Some? && cut.value <= i then SetOf(order[cut.value..i]) - held else {}
  }

  lemma BehindGrows(order: seq<Branch>, cut: Option<nat>, i: nat, held: set<Branch>)
    requires i < |order| && cut.Some? && cut.value <= i
    ensures BehindUpTo(order, cut, i + 1, held) == BehindUpTo(order, cut, i, held) + ({order[i]} - held)
  {
    assert order[cut.value..i + 1] == order[cut.value..i] + [order[i]];
  }

  lemma BehindStays(order: seq<Branch>, cut: Option<nat>, i: nat, held: set<Branch>)
    requires i < |order| && (cut.Some? ==> cut.value > i)
    ensures BehindUpTo(order, cut, i + 1, held) == BehindUpTo(order, cut, i, held)
  {
    assert order[i + 1..i + 1] == [];
  }

  lemma BehindAll(s: Series, order: seq<Branch>, unread: set<Branch>, held: set<Branch>, keep: nat)
    ensures var cut := Cut(s, order, unread, keep, MAX_UNVERIFIED);
      && BehindUpTo(order, cut, |order|, held) == BehindCut(s, order, unread, held, keep)
      && (cut.None? ==> forall i: nat | i <= |order| :: BehindUpTo(order, cut, i, held) == BehindCut(s, order, unread, held, keep))
  {
    var cut := Cut(s, order, unread, keep, MAX_UNVERIFIED);
    if cut.Some? {
      assert order[cut.value..|order|] == order[cut.value..];
    }
  }

  lemma {:induction false} NothingRemoved(bs: seq<Branch>, removed: set<Branch>)
    requires forall b | b in bs :: b !in removed
    ensures Remaining(bs, removed) == bs
  {
    if bs != [] {
      NothingRemoved(bs[1..], removed);
    }
  }

  lemma {:induction false} RemainingTwice(bs: seq<Branch>, first: set<Branch>, second: set<Branch>)
    ensures Remaining(Remaining(bs, first), second) == Remaining(bs, first + second)
  {
    if bs != [] {
      RemainingTwice(bs[1..], first, second);
      assert Remaining(bs, first) == if bs[0] in first then Remaining(bs[1..], first) else [bs[0]] + Remaining(bs[1..], first);
      assert ([bs[0]] + Remaining(bs[1..], first))[1..] == Remaining(bs[1..], first);
    }
  }

  // ----- what retention keeps --------------------------------------------------------------------

  lemma {:induction false} InsertDistinct(b: Branch, bs: seq<Branch>, now: int)
    requires InTime(b.name, now) && Dated(bs, now) && NoDuplicates(bs) && b !in bs
    ensures NoDuplicates(Insert(b, bs, now))
  {
    if bs != [] && b.name.at.value < bs[0].name.at.value {
      InsertDistinct(b, bs[1..], now);
      var rest := Insert(b, bs[1..], now);
      assert forall x :: x in rest ==> x in multiset(rest) && (x in bs[1..] || x == b);
      assert bs[0] !in bs[1..];
    }
  }

  lemma {:induction false} NewestDistinct(bs: seq<Branch>, now: int)
    requires NoDuplicates(bs)
    ensures NoDuplicates(Newest(bs, now))
  {
    if bs != [] {
      NewestDistinct(bs[1..], now);
      if InTime(bs[0].name, now) {
        InsertDistinct(bs[0], Newest(bs[1..], now), now);
      }
    }
  }

  /** Kept for good reason: authenticated, plausibly dated, not deleted, and no older than `b`. */
  ghost predicate Outlives(s: Series, listing: seq<Branch>, unread: set<Branch>, doomed: set<Branch>, now: int, b: Branch, kept: set<Branch>) {
    forall v | v in kept ::
      && v in listing && v !in doomed && Verified(s, v, unread)
      && InTime(v.name, now) && b.name.at.Some? && b.name.at.value <= v.name.at.value
  }

  lemma BehindTheCut(s: Series, order: seq<Branch>, unread: set<Branch>, held: set<Branch>, keep: nat)
    requires NoDuplicates(order) && Cut(s, order, unread, keep, MAX_UNVERIFIED).Some?
    ensures var k := Cut(s, order, unread, keep, MAX_UNVERIFIED).value;
      && |VerifiedSet(s, order[..k], unread)| == keep
      && forall v | v in VerifiedSet(s, order[..k], unread) :: v in order && v !in BehindCut(s, order, unread, held, keep)
  {
    CutCounts(s, order, unread, keep, MAX_UNVERIFIED);
    var k := Cut(s, order, unread, keep, MAX_UNVERIFIED).value;
    HowManyIsSize(s, order[..k], unread);
  }

  lemma EarlierIsNewer(order: seq<Branch>, k: nat, v: Branch, b: Branch)
    requires k <= |order| && Descending(order) && v in order[..k] && b in order[k..]
    ensures v.name.at.Some? && b.name.at.Some? && b.name.at.value <= v.name.at.value
  {
    var i :| 0 <= i < k && order[..k][i] == v;
    var j :| 0 <= j < |order| - k && order[k..][j] == b;
    assert order[i] == v && order[k + j] == b;
  }

  /** Retention deletes a snapshot only behind `keep` authenticated ones that are as new and stay; never one whose
      name is no date or in the future. */
  lemma DeletedBehindKept(s: Series, listing: seq<Branch>, unread: set<Branch>, held: set<Branch>, keep: nat, now: int, b: Branch)
    requires NoDuplicates(listing)
    requires b in Doomed(s, listing, unread, held, keep, now)
    ensures b in listing && InTime(b.name, now) && b !in held
    ensures exists kept :: |kept| == keep && Outlives(s, listing, unread, Doomed(s, listing, unread, held, keep, now), now, b, kept)
  {
    var order := Newest(listing, now);
    NewestDistinct(listing, now);
    BehindTheCut(s, order, unread, held, keep);
    var k := Cut(s, order, unread, keep, MAX_UNVERIFIED).value;
    var kept := VerifiedSet(s, order[..k], unread);
    forall v | v in kept
      ensures b.name.at.value <= v.name.at.value
    {
      EarlierIsNewer(order, k, v, b);
    }
    assert Outlives(s, listing, unread, Doomed(s, listing, unread, held, keep, now), now, b, kept);
  }

  /** The authenticated snapshots of a repository, readable at this moment or not. */
  function AuthenticSet(s: Series, bs: seq<Branch>): (r: set<Branch>)
    ensures forall b :: b in r <==> b in bs && Authentic(s, b)
  {
    VerifiedSet(s, bs, {})
  }

  function Min(a: nat, b: nat): nat {
    if a < b then a else b
  }

  /** At least `keep` authenticated snapshots stay, or all there are. */
  lemma RetentionKeeps(s: Series, listing: seq<Branch>, unread: set<Branch>, held: set<Branch>, keep: nat, now: int)
    requires NoDuplicates(listing)
    ensures |AuthenticSet(s, Remaining(listing, Doomed(s, listing, unread, held, keep, now)))| >= Min(keep, |AuthenticSet(s, listing)|)
  {
    var order := Newest(listing, now);
    var cut := Cut(s, order, unread, keep, MAX_UNVERIFIED);
    if cut.Some? {
      NewestDistinct(listing, now);
      BehindTheCut(s, order, unread, held, keep);
      SubsetSize(VerifiedSet(s, order[..cut.value], unread), AuthenticSet(s, Remaining(listing, Doomed(s, listing, unread, held, keep, now))));
    } else {
      NothingRemoved(listing, {});
    }
  }

  /** When no more than MAX_UNVERIFIED others stand in the way, exactly what retention says stays of the authenticated
      and plausibly dated ones: the `keep` newest, the last right at the cut. */
  lemma RetentionDeletes(s: Series, listing: seq<Branch>, unread: set<Branch>, keep: nat, now: int)
    requires NoDuplicates(listing) && keep > 0
    requires var order := Newest(listing, now);
      HowMany(s, order, unread) >= keep && |order| - HowMany(s, order, unread) < MAX_UNVERIFIED
    ensures var order := Newest(listing, now);
      exists k: nat :: k <= |order| && Doomed(s, listing, unread, {}, keep, now) == SetOf(order[k..])
        && HowMany(s, order[..k], unread) == keep && k > 0 && Verified(s, order[k - 1], unread)
  {
    var order := Newest(listing, now);
    var cut := Cut(s, order, unread, keep, MAX_UNVERIFIED);
    if cut.None? {
      NoCutMeans(s, order, unread, keep, MAX_UNVERIFIED);
    } else {
      CutCounts(s, order, unread, keep, MAX_UNVERIFIED);
      CutIsTight(s, order, unread, keep, MAX_UNVERIFIED);
    }
  }

  lemma {:induction false} SetOfSize(bs: seq<Branch>)
    requires NoDuplicates(bs)
    ensures |SetOf(bs)| == |bs|
  {
    if bs != [] {
      SetOfSize(bs[1..]);
      assert bs[0] !in bs[1..];
    }
  }

  lemma {:induction false} AllCount(s: Series, bs: seq<Branch>)
    requires forall b | b in bs :: Authentic(s, b)
    ensures HowMany(s, bs, {}) == |bs|
  {
    hide Authentic;
    if bs != [] {
      assert bs[0] in bs;
      AllCount(s, bs[1..]);
    }
  }

  lemma SlicesDistinct(order: seq<Branch>, k: nat)
    requires NoDuplicates(order) && k <= |order|
    ensures NoDuplicates(order[..k]) && NoDuplicates(order[k..])
  {
  }

  lemma SetOfJoins(order: seq<Branch>, k: nat)
    requires k <= |order|
    ensures SetOf(order) == SetOf(order[..k]) + SetOf(order[k..])
  {
    assert order == order[..k] + order[k..];
  }

  /** Two halves of distinct branches are disjoint. */
  lemma Halves(order: seq<Branch>, k: nat)
    requires NoDuplicates(order) && k <= |order|
    ensures |SetOf(order[..k])| == k && SetOf(order) - SetOf(order[k..]) == SetOf(order[..k])
  {
    hide NoDuplicates, SetOf;
    SlicesDistinct(order, k);
    SetOfSize(order[..k]);
    SetOfSize(order[k..]);
    SetOfSize(order);
    SetOfJoins(order, k);
    var a, b := SetOf(order[..k]), SetOf(order[k..]);
    assert |a + b| == |a| + |b| - |a * b|;
    assert a * b == {};
  }

  lemma AuthenticLeft(s: Series, listing: seq<Branch>, doomed: set<Branch>)
    requires forall b | b in listing :: Authentic(s, b)
    ensures AuthenticSet(s, Remaining(listing, doomed)) == SetOf(listing) - doomed
  {
    hide Authentic;
  }

  /** Where every listed snapshot is authenticated, plausibly dated and readable and may be deleted, retention leaves
      exactly `keep`, or all. */
  lemma RetentionIsExact(s: Series, listing: seq<Branch>, keep: nat, now: int)
    requires NoDuplicates(listing) && keep > 0 && forall b | b in listing :: Authentic(s, b) && InTime(b.name, now)
    ensures |AuthenticSet(s, Remaining(listing, Doomed(s, listing, {}, {}, keep, now)))| == Min(keep, |listing|)
  {
    hide Authentic, NoDuplicates, BehindCut, Remaining, AuthenticSet, SetOf;
    var order := Newest(listing, now);
    AuthenticLeft(s, listing, Doomed(s, listing, {}, {}, keep, now));
    SameSet(listing, order);
    NewestDistinct(listing, now);
    SetOfSize(order);
    SetOfSize(listing);
    if |listing| >= keep {
      RetentionCuts(s, listing, order, keep, now);
      Halves(order, keep);
    } else {
      TooFew(s, order, keep);
    }
  }

  lemma SameSet(a: seq<Branch>, b: seq<Branch>)
    requires forall x :: x in a <==> x in b
    ensures SetOf(a) == SetOf(b)
  {
  }

  lemma RetentionCuts(s: Series, listing: seq<Branch>, order: seq<Branch>, keep: nat, now: int)
    requires NoDuplicates(listing) && 0 < keep <= |order| && order == Newest(listing, now) && forall b | b in order :: Authentic(s, b)
    ensures Doomed(s, listing, {}, {}, keep, now) == SetOf(order[keep..])
  {
    hide Authentic, NoDuplicates, Doomed, SetOf, HowMany, Newest;
    AllCount(s, order);
    RetentionDeletes(s, listing, {}, keep, now);
    var k: nat :| k <= |order| && Doomed(s, listing, {}, {}, keep, now) == SetOf(order[k..]) && HowMany(s, order[..k], {}) == keep;
    AllCount(s, order[..k]);
  }

  lemma TooFew(s: Series, order: seq<Branch>, keep: nat)
    requires |order| < keep
    ensures BehindCut(s, order, {}, {}, keep) == {}
  {
    if Cut(s, order, {}, keep, MAX_UNVERIFIED).Some? {
      CutCounts(s, order, {}, keep, MAX_UNVERIFIED);
      VerifiedFits(s, order[..Cut(s, order, {}, keep, MAX_UNVERIFIED).value], {});
    }
  }

  // ----- uploads ---------------------------------------------------------------------------------

  function Ids(bs: seq<Branch>): (r: seq<string>)
    ensures |r| == |bs| && forall i | 0 <= i < |bs| :: r[i] == bs[i].name.text
  {
    seq(|bs|, i requires 0 <= i < |bs| => bs[i].name.text)
  }

  /** What `heads` lists: names of the form of a snapshot ID, each once. */
  predicate Listed(bs: seq<Branch>) {
    && (forall i | 0 <= i < |bs| :: bs[i].name == Parse(bs[i].name.text))
    && (forall i, j | 0 <= i < j < |bs| :: bs[i].name != bs[j].name)
  }

  lemma NextIdIs(bs: seq<Branch>, now: int, id: string)
    requires Listed(bs) && Follows(Ids(bs), now, id)
    ensures NextId(bs, now, Parse(id))
  {
    hide TimeOf;
    forall b | b in bs && InTime(b.name, now)
      ensures b.name.at.value < When(id)
    {
      var i :| 0 <= i < |bs| && bs[i] == b;
      assert Ids(bs)[i] == b.name.text;
      InTimeIsPlausible(b.name.text, now);
    }
  }

  /** What the reads of a scan find, when the fetches of `unread` fail. */
  function Seen(bs: seq<Branch>, unread: set<Branch>): (r: seq<Branch>)
    ensures Sees(r, bs)
  {
    seq(|bs|, i requires 0 <= i < |bs| => if bs[i] in unread then Branch(bs[i].name, None) else bs[i])
  }

  /** A new ID, as `context` accepts it. */
  method NextName(listing: seq<Branch>, now: Moment, token: string) returns (name: Option<Name>)
    requires Listed(listing) && Valid(now) && |token| == 8 && Hex(token)
    ensures name.None? ==> now.year < 1000 || Overflows(Times(Ids(listing)), Micros(now))
    ensures name.Some? ==> NextId(listing, Micros(now), name.value) && !Overflows(Times(Ids(listing)), Micros(now))
  {
    hide SnapshotId, Overflows, Follows, NextId, Parse, Micros;
    var text := NextSnapshot(Ids(listing), now, token);
    if text.None? || !SnapshotId(text.value) {
      return None;
    }
    NextIdIs(listing, Micros(now), text.value);
    return Some(Parse(text.value));
  }

  datatype Clock = Clock(named: Moment, scanned: int, pruned: int)
  datatype Outcome = Unnamed | Flooded | Taken(id: Name) | Unverified(id: Name) | Complete(id: Name)

  /** What others have made of the repository when the upload pushes, when it reads its snapshot back, and when its
      retention begins. */
  datatype Others = Others(atPush: seq<Branch>, atCheck: seq<Branch>, atPrune: seq<Branch>)

  /** The branch an upload pushes. */
  function Pushed(s: Series, listing: seq<Branch>, unread: set<Branch>, id: Name, parts: nat, clock: Clock): Branch {
    Branch(id, Some(Sealed(s, Publish(id, parts, Micros(clock.named), clock.scanned, Seen(listing, unread)))))
  }

  /** What an upload deletes. */
  function Outdated(s: Series, appendOnly: bool, listing: seq<Branch>, unread: set<Branch>, held: set<Branch>, now: int): set<Branch>
    requires s.keep >= 2
  {
    if appendOnly then {} else Doomed(s, listing, unread, held, s.keep - 1, now)
  }

  predicate Has(bs: seq<Branch>, name: Name) {
    exists b :: b in bs && b.name == name
  }

  /** Nobody else writes during an upload. */
  predicate Undisturbing(others: Others, listing: seq<Branch>, b: Branch) {
    others == Others(listing, listing + [b], listing + [b])
  }

  /** The new snapshot is new, and it and what was listed as authenticated are still there. */
  predicate LeftAlone(s: Series, listing: seq<Branch>, b: Branch, there: seq<Branch>) {
    b !in listing && AuthenticSet(s, listing) + {b} <= AuthenticSet(s, there)
  }

  class Uploader {
    const repository: Repository
    const series: Series
    const appendOnly: bool

    constructor (repository: Repository, series: Series, appendOnly: bool)
      ensures this.repository == repository && this.series == series && this.appendOnly == appendOnly
    {
      this.repository, this.series, this.appendOnly := repository, series, appendOnly;
    }

    /** `upload`, whatever others do to the repository meanwhile. Nothing is deleted unless the pushed snapshot was read
        back; then what the listing at the start says is outdated goes. If others leave what was listed as authenticated
        and the new snapshot, min(keep, as many as were listed and the new one) authenticated snapshots are there. */
    method Upload(parts: nat, token: string, clock: Clock, unread: set<Branch>, others: Others, fetched: bool,
                  unreadLater: set<Branch>, held: set<Branch>)
        returns (r: Outcome)
      requires Listed(repository.branches) && series.keep >= 2 && Valid(clock.named) && |token| == 8 && Hex(token)
      modifies repository
      ensures r.Unnamed? ==> clock.named.year < 1000 || Overflows(Times(Ids(old(repository.branches))), Micros(clock.named))
      ensures !r.Unnamed? ==> (r.Flooded? <==> StartOf(series, Seen(old(repository.branches), unread), clock.scanned) == TooMany)
      ensures r.Taken? || r.Unverified? || r.Complete? ==>
        && NextId(old(repository.branches), Micros(clock.named), r.id)
        && (r.Taken? <==> Has(others.atPush, r.id))
        && (!r.Taken? ==> (r.Complete? <==>
              fetched && Pushed(series, old(repository.branches), unread, r.id, parts, clock) in others.atCheck))
      ensures repository.branches == match r
        case Unnamed => old(repository.branches)
        case Flooded => old(repository.branches)
        case Taken(_) => others.atPush
        case Unverified(_) => others.atCheck
        case Complete(_) => Remaining(others.atPrune, Outdated(series, appendOnly, old(repository.branches), unreadLater, held, clock.pruned))
      ensures r.Complete? && appendOnly ==> repository.branches == others.atPrune
      ensures r.Complete? && !appendOnly && unreadLater == {} && held == {}
        && Undisturbing(others, old(repository.branches), Pushed(series, old(repository.branches), unread, r.id, parts, clock))
        && (forall b | b in old(repository.branches) :: Authentic(series, b) && InTime(b.name, clock.pruned))
        ==> |AuthenticSet(series, repository.branches)| == Min(series.keep, |old(repository.branches)| + 1)
      ensures r.Complete? &&
        LeftAlone(series, old(repository.branches), Pushed(series, old(repository.branches), unread, r.id, parts, clock), others.atPrune)
        ==> |AuthenticSet(series, repository.branches)| >= Min(series.keep, |AuthenticSet(series, old(repository.branches))| + 1)
    {
      hide Overflows, Micros, Scan, NextId, Remaining, AuthenticSet, LeftAlone, Doomed, Listed, Outdated, InTime;
      var listing := repository.branches;
      var name := NextName(listing, clock.named, token);
      if name.None? {
        return Unnamed;
      }
      var id := name.value;
      var start := AuthenticatedSince(series, Seen(listing, unread), clock.scanned);
      if start == TooMany {
        return Flooded;
      }
      var since := if start.Found? then start.since else id;
      var b := Branch(id, Some(Authenticate(Body(1, series.product, series.series, id, parts, Some(since)), series.key)));
      assert b == Pushed(series, listing, unread, id, parts, clock);
      repository.Become(others.atPush);
      if exists i :: 0 <= i < |repository.branches| && repository.branches[i].name == id {
        return Taken(id);
      }
      repository.branches := repository.branches + [b];
      repository.Become(others.atCheck);
      if !fetched || b !in repository.branches {
        return Unverified(id);
      }
      repository.Become(others.atPrune);
      Finish(listing, b, unreadLater, held, clock.pruned);
      return Complete(id);
    }

    /** The end of an upload: retention, unless the series is append-only. */
    method Finish(listing: seq<Branch>, b: Branch, unread: set<Branch>, held: set<Branch>, now: int)
      requires Listed(listing) && Authentic(series, b) && series.keep >= 2
      modifies repository
      ensures repository.branches == Remaining(old(repository.branches), Outdated(series, appendOnly, listing, unread, held, now))
      ensures appendOnly ==> repository.branches == old(repository.branches)
      ensures !appendOnly ==>
        repository.branches == Remaining(old(repository.branches), Doomed(series, listing, unread, held, series.keep - 1, now))
      ensures !appendOnly && unread == {} && held == {} && old(repository.branches) == listing + [b] && !Has(listing, b.name)
        && (forall x | x in listing :: Authentic(series, x) && InTime(x.name, now))
        ==> |AuthenticSet(series, repository.branches)| == Min(series.keep, |listing| + 1)
      ensures LeftAlone(series, listing, b, old(repository.branches)) ==>
        |AuthenticSet(series, repository.branches)| >= Min(series.keep, |AuthenticSet(series, listing)| + 1)
    {
      hide Authentic, AuthenticSet, Remaining, LeftAlone, Doomed, InTime;
      UploadKeeps(series, listing, b, unread, held, now, appendOnly, repository.branches);
      if !appendOnly {
        if !Has(listing, b.name) {
          UploadIsExact(series, listing, b, now);
        }
        var removed, fetches := repository.Prune(series, listing, unread, held, series.keep - 1, now);
      } else {
        NothingRemoved(repository.branches, {});
      }
    }
  }

  lemma {:induction false} RemainingAppends(bs: seq<Branch>, b: Branch, removed: set<Branch>)
    requires b !in removed
    ensures Remaining(bs + [b], removed) == Remaining(bs, removed) + [b]
  {
    if bs == [] {
      assert [b][1..] == [];
    } else {
      assert (bs + [b])[1..] == bs[1..] + [b];
      RemainingAppends(bs[1..], b, removed);
    }
  }

  lemma ListedOnce(bs: seq<Branch>)
    requires Listed(bs)
    ensures NoDuplicates(bs)
  {
  }

  lemma UploadKeeps(s: Series, listing: seq<Branch>, b: Branch, unread: set<Branch>, held: set<Branch>, now: int, appendOnly: bool,
                    there: seq<Branch>)
    requires Listed(listing) && Authentic(s, b) && s.keep >= 2
    ensures LeftAlone(s, listing, b, there) ==>
      |AuthenticSet(s, Remaining(there, Outdated(s, appendOnly, listing, unread, held, now)))|
        >= Min(s.keep, |AuthenticSet(s, listing)| + 1)
  {
    hide Listed, Authentic, Remaining, AuthenticSet, LeftAlone, Outdated;
    var doomed := Outdated(s, appendOnly, listing, unread, held, now);
    if LeftAlone(s, listing, b, there) {
      StillThere(s, listing, b, there, doomed);
      OutdatedIsListed(s, appendOnly, listing, unread, held, now);
      NewStays(s, listing, b, there, doomed);
      OutdatedKeeps(s, appendOnly, listing, unread, held, now);
    }
  }

  lemma OutdatedKeeps(s: Series, appendOnly: bool, listing: seq<Branch>, unread: set<Branch>, held: set<Branch>, now: int)
    requires Listed(listing) && s.keep >= 2
    ensures |AuthenticSet(s, Remaining(listing, Outdated(s, appendOnly, listing, unread, held, now)))| >= Min(s.keep - 1, |AuthenticSet(s, listing)|)
  {
    hide Listed, Authentic, Remaining, AuthenticSet, Doomed;
    ListedOnce(listing);
    if appendOnly {
      NothingRemoved(listing, {});
    } else {
      RetentionKeeps(s, listing, unread, held, s.keep - 1, now);
    }
  }

  lemma NewStays(s: Series, listing: seq<Branch>, b: Branch, there: seq<Branch>, doomed: set<Branch>)
    requires Authentic(s, b) && LeftAlone(s, listing, b, there) && forall x | x in doomed :: x in listing
    ensures |AuthenticSet(s, Remaining(listing + [b], doomed))| == |AuthenticSet(s, Remaining(listing, doomed))| + 1
  {
    hide Authentic, AuthenticSet;
    assert b !in doomed && b !in listing;
    RemainingAppends(listing, b, doomed);
    OneMore(s, Remaining(listing, doomed), b);
  }

  /** What is left of a series whose listed snapshots all count, and of the new one. */
  lemma UploadIsExact(s: Series, listing: seq<Branch>, b: Branch, now: int)
    requires Listed(listing) && Authentic(s, b) && s.keep >= 2 && !Has(listing, b.name)
    ensures (forall x | x in listing :: Authentic(s, x) && InTime(x.name, now)) ==>
      |AuthenticSet(s, Remaining(listing + [b], Doomed(s, listing, {}, {}, s.keep - 1, now)))| == Min(s.keep, |listing| + 1)
  {
    hide Listed, Authentic, AuthenticSet, Remaining, Doomed;
    if forall x | x in listing :: Authentic(s, x) && InTime(x.name, now) {
      var doomed := Doomed(s, listing, {}, {}, s.keep - 1, now);
      ListedOnce(listing);
      RetentionIsExact(s, listing, s.keep - 1, now);
      DoomedIsListed(s, listing, s.keep - 1, now);
      assert b !in listing;
      RemainingAppends(listing, b, doomed);
      OneMore(s, Remaining(listing, doomed), b);
    }
  }

  lemma DoomedIsListed(s: Series, listing: seq<Branch>, keep: nat, now: int)
    ensures forall b | b in Doomed(s, listing, {}, {}, keep, now) :: b in listing
  {
  }

  /** What an upload publishes, when every fetch of its scan succeeds: its own context and parts, with the tag of the key
      and the start of the series; its own ID as the start if nothing listed is authenticated. */
  lemma PushedIs(s: Series, listing: seq<Branch>, id: Name, parts: nat, clock: Clock, since: Name)
    requires AllRecord(s, listing, since, clock.scanned) && !Swamped(s, Newest(listing, clock.scanned))
    ensures Pushed(s, listing, {}, id, parts, clock) ==
      Branch(id, Some(Authenticate(
        Body(1, s.product, s.series, id, parts, Some(if SeesOne(s, listing, clock.scanned) then since else id)), s.key)))
  {
    assert Seen(listing, {}) == listing;
    StartAgrees(s, listing, clock.scanned, since);
  }

  lemma OutdatedIsListed(s: Series, appendOnly: bool, listing: seq<Branch>, unread: set<Branch>, held: set<Branch>, now: int)
    requires s.keep >= 2
    ensures forall b | b in Outdated(s, appendOnly, listing, unread, held, now) :: b in listing
  {
  }

  lemma StillThere(s: Series, listing: seq<Branch>, b: Branch, there: seq<Branch>, doomed: set<Branch>)
    requires LeftAlone(s, listing, b, there)
    ensures |AuthenticSet(s, Remaining(there, doomed))| >= |AuthenticSet(s, Remaining(listing + [b], doomed))|
  {
    hide Authentic;
    assert AuthenticSet(s, listing + [b]) <= AuthenticSet(s, there);
    SubsetSize(AuthenticSet(s, Remaining(listing + [b], doomed)), AuthenticSet(s, Remaining(there, doomed)));
  }

  lemma OneMore(s: Series, bs: seq<Branch>, b: Branch)
    requires b !in bs && Authentic(s, b)
    ensures |AuthenticSet(s, bs + [b])| == |AuthenticSet(s, bs)| + 1
  {
    hide Authentic;
    assert forall x :: x in bs + [b] <==> x in bs || x == b;
    assert AuthenticSet(s, bs + [b]) == AuthenticSet(s, bs) + {b};
  }
}
