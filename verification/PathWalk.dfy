/**
 * The path walker the sandbox runner runs inside a container (compute/sandbox_runner.py, SAFE_FILE_PY):
 * one descriptor per directory, one component at a time, while the agent may change the tree at will.
 *
 * The tree seen by the n-th system call is `World.tree(n)`: one function covers every interleaving with
 * every change. Inodes of the workspace file system are `inside`; entries of its directories stay on it.
 */
module PathWalk {
  import opened Basics
  import opened Texts

  type Inode = nat

  datatype Node = Directory(entries: map<string, Inode>) | Link(target: string) | File(regular: bool)

  type Tree = Inode -> Node

  datatype World = World(
    tree: nat -> Tree,
    root: Inode,             // the workspace directory
    rootPath: string,        // its path: ROOT, "/workspace"
    inside: Inode -> bool,   // on the workspace file system
    elsewhere: Inode,        // where a name that is not one plain component may lead
    created: nat -> Inode,   // the file the n-th call creates
    mkdirFails: nat -> bool)

  const MAX_LINKS := 40
  const MAX_HOPS := 200

  /** One component that the kernel looks up in the directory itself. */
  predicate Plain(name: string) {
    name != "" && name != "." && name != ".." && '/' !in name
  }

  /** Nothing leads out of the workspace file system by plain names: no mounts inside, no hard links across. */
  ghost predicate Confined(w: World) {
    && w.inside(w.root) && !w.inside(w.elsewhere)
    && (forall k, d, name | w.inside(d) && w.tree(k)(d).Directory? && name in w.tree(k)(d).entries ::
          w.inside(w.tree(k)(d).entries[name]))
    && (forall k :: w.inside(w.created(k)))
  }

  // ----- system calls relative to a directory descriptor -----------------------------------------

  function LookUp(w: World, t: Tree, d: Inode, name: string): Option<Inode> {
    if !Plain(name) then Some(w.elsewhere)
    else if t(d).Directory? && name in t(d).entries then Some(t(d).entries[name])
    else None
  }

  function Stat(w: World, k: nat, d: Inode, name: string): Option<Node> {
    match LookUp(w, w.tree(k), d, name)
    case None => None
    case Some(i) => Some(w.tree(k)(i))
  }

  /** os.open with O_DIRECTORY and O_NOFOLLOW: None for any error. */
  function OpenDirectory(w: World, k: nat, d: Inode, name: string): Option<Inode> {
    match LookUp(w, w.tree(k), d, name)
    case None => None
    case Some(i) => if w.tree(k)(i).Directory? then Some(i) else None
  }

  // ----- text ------------------------------------------------------------------------------------

  /** What the walk looks at: plain components and "..". */
  predicate Components(parts: seq<string>) {
    forall i | 0 <= i < |parts| :: Plain(parts[i]) || parts[i] == ".."
  }

  function Keep(parts: seq<string>): (r: seq<string>)
    requires forall part | part in parts :: '/' !in part
    ensures Components(r)
  {
    if parts == [] then []
    else if parts[0] == "" || parts[0] == "." then Keep(parts[1..])
    else [parts[0]] + Keep(parts[1..])
  }

  /** `parts`. */
  function Parts(text: string): (r: seq<string>)
    ensures Components(r)
  {
    Keep(Split(text))
  }

  lemma {:induction false} KeepConcat(a: seq<string>, b: seq<string>)
    requires (forall part | part in a :: '/' !in part) && forall part | part in b :: '/' !in part
    ensures forall part | part in a + b :: '/' !in part
    ensures Keep(a + b) == Keep(a) + Keep(b)
  {
    if a == [] {
      assert a + b == b;
    } else {
      assert (a + b)[0] == a[0] && (a + b)[1..] == a[1..] + b;
      KeepConcat(a[1..], b);
    }
  }

  /** The components of a path are those of what stands before a slash and those of what stands behind it. */
  lemma PartsJoin(x: string, y: string)
    ensures Parts(x + "/" + y) == Parts(x) + Parts(y)
  {
    SplitConcat(x, y);
    KeepConcat(Split(x), Split(y));
  }

  /** Nothing and "." are no components; any other name is one, ".." too. */
  lemma PartsOfName(name: string)
    requires '/' !in name
    ensures Parts(name) == if name == "" || name == "." then [] else [name]
  {
    SplitNothing(name);
    assert [name][1..] == [] && Keep([]) == [] && [name] + [] == [name];
    assert Keep([name]) == if name == "" || name == "." then [] else [name];
  }

  predicate UnderRoot(w: World, path: string) {
    path == w.rootPath || w.rootPath + "/" <= path
  }

  /** The components of a path under the root, from the root. */
  function Below(w: World, path: string): (r: seq<string>)
    requires UnderRoot(w, path)
    ensures Components(r)
  {
    Parts(path[|w.rootPath|..])
  }

  predicate Absolute(target: string) {
    target != "" && target[0] == '/'
  }

  // ----- the walk --------------------------------------------------------------------------------

  datatype Outcome = At(stack: seq<Inode>, name: Option<string>) | Exit(code: nat)

  /** The variables of `walk`, and how many system calls it has made. */
  datatype Walker = Walker(stack: seq<Inode>, pending: seq<string>, hops: nat, calls: nat)

  datatype Turn = Continue(next: Walker) | Return(outcome: Outcome)

  function Top(stack: seq<Inode>): Inode
    requires |stack| > 0
  {
    stack[|stack| - 1]
  }

  /** One turn of the loop, from its first pending name. */
  function TakeTurn(w: World, s: Walker, create: bool): Turn
    requires |s.stack| > 0 && s.pending != []
  {
    var name, rest := s.pending[0], s.pending[1..];
    if name == ".." then
      if |s.stack| == 1 then Return(Exit(91))
      else Continue(s.(stack := s.stack[..|s.stack| - 1], pending := rest))
    else
      match Stat(w, s.calls, Top(s.stack), name)
      case None =>
        if rest == [] then Return(At(s.stack, Some(name)))
        else if !create then Return(Exit(92))
        else if w.mkdirFails(s.calls + 1) then Return(Exit(94))
        else if s.hops + 1 > MAX_HOPS then Return(Exit(90))
        else Continue(s.(hops := s.hops + 1, calls := s.calls + 2))
      case Some(Link(_)) =>
        if s.hops + 1 > MAX_LINKS then Return(Exit(90))
        else Follow(w, s.(pending := rest, hops := s.hops + 1, calls := s.calls + 1), name)
      case Some(info) =>
        if rest == [] then Return(At(s.stack, Some(name)))
        else if !info.Directory? then Return(Exit(NotADirectory(create)))
        else
          match OpenDirectory(w, s.calls + 1, Top(s.stack), name)
          case Some(d) => Continue(s.(stack := s.stack + [d], pending := rest, calls := s.calls + 2))
          case None =>
            if s.hops + 1 > MAX_LINKS then Return(Exit(90))
            else Continue(s.(hops := s.hops + 1, calls := s.calls + 2))
  }

  /** Reading a link that may be gone by now (readlink raises), and its components put first. */
  function Follow(w: World, s: Walker, name: string): Turn
    requires |s.stack| > 0
  {
    match Stat(w, s.calls, Top(s.stack), name)
    case Some(Link(target)) =>
      if !Absolute(target) then Continue(s.(pending := Parts(target) + s.pending, calls := s.calls + 1))
      else if UnderRoot(w, target) then
        Continue(s.(stack := s.stack[..1], pending := Below(w, target) + s.pending, calls := s.calls + 1))
      else Return(Exit(91))
    case _ => Return(Exit(1))
  }

  function NotADirectory(create: bool): nat {
    if create then 94 else 92
  }

  predicate Contained(w: World, stack: seq<Inode>) {
    |stack| > 0 && stack[0] == w.root && forall i | 0 <= i < |stack| :: w.inside(stack[i])
  }

  predicate Sound(w: World, s: Walker) {
    Contained(w, s.stack) && Components(s.pending) && s.hops <= MAX_HOPS
  }

  predicate SoundOutcome(w: World, r: Outcome) {
    r.At? ==> Contained(w, r.stack) && (r.name.Some? ==> Plain(r.name.value))
  }

  /** Whatever happens to the tree between two calls, every descriptor stays in the workspace, and each turn
      uses up a hop or a pending name. */
  lemma TurnStaysInside(w: World, s: Walker, create: bool)
    requires Confined(w) && Sound(w, s) && s.pending != []
    ensures match TakeTurn(w, s, create)
      case Return(r) => SoundOutcome(w, r)
      case Continue(t) => Sound(w, t) && s.hops <= t.hops && (s.hops < t.hops || |t.pending| < |s.pending|)
  {
  }

  /** Every missing directory can be made. */
  ghost predicate MakesDirectories(w: World) {
    forall k :: !w.mkdirFails(k)
  }

  /** `walk`: `hops` counts the links followed and the directories made; `parent` is what ".." means when nobody moves a directory; `calls` is the number of the next system call. */
  method Walk(w: World, path: string, create: bool, ghost parent: Inode -> Inode) returns (r: Outcome, calls: nat, ghost hops: nat)
    requires Confined(w)
    ensures SoundOutcome(w, r)
    ensures create ==> r != Exit(92)
    ensures r.At? && r.name.Some? ==> calls > 0
    ensures Grows(w, parent) && UnderRoot(w, path) && r.At? ==>
      Agrees(r, ResolveAt(w, LastLook(r, calls), parent, Below(w, path)), false)
    ensures Grows(w, parent) && UnderRoot(w, path) && create && MakesDirectories(w) && r.Exit? && hops < MAX_LINKS ==>
      calls > 0 && ResolveAt(w, calls - 1, parent, Below(w, path)).Fail?
    ensures !UnderRoot(w, path) ==> r == Exit(91)
    ensures Still(w, parent) && UnderRoot(w, path) ==>
      Agrees(r, Resolve(w, parent, w.root, Below(w, path), 0, create), create)
  {
    hide OnPath, OnTrack, Grows, Still, Confined, MakesDirectories, FlatAt, ResolveAt;
    RootIsSound(w);
    if !UnderRoot(w, path) {
      return Exit(91), 0, 0;
    }
    var s := Walker([w.root], Below(w, path), 0, 0);
    ghost var there := Resolve(w, parent, w.root, s.pending, 0, create);
    if Still(w, parent) {
      StartsOnTrack(w, parent, s, create);
    }
    ghost var links := 0;
    if Grows(w, parent) {
      StartsOnPath(w, parent, s);
    }
    while s.pending != []
      invariant Sound(w, s)
      invariant Still(w, parent) ==> OnTrack(w, parent, s, create, there)
      invariant Grows(w, parent) ==> OnPath(w, parent, s, links, Below(w, path))
      decreases MAX_HOPS + 1 - s.hops, |s.pending|
    {
      TurnStaysInside(w, s, create);
      if Grows(w, parent) {
        TurnStaysOnPath(w, parent, s, create, links, Below(w, path));
        TurnFails(w, parent, s, create, links, Below(w, path));
        links := NextLinks(w, s, links);
      }
      if Still(w, parent) {
        TurnStaysOnTrack(w, parent, s, create, there);
      }
      match TakeTurn(w, s, create) {
        case Return(outcome) => return outcome, s.calls + 1, s.hops;
        case Continue(next) => s := next;
      }
    }
    if Still(w, parent) {
      EndsOnTrack(w, parent, s, create, there);
    }
    if Grows(w, parent) {
      EndsOnPath(w, parent, s, links, Below(w, path));
    }
    return At(s.stack, None), s.calls, s.hops;
  }

  /** What a request ends with: the inode opened, or the exit status. */
  datatype Answer = Listing(dir: Inode) | Content(file: Inode) | Created(file: Inode) | Failed(code: nat)

  ghost predicate AnswerInside(w: World, a: Answer) {
    match a
    case Listing(i) => w.inside(i)
    case Content(i) => w.inside(i)
    case Created(i) => w.inside(i)
    case Failed(_) => true
  }

  /** `read`: the final open does not follow a link either. */
  method Read(w: World, path: string, ghost parent: Inode -> Inode) returns (a: Answer)
    requires Confined(w)
    ensures AnswerInside(w, a) && !a.Created?
    ensures a.Content? ==> exists k :: w.tree(k)(a.file) == File(true)
    ensures a.Listing? ==> exists k :: w.tree(k)(a.dir).Directory?
    ensures !UnderRoot(w, path) ==> a == Failed(91)
    ensures Still(w, parent) && UnderRoot(w, path) ==>
      a == ReadAt(w, Resolve(w, parent, w.root, Below(w, path), 0, false))
  {
    var r, k, _ := Walk(w, path, false, parent);
    if r.Exit? {
      return Failed(r.code);
    }
    var i := Top(r.stack);
    if r.name.Some? {
      var found := LookUp(w, w.tree(k), i, r.name.value);
      if found.None? {
        return Failed(92);
      }
      i := found.value;
      if w.tree(k)(i).Link? {
        return Failed(90);
      }
    }
    match w.tree(k + 1)(i) {
      case Directory(_) => return Listing(i);
      case File(regular) => return if regular then Content(i) else Failed(93);
      case Link(_) => return Failed(93);
    }
  }

  /** What opening a resolved name without following links gives, at the n-th call. */
  ghost predicate OpensAt(w: World, n: nat, p: Place, a: Answer) {
    p.Leaf? &&
    match LookUp(w, w.tree(n), p.dir, p.name)
    case None => a == Created(w.created(n))
    case Some(i) => w.tree(n)(i) == File(true) && a == Content(i)
  }

  /** Nothing but a missing name or a regular file can be opened for writing. */
  ghost predicate CanOpen(w: World, n: nat, p: Place) {
    p.Leaf? &&
    match LookUp(w, w.tree(n), p.dir, p.name)
    case None => true
    case Some(i) => w.tree(n)(i) == File(true)
  }

  /** `write`, up to the open file; `opening` is the number of the call that opens it, `looked` that of the last one that
      looked at the way there. Where the tree only grows and the walk can make what is missing, below the limit of hops
      exactly the paths are opened that resolve to a missing name or a regular file. */
  method Write(w: World, path: string, ghost parent: Inode -> Inode)
      returns (a: Answer, ghost opening: nat, ghost looked: nat, ghost hops: nat)
    requires Confined(w)
    ensures AnswerInside(w, a) && !a.Listing? && a != Failed(92)
    ensures a.Content? ==> w.tree(opening)(a.file) == File(true)
    ensures Grows(w, parent) && UnderRoot(w, path) && !a.Failed? ==>
      opening > 0 && OpensAt(w, opening, ResolveAt(w, opening - 1, parent, Below(w, path)), a)
    ensures Grows(w, parent) && UnderRoot(w, path) && MakesDirectories(w) && hops < MAX_LINKS ==>
      && looked <= opening <= looked + 1
      && (a.Failed? <==> !CanOpen(w, opening, ResolveAt(w, looked, parent, Below(w, path))))
    ensures !UnderRoot(w, path) ==> a == Failed(91)
    ensures Still(w, parent) && UnderRoot(w, path) ==>
      var there := Resolve(w, parent, w.root, Below(w, path), 0, true);
      there == Fail(92) || (if WriteCreates(w, there) then a.Created? else a == WriteAt(w, there))
  {
    var r, k;
    r, k, hops := Walk(w, path, true, parent);
    opening, looked := k, if r.Exit? && k > 0 then k - 1 else LastLook(r, k);
    if r.Exit? {
      return Failed(r.code), opening, looked, hops;
    }
    if r.name.None? {
      return Failed(95), opening, looked, hops;
    }
    var found := LookUp(w, w.tree(k), Top(r.stack), r.name.value);
    if found.None? {
      return Created(w.created(k)), opening, looked, hops;
    }
    var i := found.value;
    match w.tree(k)(i) {
      case Directory(_) => return Failed(95), opening, looked, hops;
      case Link(_) => return Failed(90), opening, looked, hops;
      case File(regular) => return if regular then Content(i) else Failed(93), opening, looked, hops;
    }
  }

  /** What reading a resolved place answers. */
  function ReadAt(w: World, p: Place): Answer {
    match p
    case Fail(code) => Failed(code)
    case In(d, _) => ReadNode(w, d)
    case Leaf(d, name, _) =>
      match LookUp(w, w.tree(0), d, name)
      case None => Failed(92)
      case Some(i) => ReadNode(w, i)
  }

  function ReadNode(w: World, i: Inode): Answer {
    match w.tree(0)(i)
    case Directory(_) => Listing(i)
    case File(true) => Content(i)
    case _ => Failed(93)
  }

  predicate WriteCreates(w: World, p: Place) {
    p.Leaf? && LookUp(w, w.tree(0), p.dir, p.name).None?
  }

  function WriteAt(w: World, p: Place): Answer
    requires !WriteCreates(w, p)
  {
    match p
    case Fail(code) => Failed(code)
    case In(_, _) => Failed(95)
    case Leaf(d, name, _) =>
      var i := LookUp(w, w.tree(0), d, name).value;
      match w.tree(0)(i)
      case Directory(_) => Failed(95)
      case File(true) => Content(i)
      case _ => Failed(93)
  }

  // ----- path resolution as a recursion ----------------------------------------------------------

  /** What a path names: a directory, a name in a directory (missing, or no link), or an error. */
  datatype Place = In(dir: Inode, links: nat) | Leaf(dir: Inode, name: string, links: nat) | Fail(code: nat)

  /** Nobody changes the tree, in which every directory but the root is an entry of its one parent. */
  ghost predicate Still(w: World, parent: Inode -> Inode) {
    && (forall k :: w.tree(k) == w.tree(0))
    && w.tree(0)(w.root).Directory?
    && (forall d, name | w.tree(0)(d).Directory? && name in w.tree(0)(d).entries ::
          var child := w.tree(0)(d).entries[name];
          w.tree(0)(child).Directory? ==> parent(child) == d && child != w.root)
  }

  /** The directory a resolved place is, when more of a path follows it. */
  function Enter(w: World, p: Place, create: bool): (r: Place)
    ensures p.In? ==> r == p
    ensures !r.Leaf?
    ensures !p.Fail? && r.In? ==> r.links == p.links
  {
    match p
    case Leaf(d, name, links) =>
      (match LookUp(w, w.tree(0), d, name)
       case None => Fail(92)
       case Some(i) => if w.tree(0)(i).Directory? then In(i, links) else Fail(NotADirectory(create)))
    case _ => p
  }

  /** Resolve a list of components from directory `d`, following every link by resolving its target first. */
  function Resolve(w: World, parent: Inode -> Inode, d: Inode, comps: seq<string>, links: nat, create: bool): (r: Place)
    ensures !r.Fail? ==> r.links >= links
    ensures r.Leaf? ==> var named := LookUp(w, w.tree(0), r.dir, r.name); named.Some? ==> !w.tree(0)(named.value).Link?
    decreases MAX_LINKS + 1 - links, |comps|
  {
    if comps == [] then In(d, links)
    else if comps[0] == ".." then
      if d == w.root then Fail(91) else Resolve(w, parent, parent(d), comps[1..], links, create)
    else
      match LookUp(w, w.tree(0), d, comps[0])
      case None => if |comps| == 1 then Leaf(d, comps[0], links) else Fail(92)
      case Some(i) =>
        match w.tree(0)(i)
        case Link(target) =>
          if links + 1 > MAX_LINKS then Fail(90)
          else if Absolute(target) && !UnderRoot(w, target) then Fail(91)
          else
            var place := if Absolute(target) then Resolve(w, parent, w.root, Below(w, target), links + 1, create)
                         else Resolve(w, parent, d, Parts(target), links + 1, create);
            if place.Fail? || |comps| == 1 then place
            else
              var at := Enter(w, place, create);
              if at.Fail? then at else Resolve(w, parent, at.dir, comps[1..], at.links, create)
        case Directory(_) =>
          if |comps| == 1 then Leaf(d, comps[0], links) else Resolve(w, parent, i, comps[1..], links, create)
        case File(_) => if |comps| == 1 then Leaf(d, comps[0], links) else Fail(NotADirectory(create))
  }

  /** The walk's own order on an unchanged tree: a link's components are put before the ones still pending. */
  function Flat(w: World, parent: Inode -> Inode, d: Inode, pending: seq<string>, links: nat, create: bool): Place
    decreases MAX_LINKS + 1 - links, |pending|
  {
    if pending == [] then In(d, links)
    else if pending[0] == ".." then
      if d == w.root then Fail(91) else Flat(w, parent, parent(d), pending[1..], links, create)
    else
      match LookUp(w, w.tree(0), d, pending[0])
      case None => if |pending| == 1 then Leaf(d, pending[0], links) else Fail(92)
      case Some(i) =>
        match w.tree(0)(i)
        case Link(target) =>
          if links + 1 > MAX_LINKS then Fail(90)
          else if !Absolute(target) then Flat(w, parent, d, Parts(target) + pending[1..], links + 1, create)
          else if !UnderRoot(w, target) then Fail(91)
          else Flat(w, parent, w.root, Below(w, target) + pending[1..], links + 1, create)
        case Directory(_) =>
          if |pending| == 1 then Leaf(d, pending[0], links) else Flat(w, parent, i, pending[1..], links, create)
        case File(_) => if |pending| == 1 then Leaf(d, pending[0], links) else Fail(NotADirectory(create))
  }

  /** The walk's result is the place, unless a directory on the way is missing and `create` makes it. */
  predicate Agrees(r: Outcome, p: Place, create: bool) {
    match p
    case Fail(code) => (create && code == 92) || r == Exit(code)
    case In(d, _) => r.At? && |r.stack| > 0 && Top(r.stack) == d && r.name.None?
    case Leaf(d, name, _) => r.At? && |r.stack| > 0 && Top(r.stack) == d && r.name == Some(name)
  }

  /** Each descriptor on the stack was opened in the one below it. */
  predicate Chained(w: World, parent: Inode -> Inode, stack: seq<Inode>) {
    forall i | 0 < i < |stack| :: stack[i] != w.root && parent(stack[i]) == stack[i - 1]
  }

  /** On an unchanged tree the rest of the walk leads to `there` (or the walk is making directories). */
  ghost predicate OnTrack(w: World, parent: Inode -> Inode, s: Walker, create: bool, there: Place) {
    || (create && there == Fail(92))
    || (|s.stack| > 0 && Chained(w, parent, s.stack) && s.hops <= MAX_LINKS
        && there == Flat(w, parent, Top(s.stack), s.pending, s.hops, create))
  }

  lemma RootIsSound(w: World)
    requires Confined(w)
    ensures w.inside(w.root)
  {
  }

  lemma StartsOnTrack(w: World, parent: Inode -> Inode, s: Walker, create: bool)
    requires s.stack == [w.root] && s.hops == 0
    ensures OnTrack(w, parent, s, create, Resolve(w, parent, w.root, s.pending, 0, create))
  {
    FlatIsResolve(w, parent, w.root, s.pending, 0, create);
  }

  lemma EndsOnTrack(w: World, parent: Inode -> Inode, s: Walker, create: bool, there: Place)
    requires s.pending == [] && |s.stack| > 0 && OnTrack(w, parent, s, create, there)
    ensures Agrees(At(s.stack, None), there, create)
  {
  }

  lemma FollowStaysOnTrack(w: World, parent: Inode -> Inode, s: Walker, create: bool, there: Place)
    requires Still(w, parent) && Sound(w, s) && s.pending != [] && OnTrack(w, parent, s, create, there)
    requires s.pending[0] != ".." && s.hops + 1 <= MAX_LINKS
    requires var info := Stat(w, s.calls, Top(s.stack), s.pending[0]); info.Some? && info.value.Link?
    ensures match Follow(w, s.(pending := s.pending[1..], hops := s.hops + 1, calls := s.calls + 1), s.pending[0])
      case Return(r) => Agrees(r, there, create)
      case Continue(t) => OnTrack(w, parent, t, create, there)
  {
    assert w.tree(s.calls) == w.tree(0) == w.tree(s.calls + 1);
  }

  lemma UpStaysOnTrack(w: World, parent: Inode -> Inode, s: Walker, create: bool, there: Place)
    requires Still(w, parent) && Sound(w, s) && s.pending != [] && OnTrack(w, parent, s, create, there)
    requires s.pending[0] == ".."
    ensures match TakeTurn(w, s, create)
      case Return(r) => Agrees(r, there, create)
      case Continue(t) => OnTrack(w, parent, t, create, there)
  {
  }

  lemma ChildStaysOnTrack(w: World, parent: Inode -> Inode, s: Walker, create: bool, there: Place)
    requires Still(w, parent) && Sound(w, s) && s.pending != [] && OnTrack(w, parent, s, create, there)
    requires s.pending[0] != ".."
    requires var info := Stat(w, s.calls, Top(s.stack), s.pending[0]); info.None? || !info.value.Link?
    ensures match TakeTurn(w, s, create)
      case Return(r) => Agrees(r, there, create)
      case Continue(t) => OnTrack(w, parent, t, create, there)
  {
    assert w.tree(s.calls) == w.tree(0) == w.tree(s.calls + 1);
  }

  lemma TurnStaysOnTrack(w: World, parent: Inode -> Inode, s: Walker, create: bool, there: Place)
    requires Still(w, parent) && Sound(w, s) && s.pending != [] && OnTrack(w, parent, s, create, there)
    ensures match TakeTurn(w, s, create)
      case Return(r) => Agrees(r, there, create)
      case Continue(t) => OnTrack(w, parent, t, create, there)
  {
    if s.pending[0] == ".." {
      UpStaysOnTrack(w, parent, s, create, there);
    } else {
      var info := Stat(w, s.calls, Top(s.stack), s.pending[0]);
      if info.None? || !info.value.Link? {
        ChildStaysOnTrack(w, parent, s, create, there);
      } else if s.hops + 1 <= MAX_LINKS {
        FollowStaysOnTrack(w, parent, s, create, there);
      } else {
        assert w.tree(s.calls) == w.tree(0);
      }
    }
  }

  /** Walking `a` with `b` pending is resolving `a`, entering what it names, and walking `b` from there. */
  lemma {:induction false} FlatSplits(w: World, parent: Inode -> Inode, d: Inode, a: seq<string>, b: seq<string>,
                                      links: nat, create: bool)
    requires b != []
    ensures var at := Enter(w, Resolve(w, parent, d, a, links, create), create);
      Flat(w, parent, d, a + b, links, create) == if at.Fail? then at else Flat(w, parent, at.dir, b, at.links, create)
    decreases MAX_LINKS + 1 - links, |a|
  {
    if a == [] {
      assert a + b == b;
    } else {
      assert (a + b)[0] == a[0] && (a + b)[1..] == a[1..] + b;
      if a[0] == ".." {
        if d != w.root {
          FlatSplits(w, parent, parent(d), a[1..], b, links, create);
        }
      } else {
        match LookUp(w, w.tree(0), d, a[0])
        case None =>
        case Some(i) =>
          match w.tree(0)(i)
          case Link(target) =>
            if links + 1 <= MAX_LINKS && !(Absolute(target) && !UnderRoot(w, target)) {
              var start := if Absolute(target) then w.root else d;
              var inner := if Absolute(target) then Below(w, target) else Parts(target);
              LinkSplits(w, parent, start, inner, a[1..], b, links, create);
            }
          case Directory(_) =>
            if |a| > 1 {
              FlatSplits(w, parent, i, a[1..], b, links, create);
            } else {
              assert a[1..] + b == b;
            }
          case File(_) =>
      }
    }
  }

  /** The same behind a link: its components, then the rest of `a`, then `b`. */
  lemma {:induction false} LinkSplits(w: World, parent: Inode -> Inode, start: Inode, inner: seq<string>,
                                      rest: seq<string>, b: seq<string>, links: nat, create: bool)
    requires b != [] && links + 1 <= MAX_LINKS
    ensures var at := Enter(w, Resolve(w, parent, start, inner, links + 1, create), create);
      Flat(w, parent, start, inner + (rest + b), links + 1, create) ==
        if at.Fail? then at
        else if rest == [] then Flat(w, parent, at.dir, b, at.links, create)
        else
          var end := Enter(w, Resolve(w, parent, at.dir, rest, at.links, create), create);
          if end.Fail? then end else Flat(w, parent, end.dir, b, end.links, create)
    decreases MAX_LINKS + 1 - links, 0
  {
    FlatSplits(w, parent, start, inner, rest + b, links + 1, create);
    var at := Enter(w, Resolve(w, parent, start, inner, links + 1, create), create);
    if at.In? {
      if rest == [] {
        assert rest + b == b;
      } else {
        FlatSplits(w, parent, at.dir, rest, b, at.links, create);
      }
    }
  }

  /** Prepending a link's components to the pending ones is resolving paths recursively. */
  lemma {:induction false} FlatIsResolve(w: World, parent: Inode -> Inode, d: Inode, comps: seq<string>, links: nat,
                                         create: bool)
    ensures Flat(w, parent, d, comps, links, create) == Resolve(w, parent, d, comps, links, create)
    decreases MAX_LINKS + 1 - links, |comps|
  {
    if comps != [] {
      if comps[0] == ".." {
        if d != w.root {
          FlatIsResolve(w, parent, parent(d), comps[1..], links, create);
        }
      } else {
        match LookUp(w, w.tree(0), d, comps[0])
        case None =>
        case Some(i) =>
          match w.tree(0)(i)
          case Link(target) =>
            if links + 1 <= MAX_LINKS && !(Absolute(target) && !UnderRoot(w, target)) {
              var start := if Absolute(target) then w.root else d;
              var inner := if Absolute(target) then Below(w, target) else Parts(target);
              LinkIsResolve(w, parent, start, inner, comps[1..], links, create);
            }
          case Directory(_) =>
            if |comps| > 1 {
              FlatIsResolve(w, parent, i, comps[1..], links, create);
            }
          case File(_) =>
      }
    }
  }

  /** The same behind a link: its components, then the rest. */
  lemma {:induction false} LinkIsResolve(w: World, parent: Inode -> Inode, start: Inode, inner: seq<string>,
                                         rest: seq<string>, links: nat, create: bool)
    requires links + 1 <= MAX_LINKS
    ensures Flat(w, parent, start, inner + rest, links + 1, create) ==
      if rest == [] then Resolve(w, parent, start, inner, links + 1, create)
      else
        var at := Enter(w, Resolve(w, parent, start, inner, links + 1, create), create);
        if at.Fail? then at else Resolve(w, parent, at.dir, rest, at.links, create)
    decreases MAX_LINKS + 1 - links, 0
  {
    if rest == [] {
      assert inner + rest == inner;
      FlatIsResolve(w, parent, start, inner, links + 1, create);
    } else {
      FlatSplits(w, parent, start, inner, rest, links + 1, create);
      var at := Enter(w, Resolve(w, parent, start, inner, links + 1, create), create);
      if at.In? {
        FlatIsResolve(w, parent, at.dir, rest, at.links, create);
      }
    }
  }

  // ----- a tree that grows -----------------------------------------------------------------------

  /** What is there stays: an entry names the same, a link leads to the same, a directory stays one and may gain entries.
      So it is when nobody but the walk itself changes the tree. */
  ghost predicate Grows(w: World, parent: Inode -> Inode) {
    && (forall k, n, d, name | k <= n && w.tree(k)(d).Directory? && name in w.tree(k)(d).entries ::
          Stays(w.tree(k), w.tree(n), d, name))
    && (forall k, d, name | w.tree(k)(d).Directory? && name in w.tree(k)(d).entries ::
          var child := w.tree(k)(d).entries[name];
          w.tree(k)(child).Directory? ==> parent(child) == d && child != w.root)
  }

  ghost predicate Stays(t: Tree, u: Tree, d: Inode, name: string)
    requires t(d).Directory? && name in t(d).entries
  {
    var i := t(d).entries[name];
    && u(d).Directory? && name in u(d).entries && u(d).entries[name] == i
    && (if t(i).Directory? then u(i).Directory? else u(i) == t(i))
  }

  /** The world in which the tree is always what the n-th call saw. */
  function Frozen(w: World, n: nat): World {
    w.(tree := k => w.tree(n))
  }

  /** The rest of a walk, and a whole path, in the tree of the n-th call. */
  function FlatAt(w: World, n: nat, parent: Inode -> Inode, d: Inode, pending: seq<string>, links: nat): Place {
    Flat(Frozen(w, n), parent, d, pending, links, false)
  }

  function ResolveAt(w: World, n: nat, parent: Inode -> Inode, comps: seq<string>): Place {
    Resolve(Frozen(w, n), parent, w.root, comps, 0, false)
  }

  /** The last call that looked at the place found. */
  function LastLook(r: Outcome, calls: nat): nat {
    if r.At? && r.name.Some? && calls > 0 then calls - 1 else calls
  }

  /** In every tree from now on, the rest of the walk leads to where the whole path leads. */
  ghost predicate OnPath(w: World, parent: Inode -> Inode, s: Walker, links: nat, comps: seq<string>) {
    && |s.stack| > 0 && s.stack[0] == w.root && Chained(w, parent, s.stack) && links <= s.hops
    && forall n: nat | n >= s.calls ::
         ResolveAt(w, n, parent, comps) == FlatAt(w, n, parent, Top(s.stack), s.pending, links)
  }

  lemma StartsOnPath(w: World, parent: Inode -> Inode, s: Walker)
    requires s.stack == [w.root] && s.hops == 0
    ensures OnPath(w, parent, s, 0, s.pending)
  {
    forall n: nat
      ensures ResolveAt(w, n, parent, s.pending) == FlatAt(w, n, parent, w.root, s.pending, 0)
    {
      FlatIsResolve(Frozen(w, n), parent, w.root, s.pending, 0, false);
    }
  }

  lemma EndsOnPath(w: World, parent: Inode -> Inode, s: Walker, links: nat, comps: seq<string>)
    requires s.pending == [] && OnPath(w, parent, s, links, comps)
    ensures Agrees(At(s.stack, None), ResolveAt(w, s.calls, parent, comps), false)
  {
  }

  /** The links followed after one more turn. */
  function NextLinks(w: World, s: Walker, links: nat): nat
    requires |s.stack| > 0 && s.pending != []
  {
    var name := s.pending[0];
    if name == ".." then links
    else
      match Stat(w, s.calls, Top(s.stack), name)
      case Some(Link(_)) => links + 1
      case _ => links
  }

  lemma StaysThere(w: World, parent: Inode -> Inode, k: nat, n: nat, d: Inode, name: string)
    requires Grows(w, parent) && k <= n && Plain(name) && LookUp(w, w.tree(k), d, name).Some?
    ensures var i := LookUp(w, w.tree(k), d, name).value;
      && LookUp(w, w.tree(n), d, name) == Some(i)
      && (if w.tree(k)(i).Directory? then w.tree(n)(i).Directory? && parent(i) == d && i != w.root else w.tree(n)(i) == w.tree(k)(i))
  {
    assert Stays(w.tree(k), w.tree(n), d, name);
  }

  lemma UpStaysOnPath(w: World, parent: Inode -> Inode, s: Walker, create: bool, links: nat, comps: seq<string>)
    requires Sound(w, s) && s.pending != [] && s.pending[0] == ".." && OnPath(w, parent, s, links, comps)
    ensures var turn := TakeTurn(w, s, create);
      if turn.Return? then turn.outcome == Exit(91) else OnPath(w, parent, turn.next, links, comps)
  {
  }

  lemma LinkStaysOnPath(w: World, parent: Inode -> Inode, s: Walker, links: nat, comps: seq<string>)
    requires Grows(w, parent) && Sound(w, s) && s.pending != [] && OnPath(w, parent, s, links, comps)
    requires s.pending[0] != ".." && s.hops + 1 <= MAX_LINKS
    requires var info := Stat(w, s.calls, Top(s.stack), s.pending[0]); info.Some? && info.value.Link?
    ensures var turn := Follow(w, s.(pending := s.pending[1..], hops := s.hops + 1, calls := s.calls + 1), s.pending[0]);
      if turn.Return? then turn.outcome.Exit? else OnPath(w, parent, turn.next, links + 1, comps)
  {
    var d, name := Top(s.stack), s.pending[0];
    forall n: nat | n >= s.calls
      ensures LookUp(w, w.tree(n), d, name) == LookUp(w, w.tree(s.calls), d, name)
      ensures Stat(w, n, d, name) == Stat(w, s.calls, d, name)
    {
      StaysThere(w, parent, s.calls, n, d, name);
    }
    LinkFlattens(w, parent, s, links, Stat(w, s.calls, d, name).value.target);
  }

  lemma LinkFlattens(w: World, parent: Inode -> Inode, s: Walker, links: nat, target: string)
    requires |s.stack| > 0 && s.pending != [] && s.pending[0] != ".." && links + 1 <= MAX_LINKS
    requires forall n: nat | n >= s.calls :: Stat(w, n, Top(s.stack), s.pending[0]) == Some(Link(target))
    ensures forall n: nat | n >= s.calls ::
      FlatAt(w, n, parent, Top(s.stack), s.pending, links) ==
        if !Absolute(target) then FlatAt(w, n, parent, Top(s.stack), Parts(target) + s.pending[1..], links + 1)
        else if !UnderRoot(w, target) then Fail(91)
        else FlatAt(w, n, parent, w.root, Below(w, target) + s.pending[1..], links + 1)
  {
    forall n: nat | n >= s.calls
      ensures FlatAt(w, n, parent, Top(s.stack), s.pending, links) ==
        if !Absolute(target) then FlatAt(w, n, parent, Top(s.stack), Parts(target) + s.pending[1..], links + 1)
        else if !UnderRoot(w, target) then Fail(91)
        else FlatAt(w, n, parent, w.root, Below(w, target) + s.pending[1..], links + 1)
    {
      assert Stat(w, n, Top(s.stack), s.pending[0]) == Some(Link(target));
    }
  }

  lemma ChildStaysOnPath(w: World, parent: Inode -> Inode, s: Walker, create: bool, links: nat, comps: seq<string>)
    requires Grows(w, parent) && Sound(w, s) && s.pending != [] && OnPath(w, parent, s, links, comps)
    requires s.pending[0] != ".."
    requires var info := Stat(w, s.calls, Top(s.stack), s.pending[0]); info.None? || !info.value.Link?
    ensures var turn := TakeTurn(w, s, create);
      if turn.Continue? then OnPath(w, parent, turn.next, links, comps)
      else turn.outcome.At? ==> turn.outcome.name.Some? && Agrees(turn.outcome, ResolveAt(w, s.calls, parent, comps), false)
  {
    var d, name := Top(s.stack), s.pending[0];
    var found := LookUp(w, w.tree(s.calls), d, name);
    if found.Some? {
      forall n: nat | n >= s.calls
        ensures LookUp(w, w.tree(n), d, name) == found && (w.tree(s.calls)(found.value).Directory? ==> w.tree(n)(found.value).Directory?)
      {
        StaysThere(w, parent, s.calls, n, d, name);
      }
      StaysThere(w, parent, s.calls, s.calls, d, name);
    }
  }

  lemma TurnStaysOnPath(w: World, parent: Inode -> Inode, s: Walker, create: bool, links: nat, comps: seq<string>)
    requires Grows(w, parent) && Sound(w, s) && s.pending != [] && OnPath(w, parent, s, links, comps)
    ensures var turn := TakeTurn(w, s, create);
      if turn.Continue? then OnPath(w, parent, turn.next, NextLinks(w, s, links), comps)
      else turn.outcome.At? ==> turn.outcome.name.Some? && Agrees(turn.outcome, ResolveAt(w, s.calls, parent, comps), false)
  {
    hide FlatAt, ResolveAt, OnPath, Grows;
    if s.pending[0] == ".." {
      UpStaysOnPath(w, parent, s, create, links, comps);
    } else {
      var info := Stat(w, s.calls, Top(s.stack), s.pending[0]);
      if info.None? || !info.value.Link? {
        ChildStaysOnPath(w, parent, s, create, links, comps);
      } else if s.hops + 1 <= MAX_LINKS {
        LinkStaysOnPath(w, parent, s, links, comps);
      }
    }
  }

  /** Where missing directories can be made, a walk below the limit of hops fails only if the whole path does. */
  lemma TurnFails(w: World, parent: Inode -> Inode, s: Walker, create: bool, links: nat, comps: seq<string>)
    requires Grows(w, parent) && Sound(w, s) && s.pending != [] && OnPath(w, parent, s, links, comps)
    ensures var turn := TakeTurn(w, s, create);
      create && MakesDirectories(w) && turn.Return? && turn.outcome.Exit? && s.hops < MAX_LINKS ==>
        ResolveAt(w, s.calls, parent, comps).Fail?
  {
    var d, name := Top(s.stack), s.pending[0];
    if name != ".." {
      var found := LookUp(w, w.tree(s.calls), d, name);
      if found.Some? {
        StaysThere(w, parent, s.calls, s.calls + 1, d, name);
      }
    }
    assert ResolveAt(w, s.calls, parent, comps) == FlatAt(w, s.calls, parent, d, s.pending, links);
  }

  /** An empty workspace in which the second call of the walk makes "a". */
  function MakingA(): World {
    World(k => i => if i == 0 then Directory(if k < 2 then map[] else map["a" := 1])
                    else if i == 1 && k >= 2 then Directory(map[])
                    else File(true),
          0, "/workspace", i => i < 10, 10, k => 9, k => false)
  }

  /** Such a walk: "a" is missing, made, found and entered, and "b" is left to be opened in it. */
  lemma AWalkMakesADirectory()
    ensures var w, parent := MakingA(), i => 0; Confined(w) && Grows(w, parent) && MakesDirectories(w)
    ensures TakeTurn(MakingA(), Walker([0], ["a", "b"], 0, 0), true) == Continue(Walker([0], ["a", "b"], 1, 2))
    ensures TakeTurn(MakingA(), Walker([0], ["a", "b"], 1, 2), true) == Continue(Walker([0, 1], ["b"], 1, 4))
    ensures TakeTurn(MakingA(), Walker([0, 1], ["b"], 1, 4), true) == Return(At([0, 1], Some("b")))
  {
    var w := MakingA();
    assert Plain("a") && Plain("b");
    assert ["a", "b"][1..] == ["b"] && ["b"][1..] == [];
    forall k: nat, n: nat, d, name | k <= n && w.tree(k)(d).Directory? && name in w.tree(k)(d).entries
      ensures Stays(w.tree(k), w.tree(n), d, name)
    {
      assert d == 0 && name == "a";
    }
  }

  // ----- what paths mean -------------------------------------------------------------------------

  /** The directory that the path `x` leads to from the root, with the links followed on the way; None if it fails. */
  function DirectoryOf(w: World, parent: Inode -> Inode, x: string, create: bool): Place {
    Enter(w, Resolve(w, parent, w.root, Parts(x), 0, create), create)
  }

  /** What follows a path to a directory is resolved from there. */
  lemma PathGoesOn(w: World, parent: Inode -> Inode, x: string, y: string, create: bool)
    requires Parts(y) != []
    ensures var at := DirectoryOf(w, parent, x, create);
      Resolve(w, parent, w.root, Parts(x + "/" + y), 0, create) ==
        if at.Fail? then at else Resolve(w, parent, at.dir, Parts(y), at.links, create)
  {
    PartsJoin(x, y);
    FlatIsResolve(w, parent, w.root, Parts(x + "/" + y), 0, create);
    FlatSplits(w, parent, w.root, Parts(x), Parts(y), 0, create);
    var at := DirectoryOf(w, parent, x, create);
    if at.In? {
      FlatIsResolve(w, parent, at.dir, Parts(y), at.links, create);
    }
  }

  /** A directory entered and left again by ".." makes no difference. */
  lemma DotDotGoesBack(w: World, parent: Inode -> Inode, x: string, name: string, y: string, create: bool)
    requires Still(w, parent) && Plain(name) && Parts(y) != [] && DirectoryOf(w, parent, x, create).In?
    requires var found := LookUp(w, w.tree(0), DirectoryOf(w, parent, x, create).dir, name);
      found.Some? && w.tree(0)(found.value).Directory?
    ensures Resolve(w, parent, w.root, Parts(x + "/" + (name + "/" + (".." + "/" + y))), 0, create)
      == Resolve(w, parent, w.root, Parts(x + "/" + y), 0, create)
  {
    hide Parts;
    var back := ".." + "/" + y;
    PartsJoin("..", y);
    PartsOfName("..");
    PartsJoin(name, back);
    PartsOfName(name);
    PathGoesOn(w, parent, x, y, create);
    PathGoesOn(w, parent, x, name + "/" + back, create);
    var at := DirectoryOf(w, parent, x, create);
    var comps := Parts(name + "/" + back);
    assert comps == [name] + ([".."] + Parts(y));
    assert comps[1..] == [".."] + Parts(y) && comps[1..][1..] == Parts(y);
  }

  /** ".." leads from a directory to the one it is in, and out of the workspace from its root: there it is refused. */
  lemma DotDotAtRoot(w: World, parent: Inode -> Inode, x: string, y: string, create: bool)
    requires DirectoryOf(w, parent, x, create).In?
    ensures var at := DirectoryOf(w, parent, x, create);
      Resolve(w, parent, w.root, Parts(x + "/" + (".." + "/" + y)), 0, create) ==
        if at.dir == w.root then Fail(91) else Resolve(w, parent, parent(at.dir), Parts(y), at.links, create)
  {
    hide Parts;
    PartsJoin("..", y);
    PartsOfName("..");
    PathGoesOn(w, parent, x, ".." + "/" + y, create);
    assert ([".."] + Parts(y))[1..] == Parts(y);
  }

  /** A link means the text of its target in its place: from its own directory, or from the root when it is absolute; a
      target outside the workspace is refused, and so is the 41st link. */
  lemma LinkMeansTarget(w: World, parent: Inode -> Inode, x: string, name: string, y: string, create: bool)
    requires Plain(name) && DirectoryOf(w, parent, x, create).In?
    requires var found := LookUp(w, w.tree(0), DirectoryOf(w, parent, x, create).dir, name);
      found.Some? && w.tree(0)(found.value).Link?
    ensures var at := DirectoryOf(w, parent, x, create);
      var target := w.tree(0)(LookUp(w, w.tree(0), at.dir, name).value).target;
      Resolve(w, parent, w.root, Parts(x + "/" + (name + "/" + y)), 0, create) ==
        if at.links + 1 > MAX_LINKS then Fail(90)
        else if !Absolute(target) then Resolve(w, parent, at.dir, Parts(target + "/" + y), at.links + 1, create)
        else if !UnderRoot(w, target) then Fail(91)
        else Resolve(w, parent, w.root, Parts(target[|w.rootPath|..] + "/" + y), at.links + 1, create)
  {
    hide Parts;
    PartsJoin(name, y);
    PartsOfName(name);
    PathGoesOn(w, parent, x, name + "/" + y, create);
    var at := DirectoryOf(w, parent, x, create);
    var target := w.tree(0)(LookUp(w, w.tree(0), at.dir, name).value).target;
    var comps := Parts(name + "/" + y);
    assert comps == [name] + Parts(y) && comps[1..] == Parts(y);
    FlatIsResolve(w, parent, at.dir, comps, at.links, create);
    PartsJoin(target, y);
    FlatIsResolve(w, parent, at.dir, Parts(target + "/" + y), at.links + 1, create);
    if Absolute(target) && UnderRoot(w, target) {
      PartsJoin(target[|w.rootPath|..], y);
      FlatIsResolve(w, parent, w.root, Parts(target[|w.rootPath|..] + "/" + y), at.links + 1, create);
    }
  }

  /** A workspace with a directory "a" and a file "b". */
  function TwoEntries(): World {
    World(k => i => if i == 0 then Directory(map["a" := 1, "b" := 2]) else if i == 1 then Directory(map[]) else File(true),
          0, "/workspace", i => i < 10, 10, k => 9, k => false)
  }

  /** "/workspace/a/../b" is the file "b" of the workspace. */
  lemma ABackAndB()
    ensures UnderRoot(TwoEntries(), "/workspace/a/../b")
    ensures Resolve(TwoEntries(), i => 0, 0, Below(TwoEntries(), "/workspace/a/../b"), 0, false) == Leaf(0, "b", 0)
    ensures ReadAt(TwoEntries(), Leaf(0, "b", 0)) == Content(2)
  {
    hide Parts;
    var path := "/workspace/a/../b";
    assert path[..11] == "/workspace/" && path[10..] == "" + "/" + ("a" + "/" + (".." + "/" + "b"));
    PartsOfName("");
    PartsOfName("a");
    PartsOfName("..");
    PartsOfName("b");
    PartsJoin("..", "b");
    PartsJoin("a", ".." + "/" + "b");
    PartsJoin("", "a" + "/" + (".." + "/" + "b"));
    var comps := Parts(path[10..]);
    assert comps == ["a", "..", "b"] && comps[1..] == ["..", "b"] && comps[1..][1..] == ["b"];
  }

  lemma TwoEntriesStay()
    ensures Confined(TwoEntries()) && Still(TwoEntries(), i => 0)
  {
    var w := TwoEntries();
    forall k
      ensures w.tree(k) == w.tree(0)
    {
    }
  }

  /** And so it is read. */
  method ReadBackAndB() returns (a: Answer)
    ensures a == Content(2)
  {
    hide Resolve, Below, Parts;
    TwoEntriesStay();
    ABackAndB();
    a := Read(TwoEntries(), "/workspace/a/../b", i => 0);
  }
}
