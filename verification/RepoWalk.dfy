/** The walk over a directory git does not keep: breadth first, under a ceiling. */
module RepoWalk {
  import opened Options
  import opened Sequences

  type Path = seq<string>

  /** What a directory holds, in the order of the names. A directory link is not followed; a lost entry is one whose kind
      could not be read. */
  datatype Node =
    | File(name: string)
    | DirLink(name: string)
    | Lost(name: string)
    | Dir(name: string, readable: bool, entries: seq<Node>)

  /** A directory in the queue. */
  datatype Place = Place(path: Path, readable: bool, entries: seq<Node>)

  const MAX_WALKED := 50_000
  const UNWALKED := {".git", "node_modules", ".venv", "venv", "__pycache__"}

  function FileOf(path: Path, e: Node): seq<Path> {
    if e.File? then [path + [e.name]] else []
  }

  /** A directory that is walked, to be opened in its turn. */
  function DirOf(path: Path, e: Node): seq<Place> {
    if e.Dir? && e.name !in UNWALKED then [Place(path + [e.name], e.readable, e.entries)] else []
  }

  /** The files a directory holds itself. */
  function FilesIn(path: Path, entries: seq<Node>): seq<Path> {
    if entries == [] then []
    else FilesIn(path, entries[..|entries| - 1]) + FileOf(path, entries[|entries| - 1])
  }

  /** The directories in it that are walked. */
  function DirsIn(path: Path, entries: seq<Node>): seq<Place> {
    if entries == [] then []
    else DirsIn(path, entries[..|entries| - 1]) + DirOf(path, entries[|entries| - 1])
  }

  function Size(entries: seq<Node>): nat {
    if entries == [] then 0
    else
      Size(entries[..|entries| - 1]) + NodeSize(entries[|entries| - 1])
  }

  function NodeSize(e: Node): nat {
    if e.Dir? then 1 + Size(e.entries) else 1
  }

  function QueueSize(queue: seq<Place>): nat {
    if queue == [] then 0 else QueueSize(queue[..|queue| - 1]) + 1 + Size(queue[|queue| - 1].entries)
  }

  lemma {:induction false} QueueSizeConcat(a: seq<Place>, b: seq<Place>)
    ensures QueueSize(a + b) == QueueSize(a) + QueueSize(b)
  {
    if b == [] {
      assert a + b == a;
    } else {
      QueueSizeConcat(a, b[..|b| - 1]);
      ConcatLast(a, b);
    }
  }

  lemma {:induction false} DirsAreSmaller(path: Path, entries: seq<Node>)
    ensures QueueSize(DirsIn(path, entries)) <= Size(entries)
  {
    if entries != [] {
      var n := |entries| - 1;
      DirsAreSmaller(path, entries[..n]);
      QueueSizeConcat(DirsIn(path, entries[..n]), DirOf(path, entries[n]));
      DirIsSmaller(path, entries[n]);
    }
  }

  lemma DirIsSmaller(path: Path, e: Node)
    ensures QueueSize(DirOf(path, e)) <= NodeSize(e)
  {
    if DirOf(path, e) != [] {
      QueueOne(DirOf(path, e)[0]);
    }
  }

  lemma QueueOne(p: Place)
    ensures QueueSize([p]) == 1 + Size(p.entries)
  {
    assert [p][..0] == [];
  }

  /** What the queue is once its first directory is opened. */
  function Next(queue: seq<Place>): seq<Place>
    requires queue != []
  {
    var p := queue[0];
    if p.readable then queue[1..] + DirsIn(p.path, p.entries) else queue[1..]
  }

  lemma NextIsSmaller(queue: seq<Place>)
    requires queue != []
    ensures QueueSize(Next(queue)) < QueueSize(queue)
  {
    var p := queue[0];
    DirsAreSmaller(p.path, p.entries);
    QueueSizeConcat([p], queue[1..]);
    QueueOne(p);
    assert [p] + queue[1..] == queue;
    QueueSizeConcat(queue[1..], DirsIn(p.path, p.entries));
  }

  function Opened(p: Place): seq<Path> {
    if p.readable then FilesIn(p.path, p.entries) else []
  }

  /** The files a walk finds from a queue on, with no ceiling. */
  function Walk(queue: seq<Place>): seq<Path>
    decreases QueueSize(queue)
  {
    if queue == [] then []
    else
      NextIsSmaller(queue);
      Opened(queue[0]) + Walk(Next(queue))
  }

  /** How many entries a walk sees, with no ceiling. */
  function Seen(queue: seq<Place>): nat
    decreases QueueSize(queue)
  {
    if queue == [] then 0
    else
      NextIsSmaller(queue);
      (if queue[0].readable then |queue[0].entries| else 0) + Seen(Next(queue))
  }

  /** The files under a directory, directory within directory: every file in a readable directory that is walked. */
  function Under(path: Path, entries: seq<Node>): multiset<Path>
    decreases entries
  {
    if entries == [] then multiset{}
    else
      var e := entries[|entries| - 1];
      Under(path, entries[..|entries| - 1]) + UnderNode(path, e)
  }

  function UnderPlace(p: Place): multiset<Path> {
    if p.readable then Under(p.path, p.entries) else multiset{}
  }

  function UnderAll(queue: seq<Place>): multiset<Path> {
    if queue == [] then multiset{} else UnderAll(queue[..|queue| - 1]) + UnderPlace(queue[|queue| - 1])
  }

  lemma UnderStep(queue: seq<Place>, rest: seq<Place>, last: Place)
    requires queue != [] && rest == queue[..|queue| - 1] && last == queue[|queue| - 1]
    ensures UnderAll(queue) == UnderAll(rest) + UnderPlace(last)
  {
  }

  lemma {:induction false} UnderAllConcat(a: seq<Place>, b: seq<Place>)
    ensures UnderAll(a + b) == UnderAll(a) + UnderAll(b)
  {
    if b == [] {
      assert a + b == a;
    } else {
      var rest, last := b[..|b| - 1], b[|b| - 1];
      UnderAllConcat(a, rest);
      ConcatLast(a, b);
      UnderStep(b, rest, last);
      UnderStep(a + b, a + rest, last);
    }
  }

  lemma UnderOne(p: Place)
    ensures UnderAll([p]) == UnderPlace(p)
  {
    assert [p][..0] == [];
  }

  lemma {:induction false} UnderIsFilesAndDirs(path: Path, entries: seq<Node>)
    ensures Under(path, entries) == multiset(FilesIn(path, entries)) + UnderAll(DirsIn(path, entries))
  {
    if entries != [] {
      var n := |entries| - 1;
      UnderIsFilesAndDirs(path, entries[..n]);
      UnderAllConcat(DirsIn(path, entries[..n]), DirOf(path, entries[n]));
      UnderNodeIs(path, entries[n]);
    }
  }

  function UnderNode(path: Path, e: Node): multiset<Path>
    decreases e
  {
    match e
    case File(name) => multiset{path + [name]}
    case Dir(name, readable, inner) => if readable && name !in UNWALKED then Under(path + [name], inner) else multiset{}
    case DirLink(_) => multiset{}
    case Lost(_) => multiset{}
  }

  lemma UnderNodeIs(path: Path, e: Node)
    ensures UnderNode(path, e) == multiset(FileOf(path, e)) + UnderAll(DirOf(path, e))
  {
    if DirOf(path, e) != [] {
      UnderOne(DirOf(path, e)[0]);
    }
  }

  /** A walk with no ceiling finds exactly the files under the directories of its queue, each once. */
  lemma {:induction false} WalkFindsAll(queue: seq<Place>)
    ensures multiset(Walk(queue)) == UnderAll(queue)
    decreases QueueSize(queue)
  {
    if queue != [] {
      NextIsSmaller(queue);
      WalkFindsAll(Next(queue));
      UnderNext(queue);
      assert multiset(Walk(queue)) == multiset(Opened(queue[0])) + multiset(Walk(Next(queue)));
    }
  }

  lemma UnderNext(queue: seq<Place>)
    requires queue != []
    ensures UnderAll(queue) == multiset(Opened(queue[0])) + UnderAll(Next(queue))
  {
    var p := queue[0];
    UnderFirst(queue);
    if p.readable {
      UnderIsFilesAndDirs(p.path, p.entries);
      UnderAllConcat(queue[1..], DirsIn(p.path, p.entries));
    }
  }

  lemma UnderFirst(queue: seq<Place>)
    requires queue != []
    ensures UnderAll(queue) == UnderPlace(queue[0]) + UnderAll(queue[1..])
  {
    UnderAllConcat([queue[0]], queue[1..]);
    assert [queue[0]] + queue[1..] == queue;
    UnderOne(queue[0]);
  }

  /** Directories of a queue, none deeper than the one before and none more than one level below the first. */
  ghost predicate Level(queue: seq<Place>) {
    && (forall i, j | 0 <= i < j < |queue| :: |queue[i].path| <= |queue[j].path|)
    && (forall i | 0 <= i < |queue| :: |queue[i].path| <= |queue[0].path| + 1)
  }

  lemma {:induction false} DirsAreBelow(path: Path, entries: seq<Node>)
    ensures forall p | p in DirsIn(path, entries) :: |p.path| == |path| + 1
    ensures forall f | f in FilesIn(path, entries) :: |f| == |path| + 1
  {
    if entries != [] {
      DirsAreBelow(path, entries[..|entries| - 1]);
    }
  }

  lemma LevelNext(queue: seq<Place>)
    requires queue != [] && Level(queue)
    ensures Level(Next(queue))
    ensures forall p | p in Next(queue) :: |p.path| >= |queue[0].path|
  {
    DirsAreBelow(queue[0].path, queue[0].entries);
    var next, dirs := Next(queue), DirsIn(queue[0].path, queue[0].entries);
    forall i | 0 <= i < |next|
      ensures |queue[0].path| <= |next[i].path| <= |queue[0].path| + 1
      ensures i >= |queue| - 1 ==> |next[i].path| == |queue[0].path| + 1
      ensures i < |queue| - 1 ==> next[i] == queue[i + 1]
    {
      if i >= |queue| - 1 {
        assert next[i] in dirs;
      }
    }
  }

  /** A walk goes level by level: no file stands before one nearer the top. */
  lemma {:induction false} WalkIsBreadthFirst(queue: seq<Place>)
    requires Level(queue)
    ensures forall i, j | 0 <= i < j < |Walk(queue)| :: |Walk(queue)[i]| <= |Walk(queue)[j]|
    ensures queue != [] ==> forall f | f in Walk(queue) :: |f| > |queue[0].path|
    decreases QueueSize(queue)
  {
    if queue != [] {
      LevelNext(queue);
      NextIsSmaller(queue);
      WalkIsBreadthFirst(Next(queue));
      var head, rest := Opened(queue[0]), Walk(Next(queue));
      DirsAreBelow(queue[0].path, queue[0].entries);
      assert Walk(queue) == head + rest;
      forall f | f in rest
        ensures |f| > |queue[0].path|
      {
        assert Next(queue) != [] && Next(queue)[0] in Next(queue);
      }
    }
  }

  /** Names in a directory are its own. */
  ghost predicate OwnNames(entries: seq<Node>) {
    && (forall i, j | 0 <= i < j < |entries| :: entries[i].name != entries[j].name)
    && (forall i | 0 <= i < |entries| :: entries[i].Dir? ==> OwnNames(entries[i].entries))
  }

  /** Files under a directory carry its path, and the name of one of its entries. */
  lemma {:induction false} UnderCarriesPath(path: Path, entries: seq<Node>)
    ensures forall f | f in Under(path, entries) ::
              |f| > |path| && f[..|path|] == path && exists i :: 0 <= i < |entries| && f[|path|] == entries[i].name
    decreases entries
  {
    if entries != [] {
      var n := |entries| - 1;
      UnderCarriesPath(path, entries[..n]);
      NodeCarriesPath(path, entries[n]);
      forall f | f in Under(path, entries)
        ensures |f| > |path| && f[..|path|] == path && exists i :: 0 <= i < |entries| && f[|path|] == entries[i].name
      {
        if f in Under(path, entries[..n]) {
          var i :| 0 <= i < n && f[|path|] == entries[..n][i].name;
          assert entries[i] == entries[..n][i];
        } else {
          assert f in UnderNode(path, entries[n]);
        }
      }
    }
  }

  lemma {:induction false} NodeCarriesPath(path: Path, e: Node)
    ensures forall f | f in UnderNode(path, e) :: |f| > |path| && f[..|path|] == path && f[|path|] == e.name
    decreases e
  {
    if e.Dir? {
      UnderCarriesPath(path + [e.name], e.entries);
      forall f | f in UnderNode(path, e)
        ensures |f| > |path| && f[..|path|] == path && f[|path|] == e.name
      {
        assert f in Under(path + [e.name], e.entries);
        PrefixSplits(f, path, e.name);
      }
    }
  }

  lemma PrefixSplits(f: Path, path: Path, name: string)
    requires |f| > |path| && f[..|path| + 1] == path + [name]
    ensures f[..|path|] == path && f[|path|] == name
  {
    assert f[..|path|] == f[..|path| + 1][..|path|];
    assert f[|path|] == f[..|path| + 1][|path|];
  }

  /** No file is found twice. */
  lemma {:induction false} EachFileOnce(path: Path, entries: seq<Node>, f: Path)
    requires OwnNames(entries)
    ensures Under(path, entries)[f] <= 1
    decreases entries
  {
    if entries != [] {
      var n := |entries| - 1;
      EachFileOnce(path, entries[..n], f);
      UnderCarriesPath(path, entries[..n]);
      NodeCarriesPath(path, entries[n]);
      if entries[n].Dir? {
        EachFileOnce(path + [entries[n].name], entries[n].entries, f);
      }
      assert f in UnderNode(path, entries[n]) ==> f !in Under(path, entries[..n]);
    }
  }

  datatype Found = Found(paths: seq<Path>, partial: bool)
  datatype Result = Read(found: Found) | Unread

  /** Every file no deeper than a directory is among those found. */
  ghost predicate ShallowerFound(all: seq<Path>, paths: seq<Path>, p: Place) {
    paths <= all && forall i | |paths| <= i < |all| :: |all[i]| > |p.path|
  }

  /** What a directory does to the paths found and the queue, until the ceiling stops it. */
  method Open(p: Place, seen: nat, max: nat) returns (files: seq<Path>, dirs: seq<Place>, seen': nat, stopped: bool)
    requires seen <= max
    ensures stopped <==> seen + |p.entries| > max
    ensures stopped ==> files == FilesIn(p.path, p.entries[..max - seen])
    ensures !stopped ==> files == FilesIn(p.path, p.entries) && dirs == DirsIn(p.path, p.entries) && seen' == seen + |p.entries|
  {
    files, dirs, seen', stopped := [], [], seen, false;
    var path, entries := p.path, p.entries;
    var i: nat := 0;
    while i < |entries|
      invariant i <= |entries| && seen' == seen + i <= max
      invariant files == FilesIn(path, entries[..i]) && dirs == DirsIn(path, entries[..i])
    {
      if seen' >= max {
        assert max - seen == i;
        stopped := true;
        return;
      }
      EntryNext(path, entries, i);
      seen' := seen' + 1;
      files, dirs := Enter(path, entries[i], files, dirs);
      i := i + 1;
    }
    assert entries[..i] == entries;
  }

  /** One entry: a directory that is walked joins the queue, a file is found, and a link or a lost entry is neither. */
  method Enter(path: Path, e: Node, files: seq<Path>, dirs: seq<Place>) returns (files': seq<Path>, dirs': seq<Place>)
    ensures files' == files + FileOf(path, e) && dirs' == dirs + DirOf(path, e)
  {
    files', dirs' := files, dirs;
    match e {
      case Dir(name, readable, entries) =>
        if name !in UNWALKED {
          dirs' := dirs' + [Place(path + [name], readable, entries)];
        }
      case DirLink(_) =>
      case Lost(_) =>
      case File(name) =>
        files' := files' + [path + [name]];
    }
  }

  lemma EntryNext(path: Path, entries: seq<Node>, i: nat)
    requires i < |entries|
    ensures FilesIn(path, entries[..i + 1]) == FilesIn(path, entries[..i]) + FileOf(path, entries[i])
    ensures DirsIn(path, entries[..i + 1]) == DirsIn(path, entries[..i]) + DirOf(path, entries[i])
  {
    assert entries[..i + 1][..i] == entries[..i];
  }

  lemma {:induction false} FilesPrefix(path: Path, entries: seq<Node>, n: nat)
    requires n <= |entries|
    ensures FilesIn(path, entries[..n]) <= FilesIn(path, entries)
  {
    if n < |entries| {
      FilesPrefix(path, entries[..|entries| - 1], n);
      assert entries[..|entries| - 1][..n] == entries[..n];
    } else {
      assert entries[..n] == entries;
    }
  }

  /** A walk under way: what is still to be opened, what is found, how many entries are seen and how many directories read. */
  datatype Stage = Stage(queue: seq<Place>, files: seq<Path>, seen: nat, read: nat)

  function Cost(p: Place): nat {
    if p.readable then |p.entries| else 0
  }

  /** One directory more is opened, if there is one. */
  function Further(g: Stage): Stage {
    if g.queue == [] then g
    else
      var p := g.queue[0];
      Stage(Next(g.queue), g.files + Opened(p), g.seen + Cost(p), g.read + if p.readable then 1 else 0)
  }

  /** The walk once its first n directories are opened, with no ceiling. */
  function After(top: Place, n: nat): Stage {
    if n == 0 then Stage([top], [], 0, 0) else Further(After(top, n - 1))
  }

  /** No directory is left. */
  predicate Done(g: Stage, max: nat, found: Found) {
    g.queue == [] && g.seen <= max && found == Found(g.files, false)
  }

  /** The ceiling stops the walk in the directory to be opened: it holds more entries than may still be seen, and those
      are seen. */
  predicate Ceiling(g: Stage, max: nat, found: Found) {
    && g.queue != [] && g.queue[0].readable && g.seen <= max < g.seen + |g.queue[0].entries|
    && found == Found(g.files + FilesIn(g.queue[0].path, g.queue[0].entries[..max - g.seen]), true)
  }

  /** The time is up once the directory to be opened is read, and there are more. */
  predicate Late(g: Stage, late: nat -> bool) {
    g.queue != [] && g.queue[0].readable && Further(g).queue != [] && late(g.read)
  }

  predicate TimeUp(g: Stage, max: nat, late: nat -> bool, found: Found) {
    Late(g, late) && Further(g).seen <= max && found == Found(Further(g).files, true)
  }

  predicate EndsIn(g: Stage, max: nat, late: nat -> bool, found: Found) {
    Done(g, max, found) || Ceiling(g, max, found) || TimeUp(g, max, late, found)
  }

  /** The time was not up once any of the first n directories was read. */
  ghost predicate InTime(top: Place, late: nat -> bool, n: nat) {
    forall m | 0 <= m < n :: !Late(After(top, m), late)
  }

  /** How a walk ends, and at which directory. */
  ghost predicate EndsAt(top: Place, max: nat, late: nat -> bool, n: nat, found: Found) {
    InTime(top, late, n) && EndsIn(After(top, n), max, late, found)
  }

  /** What is found so far and what the queue still holds make the whole walk. */
  ghost predicate Whole(all: seq<Path>, total: nat, g: Stage) {
    all == g.files + Walk(g.queue) && total == g.seen + Seen(g.queue) && Level(g.queue)
  }

  lemma {:induction false} StaysWhole(all: seq<Path>, total: nat, top: Place, n: nat)
    requires Whole(all, total, Stage([top], [], 0, 0))
    ensures Whole(all, total, After(top, n))
  {
    if n > 0 {
      StaysWhole(all, total, top, n - 1);
      FurtherIsWhole(all, total, After(top, n - 1));
    }
  }

  lemma FurtherIsWhole(all: seq<Path>, total: nat, g: Stage)
    requires Whole(all, total, g)
    ensures Whole(all, total, Further(g))
  {
    if g.queue != [] {
      OneOpened(g.queue);
      LevelNext(g.queue);
      ConcatThree(g.files, Opened(g.queue[0]), Walk(Next(g.queue)));
    }
  }

  lemma SoFar(top: Place, n: nat)
    ensures Whole(Walk([top]), Seen([top]), After(top, n))
  {
    assert [] + Walk([top]) == Walk([top]);
    StaysWhole(Walk([top]), Seen([top]), top, n);
  }

  /** With some of the first directory's files, every file no deeper than that directory is found. */
  lemma PartlyFinds(all: seq<Path>, total: nat, g: Stage, files: seq<Path>)
    requires Whole(all, total, g) && g.queue != [] && files <= Opened(g.queue[0])
    ensures ShallowerFound(all, g.files + files, g.queue[0]) && total >= g.seen + Cost(g.queue[0])
  {
    OneOpened(g.queue);
    DeeperLeft(g.queue);
    PartFound(all, g.files, Opened(g.queue[0]), files, Walk(Next(g.queue)), g.queue[0]);
  }

  /** What a walk comes to. One that is not stopped has found every file; one that is, every file no deeper than the
      directory it is stopped at, and the ceiling stops it only when there is more than it may see. */
  ghost predicate Finds(all: seq<Path>, total: nat, g: Stage, max: nat, found: Found) {
    && found.paths <= all
    && (!found.partial ==> found.paths == all && total <= max)
    && (found.partial ==> g.queue != [] && ShallowerFound(all, found.paths, g.queue[0]))
    && (Ceiling(g, max, found) ==> total > max)
  }

  lemma EndFinds(all: seq<Path>, total: nat, g: Stage, max: nat, late: nat -> bool, found: Found)
    requires Whole(all, total, g) && EndsIn(g, max, late, found)
    ensures Finds(all, total, g, max, found)
  {
    if Ceiling(g, max, found) {
      var p := g.queue[0];
      FilesPrefix(p.path, p.entries, max - g.seen);
      PartlyFinds(all, total, g, FilesIn(p.path, p.entries[..max - g.seen]));
    } else if TimeUp(g, max, late, found) {
      PartlyFinds(all, total, g, Opened(g.queue[0]));
    }
  }

  /** Where a walk stands that has opened n directories. */
  ghost predicate Stands(top: Place, max: nat, late: nat -> bool, n: nat, g: Stage) {
    g == After(top, n) && g.seen <= max && InTime(top, late, n)
  }

  lemma FurtherRead(g: Stage)
    requires g.queue != [] && g.queue[0].readable
    ensures var p := g.queue[0];
            Further(g) == Stage(g.queue[1..] + DirsIn(p.path, p.entries), g.files + FilesIn(p.path, p.entries), g.seen + |p.entries|, g.read + 1)
  {
  }

  lemma FurtherUnread(g: Stage)
    requires g.queue != [] && !g.queue[0].readable
    ensures Further(g) == Stage(g.queue[1..], g.files, g.seen, g.read)
  {
  }

  /** One directory more. */
  lemma StandsNext(top: Place, max: nat, late: nat -> bool, n: nat, g: Stage)
    requires Stands(top, max, late, n, g) && !Late(g, late) && Further(g).seen <= max
    ensures Stands(top, max, late, n + 1, Further(g))
  {
  }

  lemma StandsEnd(top: Place, max: nat, late: nat -> bool, n: nat, g: Stage, found: Found)
    requires Stands(top, max, late, n, g) && EndsIn(g, max, late, found)
    ensures EndsAt(top, max, late, n, found) && Finds(Walk([top]), Seen([top]), After(top, n), max, found)
  {
    SoFar(top, n);
    EndFinds(Walk([top]), Seen([top]), g, max, late, found);
  }

  /** The first directory of the queue is opened. It stops the walk, or the walk goes on from there. */
  method OpenNext(queue: seq<Place>, paths: seq<Path>, seen: nat, read: nat, max: nat, late: nat -> bool)
    returns (queue': seq<Place>, paths': seq<Path>, seen': nat, read': nat, stopped: bool)
    requires queue != [] && seen <= max
    ensures var g := Stage(queue, paths, seen, read);
            if stopped then EndsIn(g, max, late, Found(paths', true))
            else Further(g) == Stage(queue', paths', seen', read') && seen' <= max && !Late(g, late)
  {
    var p := queue[0];
    queue', paths', seen', read' := queue[1..], paths, seen, read;
    if p.readable {
      var files, dirs;
      files, dirs, seen', stopped := Open(p, seen, max);
      paths' := paths + files;
      if stopped {
        return;
      }
      FurtherRead(Stage(queue, paths, seen, read));
      queue' := queue' + dirs;
      stopped := queue' != [] && late(read);
      read' := read + 1;
    } else {
      FurtherUnread(Stage(queue, paths, seen, read));
      stopped := false;
    }
  }

  /** The walk. `late` says for each directory read, by its number, whether the time is up then. It ends at a directory n,
      and what it has found is told by n alone. */
  method WalkUnder(top: Place, max: nat, late: nat -> bool) returns (r: Result, ghost n: nat)
    ensures r.Unread? <==> !top.readable
    ensures r.Read? ==> EndsAt(top, max, late, n, r.found)
    ensures r.Read? ==> Finds(Walk([top]), Seen([top]), After(top, n), max, r.found)
  {
    n := 0;
    if !top.readable {
      return Unread, n;
    }
    var paths: seq<Path>, queue: seq<Place>, seen: nat, read: nat, stopped := [], [top], 0, 0, false;
    while queue != []
      invariant Stands(top, max, late, n, Stage(queue, paths, seen, read))
      decreases QueueSize(queue)
    {
      ghost var g := Stage(queue, paths, seen, read);
      NextIsSmaller(queue);
      queue, paths, seen, read, stopped := OpenNext(queue, paths, seen, read, max, late);
      if stopped {
        r := Read(Found(paths, true));
        StandsEnd(top, max, late, n, g, r.found);
        return;
      }
      StandsNext(top, max, late, n, g);
      n := n + 1;
    }
    r := Read(Found(paths, false));
    StandsEnd(top, max, late, n, Stage(queue, paths, seen, read), r.found);
  }

  /** The walk as it is asked for. While the time is never up, it stops short exactly when there is more than it may see. */
  method WalkAll(top: Place, late: nat -> bool) returns (r: Result, ghost n: nat)
    ensures r.Unread? <==> !top.readable
    ensures r.Read? ==> EndsAt(top, MAX_WALKED, late, n, r.found) && r.found.paths <= Walk([top])
    ensures r.Read? && !r.found.partial ==> r.found.paths == Walk([top])
    ensures r.Read? && r.found.partial ==>
              After(top, n).queue != [] && ShallowerFound(Walk([top]), r.found.paths, After(top, n).queue[0])
    ensures r.Read? && InTime(top, late, n + 1) ==> (r.found.partial <==> Seen([top]) > MAX_WALKED)
  {
    r, n := WalkUnder(top, MAX_WALKED, late);
  }

  lemma OneOpened(queue: seq<Place>)
    requires queue != []
    ensures Walk(queue) == Opened(queue[0]) + Walk(Next(queue))
    ensures Seen(queue) == Cost(queue[0]) + Seen(Next(queue))
  {
  }

  lemma PrefixFound(all: seq<Path>, paths: seq<Path>, head: seq<Path>, rest: seq<Path>, p: Place)
    requires all == paths + (head + rest) && forall f | f in head + rest :: |f| > |p.path|
    ensures ShallowerFound(all, paths + head, p) && all == paths + head + rest
  {
    var now := paths + head;
    assert all == now + rest;
    forall i | |now| <= i < |all|
      ensures |all[i]| > |p.path|
    {
      assert all[i] == (head + rest)[i - |paths|];
    }
  }

  /** What a walk finds after a directory is opened lies deeper than the directory. */
  lemma DeeperLeft(queue: seq<Place>)
    requires queue != [] && Level(queue)
    ensures forall f | f in Walk(queue) :: |f| > |queue[0].path|
  {
    WalkIsBreadthFirst(queue);
  }

  lemma PartFound(all: seq<Path>, paths: seq<Path>, head: seq<Path>, files: seq<Path>, rest: seq<Path>, p: Place)
    requires all == paths + (head + rest) && files <= head && forall f | f in head + rest :: |f| > |p.path|
    ensures ShallowerFound(all, paths + files, p)
  {
    var more := head[|files|..];
    assert head + rest == files + (more + rest);
    PrefixFound(all, paths, files, more + rest, p);
  }
}
