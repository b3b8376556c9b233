/** The bounded search for certificate and configuration files
    (agents/linux-host-agent/internal/collector/collector.go), for any classifier. */
module FileDiscovery {
  import opened Wrappers
  import StableSort
  import StringOrder

  const MAX_DEPTH := 3

  /** What a directory listing shows: anything that is no directory counts as a file. */
  datatype Entry =
    | File(name: string)
    | Directory(name: string, readable: bool, children: seq<Entry>)

  /** A place to search and what the file system answers for it. */
  datatype Location = Missing(path: string) | Failing(path: string) | Found(path: string, entry: Entry)

  /** The functions of the surroundings: path arithmetic, the classifier, and whether a file can be read. */
  datatype Env<!Kind> = Env(clean: string -> string, join: (string, string) -> string, classify: string -> Option<Kind>, readable: string -> bool)

  datatype IndicatorFile<Kind> = IndicatorFile(path: string, kind: Kind, readable: bool)

  // ----- which files a search comes across

  /** The files at depth `MAX_DEPTH` at most, through readable directories, in the order of the walk. */
  function FilesUnder<Kind>(env: Env<Kind>, path: string, entry: Entry, depth: nat): seq<string>
    decreases entry, 1
  {
    if depth > MAX_DEPTH then []
    else
      match entry
      case File(_) => [path]
      case Directory(_, readable, children) => if readable then FilesInChildren(env, path, entry, |children|, depth + 1) else []
  }

  function FilesInChildren<Kind>(env: Env<Kind>, path: string, dir: Entry, n: nat, depth: nat): seq<string>
    requires dir.Directory? && n <= |dir.children|
    decreases dir, 0, n
  {
    if n == 0 then []
    else
      var child := dir.children[n - 1];
      FilesInChildren(env, path, dir, n - 1, depth) + FilesUnder(env, env.join(path, child.name), child, depth)
  }

  /** The directories among these that cannot be listed. */
  function UnreadableUnder<Kind>(env: Env<Kind>, path: string, entry: Entry, depth: nat): seq<string>
    decreases entry, 1
  {
    if depth > MAX_DEPTH then []
    else
      match entry
      case File(_) => []
      case Directory(_, readable, children) => if readable then UnreadableInChildren(env, path, entry, |children|, depth + 1) else [path]
  }

  function UnreadableInChildren<Kind>(env: Env<Kind>, path: string, dir: Entry, n: nat, depth: nat): seq<string>
    requires dir.Directory? && n <= |dir.children|
    decreases dir, 0, n
  {
    if n == 0 then []
    else
      var child := dir.children[n - 1];
      UnreadableInChildren(env, path, dir, n - 1, depth) + UnreadableUnder(env, env.join(path, child.name), child, depth)
  }

  function FilesAt<Kind>(env: Env<Kind>, location: Location): seq<string> {
    if location.Found? then FilesUnder(env, location.path, location.entry, 0) else []
  }

  function ErrorsAt<Kind>(env: Env<Kind>, location: Location): seq<string> {
    match location
    case Missing(_) => []
    case Failing(path) => [path]
    case Found(path, entry) => UnreadableUnder(env, path, entry, 0)
  }

  function AllFiles<Kind>(env: Env<Kind>, locations: seq<Location>): seq<string> {
    if locations == [] then [] else AllFiles(env, locations[..|locations| - 1]) + FilesAt(env, locations[|locations| - 1])
  }

  function AllErrors<Kind>(env: Env<Kind>, locations: seq<Location>): seq<string> {
    if locations == [] then [] else AllErrors(env, locations[..|locations| - 1]) + ErrorsAt(env, locations[|locations| - 1])
  }

  // ----- which of them are reported

  function Paths<Kind>(files: seq<IndicatorFile<Kind>>): set<string> {
    set i | 0 <= i < |files| :: files[i].path
  }

  function AddOne<Kind>(env: Env<Kind>, files: seq<IndicatorFile<Kind>>, path: string): seq<IndicatorFile<Kind>> {
    var kind, cleaned := env.classify(path), env.clean(path);
    if kind.None? || cleaned in Paths(files) then files else files + [IndicatorFile(cleaned, kind.value, env.readable(cleaned))]
  }

  /** Adding file after file until `limit` is reached. */
  function AddAll<Kind>(env: Env<Kind>, files: seq<IndicatorFile<Kind>>, paths: seq<string>, limit: nat): seq<IndicatorFile<Kind>> {
    if paths == [] then files
    else
      var before := AddAll(env, files, paths[..|paths| - 1], limit);
      if |before| >= limit then before else AddOne(env, before, paths[|paths| - 1])
  }

  lemma {:induction false} AddAllSplits<Kind>(env: Env<Kind>, files: seq<IndicatorFile<Kind>>, a: seq<string>, b: seq<string>, limit: nat)
    ensures AddAll(env, files, a + b, limit) == AddAll(env, AddAll(env, files, a, limit), b, limit)
  {
    hide AddOne;
    if b == [] {
      assert a + b == a;
    } else {
      var front := b[..|b| - 1];
      assert (a + b)[..|a + b| - 1] == a + front;
      AddAllSplits(env, files, a, front, limit);
    }
  }

  lemma {:induction false} AddAllWhenFull<Kind>(env: Env<Kind>, files: seq<IndicatorFile<Kind>>, paths: seq<string>, limit: nat)
    requires |files| >= limit
    ensures AddAll(env, files, paths, limit) == files
  {
    if paths != [] {
      AddAllWhenFull(env, files, paths[..|paths| - 1], limit);
    }
  }

  lemma PathsSnoc<Kind>(files: seq<IndicatorFile<Kind>>, file: IndicatorFile<Kind>)
    ensures Paths(files + [file]) == Paths(files) + {file.path}
  {
    var more := files + [file];
    assert more[|files|] == file;
    forall p | p in Paths(files) ensures p in Paths(more) {
      var i :| 0 <= i < |files| && files[i].path == p;
      assert more[i].path == p;
    }
  }

  /** Files of one kind. */
  function NumberOf<Kind(==)>(files: seq<IndicatorFile<Kind>>, kind: Kind): nat {
    if files == [] then 0 else (if files[0].kind == kind then 1 else 0) + NumberOf(files[1..], kind)
  }

  lemma {:induction false} NumberOfSnoc<Kind>(files: seq<IndicatorFile<Kind>>, file: IndicatorFile<Kind>, kind: Kind)
    ensures NumberOf(files + [file], kind) == NumberOf(files, kind) + (if file.kind == kind then 1 else 0)
  {
    if files == [] {
      assert files + [file] == [file];
    } else {
      assert (files + [file])[1..] == files[1..] + [file];
      NumberOfSnoc(files[1..], file, kind);
    }
  }

  // ----- the search

  class Discovery<Kind(==, !new)> {
    const env: Env<Kind>
    const limit: nat
    var collected: bool
    var searchedPaths: seq<string>
    var files: seq<IndicatorFile<Kind>>
    var seen: set<string>
    var counts: map<Kind, nat>
    var errors: seq<string>

    constructor (env: Env<Kind>, limit: nat)
      ensures this.env == env && this.limit == limit
      ensures Valid() && !collected && searchedPaths == [] && files == [] && errors == []
    {
      this.env, this.limit := env, limit;
      collected, searchedPaths, files, seen, counts, errors := false, [], [], {}, map[], [];
    }

    function Counted(kind: Kind): nat
      reads this
    {
      if kind in counts then counts[kind] else 0
    }

    ghost predicate Valid()
      reads this
    {
      seen == Paths(files) && forall kind :: Counted(kind) == NumberOf(files, kind)
    }

    method AddFile(path: string)
      requires Valid()
      modifies `files, `seen, `counts
      ensures Valid() && files == AddOne(env, old(files), path)
    {
      var kind := env.classify(path);
      if kind.None? {
        return;
      }
      var cleaned := env.clean(path);
      if cleaned in seen {
        return;
      }
      var file := IndicatorFile(cleaned, kind.value, env.readable(cleaned));
      forall k ensures NumberOf(files + [file], k) == NumberOf(files, k) + (if file.kind == k then 1 else 0) {
        NumberOfSnoc(files, file, k);
      }
      PathsSnoc(files, file);
      hide NumberOf, Paths;
      seen := seen + {cleaned};
      files := files + [file];
      counts := counts[kind.value := Counted(kind.value) + 1];
    }

    /** `filepath.WalkDir` with the callback of the search; true when the limit ended the walk. */
    method Walk(path: string, entry: Entry, depth: nat) returns (limitReached: bool)
      requires Valid()
      modifies `files, `seen, `counts, `errors
      ensures Valid() && files == AddAll(env, old(files), FilesUnder(env, path, entry, depth), limit)
      ensures limitReached ==> |files| >= limit
      ensures !limitReached ==> errors == old(errors) + UnreadableUnder(env, path, entry, depth)
      decreases entry, 1
    {
      if depth > MAX_DEPTH {
        return false;
      }
      match entry {
        case File(_) =>
          assert AddAll(env, files, [], limit) == files && [path][..0] == [];
          if |files| >= limit {
            return true;
          }
          AddFile(path);
          return false;
        case Directory(_, readable, children) =>
          if !readable {
            errors := errors + [path];
            return false;
          }
          limitReached := WalkChildren(path, entry, depth + 1);
      }
    }

    method WalkChildren(path: string, dir: Entry, depth: nat) returns (limitReached: bool)
      requires Valid() && dir.Directory?
      modifies `files, `seen, `counts, `errors
      ensures Valid() && files == AddAll(env, old(files), FilesInChildren(env, path, dir, |dir.children|, depth), limit)
      ensures limitReached ==> |files| >= limit
      ensures !limitReached ==> errors == old(errors) + UnreadableInChildren(env, path, dir, |dir.children|, depth)
      decreases dir, 0
    {
      AddNothing(env, files, limit);
      NoChildren(env, path, dir, depth);
      hide AddAll, NumberOf, Paths, FilesInChildren, UnreadableInChildren;
      for i := 0 to |dir.children|
        invariant Valid() && files == AddAll(env, old(files), FilesInChildren(env, path, dir, i, depth), limit)
        invariant errors == old(errors) + UnreadableInChildren(env, path, dir, i, depth)
      {
        var child := dir.children[i];
        OneMoreChild(env, path, dir, i, depth);
        AddAllSplits(env, old(files), FilesInChildren(env, path, dir, i, depth), FilesUnder(env, env.join(path, child.name), child, depth), limit);
        hide *;
        limitReached := Walk(env.join(path, child.name), child, depth);
        if limitReached {
          RestAddsNothing(env, old(files), files, path, dir, i + 1, depth, limit);
          return;
        }
        Associative(old(errors), UnreadableInChildren(env, path, dir, i, depth), UnreadableUnder(env, env.join(path, child.name), child, depth));
      }
      limitReached := false;
    }

    /** One location: stat it, then take the file or walk the directory. */
    method Search(location: Location)
      requires Valid() && |files| < limit
      modifies `files, `seen, `counts, `errors, `searchedPaths
      ensures Valid() && files == AddAll(env, old(files), FilesAt(env, location), limit)
      ensures searchedPaths == old(searchedPaths) + [env.clean(location.path)]
      ensures |files| >= limit || errors == old(errors) + ErrorsAt(env, location)
    {
      hide NumberOf;
      searchedPaths := searchedPaths + [env.clean(location.path)];
      match location
      case Missing(_) =>
      case Failing(path) => errors := errors + [path];
      case Found(path, entry) =>
        if entry.File? {
          assert AddAll(env, files, [], limit) == files && [path][..0] == [];
          AddFile(path);
        } else {
          var _ := Walk(path, entry, 0);
        }
    }

    /** The whole search; a limit of zero or less collects nothing. */
    method DiscoverInPaths(locations: seq<Location>)
      requires Valid() && files == [] && errors == [] && searchedPaths == [] && !collected
      modifies this
      ensures collected <==> limit > 0
      ensures files == Reported(env, locations, limit)
      ensures forall kind :: Counted(kind) == NumberOf(files, kind)
      ensures limit > 0 && |files| < limit ==> errors == AllErrors(env, locations)
      ensures limit > 0 && |files| < limit ==> searchedPaths == Cleaned(env, locations)
    {
      if limit == 0 {
        AddAllWhenFull(env, [], AllFiles(env, locations), 0);
        return;
      }
      collected := true;
      AddNothing(env, files, limit);
      hide NumberOf, AddAll;
      for i := 0 to |locations|
        invariant Valid() && files == AddAll(env, [], AllFiles(env, locations[..i]), limit)
        invariant |files| >= limit || (errors == AllErrors(env, locations[..i]) && searchedPaths == Cleaned(env, locations[..i]))
        invariant collected
      {
        if |files| >= limit {
          RestOfLocations(env, locations, i, limit);
          break;
        }
        assert locations[..i + 1][..i] == locations[..i];
        AddAllSplits(env, [], AllFiles(env, locations[..i]), FilesAt(env, locations[i]), limit);
        Search(locations[i]);
      }
      assert locations[..|locations|] == locations;
      SortFiles(locations);
    }

    method SortFiles(ghost locations: seq<Location>)
      requires Valid() && files == AddAll(env, [], AllFiles(env, locations), limit)
      modifies `files
      ensures files == Reported(env, locations, limit) && |files| == |old(files)|
      ensures forall kind :: Counted(kind) == NumberOf(files, kind)
    {
      ghost var before := files;
      files := StableSort.Sort(files, ByPath);
      SortKeepsNumbers(before);
      ByPathIsTotalPreorder<Kind>();
      StableSort.SortIsStable(before, ByPath);
    }
  }

  predicate ByPath<Kind>(a: IndicatorFile<Kind>, b: IndicatorFile<Kind>) {
    StringOrder.StrLe(a.path, b.path)
  }

  /** The first `limit` classified files with different cleaned paths, sorted by path. */
  function Reported<Kind(!new)>(env: Env<Kind>, locations: seq<Location>, limit: nat): seq<IndicatorFile<Kind>> {
    StableSort.Sort(AddAll(env, [], AllFiles(env, locations), limit), ByPath)
  }

  function Cleaned<Kind>(env: Env<Kind>, locations: seq<Location>): seq<string> {
    if locations == [] then [] else Cleaned(env, locations[..|locations| - 1]) + [env.clean(locations[|locations| - 1].path)]
  }

  lemma NoChildren<Kind>(env: Env<Kind>, path: string, dir: Entry, depth: nat)
    requires dir.Directory?
    ensures FilesInChildren(env, path, dir, 0, depth) == [] && UnreadableInChildren(env, path, dir, 0, depth) == []
  {
  }

  lemma OneMoreChild<Kind>(env: Env<Kind>, path: string, dir: Entry, i: nat, depth: nat)
    requires dir.Directory? && i < |dir.children|
    ensures var child := dir.children[i];
            && FilesInChildren(env, path, dir, i + 1, depth) == FilesInChildren(env, path, dir, i, depth) + FilesUnder(env, env.join(path, child.name), child, depth)
            && UnreadableInChildren(env, path, dir, i + 1, depth)
               == UnreadableInChildren(env, path, dir, i, depth) + UnreadableUnder(env, env.join(path, child.name), child, depth)
  {
    hide FilesUnder, UnreadableUnder;
  }

  lemma Associative(a: seq<string>, b: seq<string>, c: seq<string>)
    ensures (a + b) + c == a + (b + c)
  {
  }

  lemma AddNothing<Kind>(env: Env<Kind>, files: seq<IndicatorFile<Kind>>, limit: nat)
    ensures AddAll(env, files, [], limit) == files
  {
  }

  lemma {:induction false} RestAddsNothing<Kind>(env: Env<Kind>, start: seq<IndicatorFile<Kind>>, files: seq<IndicatorFile<Kind>>, path: string, dir: Entry,
                                                 i: nat, depth: nat, limit: nat)
    requires dir.Directory? && i <= |dir.children| && |files| >= limit
    requires files == AddAll(env, start, FilesInChildren(env, path, dir, i, depth), limit)
    ensures files == AddAll(env, start, FilesInChildren(env, path, dir, |dir.children|, depth), limit)
    decreases |dir.children| - i
  {
    hide AddAll;
    if i < |dir.children| {
      var child := dir.children[i];
      var more := FilesUnder(env, env.join(path, child.name), child, depth);
      AddAllSplits(env, start, FilesInChildren(env, path, dir, i, depth), more, limit);
      AddAllWhenFull(env, files, more, limit);
      hide FilesUnder;
      RestAddsNothing(env, start, files, path, dir, i + 1, depth, limit);
    }
  }

  lemma {:induction false} RestOfLocations<Kind>(env: Env<Kind>, locations: seq<Location>, i: nat, limit: nat)
    requires i <= |locations| && |AddAll(env, [], AllFiles(env, locations[..i]), limit)| >= limit
    ensures AddAll(env, [], AllFiles(env, locations), limit) == AddAll(env, [], AllFiles(env, locations[..i]), limit)
    decreases |locations| - i
  {
    hide AddAll;
    if i == |locations| {
      assert locations[..i] == locations;
    } else {
      var files, more := AddAll(env, [], AllFiles(env, locations[..i]), limit), FilesAt(env, locations[i]);
      assert locations[..i + 1][..i] == locations[..i];
      AddAllSplits(env, [], AllFiles(env, locations[..i]), more, limit);
      AddAllWhenFull(env, files, more, limit);
      hide FilesAt;
      RestOfLocations(env, locations, i + 1, limit);
    }
  }

  lemma ByPathIsTotalPreorder<Kind(!new)>()
    ensures StableSort.TotalPreorder<IndicatorFile<Kind>>(ByPath)
  {
    StringOrder.StrLeIsTotalPreorder();
    hide StringOrder.StrLe;
  }

  lemma {:induction false} InsertKeepsNumber<Kind>(file: IndicatorFile<Kind>, files: seq<IndicatorFile<Kind>>, kind: Kind)
    ensures NumberOf(StableSort.Insert(file, files, ByPath), kind) == NumberOf(files, kind) + (if file.kind == kind then 1 else 0)
  {
    if files == [] || ByPath(file, files[0]) {
      assert ([file] + files)[1..] == files;
    } else {
      var rest := StableSort.Insert(file, files[1..], ByPath);
      InsertKeepsNumber(file, files[1..], kind);
      assert ([files[0]] + rest)[1..] == rest;
    }
  }

  lemma {:induction false} SortKeepsNumber<Kind>(files: seq<IndicatorFile<Kind>>, kind: Kind)
    ensures NumberOf(StableSort.Sort(files, ByPath), kind) == NumberOf(files, kind)
  {
    if files != [] {
      SortKeepsNumber(files[1..], kind);
      InsertKeepsNumber(files[0], StableSort.Sort(files[1..], ByPath), kind);
    }
  }

  lemma SortKeepsNumbers<Kind(!new)>(files: seq<IndicatorFile<Kind>>)
    ensures forall kind :: NumberOf(StableSort.Sort(files, ByPath), kind) == NumberOf(files, kind)
  {
    forall kind ensures NumberOf(StableSort.Sort(files, ByPath), kind) == NumberOf(files, kind) {
      SortKeepsNumber(files, kind);
    }
  }

  // ----- what is reported

  /** The place where the file at `cleaned` was first come across. */
  ghost predicate FirstSeen<Kind>(env: Env<Kind>, paths: seq<string>, file: IndicatorFile<Kind>) {
    exists i | 0 <= i < |paths| ::
      && env.clean(paths[i]) == file.path && env.classify(paths[i]) == Some(file.kind) && file.readable == env.readable(file.path)
      && (forall j | 0 <= j < i && env.clean(paths[j]) == file.path :: env.classify(paths[j]) == None)
  }

  ghost predicate DistinctPaths<Kind>(files: seq<IndicatorFile<Kind>>) {
    forall i, j | 0 <= i < j < |files| :: files[i].path != files[j].path
  }

  lemma FirstSeenStays<Kind>(env: Env<Kind>, paths: seq<string>, path: string, file: IndicatorFile<Kind>)
    requires FirstSeen(env, paths, file)
    ensures FirstSeen(env, paths + [path], file)
  {
    var i :| 0 <= i < |paths| && env.clean(paths[i]) == file.path && env.classify(paths[i]) == Some(file.kind)
             && (forall j | 0 <= j < i && env.clean(paths[j]) == file.path :: env.classify(paths[j]) == None);
    var more := paths + [path];
    assert more[i] == paths[i];
  }

  /** The files added from `paths` before the limit: pairwise different, within the limit, each from where it
      was first seen; and short of the limit, nothing classified is missed. */
  ghost predicate Added<Kind>(env: Env<Kind>, paths: seq<string>, limit: nat, files: seq<IndicatorFile<Kind>>) {
    && |files| <= limit && DistinctPaths(files)
    && (forall i | 0 <= i < |files| :: FirstSeen(env, paths, files[i]))
    && (|files| < limit ==> forall i | 0 <= i < |paths| && env.classify(paths[i]).Some? :: env.clean(paths[i]) in Paths(files))
  }

  lemma AddedFull<Kind>(env: Env<Kind>, paths: seq<string>, path: string, limit: nat, files: seq<IndicatorFile<Kind>>)
    requires Added(env, paths, limit, files) && |files| == limit
    ensures Added(env, paths + [path], limit, files)
  {
    hide FirstSeen;
    forall i | 0 <= i < |files| ensures FirstSeen(env, paths + [path], files[i]) {
      FirstSeenStays(env, paths, path, files[i]);
    }
  }

  lemma AddedOne<Kind>(env: Env<Kind>, paths: seq<string>, path: string, limit: nat, files: seq<IndicatorFile<Kind>>)
    requires Added(env, paths, limit, files) && |files| < limit
    ensures Added(env, paths + [path], limit, AddOne(env, files, path))
  {
    var all, after := paths + [path], AddOne(env, files, path);
    var kind, cleaned := env.classify(path), env.clean(path);
    if kind.Some? && cleaned !in Paths(files) {
      var file := IndicatorFile(cleaned, kind.value, env.readable(cleaned));
      PathsSnoc(files, file);
      assert all[|paths|] == path;
      assert forall j | 0 <= j < |paths| && env.clean(paths[j]) == cleaned :: env.classify(paths[j]) == None;
      assert FirstSeen(env, all, file);
      forall i | 0 <= i < |files| ensures files[i].path != cleaned {
        assert files[i].path in Paths(files);
      }
    }
    hide FirstSeen, Paths;
    forall i | 0 <= i < |after| ensures FirstSeen(env, all, after[i]) {
      if i < |files| {
        FirstSeenStays(env, paths, path, files[i]);
      }
    }
  }

  lemma {:induction false} AddAllAdds<Kind>(env: Env<Kind>, paths: seq<string>, limit: nat)
    ensures Added(env, paths, limit, AddAll(env, [], paths, limit))
  {
    if paths != [] {
      var front, last := paths[..|paths| - 1], paths[|paths| - 1];
      AddAllAdds(env, front, limit);
      var before := AddAll(env, [], front, limit);
      assert paths == front + [last];
      hide Added, AddOne;
      if |before| >= limit {
        AddedLimit(env, front, limit, before);
        AddedFull(env, front, last, limit, before);
      } else {
        AddedOne(env, front, last, limit, before);
      }
    }
  }

  lemma AddedLimit<Kind>(env: Env<Kind>, paths: seq<string>, limit: nat, files: seq<IndicatorFile<Kind>>)
    requires Added(env, paths, limit, files)
    ensures |files| <= limit
  {
  }

  // ----- which files are come across, in terms of the tree

  /** Following child numbers from `entry` through readable directories ends at a file. */
  ghost predicate Leads(entry: Entry, route: seq<nat>) {
    if route == [] then entry.File?
    else entry.Directory? && entry.readable && route[0] < |entry.children| && Leads(entry.children[route[0]], route[1..])
  }

  ghost function PathAlong<Kind>(env: Env<Kind>, path: string, entry: Entry, route: seq<nat>): string
    requires Leads(entry, route)
    decreases |route|
  {
    if route == [] then path
    else
      var child := entry.children[route[0]];
      PathAlong(env, env.join(path, child.name), child, route[1..])
  }

  ghost predicate RouteTo<Kind>(env: Env<Kind>, path: string, entry: Entry, depth: nat, route: seq<nat>, p: string) {
    Leads(entry, route) && depth + |route| <= 3 && PathAlong(env, path, entry, route) == p
  }

  lemma {:induction false} RouteIsTaken<Kind>(env: Env<Kind>, path: string, entry: Entry, depth: nat, route: seq<nat>, p: string)
    requires RouteTo(env, path, entry, depth, route, p)
    ensures p in FilesUnder(env, path, entry, depth)
    decreases |route|
  {
    if route != [] {
      var child := entry.children[route[0]];
      RouteIsTaken(env, env.join(path, child.name), child, depth + 1, route[1..], p);
      InChildren(env, path, entry, |entry.children|, depth + 1, route[0], p);
    }
  }

  lemma {:induction false} InChildren<Kind>(env: Env<Kind>, path: string, dir: Entry, n: nat, depth: nat, i: nat, p: string)
    requires dir.Directory? && i < n <= |dir.children|
    requires p in FilesUnder(env, env.join(path, dir.children[i].name), dir.children[i], depth)
    ensures p in FilesInChildren(env, path, dir, n, depth)
    decreases n
  {
    hide FilesUnder;
    if i < n - 1 {
      InChildren(env, path, dir, n - 1, depth, i, p);
    }
  }

  lemma {:induction false} FromChild<Kind>(env: Env<Kind>, path: string, dir: Entry, n: nat, depth: nat, p: string) returns (i: nat)
    requires dir.Directory? && n <= |dir.children| && p in FilesInChildren(env, path, dir, n, depth)
    ensures i < n && p in FilesUnder(env, env.join(path, dir.children[i].name), dir.children[i], depth)
    decreases n
  {
    hide FilesUnder;
    if p in FilesInChildren(env, path, dir, n - 1, depth) {
      i := FromChild(env, path, dir, n - 1, depth, p);
    } else {
      i := n - 1;
    }
  }

  lemma {:induction false} RouteExists<Kind>(env: Env<Kind>, path: string, entry: Entry, depth: nat, p: string) returns (route: seq<nat>)
    requires p in FilesUnder(env, path, entry, depth)
    ensures RouteTo(env, path, entry, depth, route, p)
    decreases entry
  {
    if entry.File? {
      route := [];
    } else {
      var i := FromChild(env, path, entry, |entry.children|, depth + 1, p);
      var child := entry.children[i];
      var rest := RouteExists(env, env.join(path, child.name), child, depth + 1, p);
      hide FilesUnder;
      route := [i] + rest;
      assert route[1..] == rest;
    }
  }

  /** The walk comes across exactly the files that a route of at most three steps through readable
      directories leads to. */
  lemma FilesUnderIff<Kind>(env: Env<Kind>, path: string, entry: Entry, p: string)
    ensures p in FilesUnder(env, path, entry, 0) <==> exists route :: RouteTo(env, path, entry, 0, route, p)
  {
    if p in FilesUnder(env, path, entry, 0) {
      var route := RouteExists(env, path, entry, 0, p);
    }
    if route :| RouteTo(env, path, entry, 0, route, p) {
      RouteIsTaken(env, path, entry, 0, route, p);
    }
  }

  ghost predicate InPathOrder<Kind>(files: seq<IndicatorFile<Kind>>) {
    forall i, j | 0 <= i < j < |files| :: StringOrder.StrLe(files[i].path, files[j].path) && files[i].path != files[j].path
  }

  /** Over any trees: at most `limit` files, strictly ordered by cleaned path; each is one of the files come
      across at depth at most three, classified where it was first seen; and if there are fewer than the
      limit, every classified file come across is among them. */
  lemma ReportIsExact<Kind(!new)>(env: Env<Kind>, locations: seq<Location>, limit: nat)
    ensures var files, paths := Reported(env, locations, limit), AllFiles(env, locations);
            && |files| <= limit && InPathOrder(files)
            && (forall i | 0 <= i < |files| :: FirstSeen(env, paths, files[i]))
            && (|files| < limit ==>
                  forall p :: p in Paths(files) <==> exists i | 0 <= i < |paths| :: env.classify(paths[i]).Some? && env.clean(paths[i]) == p)
  {
    var paths, files := AllFiles(env, locations), Reported(env, locations, limit);
    var added := AddAll(env, [], paths, limit);
    AddAllAdds(env, paths, limit);
    ByPathIsTotalPreorder<Kind>();
    StableSort.SortIsStable(added, ByPath);
    StableSort.SortMembers(added, ByPath);
    DistinctFiles(added);
    StableSort.SortKeepsDistinct(added, ByPath);
    hide AddAll, AllFiles, FirstSeen, StringOrder.StrLe, StableSort.Sort;
    SamePaths(added, files);
    SortedByPath(added, files);
    forall i | 0 <= i < |files| ensures FirstSeen(env, paths, files[i]) {
      assert files[i] in added;
    }
    if |files| < limit {
      forall p | p in Paths(files) ensures exists i | 0 <= i < |paths| :: env.classify(paths[i]).Some? && env.clean(paths[i]) == p {
        var k :| 0 <= k < |files| && files[k].path == p;
        FirstSeenSomewhere(env, paths, files[k]);
      }
    }
  }

  lemma FirstSeenSomewhere<Kind>(env: Env<Kind>, paths: seq<string>, file: IndicatorFile<Kind>)
    requires FirstSeen(env, paths, file)
    ensures exists i | 0 <= i < |paths| :: env.classify(paths[i]).Some? && env.clean(paths[i]) == file.path
  {
  }

  lemma DistinctFiles<Kind>(files: seq<IndicatorFile<Kind>>)
    requires DistinctPaths(files)
    ensures StableSort.Distinct(files)
  {
  }

  lemma SamePaths<Kind(!new)>(a: seq<IndicatorFile<Kind>>, b: seq<IndicatorFile<Kind>>)
    requires forall file :: file in a <==> file in b
    ensures Paths(a) == Paths(b)
  {
    forall p | p in Paths(a) ensures p in Paths(b) {
      var i :| 0 <= i < |a| && a[i].path == p;
      assert a[i] in a && a[i] in b;
    }
    forall p | p in Paths(b) ensures p in Paths(a) {
      var i :| 0 <= i < |b| && b[i].path == p;
      assert b[i] in b && b[i] in a;
    }
  }

  lemma SortedByPath<Kind(!new)>(added: seq<IndicatorFile<Kind>>, files: seq<IndicatorFile<Kind>>)
    requires DistinctPaths(added) && StableSort.Sorted(files, ByPath) && StableSort.Distinct(files)
    requires forall file :: file in added <==> file in files
    ensures InPathOrder(files)
  {
    forall i, j | 0 <= i < j < |files| ensures StringOrder.StrLe(files[i].path, files[j].path) && files[i].path != files[j].path {
      assert ByPath(files[i], files[j]);
      assert files[i] in files && files[j] in files && files[i] != files[j];
      var k :| 0 <= k < |added| && added[k] == files[i];
      var l :| 0 <= l < |added| && added[l] == files[j];
    }
  }
  // ----- which directories are complained about

  /** Following child numbers from `entry` through readable directories ends at one that is not. */
  ghost predicate Blocked(entry: Entry, route: seq<nat>) {
    entry.Directory?
    && if route == [] then !entry.readable
       else entry.readable && route[0] < |entry.children| && Blocked(entry.children[route[0]], route[1..])
  }

  ghost function PathBlocked<Kind>(env: Env<Kind>, path: string, entry: Entry, route: seq<nat>): string
    requires Blocked(entry, route)
    decreases |route|
  {
    if route == [] then path
    else
      var child := entry.children[route[0]];
      PathBlocked(env, env.join(path, child.name), child, route[1..])
  }

  ghost predicate BlockedAt<Kind>(env: Env<Kind>, path: string, entry: Entry, depth: nat, route: seq<nat>, p: string) {
    Blocked(entry, route) && depth + |route| <= 3 && PathBlocked(env, path, entry, route) == p
  }

  lemma {:induction false} BlockIsReported<Kind>(env: Env<Kind>, path: string, entry: Entry, depth: nat, route: seq<nat>, p: string)
    requires BlockedAt(env, path, entry, depth, route, p)
    ensures p in UnreadableUnder(env, path, entry, depth)
    decreases |route|
  {
    if route != [] {
      var child := entry.children[route[0]];
      BlockIsReported(env, env.join(path, child.name), child, depth + 1, route[1..], p);
      UnreadableInside(env, path, entry, |entry.children|, depth + 1, route[0], p);
    }
  }

  lemma {:induction false} UnreadableInside<Kind>(env: Env<Kind>, path: string, dir: Entry, n: nat, depth: nat, i: nat, p: string)
    requires dir.Directory? && i < n <= |dir.children|
    requires p in UnreadableUnder(env, env.join(path, dir.children[i].name), dir.children[i], depth)
    ensures p in UnreadableInChildren(env, path, dir, n, depth)
    decreases n
  {
    hide UnreadableUnder;
    if i < n - 1 {
      UnreadableInside(env, path, dir, n - 1, depth, i, p);
    }
  }

  lemma {:induction false} UnreadableChild<Kind>(env: Env<Kind>, path: string, dir: Entry, n: nat, depth: nat, p: string) returns (i: nat)
    requires dir.Directory? && n <= |dir.children| && p in UnreadableInChildren(env, path, dir, n, depth)
    ensures i < n && p in UnreadableUnder(env, env.join(path, dir.children[i].name), dir.children[i], depth)
    decreases n
  {
    hide UnreadableUnder;
    if p in UnreadableInChildren(env, path, dir, n - 1, depth) {
      i := UnreadableChild(env, path, dir, n - 1, depth, p);
    } else {
      i := n - 1;
    }
  }

  lemma {:induction false} BlockExists<Kind>(env: Env<Kind>, path: string, entry: Entry, depth: nat, p: string) returns (route: seq<nat>)
    requires p in UnreadableUnder(env, path, entry, depth)
    ensures BlockedAt(env, path, entry, depth, route, p)
    decreases entry
  {
    if !entry.readable {
      route := [];
    } else {
      var i := UnreadableChild(env, path, entry, |entry.children|, depth + 1, p);
      var child := entry.children[i];
      var rest := BlockExists(env, env.join(path, child.name), child, depth + 1, p);
      hide UnreadableUnder;
      route := [i] + rest;
      assert route[1..] == rest;
    }
  }

  /** What a location contributes: a missing one nothing, one that cannot be examined its own path as an
      error, a found one the files and the unreadable directories at most three steps below it. */
  ghost predicate FileAt<Kind>(env: Env<Kind>, location: Location, p: string) {
    location.Found? && exists route :: RouteTo(env, location.path, location.entry, 0, route, p)
  }

  ghost predicate ErrorAt<Kind>(env: Env<Kind>, location: Location, p: string) {
    || (location.Failing? && p == location.path)
    || (location.Found? && exists route :: BlockedAt(env, location.path, location.entry, 0, route, p))
  }

  lemma ContributionIff<Kind>(env: Env<Kind>, location: Location, p: string)
    ensures p in FilesAt(env, location) <==> FileAt(env, location, p)
    ensures p in ErrorsAt(env, location) <==> ErrorAt(env, location, p)
  {
    if location.Found? {
      FilesUnderIff(env, location.path, location.entry, p);
      hide RouteTo, BlockedAt, FilesUnder;
      if p in UnreadableUnder(env, location.path, location.entry, 0) {
        var route := BlockExists(env, location.path, location.entry, 0, p);
      }
      if route :| BlockedAt(env, location.path, location.entry, 0, route, p) {
        BlockIsReported(env, location.path, location.entry, 0, route, p);
      }
    }
  }

  /** Over all locations: what is come across, and what is complained about when the limit is not reached. */
  lemma {:induction false} SearchIff<Kind>(env: Env<Kind>, locations: seq<Location>, p: string)
    ensures p in AllFiles(env, locations) <==> exists i | 0 <= i < |locations| :: FileAt(env, locations[i], p)
    ensures p in AllErrors(env, locations) <==> exists i | 0 <= i < |locations| :: ErrorAt(env, locations[i], p)
  {
    if locations != [] {
      var front, last := locations[..|locations| - 1], locations[|locations| - 1];
      SearchIff(env, front, p);
      ContributionIff(env, last, p);
      hide FileAt, ErrorAt, FilesAt, ErrorsAt;
      assert forall i | 0 <= i < |front| :: front[i] == locations[i];
    }
  }
}
