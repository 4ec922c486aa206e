/**
 The search for a host-bound builtin that a pure module would load
 (check-extension-layers.ts): breadth first over value imports, shortest chain reported.
 Reading and parsing files is abstracted into the edges of each file.
 */
module ImportSearch {
  import opened Wrappers
  import opened Sizes

  type File = string

  datatype Edge = Edge(specifier: string, typeOnly: bool)

  /** `edges` has no entry for an unreadable file; `resolve` answers with files that exist. */
  datatype Sources = Sources(files: set<File>, edges: map<File, seq<Edge>>, resolve: (File, string) -> Option<File>)
  {
    ghost predicate Valid() {
      forall f, s :: resolve(f, s).Some? ==> resolve(f, s).value in files
    }
  }

  predicate IsForbidden(specifier: string) {
    specifier in {"node:fs", "node:fs/promises", "node:child_process", "node:path", "node:os", "node:process"}
  }

  predicate IsRelative(specifier: string) {
    "." <= specifier
  }

  function EdgesOf(g: Sources, file: File): seq<Edge> {
    if file in g.edges then g.edges[file] else []
  }

  predicate HitsBy(e: Edge) {
    !e.typeOnly && IsForbidden(e.specifier)
  }

  predicate StepsBy(g: Sources, from: File, e: Edge, to: File) {
    !e.typeOnly && !IsForbidden(e.specifier) && IsRelative(e.specifier) && g.resolve(from, e.specifier) == Some(to)
  }

  predicate Hits(g: Sources, file: File, specifier: string) {
    exists e :: e in EdgesOf(g, file) && HitsBy(e) && e.specifier == specifier
  }

  predicate ValueStep(g: Sources, from: File, to: File) {
    exists e :: e in EdgesOf(g, from) && StepsBy(g, from, e, to)
  }

  /** A path of value imports from `entry`. */
  predicate IsPath(g: Sources, entry: File, path: seq<File>) {
    path != [] && path[0] == entry && forall i :: 0 < i < |path| ==> ValueStep(g, path[i - 1], path[i])
  }

  /** Such a path, followed by a forbidden builtin that its last file imports. */
  predicate IsChain(g: Sources, entry: File, chain: seq<string>) {
    |chain| >= 2 && IsPath(g, entry, chain[..|chain| - 1]) && Hits(g, chain[|chain| - 2], chain[|chain| - 1])
  }

  // ---- what the search knows ----

  /** Every visited file has a parent one step nearer; only the entry has none. */
  ghost predicate Placed(g: Sources, entry: File, parents: map<File, File>, dist: map<File, nat>) {
    && entry in dist && dist[entry] == 0 && entry !in parents
    && forall f :: f in dist && f != entry ==>
         && f in parents && parents[f] in dist
         && dist[f] == dist[parents[f]] + 1 && ValueStep(g, parents[f], f)
  }

  /** `file` has been read to the end: it hits nothing and its targets are visited. */
  ghost predicate Settled(g: Sources, dist: map<File, nat>, file: File)
    requires file in dist
  {
    && (forall s :: !Hits(g, file, s))
    && (forall t :: ValueStep(g, file, t) ==> t in dist && dist[t] <= dist[file] + 1)
  }

  /** The files still to read, nearest first, spanning at most two distances. */
  ghost predicate Queued(dist: map<File, nat>, done: set<File>, queue: seq<File>, level: nat) {
    && (forall i :: 0 <= i < |queue| ==> queue[i] in dist && queue[i] !in done && level <= dist[queue[i]] <= level + 1)
    && (forall i, j :: 0 <= i < j < |queue| ==> queue[i] != queue[j] && dist[queue[i]] <= dist[queue[j]])
  }

  ghost predicate Read(g: Sources, dist: map<File, nat>, done: set<File>, level: nat) {
    forall f :: f in done ==> f in dist && dist[f] <= level && Settled(g, dist, f)
  }

  /** Everything as near as `level` that a path reaches has been placed at its distance. */
  lemma {:induction false} PathsArePlaced(g: Sources, entry: File, parents: map<File, File>, dist: map<File, nat>,
                                          done: set<File>, level: nat, path: seq<File>)
    requires Placed(g, entry, parents, dist) && Read(g, dist, done, level)
    requires forall f :: f in dist && f !in done ==> level <= dist[f]
    requires IsPath(g, entry, path) && |path| - 1 <= level
    ensures path[|path| - 1] in dist && dist[path[|path| - 1]] <= |path| - 1
  {
    if |path| > 1 {
      var shorter := path[..|path| - 1];
      PathsArePlaced(g, entry, parents, dist, done, level, shorter);
      assert ValueStep(g, path[|path| - 2], path[|path| - 1]);
      assert shorter[|shorter| - 1] in done;
    }
  }

  /** When nothing is left to read, every path stays among settled files. */
  lemma {:induction false} PathsAreDone(g: Sources, entry: File, parents: map<File, File>, dist: map<File, nat>,
                                        done: set<File>, level: nat, path: seq<File>)
    requires Placed(g, entry, parents, dist) && Read(g, dist, done, level)
    requires dist.Keys <= done && IsPath(g, entry, path)
    ensures path[|path| - 1] in done
  {
    if |path| > 1 {
      PathsAreDone(g, entry, parents, dist, done, level, path[..|path| - 1]);
      assert ValueStep(g, path[|path| - 2], path[|path| - 1]);
    }
  }

  /** No chain is shorter than one through a file at the level being read. */
  lemma NoShorterChain(g: Sources, entry: File, parents: map<File, File>, dist: map<File, nat>,
                       done: set<File>, level: nat, chain: seq<string>)
    requires Placed(g, entry, parents, dist) && Read(g, dist, done, level)
    requires forall f :: f in dist && f !in done ==> level <= dist[f]
    requires IsChain(g, entry, chain)
    ensures level + 2 <= |chain|
  {
    var path := chain[..|chain| - 1];
    assert path[|path| - 1] == chain[|chain| - 2];
    if |path| - 1 < level {
      PathsArePlaced(g, entry, parents, dist, done, level, path);
    }
  }

  /** The chain back to the entry, along parents. */
  method PathFromEntry(g: Sources, entry: File, file: File, parents: map<File, File>, ghost dist: map<File, nat>)
      returns (chain: seq<File>)
    requires Placed(g, entry, parents, dist) && file in dist && parents.Keys <= dist.Keys
    ensures IsPath(g, entry, chain) && chain[|chain| - 1] == file && |chain| == dist[file] + 1
  {
    chain := [file];
    var cursor := file;
    while cursor in parents
      invariant cursor in dist && chain != [] && chain[0] == cursor && chain[|chain| - 1] == file
      invariant |chain| + dist[cursor] == dist[file] + 1
      invariant forall i :: 0 < i < |chain| ==> ValueStep(g, chain[i - 1], chain[i])
      decreases dist[cursor]
    {
      var parent := parents[cursor];
      assert cursor != entry;
      chain := [parent] + chain;
      cursor := parent;
    }
    assert cursor == entry;
  }

  /** The targets of `edges` are visited, no more than one step from `file`. */
  ghost predicate Covered(g: Sources, dist: map<File, nat>, file: File, edges: seq<Edge>)
    requires file in dist
  {
    && (forall e :: e in edges ==> !HitsBy(e))
    && (forall e, t :: e in edges && StepsBy(g, file, e, t) ==> t in dist && dist[t] <= dist[file] + 1)
  }

  /** `old` files keep their distance. */
  ghost predicate Extends(dist: map<File, nat>, more: map<File, nat>) {
    forall f :: f in dist ==> f in more && more[f] == dist[f]
  }

  lemma ExtendsKeepsRead(g: Sources, dist: map<File, nat>, more: map<File, nat>, done: set<File>, level: nat)
    requires Read(g, dist, done, level) && Extends(dist, more)
    ensures Read(g, more, done, level)
  {
    forall f | f in done
      ensures f in more && more[f] <= level && Settled(g, more, f)
    {
      assert f in dist && Settled(g, dist, f);
    }
  }

  lemma PlaceTarget(g: Sources, entry: File, file: File, parents: map<File, File>, dist: map<File, nat>, target: File)
    requires Placed(g, entry, parents, dist) && file in dist && target !in dist && ValueStep(g, file, target)
    ensures Placed(g, entry, parents[target := file], dist[target := dist[file] + 1])
    ensures Extends(dist, dist[target := dist[file] + 1])
  {}

  lemma QueueTarget(dist: map<File, nat>, done: set<File>, queue: seq<File>, level: nat, target: File)
    requires Queued(dist, done, queue, level) && target !in dist && target !in done
    ensures Queued(dist[target := level + 1], done, queue + [target], level)
  {
    assert forall i :: 0 <= i < |queue| ==> queue[i] in dist && queue[i] != target;
  }

  lemma CoverGrows(g: Sources, dist: map<File, nat>, more: map<File, nat>, file: File, edges: seq<Edge>, edge: Edge)
    requires file in dist && Extends(dist, more) && Covered(g, dist, file, edges) && !HitsBy(edge)
    requires forall t :: StepsBy(g, file, edge, t) ==> t in more && more[t] <= more[file] + 1
    ensures Covered(g, more, file, edges + [edge])
  {
    forall e, t | e in edges + [edge] && StepsBy(g, file, e, t)
      ensures t in more && more[t] <= more[file] + 1
    {
      if e in edges {
        assert t in dist;
      }
    }
  }

  /** Reads one file: queues what it imports, unless it imports something forbidden. */
  method ReadFile(g: Sources, entry: File, file: File, visited0: set<File>, parents0: map<File, File>,
                  queue0: seq<File>, ghost dist0: map<File, nat>, ghost done: set<File>)
      returns (hit: Option<string>, visited: set<File>, parents: map<File, File>, queue: seq<File>,
               ghost dist: map<File, nat>)
    requires g.Valid() && file in dist0 && visited0 == dist0.Keys && parents0.Keys <= dist0.Keys
    requires visited0 <= g.files + {entry} && done <= visited0
    requires Placed(g, entry, parents0, dist0) && Queued(dist0, done + {file}, queue0, dist0[file])
    requires Read(g, dist0, done, dist0[file])
    requires forall f :: f in dist0 ==> f in done || f == file || f in queue0
    ensures visited == dist.Keys && parents.Keys <= dist.Keys && visited <= g.files + {entry}
    ensures file in dist && done <= visited
    ensures Extends(dist0, dist) && Placed(g, entry, parents, dist) && Queued(dist, done + {file}, queue, dist[file])
    ensures Read(g, dist, done, dist[file])
    ensures forall f :: f in dist ==> f in done || f == file || f in queue
    ensures hit.Some? ==> Hits(g, file, hit.value)
    ensures hit.None? ==> Settled(g, dist, file)
  {
    hide *;
    hit, visited, parents, queue, dist := None, visited0, parents0, queue0, dist0;
    var edges := EdgesOf(g, file);
    var i := 0;
    ExtendsSelf(dist);
    NothingCovered(g, dist, file, edges);
    while i < |edges|
      invariant i <= |edges|
      invariant visited == dist.Keys && parents.Keys <= dist.Keys && visited <= g.files + {entry}
      invariant file in dist && Extends(dist0, dist) && Placed(g, entry, parents, dist)
      invariant Queued(dist, done + {file}, queue, dist[file]) && Read(g, dist, done, dist[file])
      invariant forall f :: f in dist ==> f in done || f == file || f in queue
      invariant Covered(g, dist, file, edges[..i])
    {
      var edge := edges[i];
      if !edge.typeOnly && IsForbidden(edge.specifier) {
        HitIsReal(g, file, edge);
        DoneIsPlaced(g, dist, done, dist[file]);
        hit := Some(edge.specifier);
        return;
      }
      var target := if !edge.typeOnly && IsRelative(edge.specifier) then g.resolve(file, edge.specifier) else None;
      ghost var before := dist;
      if target.Some? && target.value !in visited {
        var t := target.value;
        StepIsReal(g, file, edge, t);
        PlaceTarget(g, entry, file, parents, dist, t);
        DoneIsPlaced(g, dist, done, dist[file]);
        QueueTarget(dist, done + {file}, queue, dist[file], t);
        ResolvesToFile(g, file, edge.specifier);
        visited := visited + {t};
        parents := parents[t := file];
        queue := queue + [t];
        dist := dist[t := dist[file] + 1];
        ExtendsKeepsRead(g, before, dist, done, before[file]);
        ExtendsTransitive(dist0, before, dist);
      } else {
        ExtendsSelf(dist);
        if target.Some? {
          VisitedIsNear(g, dist, done, queue, file, target.value);
        }
      }
      EdgeTargets(g, file, edge, target);
      NotForbidden(edge);
      CoverGrows(g, before, dist, file, edges[..i], edge);
      assert edges[..i + 1] == edges[..i] + [edge];
      i := i + 1;
    }
    assert edges[..i] == edges;
    CoveredIsSettled(g, dist, file);
    DoneIsPlaced(g, dist, done, dist[file]);
  }

  lemma NothingCovered(g: Sources, dist: map<File, nat>, file: File, edges: seq<Edge>)
    requires file in dist
    ensures Covered(g, dist, file, edges[..0])
  {}

  lemma HitIsReal(g: Sources, file: File, edge: Edge)
    requires edge in EdgesOf(g, file) && !edge.typeOnly && IsForbidden(edge.specifier)
    ensures Hits(g, file, edge.specifier)
  {}

  lemma StepIsReal(g: Sources, file: File, edge: Edge, t: File)
    requires edge in EdgesOf(g, file) && !edge.typeOnly && !IsForbidden(edge.specifier) && IsRelative(edge.specifier)
    requires g.resolve(file, edge.specifier) == Some(t)
    ensures ValueStep(g, file, t)
  {
    assert StepsBy(g, file, edge, t);
  }

  lemma ResolvesToFile(g: Sources, file: File, specifier: string)
    requires g.Valid() && g.resolve(file, specifier).Some?
    ensures g.resolve(file, specifier).value in g.files
  {}

  lemma DoneIsPlaced(g: Sources, dist: map<File, nat>, done: set<File>, level: nat)
    requires Read(g, dist, done, level)
    ensures done <= dist.Keys
  {}

  lemma EdgeTargets(g: Sources, file: File, edge: Edge, target: Option<File>)
    requires target == if !edge.typeOnly && IsRelative(edge.specifier) then g.resolve(file, edge.specifier) else None
    ensures forall t :: StepsBy(g, file, edge, t) ==> target == Some(t)
  {}

  lemma ExtendsSelf(dist: map<File, nat>)
    ensures Extends(dist, dist)
  {}

  lemma ExtendsTransitive(a: map<File, nat>, b: map<File, nat>, c: map<File, nat>)
    requires Extends(a, b) && Extends(b, c)
    ensures Extends(a, c) && forall f :: f in b ==> f in c && c[f] == b[f]
  {}

  lemma VisitedIsNear(g: Sources, dist: map<File, nat>, done: set<File>, queue: seq<File>, file: File, target: File)
    requires file in dist && target in dist && Read(g, dist, done, dist[file])
    requires Queued(dist, done + {file}, queue, dist[file])
    requires target in done || target == file || target in queue
    ensures dist[target] <= dist[file] + 1
  {
    if target in queue {
      var i :| 0 <= i < |queue| && queue[i] == target;
    }
  }

  lemma CoveredIsSettled(g: Sources, dist: map<File, nat>, file: File)
    requires file in dist && Covered(g, dist, file, EdgesOf(g, file))
    ensures Settled(g, dist, file)
  {}

  lemma NotForbidden(edge: Edge)
    requires edge.typeOnly || !IsForbidden(edge.specifier)
    ensures !HitsBy(edge)
  {}

  /** Finds a shortest chain to a forbidden builtin, or shows that none is reachable. */
  method FindHostBoundImport(g: Sources, entry: File) returns (chain: Option<seq<string>>)
    requires g.Valid()
    ensures chain.Some? ==> IsChain(g, entry, chain.value) && forall c :: IsChain(g, entry, c) ==> |chain.value| <= |c|
    ensures chain.None? ==> forall c :: !IsChain(g, entry, c)
  {
    hide *;
    var visited, queue, parents := {entry}, [entry], map[];
    ghost var dist: map<File, nat>, done, level := map[entry := 0], {}, 0;
    StartIsExplored(g, entry);
    while queue != []
      invariant visited == dist.Keys && parents.Keys <= dist.Keys && visited <= g.files + {entry} && done <= visited
      invariant Placed(g, entry, parents, dist) && Queued(dist, done, queue, level) && Read(g, dist, done, level)
      invariant forall f :: f in dist ==> f in done || f in queue
      decreases |g.files + {entry} - done|
    {
      var file := queue[0];
      Dequeue(g, dist, done, queue, level);
      ghost var unread := g.files + {entry} - done;
      var hit;
      hit, visited, parents, queue, dist := ReadFile(g, entry, file, visited, parents, queue[1..], dist, done);
      level := dist[file];
      if hit.Some? {
        var path := PathFromEntry(g, entry, file, parents, dist);
        ChainIsShortest(g, entry, parents, dist, done, queue, file, path, hit.value);
        return Some(path + [hit.value]);
      }
      ReadGrows(g, dist, done, file);
      done := done + {file};
      Shrinks(g.files + {entry} - done, unread);
    }
    forall c
      ensures !IsChain(g, entry, c)
    {
      NoChainLeft(g, entry, parents, dist, done, level, c);
    }
    return None;
  }

  lemma StartIsExplored(g: Sources, entry: File)
    ensures Placed(g, entry, map[], map[entry := 0]) && Queued(map[entry := 0], {}, [entry], 0)
    ensures Read(g, map[entry := 0], {}, 0)
  {}

  lemma ReadGrows(g: Sources, dist: map<File, nat>, done: set<File>, file: File)
    requires file in dist && Read(g, dist, done, dist[file]) && Settled(g, dist, file)
    ensures Read(g, dist, done + {file}, dist[file])
  {}

  lemma ChainIsShortest(g: Sources, entry: File, parents: map<File, File>, dist: map<File, nat>, done: set<File>,
                        queue: seq<File>, file: File, path: seq<File>, hit: string)
    requires file in dist && Placed(g, entry, parents, dist) && Read(g, dist, done, dist[file])
    requires Queued(dist, done + {file}, queue, dist[file])
    requires forall f :: f in dist ==> f in done || f == file || f in queue
    requires IsPath(g, entry, path) && path[|path| - 1] == file && |path| == dist[file] + 1 && Hits(g, file, hit)
    ensures IsChain(g, entry, path + [hit]) && forall c :: IsChain(g, entry, c) ==> |path| + 1 <= |c|
  {
    hide Placed, Read, Hits, Settled;
    var found := path + [hit];
    assert found[..|found| - 1] == path;
    AllFartherThan(dist, done, queue, file);
    forall c | IsChain(g, entry, c)
      ensures |path| + 1 <= |c|
    {
      NoShorterChain(g, entry, parents, dist, done, dist[file], c);
    }
  }

  lemma NoChainLeft(g: Sources, entry: File, parents: map<File, File>, dist: map<File, nat>, done: set<File>,
                    level: nat, c: seq<string>)
    requires Placed(g, entry, parents, dist) && Read(g, dist, done, level) && dist.Keys <= done
    ensures !IsChain(g, entry, c)
  {
    if IsChain(g, entry, c) {
      var path := c[..|c| - 1];
      assert path[|path| - 1] == c[|c| - 2];
      PathsAreDone(g, entry, parents, dist, done, level, path);
    }
  }

  lemma Dequeue(g: Sources, dist: map<File, nat>, done: set<File>, queue: seq<File>, level: nat)
    requires queue != [] && Queued(dist, done, queue, level) && Read(g, dist, done, level)
    requires forall f :: f in dist ==> f in done || f in queue
    ensures queue[0] in dist && queue[0] !in done
    ensures Queued(dist, done + {queue[0]}, queue[1..], dist[queue[0]]) && Read(g, dist, done, dist[queue[0]])
    ensures forall f :: f in dist ==> f in done || f == queue[0] || f in queue[1..]
  {
    assert forall i :: 0 <= i < |queue[1..]| ==> queue[1..][i] == queue[i + 1];
  }

  lemma AllFartherThan(dist: map<File, nat>, done: set<File>, queue: seq<File>, file: File)
    requires file in dist && Queued(dist, done + {file}, queue, dist[file])
    requires forall f :: f in dist ==> f in done || f == file || f in queue
    ensures forall f :: f in dist && f !in done ==> dist[file] <= dist[f]
  {}

  // ---- what a chain is, in terms of the edges ----

  /** A value import of a relative specifier that resolves to `to`. */
  ghost predicate Loads(g: Sources, from: File, to: File) {
    from in g.edges && exists i :: 0 <= i < |g.edges[from]| && LoadsBy(g, from, g.edges[from][i], to)
  }

  predicate LoadsBy(g: Sources, from: File, e: Edge, to: File) {
    !e.typeOnly && |e.specifier| > 0 && e.specifier[0] == '.' && g.resolve(from, e.specifier) == Some(to)
  }

  /** A value import of one of the six builtins. */
  ghost predicate LoadsHost(g: Sources, from: File, builtin: string) {
    && builtin in ["node:fs", "node:fs/promises", "node:child_process", "node:path", "node:os", "node:process"]
    && from in g.edges
    && exists i :: 0 <= i < |g.edges[from]| && !g.edges[from][i].typeOnly && g.edges[from][i].specifier == builtin
  }

  /** Type-only imports and bare packages lead nowhere; a chain ends with a builtin of the list. */
  lemma ChainSays(g: Sources, entry: File, chain: seq<string>)
    ensures IsChain(g, entry, chain) <==>
            && |chain| >= 2 && chain[0] == entry
            && (forall i :: 0 < i < |chain| - 1 ==> Loads(g, chain[i - 1], chain[i]))
            && LoadsHost(g, chain[|chain| - 2], chain[|chain| - 1])
  {
    if |chain| >= 2 {
      var path := chain[..|chain| - 1];
      forall i | 0 < i < |path|
        ensures ValueStep(g, path[i - 1], path[i]) <==> Loads(g, chain[i - 1], chain[i])
      {
        StepLoads(g, chain[i - 1], chain[i]);
      }
      HitLoads(g, chain[|chain| - 2], chain[|chain| - 1]);
      hide ValueStep, Loads, Hits, LoadsHost;
      if IsChain(g, entry, chain) {
        forall i | 0 < i < |chain| - 1
          ensures Loads(g, chain[i - 1], chain[i])
        {
          assert ValueStep(g, path[i - 1], path[i]);
        }
      }
    }
  }

  lemma StepLoads(g: Sources, from: File, to: File)
    ensures ValueStep(g, from, to) <==> Loads(g, from, to)
  {
    forall e: Edge
      ensures StepsBy(g, from, e, to) <==> LoadsBy(g, from, e, to)
    {
      assert "." <= e.specifier <==> |e.specifier| > 0 && e.specifier[0] == '.';
    }
    hide StepsBy, LoadsBy;
  }

  lemma HitLoads(g: Sources, file: File, builtin: string)
    ensures Hits(g, file, builtin) <==> LoadsHost(g, file, builtin)
  {
    if LoadsHost(g, file, builtin) {
      var i :| 0 <= i < |g.edges[file]| && !g.edges[file][i].typeOnly && g.edges[file][i].specifier == builtin;
      assert g.edges[file][i] in EdgesOf(g, file);
    }
  }
}
