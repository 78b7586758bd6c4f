/** src/api/yandex-client.ts `getResourcesRecursive`: a concurrent traversal of a remote tree. Directories are
    identified by their normalized path; the remote does not change meanwhile. Each method is one stretch of code
    between two awaits. */
module TreeTraversal {
  import opened Basics
  import opened Paths

  /** What listing a directory returns. */
  datatype Batch = Batch(files: seq<string>, directories: seq<Path>)

  // Reachability.

  ghost predicate Chain(list: Path -> Batch, trail: seq<Path>) {
    forall i :: 0 <= i < |trail| - 1 ==> trail[i + 1] in list(trail[i]).directories
  }

  ghost predicate Trail(list: Path -> Batch, root: Path, d: Path, trail: seq<Path>) {
    |trail| > 0 && trail[0] == root && trail[|trail| - 1] == d && Chain(list, trail)
  }

  ghost predicate Reachable(list: Path -> Batch, root: Path, d: Path) { exists trail :: Trail(list, root, d, trail) }

  lemma RootReachable(list: Path -> Batch, root: Path)
    ensures Reachable(list, root, root)
  {
    assert Trail(list, root, root, [root]);
  }

  lemma ChildReachable(list: Path -> Batch, root: Path, p: Path, d: Path)
    requires Reachable(list, root, p) && d in list(p).directories
    ensures Reachable(list, root, d)
  {
    var trail :| Trail(list, root, p, trail);
    assert Trail(list, root, d, trail + [d]);
  }

  /** A set closed under listing contains everything reachable. */
  lemma {:induction false} ClosedHoldsTrail(list: Path -> Batch, root: Path, d: Path, trail: seq<Path>, closed: set<Path>)
    requires Trail(list, root, d, trail) && root in closed
    requires forall p, c :: p in closed && c in list(p).directories ==> c in closed
    ensures d in closed
    decreases |trail|
  {
    if |trail| > 1 {
      var shorter := trail[..|trail| - 1];
      assert Trail(list, root, shorter[|shorter| - 1], shorter);
      ClosedHoldsTrail(list, root, shorter[|shorter| - 1], shorter, closed);
      assert trail[|trail| - 2 + 1] in list(trail[|trail| - 2]).directories;
    }
  }

  /** The files of the completed listings, in the order of completion. */
  ghost function Listed(list: Path -> Batch, completed: seq<Path>): seq<string> {
    if completed == [] then [] else Listed(list, completed[..|completed| - 1]) + list(completed[|completed| - 1]).files
  }

  /** The directories that have not been seen, in the order in which they are listed. */
  function Unseen(children: seq<Path>, seen: set<Path>): seq<Path> {
    if children == [] then []
    else (if children[0] in seen then [] else [children[0]]) + Unseen(children[1..], seen + {children[0]})
  }

  lemma {:induction false} UnseenSnoc(children: seq<Path>, seen: set<Path>, d: Path)
    ensures Unseen(children + [d], seen) == Unseen(children, seen) + if d in seen || d in children then [] else [d]
  {
    if children != [] {
      assert (children + [d])[0] == children[0] && (children + [d])[1..] == children[1..] + [d];
      UnseenSnoc(children[1..], seen + {children[0]}, d);
    } else {
      assert ([] + [d])[1..] == [];
    }
  }

  ghost function Elements(paths: seq<Path>): set<Path> { set d | d in paths }

  /** Each directory seen is in exactly one place: waiting, being listed, listed, or failed. */
  ghost predicate Placed(visited: set<Path>, queue: seq<Path>, running: set<Path>, completed: seq<Path>, lost: set<Path>) {
    && (forall d :: d in visited <==> d in queue || d in running || d in completed || d in lost)
    && Distinct(queue) && Distinct(completed)
    && (forall d :: d in queue ==> d !in running && d !in completed && d !in lost)
    && (forall d :: d in running ==> d !in completed && d !in lost)
    && (forall d :: d in completed ==> d !in lost)
  }

  /** Only reachable directories are seen, and all children of the completed ones are. */
  ghost predicate Explored(list: Path -> Batch, root: Path, visited: set<Path>, completed: seq<Path>) {
    && root in visited && (forall d :: d in visited ==> Reachable(list, root, d))
    && forall p, d :: p in completed && d in list(p).directories ==> d in visited
  }

  lemma StartOne(visited: set<Path>, queue: seq<Path>, running: set<Path>, completed: seq<Path>, lost: set<Path>)
    requires Placed(visited, queue, running, completed, lost) && queue != []
    ensures Placed(visited, queue[1..], running + {queue[0]}, completed, lost) && queue[0] !in running && queue[0] !in completed
    ensures queue[0] in visited && queue[0] !in lost
  {
    assert queue == [queue[0]] + queue[1..];
    assert forall i :: 0 <= i < |queue| - 1 ==> queue[1..][i] == queue[i + 1];
  }

  lemma SeeOne(visited: set<Path>, queue: seq<Path>, running: set<Path>, completed: seq<Path>, lost: set<Path>, d: Path)
    requires Placed(visited, queue, running, completed, lost) && d !in visited
    ensures Placed(visited + {d}, queue + [d], running, completed, lost)
  {}

  lemma CompleteOne(visited: set<Path>, queue: seq<Path>, running: set<Path>, completed: seq<Path>, lost: set<Path>, p: Path)
    requires Placed(visited, queue, running, completed, lost) && p in running
    ensures Placed(visited, queue, running - {p}, completed + [p], lost)
    ensures Placed(visited, queue, running - {p}, completed, lost + {p})
  {}

  lemma ExploreOne(list: Path -> Batch, root: Path, visited: set<Path>, completed: seq<Path>, p: Path)
    requires Explored(list, root, visited, completed) && forall d :: d in list(p).directories ==> d in visited
    ensures Explored(list, root, visited, completed + [p])
  {}

  lemma ListedOne(list: Path -> Batch, completed: seq<Path>, p: Path)
    ensures Listed(list, completed + [p]) == Listed(list, completed) + list(p).files
  {
    assert (completed + [p])[..|completed|] == completed;
  }

  class Traversal {
    const root: Path
    const limit: nat
    ghost const list: Path -> Batch
    var results: seq<string>
    var visited: set<Path>
    var queue: seq<Path>
    var active: nat
    var failed: bool
    var settled: Option<bool>
    ghost var running: set<Path>    // listings in flight
    ghost var closing: nat          // listings that have settled, their `finally` still to come
    ghost var completed: seq<Path>
    ghost var lost: set<Path>       // listings that failed

    ghost predicate Consistent()
      reads this
    {
      && limit >= 1 && active <= limit && active == |running| + closing
      && Placed(visited, queue, running, completed, lost) && Explored(list, root, visited, completed)
      && results == Listed(list, completed) && (failed <==> lost != {})
    }

    /** Between two stretches of code: settled exactly when nothing is active, and no free slot while there is work,
        except until the next `finally`. */
    ghost predicate Valid()
      reads this
    {
      && Consistent() && (settled.Some? <==> active == 0) && (settled.Some? ==> settled.value == !failed)
      && (!failed && closing == 0 ==> active == limit || queue == [])
    }

    constructor (root: Path, concurrency: int, ghost list: Path -> Batch)
      ensures Valid() && settled.None? && running == {root} && queue == [] && completed == [] && lost == {}
      ensures this.root == root && this.list == list && limit == if concurrency > 40 then 40 else if concurrency < 1 then 1 else concurrency
    {
      this.root := root;
      this.limit := if concurrency > 40 then 40 else if concurrency < 1 then 1 else concurrency;
      this.list := list;
      results, visited, queue, active := [], {root}, [root], 0;
      failed, settled := false, None;
      running, closing, completed, lost := {}, 0, [], {};
      new;
      RootReachable(list, root);
      var started := Dispatch();
      assert queue == [] || started == [] || |queue| + |started| == 1;
    }

    method StartNext() returns (current: Path)
      requires Consistent() && queue != [] && active < limit
      modifies this`queue, this`active, this`running
      ensures Consistent() && old(queue) == [current] + queue && running == old(running) + {current}
      ensures active == old(active) + 1
    {
      StartOne(visited, queue, running, completed, lost);
      hide Placed, Explored, Listed;
      current := queue[0];
      queue := queue[1..];
      active := active + 1;
      running := running + {current};
    }

    /** `dispatch`: starts waiting directories in order while there is room, and settles when nothing is active. */
    method Dispatch() returns (started: seq<Path>)
      requires Consistent() && active <= limit && settled.None?
      modifies this`queue, this`active, this`running, this`settled
      ensures Valid() && old(queue) == started + queue && running == old(running) + Elements(started)
      ensures failed ==> started == []
      ensures !failed ==> active == limit || queue == []
    {
      hide Consistent, Elements;
      started := [];
      NoElements();
      while !failed && active < limit && queue != []
        invariant Consistent() && active <= limit && settled.None? && (failed ==> started == [])
        invariant old(queue) == started + queue && running == old(running) + Elements(started)
        decreases |queue|
      {
        var current := StartNext();
        MoreElements(started, current);
        started := started + [current];
      }
      Settle();
    }

    /** The promise settles only when nothing is active. */
    method Settle()
      requires Consistent() && settled.None?
      modifies this`settled
      ensures Consistent() && settled == if active == 0 then Some(!failed) else None
    {
      hide Placed, Explored, Listed;
      if active == 0 { settled := Some(!failed); }
    }

    /** A new directory joins the queue once, however often it is listed. */
    method Discover(child: Path)
      requires Placed(visited, queue, running, completed, lost) && Explored(list, root, visited, completed)
      requires Reachable(list, root, child)
      modifies this`visited, this`queue
      ensures Placed(visited, queue, running, completed, lost) && Explored(list, root, visited, completed)
      ensures visited == old(visited) + {child}
      ensures queue == if child in old(visited) then old(queue) else old(queue) + [child]
    {
      if child !in visited {
        SeeOne(visited, queue, running, completed, lost, child);
        visited := visited + {child};
        queue := queue + [child];
      }
    }

    method DiscoverNext(p: Path, children: seq<Path>, i: nat, ghost seen: set<Path>, ghost before: seq<Path>)
      requires Placed(visited, queue, running, completed, lost) && Explored(list, root, visited, completed)
      requires Reachable(list, root, p) && children == list(p).directories && i < |children|
      requires visited == seen + Elements(children[..i]) && queue == before + Unseen(children[..i], seen)
      modifies this`visited, this`queue
      ensures Placed(visited, queue, running, completed, lost) && Explored(list, root, visited, completed)
      ensures visited == seen + Elements(children[..i + 1]) && queue == before + Unseen(children[..i + 1], seen)
    {
      hide Reachable, Placed, Explored, Unseen, Elements, Distinct;
      ChildReachable(list, root, p, children[i]);
      SeenMore(children, i, seen, before);
      Discover(children[i]);
    }

    method DiscoverAll(p: Path, children: seq<Path>)
      requires Placed(visited, queue, running, completed, lost) && Explored(list, root, visited, completed)
      requires p in running && children == list(p).directories
      modifies this`visited, this`queue
      ensures Placed(visited, queue, running, completed, lost) && Explored(list, root, visited, completed)
      ensures visited == old(visited) + Elements(children) && queue == old(queue) + Unseen(children, old(visited))
    {
      SeenIsReachable(list, root, visited, completed, queue, running, lost, p);
      hide Reachable, Placed, Explored, Unseen, Elements, Distinct;
      ghost var seen, before := visited, queue;
      NothingSeen(seen, before);
      assert children[..|children|] == children;
      for i := 0 to |children|
        invariant Placed(visited, queue, running, completed, lost) && Explored(list, root, visited, completed)
        invariant visited == seen + Elements(children[..i]) && queue == before + Unseen(children[..i], seen)
      {
        DiscoverNext(p, children, i, seen, before);
      }
    }

    /** The bookkeeping of a completed listing. */
    ghost method Complete(p: Path)
      requires Placed(visited, queue, running, completed, lost) && Explored(list, root, visited, completed)
      requires p in running && results == Listed(list, completed) + list(p).files && Elements(list(p).directories) <= visited
      modifies this`running, this`closing, this`completed
      ensures Placed(visited, queue, running, completed, lost) && Explored(list, root, visited, completed)
      ensures results == Listed(list, completed) && completed == old(completed) + [p]
      ensures running == old(running) - {p} && closing == old(closing) + 1 && |running| == old(|running|) - 1
    {
      ListedOne(list, completed, p);
      CompleteOne(visited, queue, running, completed, lost, p);
      ExploreOne(list, root, visited, completed, p);
      hide Placed, Explored, Listed;
      running := running - {p};
      closing := closing + 1;
      completed := completed + [p];
    }

    /** The `then` part of a listing: its files are kept and its directories discovered. */
    method Deliver(p: Path, batch: Batch)
      requires Valid() && p in running && batch == list(p)
      modifies this`results, this`visited, this`queue, this`running, this`closing, this`completed
      ensures Valid() && running == old(running) - {p} && closing == old(closing) + 1
      ensures completed == old(completed) + [p] && visited == old(visited) + Elements(batch.directories)
      ensures queue == old(queue) + Unseen(batch.directories, old(visited))
    {
      hide Placed, Explored, Listed, Elements;
      results := results + batch.files;
      DiscoverAll(p, batch.directories);
      Complete(p);
    }

    /** The `catch` part: the first failure stops all further starts. */
    method Fail(p: Path)
      requires Valid() && p in running
      modifies this`running, this`closing, this`failed, this`lost
      ensures Valid() && running == old(running) - {p} && closing == old(closing) + 1
      ensures failed && lost == old(lost) + {p}
    {
      CompleteOne(visited, queue, running, completed, lost, p);
      hide Placed, Explored, Listed;
      failed := true;
      running := running - {p};
      closing := closing + 1;
      lost := lost + {p};
    }

    /** The `finally` part gives the slot back. */
    method Close() returns (started: seq<Path>)
      requires Valid() && closing > 0
      modifies this`queue, this`active, this`running, this`closing, this`settled
      ensures Valid() && closing == old(closing) - 1 && running == old(running) + Elements(started)
      ensures old(queue) == started + queue
      ensures failed ==> started == []
    {
      hide Placed, Explored, Listed, Elements;
      closing := closing - 1;
      active := active - 1;
      started := Dispatch();
    }
  }

  lemma NoElements()
    ensures Elements([]) == {}
  {}

  lemma MoreElements(paths: seq<Path>, d: Path)
    ensures Elements(paths + [d]) == Elements(paths) + {d}
  {}

  lemma NothingSeen(seen: set<Path>, queue: seq<Path>)
    ensures seen == seen + Elements([]) && queue == queue + Unseen([], seen)
  {}

  /** What one more child adds to the directories seen and to the queue. */
  lemma SeenMore(children: seq<Path>, i: nat, seen: set<Path>, before: seq<Path>)
    requires i < |children|
    ensures seen + Elements(children[..i + 1]) == seen + Elements(children[..i]) + {children[i]}
    ensures var queue := before + Unseen(children[..i], seen);
      before + Unseen(children[..i + 1], seen) == if children[i] in seen + Elements(children[..i]) then queue else queue + [children[i]]
  {
    assert children[..i + 1] == children[..i] + [children[i]];
    MoreElements(children[..i], children[i]);
    UnseenSnoc(children[..i], seen, children[i]);
  }

  lemma SeenIsReachable(list: Path -> Batch, root: Path, visited: set<Path>, completed: seq<Path>, queue: seq<Path>,
                        running: set<Path>, lost: set<Path>, p: Path)
    requires Placed(visited, queue, running, completed, lost) && Explored(list, root, visited, completed) && p in running
    ensures Reachable(list, root, p)
  {}

  /** A traversal that succeeds has listed exactly the reachable directories, each once, and its files are exactly
      theirs. */
  lemma SuccessIsComplete(t: Traversal)
    requires t.Valid() && t.settled == Some(true)
    ensures t.queue == [] && t.running == {} && t.lost == {}
    ensures forall d :: d in t.completed <==> Reachable(t.list, t.root, d)
    ensures Distinct(t.completed) && t.results == Listed(t.list, t.completed)
  {
    hide Listed, Reachable;
    assert t.active == 0 && t.closing == 0 && |t.running| == 0;
    forall d | Reachable(t.list, t.root, d) ensures d in t.completed {
      ReachableIsClosed(t.list, t.root, d, t.visited);
    }
  }

  lemma ReachableIsClosed(list: Path -> Batch, root: Path, d: Path, closed: set<Path>)
    requires Reachable(list, root, d) && root in closed
    requires forall p, c :: p in closed && c in list(p).directories ==> c in closed
    ensures d in closed
  {
    var trail :| Trail(list, root, d, trail);
    ClosedHoldsTrail(list, root, d, trail, closed);
  }
}
