/** src/sync/files/deletion-cover.ts: choose maximal removable subtrees. */
module DeletionCover {
  import opened Basics
  import opened Paths

  datatype Kind = File | Dir
  datatype Action = Action(path: Path, kind: Kind)

  /** The listing keyed by path: the last resource of a path wins. */
  function Listed(resources: seq<Action>): map<Path, Kind> {
    if resources == [] then map[]
    else
      var last := resources[|resources| - 1];
      Listed(resources[..|resources| - 1])[last.path := last.kind]
  }

  function AncestorsOf(paths: set<Path>): set<Path> {
    set p, a | p in paths && a in Ancestors(p) :: a
  }

  /** Every ancestor of a listed resource is present, as a directory unless it was listed itself. */
  function Entries(resources: seq<Action>): map<Path, Kind> {
    var listed := Listed(resources);
    WithDirs(listed, AncestorsOf(listed.Keys))
  }

  function WithDirs(listed: map<Path, Kind>, dirs: set<Path>): (r: map<Path, Kind>)
    ensures r.Keys == listed.Keys + dirs
    ensures forall p :: p in r.Keys ==> r[p] == if p in listed then listed[p] else Dir
  {
    listed + map a | a in dirs - listed.Keys :: Dir
  }

  /** What the planner reads: the entries and the caller's three policies. */
  datatype Tree = Tree(
    entries: map<Path, Kind>, removable: set<Path>, preserved: set<Path>, canCollapse: Path -> bool)
  {
    predicate IsFile(p: Path) { p in entries && entries[p] == File }

    predicate Overlaps(p: Path) {
      exists keep :: keep in preserved && (p <= keep || keep <= p)
    }

    function Leaves(p: Path): set<Path> {
      set child | child in entries.Keys && IsFile(child) && p <= child
    }

    /** The entry may be deleted recursively as one action. */
    predicate Eligible(p: Path) {
      p in entries && Normalized(p) && !Overlaps(p) &&
      match entries[p]
      case File => p in removable
      case Dir => canCollapse(p) && (p in removable || Leaves(p) != {}) && Leaves(p) <= removable
    }

    /** The eligible entries with no eligible strict ancestor. */
    function Cover(): set<Path> {
      set p | p in entries.Keys && Maximal(entries.Keys, q => Eligible(q), p)
    }

    predicate Covers(plan: set<Path>, p: Path) {
      exists root :: root in plan && root <= p
    }
  }

  function Roots(plan: seq<Action>): (r: seq<Path>)
    ensures |r| == |plan| && forall i :: 0 <= i < |r| ==> r[i] == plan[i].path
  {
    seq(|plan|, i requires 0 <= i < |plan| => plan[i].path)
  }

  ghost function Members(order: seq<Path>): set<Path> {
    set p | p in order
  }

  predicate ByDepth(order: seq<Path>) {
    forall i, j :: 0 <= i < j < |order| ==> order[i] != order[j] && |order[i]| <= |order[j]|
  }

  lemma ShallowestExists(s: set<Path>) returns (p: Path)
    requires s != {}
    ensures p in s && forall q :: q in s ==> |p| <= |q|
    decreases |s|
  {
    p :| p in s;
    if s != {p} {
      var rest := s - {p};
      assert rest < s;
      var q := ShallowestExists(rest);
      if |q| < |p| { p := q; }
    }
  }

  /** The sort of the source: shallow entries first. Equal depths are ordered by locale, which is left open. */
  method SortByDepth(paths: set<Path>) returns (order: seq<Path>)
    ensures ByDepth(order)
    ensures forall p :: p in order <==> p in paths
  {
    order := [];
    var pending := paths;
    while pending != {}
      invariant pending <= paths
      invariant ByDepth(order)
      invariant forall p :: p in order <==> p in paths - pending
      invariant forall p, q :: p in order && q in pending ==> |p| <= |q|
      decreases pending
    {
      ghost var shallowest := ShallowestExists(pending);
      var path :| path in pending && forall q :: q in pending ==> |path| <= |q|;
      pending := pending - {path};
      order := order + [path];
    }
  }

  method CollectListed(resources: seq<Action>) returns (entries: map<Path, Kind>)
    ensures entries == Listed(resources)
  {
    entries := map[];
    for i := 0 to |resources|
      invariant entries == Listed(resources[..i])
    {
      assert resources[..i + 1][..i] == resources[..i];
      entries := entries[resources[i].path := resources[i].kind];
    }
    assert resources[..|resources|] == resources;
  }

  method AddAncestors(listed: map<Path, Kind>, ancestors: set<Path>) returns (entries: map<Path, Kind>)
    ensures entries == WithDirs(listed, ancestors)
  {
    entries := listed;
    var todo := ancestors;
    while todo != {}
      invariant todo <= ancestors
      invariant entries == WithDirs(listed, ancestors - todo)
      decreases todo
    {
      var path :| path in todo;
      todo := todo - {path};
      assert ancestors - todo == (ancestors - todo - {path}) + {path};
      if path !in entries {
        entries := entries[path := Dir];
      }
    }
    assert ancestors - todo == ancestors;
  }

  /** `path` is eligible and no listed strict ancestor is. */
  predicate Maximal(paths: set<Path>, eligible: Path -> bool, path: Path) {
    path in paths && eligible(path) && !exists q :: q in paths && q < path && eligible(q)
  }

  /** Every eligible path lies at or below a maximal one. */
  lemma {:induction false} MaximalAbove(paths: set<Path>, eligible: Path -> bool, path: Path) returns (root: Path)
    requires path in paths && eligible(path)
    ensures Maximal(paths, eligible, root) && root <= path
    decreases |path|
  {
    root := path;
    if q :| q in paths && q < path && eligible(q) {
      root := MaximalAbove(paths, eligible, q);
    }
  }

  /** The loop of the source: shallow first, skipping whatever an earlier root already contains. */
  method SelectRoots(order: seq<Path>, eligible: Path -> bool) returns (roots: seq<Path>)
    requires ByDepth(order)
    ensures ByDepth(roots)
    ensures forall p :: p in roots <==> Maximal(Members(order), eligible, p)
  {
    ghost var paths := Members(order);
    roots := [];
    for k := 0 to |order|
      invariant forall p :: p in roots <==> p in order[..k] && Maximal(paths, eligible, p)
      invariant ByDepth(roots)
    {
      var path := order[k];
      assert order[..k + 1] == order[..k] + [path];
      assert forall q :: q in paths && q < path ==> q in order[..k];
      if !(exists i :: 0 <= i < |roots| && roots[i] <= path) && eligible(path) {
        var root := MaximalAbove(paths, eligible, path);
        assert root == path;
        assert forall i :: 0 <= i < |roots| ==> roots[i] in roots;
        roots := roots + [path];
      } else if i :| 0 <= i < |roots| && roots[i] <= path {
        assert roots[i] in order[..k] && roots[i] < path;
      }
    }
    assert order[..|order|] == order;
  }

  method PlanRecursiveDeletes(
    resources: seq<Action>, removable: set<Path>, preserved: set<Path>, canCollapse: Path -> bool)
    returns (result: seq<Action>)
    ensures var t := Tree(Entries(resources), removable, preserved, canCollapse);
            && (forall p :: p in Roots(result) <==> p in t.Cover())
            && forall i :: 0 <= i < |result| ==> result[i].path in t.entries && result[i].kind == t.entries[result[i].path]
    ensures ByDepth(Roots(result))
  {
    var listed := CollectListed(resources);
    var entries := AddAncestors(listed, AncestorsOf(listed.Keys));
    var t := Tree(entries, removable, preserved, canCollapse);
    var order := SortByDepth(entries.Keys);
    var roots := SelectRoots(order, p => t.Eligible(p));
    assert Members(order) == entries.Keys;
    assert forall i :: 0 <= i < |roots| ==> roots[i] in roots;
    result := seq(|roots|, i requires 0 <= i < |roots| => Action(roots[i], entries[roots[i]]));
    assert Roots(result) == roots;
  }

  // What the plan guarantees, for every tree and policy.

  /** The last resource with that path. */
  predicate LastListed(resources: seq<Action>, i: int, p: Path) {
    0 <= i < |resources| && resources[i].path == p && forall j :: i < j < |resources| ==> resources[j].path != p
  }

  /** What the planner looks at: the listed paths, each with the kind listed last, and their ancestors as directories. */
  lemma EntriesAreListedOrAbove(resources: seq<Action>, p: Path)
    ensures p in Entries(resources) <==>
      exists i :: 0 <= i < |resources| && (resources[i].path == p || (p != [] && p < Normalize(resources[i].path)))
    ensures forall i :: LastListed(resources, i, p) ==> p in Entries(resources) && Entries(resources)[p] == resources[i].kind
    ensures p in Entries(resources) && (forall i :: 0 <= i < |resources| ==> resources[i].path != p) ==> Entries(resources)[p] == Dir
  {
    hide Normalize;
    var listed := Listed(resources);
    ListedIsLast(resources, p);
    if q :| q in listed && p in Ancestors(q) {
      ListedIsLast(resources, q);
      var i :| 0 <= i < |resources| && resources[i].path == q;
      assert p < Normalize(resources[i].path);
    }
    if i :| 0 <= i < |resources| && p != [] && p < Normalize(resources[i].path) {
      ListedIsLast(resources, resources[i].path);
      assert p in Ancestors(resources[i].path);
    }
  }

  lemma {:induction false} ListedIsLast(resources: seq<Action>, p: Path)
    ensures p in Listed(resources) <==> exists i :: 0 <= i < |resources| && resources[i].path == p
    ensures forall i :: LastListed(resources, i, p) ==> p in Listed(resources) && Listed(resources)[p] == resources[i].kind
  {
    if resources != [] {
      var init := resources[..|resources| - 1];
      ListedIsLast(init, p);
      assert resources == init + [resources[|resources| - 1]];
      forall i | LastListed(resources, i, p) && i < |init| ensures LastListed(init, i, p) {
        assert resources[|resources| - 1].path != p;
        forall j | i < j < |init| ensures init[j].path != p { assert resources[j].path != p; }
      }
    }
  }

  /** Deleting the entry recursively is allowed and worthwhile: it meets no preserved path, a file is removable, a
      directory may be collapsed, and of the files at or below it there is one, unless it is removable itself, and all
      are removable. */
  ghost predicate Deletable(t: Tree, p: Path) {
    && p in t.entries && Normalized(p) && (forall keep :: keep in t.preserved ==> !(p <= keep) && !(keep <= p))
    && (t.entries[p] == File ==> p in t.removable)
    && (t.entries[p] == Dir ==> t.canCollapse(p) && (p in t.removable || exists f :: FileBelow(t, p, f)))
    && (t.entries[p] == Dir ==> forall f :: FileBelow(t, p, f) ==> f in t.removable)
  }

  predicate FileBelow(t: Tree, p: Path, f: Path) { f in t.entries && t.entries[f] == File && p <= f }

  lemma EligibleIsDeletable(t: Tree, p: Path)
    ensures t.Eligible(p) <==> Deletable(t, p)
  {
    if p in t.entries {
      forall f ensures f in t.Leaves(p) <==> FileBelow(t, p, f) {}
    }
  }

  /** The plan holds exactly the outermost deletable entries. */
  lemma CoverIsOutermost(t: Tree, root: Path)
    ensures root in t.Cover() <==> Deletable(t, root) && forall p :: Deletable(t, p) ==> !(p < root)
  {
    hide Deletable, Tree.Eligible;
    forall p ensures t.Eligible(p) <==> Deletable(t, p) { EligibleIsDeletable(t, p); }
    forall p | Deletable(t, p) ensures p in t.entries { DeletableIsEntry(t, p); }
    if root in t.Cover() {
      forall p | Deletable(t, p) ensures !(p < root) { assert t.Eligible(p) && p in t.entries.Keys; }
    }
  }

  lemma DeletableIsEntry(t: Tree, p: Path)
    requires Deletable(t, p)
    ensures p in t.entries
  {}

  /** Whatever is deletable is deleted by exactly one action at or above it: a directory whose files all may go is
      never taken apart. */
  lemma DeletableIsOneAction(t: Tree, p: Path) returns (root: Path)
    requires Deletable(t, p)
    ensures root in t.Cover() && root <= p && forall other :: other in t.Cover() && other <= p ==> other == root
  {
    EligibleIsDeletable(t, p);
    root := MaximalAbove(t.entries.Keys, q => t.Eligible(q), p);
    forall other | other in t.Cover() && other <= p ensures other == root {
      PrefixesCompare(root, other, p);
      CoverIsSafe(t, root);
    }
  }

  /** A deletion never reaches a preserved path or a second root, and removes only removable files.
      The one exception is the file kind itself, whose supposed descendants are never inspected. */
  lemma CoverIsSafe(t: Tree, root: Path)
    requires root in t.Cover()
    ensures forall keep :: keep in t.preserved ==> !(root <= keep) && !(keep <= root)
    ensures forall other :: other in t.Cover() && (root <= other || other <= root) ==> other == root
    ensures forall f :: t.IsFile(f) && root <= f ==> f in t.removable || (t.IsFile(root) && f != root)
  {
    forall f | t.IsFile(f) && root <= f ensures f in t.removable || (t.IsFile(root) && f != root) {
      if !t.IsFile(root) { assert f in t.Leaves(root); }
    }
    forall other | other in t.Cover() && (root <= other || other <= root) ensures other == root {
      assert Maximal(t.entries.Keys, q => t.Eligible(q), root) && Maximal(t.entries.Keys, q => t.Eligible(q), other);
    }
  }

  /** Nothing is listed below a file, as in any listing of folders. */
  predicate FilesAreLeaves(t: Tree) {
    forall f, p :: f in t.entries && p in t.entries && t.IsFile(f) ==> !(f < p)
  }

  /** Then whatever file lies at or below a planned deletion is removable. */
  lemma CoverDeletesRemovableOnly(t: Tree, root: Path, f: Path)
    requires FilesAreLeaves(t) && root in t.Cover() && t.IsFile(f) && root <= f
    ensures f in t.removable
  {
    CoverIsSafe(t, root);
  }

  /** A removable listed file is deleted exactly when it overlaps no preserved path. */
  lemma RemovableFileIsCovered(t: Tree, f: Path)
    requires t.IsFile(f) && f in t.removable && Normalized(f)
    ensures t.Covers(t.Cover(), f) <==> !t.Overlaps(f)
  {
    if !t.Overlaps(f) {
      var root := MaximalAbove(t.entries.Keys, q => t.Eligible(q), f);
      assert root in t.Cover();
    }
    if root :| root in t.Cover() && root <= f {
      forall keep | keep in t.preserved && (f <= keep || keep <= f) ensures false {
        if keep <= f { PrefixesCompare(root, keep, f); }
      }
    }
  }

  /** No set of deletable entries that deletes the same removable entries is smaller. */
  lemma CoverIsMinimum(t: Tree, other: set<Path>)
    requires forall p :: p in other ==> Deletable(t, p)
    requires forall w :: w in t.entries && w in t.removable && t.Covers(t.Cover(), w) ==> t.Covers(other, w)
    ensures |t.Cover()| <= |other|
  {
    forall root | root in t.Cover() ensures exists p :: p in other && root <= p {
      CoverIsOutermost(t, root);
      var w := root;
      if root !in t.removable { w :| FileBelow(t, root, w); }
      assert t.Covers(t.Cover(), w);
      var p :| p in other && p <= w;
      PrefixesCompare(root, p, w);
    }
    forall a | a in t.Cover() ensures forall b :: b in t.Cover() && a <= b ==> a == b {
      CoverIsSafe(t, a);
    }
    DistinctBelow(t.Cover(), other);
  }

  /** When only files are removable, even directories without any file may be in the other set, and it needs to delete
      only the removable files that the plan deletes. */
  lemma FileCoverIsMinimum(t: Tree, other: set<Path>)
    requires forall p :: p in t.removable && p in t.entries ==> t.entries[p] == File
    requires forall p :: p in other ==>
      p in t.entries && Normalized(p) && (forall keep :: keep in t.preserved ==> !(p <= keep) && !(keep <= p))
      && (t.entries[p] == File ==> p in t.removable) && (t.entries[p] == Dir ==> t.canCollapse(p))
      && (t.entries[p] == Dir ==> forall f :: FileBelow(t, p, f) ==> f in t.removable)
    requires forall f :: f in t.entries && f in t.removable && t.Covers(t.Cover(), f) ==> t.Covers(other, f)
    ensures |t.Cover()| <= |other|
  {
    var useful := set p | p in other && (t.entries[p] == File || exists f :: FileBelow(t, p, f));
    forall f | f in t.entries && f in t.removable && t.Covers(t.Cover(), f) ensures t.Covers(useful, f) {
      var p :| p in other && p <= f;
      assert FileBelow(t, p, f) && p in useful;
    }
    CoverIsMinimum(t, useful);
    SubsetSize(useful, other);
  }

  /** Disjoint subtrees that each contain a member of `other` are no more numerous than `other`. */
  lemma {:induction false} DistinctBelow(roots: set<Path>, other: set<Path>)
    requires forall root :: root in roots ==> exists p :: p in other && root <= p
    requires forall a, b :: a in roots && b in roots && a <= b ==> a == b
    ensures |roots| <= |other|
  {
    if root :| root in roots {
      var p :| p in other && root <= p;
      forall q | q in roots - {root} ensures exists x :: x in other - {p} && q <= x {
        var x :| x in other && q <= x;
        if x == p { PrefixesCompare(root, q, p); }
        assert x in other - {p} && q <= x;
      }
      DistinctBelow(roots - {root}, other - {p});
    }
  }
}
