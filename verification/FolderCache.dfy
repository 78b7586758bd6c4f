/** src/api/yandex-client.ts: the folders known to exist, and the creation of folders with their parents. */
module FolderCache {
  import opened Basics
  import opened Paths
  import opened DeletionCover

  /** The non-empty prefixes of a path, itself included. */
  function Prefixes(p: Path): set<Path> { set k | 1 <= k <= |p| :: p[..k] }

  /** With a folder, its ancestors are known. */
  ghost predicate Closed(cache: set<Path>) { forall p :: p in cache ==> Prefixes(p) <= cache }

  lemma PrefixesAreClosed(p: Path)
    ensures Closed(Prefixes(p))
  {
    forall q | q in Prefixes(p) ensures Prefixes(q) <= Prefixes(p) {
      forall k | 1 <= k <= |q| ensures q[..k] in Prefixes(p) { assert q[..k] == p[..k]; }
    }
  }

  /** How the request to create one folder ends: made, found in place (by the error code or by looking), or failed. */
  datatype Put = Made | InPlace | Failed

  /** The folder was known, or a request for it or for something below it has been answered. */
  ghost predicate Provided(known: set<Path>, done: seq<Path>, folder: Path) {
    Normalize(folder) in known || folder in done || exists d :: d in done && Normalize(folder) in Prefixes(Normalize(d))
  }

  /** No folder is requested before each of its ancestors is provided for. */
  ghost predicate ParentsFirst(known: set<Path>, log: seq<Path>) {
    forall i, k :: 0 <= i < |log| && 1 <= k < |log[i]| ==> Provided(known, log[..i], log[i][..k])
  }

  lemma ProvidedLater(known: set<Path>, done: seq<Path>, more: Path, folder: Path)
    requires Provided(known, done, folder)
    ensures Provided(known, done + [more], folder)
  {
    if Normalize(folder) !in known && folder !in done {
      var d :| d in done && Normalize(folder) in Prefixes(Normalize(d));
      assert d in done + [more];
    }
  }

  lemma OneMore(known: set<Path>, log: seq<Path>, p: Path)
    requires ParentsFirst(known, log) && forall k :: 1 <= k < |p| ==> Provided(known, log, p[..k])
    ensures ParentsFirst(known, log + [p])
  {
    var more := log + [p];
    assert more[..|log|] == log;
    forall i, k | 0 <= i < |more| && 1 <= k < |more[i]| ensures Provided(known, more[..i], more[i][..k]) {
      if i < |log| { assert more[..i] == log[..i] && more[i] == log[i]; }
    }
  }

  lemma {:induction false} PrefixOfPrefix(paths: seq<Path>, q: Path, k: nat)
    requires q in AllPrefixes(paths) && 1 <= k <= |q|
    ensures q[..k] in AllPrefixes(paths)
  {
    var init, last := paths[..|paths| - 1], paths[|paths| - 1];
    if q in AllPrefixes(init) { PrefixOfPrefix(init, q, k); } else { assert q[..k] == last[..k]; }
  }

  class Folders {
    var cache: set<Path>

    ghost predicate Valid()
      reads this
    {
      Closed(cache)
    }

    constructor ()
      ensures Valid() && cache == {}
    {
      cache := {};
    }

    predicate Observed(path: Path)
      reads this
    {
      Normalize(path) in cache
    }

    /** `rememberFolder` */
    method Remember(path: Path)
      requires Valid()
      modifies this
      ensures Valid() && cache == old(cache) + Prefixes(Normalize(path))
    {
      var parts := Normalize(path);
      for k := 0 to |parts|
        invariant cache == old(cache) + set j | 1 <= j <= k :: parts[..j]
      {
        cache := cache + {parts[..k + 1]};
      }
      PrefixesAreClosed(parts);
    }

    /** `invalidateFolder` forgets a folder with everything below it, and nothing else. */
    method Invalidate(path: Path)
      requires Valid()
      modifies this
      ensures Valid()
      ensures forall p :: p in cache <==> p in old(cache) && (Normalize(path) == [] || !(Normalize(path) <= p))
    {
      var root := Normalize(path);
      if root == [] { return; }
      var rest := cache;
      while rest != {}
        invariant rest <= old(cache)
        invariant cache == set p | p in old(cache) && (p in rest || !(root <= p))
        decreases rest
      {
        var p :| p in rest;
        rest := rest - {p};
        if root <= p { cache := cache - {p}; }
      }
      forall p | p in cache ensures Prefixes(p) <= cache {
        forall k | 1 <= k <= |p| ensures p[..k] in cache {
          assert p[..k] in Prefixes(p);
          assert root <= p[..k] ==> root <= p;
        }
      }
    }

    /** `createFolder`: nothing is sent for a known folder. */
    method CreateFolder(path: Path, put: Put) returns (sent: bool, ok: bool)
      requires Valid()
      modifies this
      ensures Valid() && sent == !old(Observed(path)) && ok == (old(Observed(path)) || !put.Failed?)
      ensures cache == if sent && ok then old(cache) + Prefixes(Normalize(path)) else old(cache)
    {
      if Observed(path) { return false, true; }
      if put.Failed? { return true, false; }
      Remember(path);
      return true, true;
    }

    /** Collect every prefix of the paths that is not known. */
    method CollectMissing(paths: seq<Path>) returns (missing: set<Path>)
      ensures missing == set q | q in AllPrefixes(paths) && !Observed(q)
    {
      missing := {};
      for i := 0 to |paths|
        invariant missing == set q | q in AllPrefixes(paths[..i]) && !Observed(q)
      {
        var path := paths[i];
        assert paths[..i + 1][..i] == paths[..i];
        ghost var before := missing;
        for k := 0 to |path|
          invariant missing == before + set j | 1 <= j <= k && !Observed(path[..j]) :: path[..j]
        {
          if !Observed(path[..k + 1]) { missing := missing + {path[..k + 1]}; }
        }
      }
      assert paths[..|paths|] == paths;
    }

    /** `ensureFoldersExist`: every missing folder is requested, parents first, and a failure stops everything deeper.
        A folder that became known meanwhile needs no request. */
    method EnsureFoldersExist(paths: seq<Path>, puts: Path -> Put) returns (ok: bool, log: seq<Path>)
      requires Valid()
      modifies this
      ensures Valid() && old(cache) <= cache && ParentsFirst(old(cache), log)
      ensures forall p :: p in log ==> p in AllPrefixes(paths) && Normalize(p) !in old(cache)
      ensures ok ==> forall q :: q in AllPrefixes(paths) && Normalize(q) != [] ==> Observed(q)
      ensures ok <==> forall p :: p in log ==> !puts(p).Failed?
      ensures forall i :: 0 <= i < |log| - 1 ==> !puts(log[i]).Failed?
      ensures forall c :: c in cache <==> c in old(cache) || Answered(puts, log, c)
    {
      var missing := CollectMissing(paths);
      var order := SortByDepth(missing);
      log := [];
      for i := 0 to |order|
        invariant Valid() && old(cache) <= cache && ParentsFirst(old(cache), log)
        invariant forall p :: p in log ==> p in missing && !puts(p).Failed?
        invariant AllProvided(old(cache), log, order[..i])
        invariant forall p :: p in order[..i] && Normalize(p) != [] ==> Observed(p)
        invariant Explained(old(cache), log, cache) && Gathered(log, cache)
      {
        hide Answered, Gathered, ParentsFirst, AllProvided, Explained, Prefixes, Closed, AllPrefixes;
        var folder := order[i];
        assert folder in order;
        AnsweredIff(puts, old(cache), log, cache);
        GatherMore(log, cache, folder);
        assert order[..i + 1] == order[..i] + [folder];
        AncestorsProvided(old(cache), paths, missing, order, i, log);
        OneMore(old(cache), log, folder);
        ProvideMore(old(cache), log, cache, order[..i], folder);
        var sent, created := CreateFolder(folder, puts(folder));
        if !created {
          FailedAnswersNothing(puts, log, folder);
          return false, log + [folder];
        }
        if sent { log := log + [folder]; }
      }
      assert order[..|order|] == order;
      AnsweredIff(puts, old(cache), log, cache);
      return true, log;
    }
  }

  /** The folder, or something below it, was requested with success. */
  ghost predicate Answered(puts: Path -> Put, log: seq<Path>, c: Path) {
    exists d :: d in log && !puts(d).Failed? && c in Prefixes(Normalize(d))
  }

  ghost predicate Gathered(log: seq<Path>, cache: set<Path>) { forall d :: d in log ==> Prefixes(Normalize(d)) <= cache }

  lemma GatherMore(log: seq<Path>, cache: set<Path>, folder: Path)
    requires Gathered(log, cache)
    ensures Gathered(log + [folder], cache + Prefixes(Normalize(folder)))
  {}

  lemma AnsweredIff(puts: Path -> Put, known: set<Path>, log: seq<Path>, cache: set<Path>)
    requires Explained(known, log, cache) && known <= cache && forall p :: p in log ==> !puts(p).Failed?
    requires Gathered(log, cache)
    ensures forall c :: c in cache <==> c in known || Answered(puts, log, c)
  {
    hide Normalize, Prefixes;
  }

  lemma FailedAnswersNothing(puts: Path -> Put, log: seq<Path>, folder: Path)
    requires puts(folder).Failed?
    ensures forall c :: Answered(puts, log + [folder], c) <==> Answered(puts, log, c)
  {
    hide Normalize, Prefixes;
    forall c ensures Answered(puts, log + [folder], c) <==> Answered(puts, log, c) {
      if d :| d in log && !puts(d).Failed? && c in Prefixes(Normalize(d)) { assert d in log + [folder]; }
    }
  }

  ghost predicate AllProvided(known: set<Path>, done: seq<Path>, folders: seq<Path>) {
    forall p :: p in folders ==> Provided(known, done, p)
  }

  /** Every known folder was known before or comes from a request. */
  ghost predicate Explained(known: set<Path>, done: seq<Path>, cache: set<Path>) {
    forall c :: c in cache ==> c in known || exists d :: d in done && c in Prefixes(Normalize(d))
  }

  lemma ProvideMore(known: set<Path>, done: seq<Path>, cache: set<Path>, folders: seq<Path>, folder: Path)
    requires AllProvided(known, done, folders) && Explained(known, done, cache)
    ensures AllProvided(known, done + [folder], folders + [folder])
    ensures Explained(known, done + [folder], cache) && Explained(known, done + [folder], cache + Prefixes(Normalize(folder)))
    ensures Normalize(folder) in cache ==> AllProvided(known, done, folders + [folder])
    ensures Normalize(folder) != [] ==> Normalize(folder) in Prefixes(Normalize(folder))
  {
    ExplainMore(known, done, cache, folder);
    hide Normalize, Prefixes, Explained;
    forall p | p in folders ensures Provided(known, done + [folder], p) { ProvidedLater(known, done, folder, p); }
  }

  lemma ExplainMore(known: set<Path>, done: seq<Path>, cache: set<Path>, folder: Path)
    requires Explained(known, done, cache)
    ensures Explained(known, done + [folder], cache) && Explained(known, done + [folder], cache + Prefixes(Normalize(folder)))
    ensures Normalize(folder) in cache ==> Provided(known, done, folder)
    ensures Normalize(folder) != [] ==> Normalize(folder) in Prefixes(Normalize(folder))
  {
    hide Normalize;
    var whole := Normalize(folder);
    assert whole[..|whole|] == whole;
    assert whole != [] ==> whole[..|whole|] in Prefixes(whole);
    forall c | c in cache && c !in known ensures exists d :: d in done + [folder] && c in Prefixes(Normalize(d)) {
      var d :| d in done && c in Prefixes(Normalize(d));
      assert d in done + [folder];
    }
    assert folder in done + [folder];
  }

  /** When the turn of a folder comes, its ancestors are provided for. */
  lemma AncestorsProvided(known: set<Path>, paths: seq<Path>, missing: set<Path>, order: seq<Path>, i: nat, log: seq<Path>)
    requires missing == (set q | q in AllPrefixes(paths) && Normalize(q) !in known)
    requires ByDepth(order) && (forall p :: p in order <==> p in missing) && i < |order|
    requires AllProvided(known, log, order[..i])
    ensures forall k :: 1 <= k < |order[i]| ==> Provided(known, log, order[i][..k])
  {
    var folder := order[i];
    assert folder in order;
    forall k | 1 <= k < |folder| ensures Provided(known, log, folder[..k]) {
      PrefixOfPrefix(paths, folder, k);
      if Normalize(folder[..k]) !in known {
        assert folder[..k] in order;
        var j :| 0 <= j < |order| && order[j] == folder[..k];
        assert j < i;
        assert order[..i][j] == folder[..k];
      }
    }
  }

  /** Every prefix of every path. */
  ghost function AllPrefixes(paths: seq<Path>): set<Path> {
    if paths == [] then {} else AllPrefixes(paths[..|paths| - 1]) + Prefixes(paths[|paths| - 1])
  }
}
