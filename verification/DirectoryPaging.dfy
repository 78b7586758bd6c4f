/** src/api/yandex-client.ts `readDirectoryPageSet`: one directory listed page by page against an arbitrary server. */
module DirectoryPaging {
  import opened Basics
  import opened Paths
  import opened FolderCache

  datatype Kind = File | Dir | OtherKind

  datatype Item = Item(name: string, path: Path, kind: Kind)

  /** The embedded page of a directory response; numbers are what the server sent. */
  datatype Page = Page(items: seq<Item>, total: int, limit: int, offset: int)

  /** A response to the request for one offset. `here` says whether its path is the requested one, `identity` is its
      path and resource identifier as compared between pages. */
  datatype Response =
    | Missing | Error | FileResource(file: Item) | OtherResource
    | Directory(here: bool, identity: string, page: Option<Page>)

  /** What a listing returns. */
  datatype Listing = Listing(files: seq<Item>, directories: seq<Path>, pages: nat)

  /** The checks of one item: a plain name whose join with the directory is its own path. */
  predicate ValidItem(directory: Path, item: Item) {
    && item.name != "" && item.path != [] && !item.kind.OtherKind?
    && Normalize(item.path) == Normalize(directory + [item.name])
    && '/' !in item.name && item.name != "." && item.name != ".."
  }

  /** The checks of a page at an offset, against the total that earlier pages declared. */
  predicate ValidPage(page: Page, offset: nat, total: Option<int>) {
    && 0 <= page.total <= MAX_SAFE_INTEGER && page.offset == offset && 1 <= page.limit <= MAX_SAFE_INTEGER
    && |page.items| <= page.limit && offset + |page.items| <= page.total
    && (total.Some? ==> total.value == page.total)
    && (|page.items| == 0 ==> offset >= page.total)
  }

  ghost predicate DistinctPaths(items: seq<Item>) {
    forall i, j :: 0 <= i < j < |items| ==> Normalize(items[i].path) != Normalize(items[j].path)
  }

  /** How the caller reads a listing: an inspection of raw paths that replaces the protected-path rule, and whether
      directories are returned with the files. */
  datatype Reading = Reading(inspect: Option<(Path, Kind) -> bool>, includeDirectories: bool)

  predicate Inspected(reading: Reading, item: Item) {
    reading.inspect.None? || reading.inspect.value(item.path, item.kind)
  }

  /** A directory to descend into. */
  predicate Descends(reading: Reading, item: Item) {
    item.kind.Dir? && Inspected(reading, item) && (reading.inspect.Some? || !Protected(item.path))
  }

  function FilesOf(reading: Reading, items: seq<Item>): seq<Item> {
    if items == [] then []
    else
      var item := items[|items| - 1];
      FilesOf(reading, items[..|items| - 1]) +
        if item.kind.File? && Inspected(reading, item) then [item]
        else if reading.includeDirectories && Descends(reading, item) then [item] else []
  }

  function DirectoriesOf(reading: Reading, items: seq<Item>): seq<Path> {
    if items == [] then []
    else
      var item := items[|items| - 1];
      DirectoriesOf(reading, items[..|items| - 1]) + if Descends(reading, item) then [item.path] else []
  }

  /** The items taken so far give the lists returned so far. */
  ghost predicate Taken(reading: Reading, directory: Path, items: seq<Item>, files: seq<Item>, directories: seq<Path>, seen: set<Path>) {
    && files == FilesOf(reading, items) && directories == DirectoriesOf(reading, items)
    && DistinctPaths(items) && (forall i :: 0 <= i < |items| ==> ValidItem(directory, items[i]))
    && forall p :: p in seen <==> exists i :: 0 <= i < |items| && Normalize(items[i].path) == p
  }

  lemma TakeOne(reading: Reading, directory: Path, items: seq<Item>, files: seq<Item>, directories: seq<Path>, seen: set<Path>, item: Item)
    requires Taken(reading, directory, items, files, directories, seen)
    requires ValidItem(directory, item) && Normalize(item.path) !in seen
    ensures Taken(reading, directory, items + [item], FilesOf(reading, items + [item]), DirectoriesOf(reading, items + [item]),
                  seen + {Normalize(item.path)})
    ensures FilesOf(reading, items + [item]) == files +
      if item.kind.File? && Inspected(reading, item) then [item]
      else if reading.includeDirectories && Descends(reading, item) then [item] else []
    ensures DirectoriesOf(reading, items + [item]) == directories + if Descends(reading, item) then [item.path] else []
  {
    hide ValidItem, Normalize;
    var more := items + [item];
    assert more[..|items|] == items;
    forall p ensures p in seen + {Normalize(item.path)} <==> exists i :: 0 <= i < |more| && Normalize(more[i].path) == p {
      if p in seen { var i :| 0 <= i < |items| && Normalize(items[i].path) == p; assert more[i] == items[i]; }
      if p == Normalize(item.path) { assert more[|items|] == item; }
    }
  }

  /** The reading accepts the item: without an inspection it accepts every one. */
  predicate Accepts(inspect: Option<(Path, Kind) -> bool>, item: Item) {
    match inspect case None => true case Some(accepts) => accepts(item.path, item.kind)
  }

  /** Besides what was known before, exactly the accepted directories are remembered, with their ancestors. */
  ghost predicate Cached(reading: Reading, items: seq<Item>, known: set<Path>, cache: set<Path>) {
    forall p :: p in cache <==> p in known || exists i :: 0 <= i < |items| && Caches(reading, items[i], p)
  }

  predicate Caches(reading: Reading, item: Item, p: Path) {
    item.kind.Dir? && Accepts(reading.inspect, item) && p in Prefixes(Normalize(item.path))
  }

  lemma CacheOne(reading: Reading, items: seq<Item>, known: set<Path>, cache: set<Path>, item: Item, more: set<Path>)
    requires Cached(reading, items, known, cache)
    requires more == cache + if item.kind.Dir? && Accepts(reading.inspect, item) then Prefixes(Normalize(item.path)) else {}
    ensures Cached(reading, items + [item], known, more)
  {
    hide Normalize, Prefixes;
    var longer := items + [item];
    forall p ensures p in more <==> p in known || exists i :: 0 <= i < |longer| && Caches(reading, longer[i], p) {
      if i :| 0 <= i < |items| && Caches(reading, items[i], p) { assert longer[i] == items[i]; }
      if p in more && p !in cache { assert Caches(reading, longer[|items|], p); }
    }
  }

  /** One item: refused when invalid or seen before, otherwise remembered and filed. */
  method TakeItem(reading: Reading, directory: Path, item: Item, folders: Folders, ghost known: set<Path>,
                  ghost items: seq<Item>, files: seq<Item>, directories: seq<Path>, seen: set<Path>)
    returns (ok: bool, moreFiles: seq<Item>, moreDirectories: seq<Path>, moreSeen: set<Path>)
    requires folders.Valid() && Taken(reading, directory, items, files, directories, seen)
    requires Cached(reading, items, known, folders.cache)
    modifies folders
    ensures ok ==> Cached(reading, items + [item], known, folders.cache)
    ensures folders.Valid() && old(folders.cache) <= folders.cache
    ensures ok <==> ValidItem(directory, item) && Normalize(item.path) !in seen
    ensures ok ==> Taken(reading, directory, items + [item], moreFiles, moreDirectories, moreSeen)
  {
    hide Taken, ValidItem, Normalize, FilesOf, DirectoriesOf, Protected, Cached, Prefixes;
    ok, moreFiles, moreDirectories, moreSeen := false, files, directories, seen;
    if !ValidItem(directory, item) { return; }
    if Normalize(item.path) in seen { return; }
    TakeOne(reading, directory, items, files, directories, seen, item);
    KnownKind(directory, item);
    assert files + [] == files && directories + [] == directories;
    ok := true;
    moreSeen := seen + {Normalize(item.path)};
    CacheOne(reading, items, known, folders.cache, item,
             folders.cache + if item.kind.Dir? && Accepts(reading.inspect, item) then Prefixes(Normalize(item.path)) else {});
    assert folders.cache + {} == folders.cache;
    if reading.inspect.Some? && !reading.inspect.value(item.path, item.kind) { return; }
    if item.kind.Dir? {
      folders.Remember(item.path);
      if reading.inspect.Some? || !Protected(item.path) {
        moreDirectories := directories + [item.path];
        if reading.includeDirectories { moreFiles := files + [item]; }
      }
    } else {
      moreFiles := files + [item];
    }
  }

  lemma KnownKind(directory: Path, item: Item)
    requires ValidItem(directory, item)
    ensures item.kind.File? || item.kind.Dir?
  {
    hide Normalize;
  }

  /** All items of the page are valid and new, also among themselves. */
  ghost predicate Acceptable(directory: Path, before: seq<Item>, items: seq<Item>) {
    (forall i :: 0 <= i < |items| ==> ValidItem(directory, items[i])) && DistinctPaths(before + items)
  }

  lemma Refused(reading: Reading, directory: Path, before: seq<Item>, items: seq<Item>, i: nat,
                files: seq<Item>, directories: seq<Path>, seen: set<Path>)
    requires i < |items| && Taken(reading, directory, before + items[..i], files, directories, seen)
    requires !ValidItem(directory, items[i]) || Normalize(items[i].path) in seen
    ensures !Acceptable(directory, before, items)
  {
    hide ValidItem, Normalize, FilesOf, DirectoriesOf;
    if Normalize(items[i].path) in seen {
      var taken := before + items[..i];
      var k :| 0 <= k < |taken| && Normalize(taken[k].path) == Normalize(items[i].path);
      assert (before + items)[k] == taken[k] && (before + items)[|before| + i] == items[i];
    }
  }

  /** The loop over the items of one page. */
  method TakePage(reading: Reading, directory: Path, page: Page, folders: Folders, ghost known: set<Path>, ghost before: seq<Item>,
                  startFiles: seq<Item>, startDirectories: seq<Path>, startSeen: set<Path>)
    returns (ok: bool, files: seq<Item>, directories: seq<Path>, seen: set<Path>)
    requires folders.Valid() && Taken(reading, directory, before, startFiles, startDirectories, startSeen)
    requires Cached(reading, before, known, folders.cache)
    modifies folders
    ensures ok ==> Cached(reading, before + page.items, known, folders.cache)
    ensures folders.Valid() && old(folders.cache) <= folders.cache
    ensures ok ==> Taken(reading, directory, before + page.items, files, directories, seen)
    ensures ok <==> Acceptable(directory, before, page.items)
  {
    files, directories, seen := startFiles, startDirectories, startSeen;
    SliceEnds(before, page.items);
    for i := 0 to |page.items|
      invariant folders.Valid() && old(folders.cache) <= folders.cache
      invariant Taken(reading, directory, before + page.items[..i], files, directories, seen)
      invariant Cached(reading, before + page.items[..i], known, folders.cache)
    {
      hide Taken, ValidItem, Normalize, Acceptable, Cached;
      SliceMore(before, page.items, i);
      ghost var f, d, s := files, directories, seen;
      ok, files, directories, seen := TakeItem(reading, directory, page.items[i], folders, known, before + page.items[..i], files, directories, seen);
      if !ok {
        Refused(reading, directory, before, page.items, i, f, d, s);
        return;
      }
    }
    ok := true;
    AllAcceptable(reading, directory, before, page.items, files, directories, seen);
  }

  lemma SliceEnds(before: seq<Item>, items: seq<Item>)
    ensures before + items[..0] == before && before + items[..|items|] == before + items
  {
    assert items[..|items|] == items;
  }

  lemma SliceMore(before: seq<Item>, items: seq<Item>, i: nat)
    requires i < |items|
    ensures before + items[..i + 1] == (before + items[..i]) + [items[i]]
  {}

  lemma AllAcceptable(reading: Reading, directory: Path, before: seq<Item>, items: seq<Item>,
                      files: seq<Item>, directories: seq<Path>, seen: set<Path>)
    requires Taken(reading, directory, before + items, files, directories, seen)
    ensures Acceptable(directory, before, items)
  {
    hide ValidItem, Normalize, FilesOf, DirectoriesOf;
    forall i | 0 <= i < |items| ensures ValidItem(directory, items[i]) { assert (before + items)[|before| + i] == items[i]; }
  }

  /** The items of the first responses, in order. */
  ghost function ItemsOf(respond: nat -> Response, pages: nat): seq<Item> {
    if pages == 0 then []
    else
      var r := respond(pages - 1);
      ItemsOf(respond, pages - 1) + if r.Directory? && r.page.Some? then r.page.value.items else []
  }

  /** The first responses are pages of one directory that continue each other and agree about the total. */
  ghost predicate Continues(respond: nat -> Response, pages: nat, total: int) {
    forall k :: 0 <= k < pages ==>
      && respond(0).Directory? && respond(k).Directory? && respond(k).here && respond(k).identity == respond(0).identity && respond(k).page.Some?
      && ValidPage(respond(k).page.value, |ItemsOf(respond, k)|, Some(total))
  }

  /** What the pages read so far have given. */
  ghost predicate Progress(reading: Reading, directory: Path, respond: nat -> Response, pages: nat,
                           files: seq<Item>, directories: seq<Path>, seen: set<Path>)
  {
    && Taken(reading, directory, ItemsOf(respond, pages), files, directories, seen)
    && (pages > 0 ==> respond(0).Directory? && respond(0).page.Some? && Continues(respond, pages, respond(0).page.value.total))
  }

  /** The total that the first page declared. */
  function Declared(respond: nat -> Response, pages: nat): Option<int> {
    if pages > 0 && respond(0).Directory? && respond(0).page.Some? then Some(respond(0).page.value.total) else None
  }

  lemma ContinueOne(respond: nat -> Response, pages: nat)
    requires pages > 0 ==> respond(0).Directory? && respond(0).page.Some? && Continues(respond, pages, respond(0).page.value.total)
    requires respond(pages).Directory? && respond(pages).here && respond(pages).page.Some?
    requires pages > 0 ==> respond(pages).identity == respond(0).identity
    requires ValidPage(respond(pages).page.value, |ItemsOf(respond, pages)|, Declared(respond, pages))
    ensures respond(0).Directory? && respond(0).page.Some? && Continues(respond, pages + 1, respond(0).page.value.total)
    ensures ItemsOf(respond, pages + 1) == ItemsOf(respond, pages) + respond(pages).page.value.items
    ensures respond(0).page.value.total == respond(pages).page.value.total
  {
    hide ItemsOf;
    assert ItemsOf(respond, pages + 1) == ItemsOf(respond, pages) + respond(pages).page.value.items by { ItemsStep(respond, pages); }
    if pages == 0 { assert ItemsOf(respond, 0) == [] by { ItemsStep(respond, 0); } }
  }

  lemma ItemsStep(respond: nat -> Response, pages: nat)
    requires respond(pages).Directory? && respond(pages).page.Some?
    ensures ItemsOf(respond, pages + 1) == ItemsOf(respond, pages) + respond(pages).page.value.items && ItemsOf(respond, 0) == []
  {}

  // What is refused.

  /** No name or path, a name that is more than a name, another kind, or a path that is not directly in the directory. */
  predicate BadItem(directory: Path, item: Item) {
    || item.name == "" || item.path == [] || item.kind.OtherKind? || '/' in item.name || item.name == "." || item.name == ".."
    || Normalize(item.path) != Normalize(directory + [item.name])
  }

  /** Numbers that are none, another offset than was asked for, another total than before, too many items, or none
      although some are missing. */
  predicate BadPage(page: Page, offset: nat, total: Option<int>) {
    || page.total < 0 || page.total > 9007199254740991 || page.limit < 1 || page.limit > 9007199254740991
    || page.offset != offset || (total.Some? && page.total != total.value)
    || |page.items| > page.limit || offset + |page.items| > page.total || (page.items == [] && offset < page.total)
  }

  /** The item is bad, or its path was listed before, on this page or an earlier one. */
  ghost predicate Offends(directory: Path, before: seq<Item>, items: seq<Item>, i: nat)
    requires i < |items|
  {
    BadItem(directory, items[i]) || exists f :: f in before + items[..i] && Normalize(f.path) == Normalize(items[i].path)
  }

  lemma Slice(before: seq<Item>, items: seq<Item>, i: nat)
    requires i < |items|
    ensures (before + items)[|before| + i] == items[i] && (before + items)[..|before| + i] == before + items[..i]
  {}

  lemma AcceptedOffendsNowhere(directory: Path, before: seq<Item>, items: seq<Item>, i: nat)
    requires Acceptable(directory, before, items) && i < |items|
    ensures !Offends(directory, before, items, i)
  {
    ItemIff(directory, items[i]);
    hide ValidItem, BadItem, Normalize;
    Slice(before, items, i);
    var all := before + items;
    forall f | f in all[..|before| + i] ensures Normalize(f.path) != Normalize(items[i].path) {
      var k :| 0 <= k < |before| + i && all[k] == f;
    }
  }

  lemma OffendsNowhereIsAccepted(directory: Path, before: seq<Item>, items: seq<Item>)
    requires DistinctPaths(before) && forall i :: 0 <= i < |items| ==> !Offends(directory, before, items, i)
    ensures Acceptable(directory, before, items)
  {
    hide ValidItem, BadItem, Normalize;
    var all := before + items;
    forall a, b | 0 <= a < b < |all| ensures Normalize(all[a].path) != Normalize(all[b].path) {
      if b >= |before| {
        Slice(before, items, b - |before|);
        assert !Offends(directory, before, items, b - |before|);
        assert all[a] in all[..b];
      }
    }
    forall i | 0 <= i < |items| ensures ValidItem(directory, items[i]) {
      assert !Offends(directory, before, items, i);
      ItemIff(directory, items[i]);
    }
  }

  lemma AcceptableIff(directory: Path, before: seq<Item>, items: seq<Item>)
    requires DistinctPaths(before)
    ensures Acceptable(directory, before, items) <==> forall i :: 0 <= i < |items| ==> !Offends(directory, before, items, i)
  {
    hide Acceptable, Offends, DistinctPaths;
    if Acceptable(directory, before, items) {
      forall i | 0 <= i < |items| ensures !Offends(directory, before, items, i) { AcceptedOffendsNowhere(directory, before, items, i); }
    } else if forall i :: 0 <= i < |items| ==> !Offends(directory, before, items, i) {
      OffendsNowhereIsAccepted(directory, before, items);
    }
  }

  lemma ItemIff(directory: Path, item: Item)
    ensures ValidItem(directory, item) <==> !BadItem(directory, item)
    ensures ValidItem(directory, item) ==> !item.kind.OtherKind?
  {}

  lemma PageIff(page: Page, offset: nat, total: Option<int>)
    ensures ValidPage(page, offset, total) <==> !BadPage(page, offset, total)
  {}

  /** What is wrong with a response, after the ones before it: no directory, another directory than was asked for or
      answered before, a page that does not continue them, or an item that offends. */
  ghost predicate Flawed(directory: Path, respond: nat -> Response, k: nat) {
    var r := respond(k);
    if !r.Directory? then k > 0 || r.Error? || r.OtherResource?
    else
      || !r.here || r.page.None? || (k > 0 && respond(0).Directory? && r.identity != respond(0).identity)
      || BadPage(r.page.value, |ItemsOf(respond, k)|, Declared(respond, k))
      || exists i :: 0 <= i < |r.page.value.items| && Offends(directory, ItemsOf(respond, k), r.page.value.items, i)
  }

  ghost predicate FirstFlaw(directory: Path, respond: nat -> Response, k: nat) {
    Flawed(directory, respond, k) && forall j :: 0 <= j < k ==> !Flawed(directory, respond, j)
  }

  lemma TakenIsDistinct(reading: Reading, directory: Path, items: seq<Item>, files: seq<Item>, directories: seq<Path>, seen: set<Path>)
    requires Taken(reading, directory, items, files, directories, seen)
    ensures DistinctPaths(items)
  {}

  /** One directory response: checked against the earlier ones, then its items are taken. */
  method NextPage(reading: Reading, directory: Path, respond: nat -> Response, pages: nat, offset: nat, folders: Folders,
                  ghost known: set<Path>, files: seq<Item>, directories: seq<Path>, seen: set<Path>)
    returns (ok: bool, moreFiles: seq<Item>, moreDirectories: seq<Path>, moreSeen: set<Path>, next: nat, total: int)
    requires folders.Valid() && respond(pages).Directory? && offset == |ItemsOf(respond, pages)|
    requires Progress(reading, directory, respond, pages, files, directories, seen)
    requires Cached(reading, ItemsOf(respond, pages), known, folders.cache)
    modifies folders
    ensures ok ==> Cached(reading, ItemsOf(respond, pages + 1), known, folders.cache)
    ensures folders.Valid() && old(folders.cache) <= folders.cache
    ensures ok ==> Progress(reading, directory, respond, pages + 1, moreFiles, moreDirectories, moreSeen)
    ensures ok ==> next == |ItemsOf(respond, pages + 1)| && offset <= next <= total <= MAX_SAFE_INTEGER
    ensures ok ==> (next == offset ==> next == total) && Declared(respond, pages + 1) == Some(total)
    ensures ok && pages > 0 ==> Declared(respond, pages) == Some(total)
    ensures ok <==> !Flawed(directory, respond, pages)
  {
    TakenIsDistinct(reading, directory, ItemsOf(respond, pages), files, directories, seen);
    hide Taken, FilesOf, DirectoriesOf, Acceptable, Continues, Cached, ValidPage, BadPage, Offends, DistinctPaths;
    ok, moreFiles, moreDirectories, moreSeen, next, total := false, files, directories, seen, offset, 0;
    var response := respond(pages);
    if !response.here || (pages > 0 && response.identity != respond(0).identity) { return; }
    if response.page.Some? {
      PageIff(response.page.value, offset, Declared(respond, pages));
      AcceptableIff(directory, ItemsOf(respond, pages), response.page.value.items);
    }
    if response.page.None? || !ValidPage(response.page.value, offset, Declared(respond, pages)) { return; }
    ContinueOne(respond, pages);
    ok, moreFiles, moreDirectories, moreSeen :=
      TakePage(reading, directory, response.page.value, folders, known, ItemsOf(respond, pages), files, directories, seen);
    next, total := offset + |response.page.value.items|, response.page.value.total;
  }

  /** `readDirectoryPageSet`; `respond` is what the server answers to the successive requests. */
  method ReadDirectoryPageSet(directory: Path, respond: nat -> Response, allowMissingRoot: bool, reading: Reading, folders: Folders)
    returns (result: Option<Listing>, seen: set<Path>)
    requires folders.Valid()
    modifies folders
    ensures folders.Valid() && old(folders.cache) <= folders.cache
    ensures result.Some? && respond(0).Missing? ==> allowMissingRoot && result.value == Listing([], [], 1)
    ensures result.Some? && respond(0).FileResource? ==> result.value == Listing([respond(0).file], [], 1)
    ensures result.Some? ==> respond(0).Missing? || respond(0).FileResource? || respond(0).Directory?
    ensures result.Some? && respond(0).Directory? ==>
      && result.value.pages > 0 && Declared(respond, result.value.pages) == Some(|ItemsOf(respond, result.value.pages)|)
      && Progress(reading, directory, respond, result.value.pages, result.value.files, result.value.directories, seen)
      && Cached(reading, ItemsOf(respond, result.value.pages), old(folders.cache), folders.cache)
    ensures result.Some? && !respond(0).Directory? ==> folders.cache == old(folders.cache)
    ensures result.None? ==> (respond(0).Missing? && !allowMissingRoot) || exists k :: FirstFlaw(directory, respond, k)
  {
    hide Progress, ItemsOf, Declared, Cached, BadPage, Offends;
    ghost var known := folders.cache;
    var files, directories := [], [];
    seen := {};
    var offset, pages, total := 0, 0, MAX_SAFE_INTEGER + 1;
    NothingRead(reading, directory, respond);
    NothingCached(reading, respond, known);
    while true
      invariant folders.Valid() && old(folders.cache) <= folders.cache
      invariant offset == |ItemsOf(respond, pages)| && Progress(reading, directory, respond, pages, files, directories, seen)
      invariant offset < total && (pages > 0 ==> Declared(respond, pages) == Some(total))
      invariant pages == 0 ==> total == MAX_SAFE_INTEGER + 1
      invariant pages > 0 ==> respond(0).Directory?
      invariant forall j :: 0 <= j < pages ==> !Flawed(directory, respond, j)
      invariant Cached(reading, ItemsOf(respond, pages), known, folders.cache)
      invariant pages == 0 ==> folders.cache == known
      decreases total - offset
    {
      if pages == 0 && !respond(0).Directory? {
        if respond(0).Missing? && allowMissingRoot { return Some(Listing([], [], 1)), seen; }
        assert !respond(0).FileResource? && !respond(0).Missing? ==> FirstFlaw(directory, respond, 0);
        return if respond(0).FileResource? then Some(Listing([respond(0).file], [], 1)) else None, seen;
      }
      if !respond(pages).Directory? {
        assert FirstFlaw(directory, respond, pages);
        return None, seen;
      }
      var ok, next, declared;
      ok, files, directories, seen, next, declared := NextPage(reading, directory, respond, pages, offset, folders, known, files, directories, seen);
      if !ok {
        assert FirstFlaw(directory, respond, pages);
        return None, seen;
      }
      offset, pages, total := next, pages + 1, declared;
      if offset >= total { return Some(Listing(files, directories, pages)), seen; }
    }
  }

  lemma NothingRead(reading: Reading, directory: Path, respond: nat -> Response)
    ensures ItemsOf(respond, 0) == [] && Progress(reading, directory, respond, 0, [], [], {})
  {}

  lemma NothingCached(reading: Reading, respond: nat -> Response, known: set<Path>)
    ensures Cached(reading, ItemsOf(respond, 0), known, known)
  {}

  // What a listing returns.

  /** A directory to descend into: an inspection replaces the rule about reserved names. */
  predicate Followed(reading: Reading, item: Item) {
    item.kind.Dir? && Accepts(reading.inspect, item) && (reading.inspect.None? ==> !Protected(item.path))
  }

  /** A file that is returned, or a directory that is returned with them. */
  predicate Returned(reading: Reading, item: Item) {
    if item.kind.File? then Accepts(reading.inspect, item) else reading.includeDirectories && Followed(reading, item)
  }

  /** `b` comes after `a` in the order of the responses. */
  ghost predicate InOrder(items: seq<Item>, a: Item, b: Item) {
    exists i, j :: 0 <= i < j < |items| && items[i] == a && items[j] == b
  }

  /** Exactly the returned items, in order. */
  ghost predicate SelectsFiles(reading: Reading, items: seq<Item>, files: seq<Item>) {
    && (forall f :: f in files <==> f in items && Returned(reading, f))
    && (forall a, b :: 0 <= a < b < |files| ==> InOrder(items, files[a], files[b]))
  }

  ghost predicate PathsInOrder(items: seq<Item>, p: Path, q: Path) {
    exists i, j :: 0 <= i < j < |items| && items[i].path == p && items[j].path == q
  }

  ghost predicate SelectsDirectories(reading: Reading, items: seq<Item>, directories: seq<Path>) {
    && (forall d :: d in directories <==> exists f :: f in items && f.path == d && Followed(reading, f))
    && (forall a, b :: 0 <= a < b < |directories| ==> PathsInOrder(items, directories[a], directories[b]))
  }

  lemma {:induction false} FilesAreSelected(reading: Reading, items: seq<Item>)
    requires forall i :: 0 <= i < |items| ==> !items[i].kind.OtherKind?
    ensures SelectsFiles(reading, items, FilesOf(reading, items))
  {
    hide Protected;
    if items != [] {
      var less, item := items[..|items| - 1], items[|items| - 1];
      FilesAreSelected(reading, less);
      var files, before := FilesOf(reading, items), FilesOf(reading, less);
      assert files == before + if Returned(reading, item) then [item] else [];
      forall a, b | 0 <= a < b < |files| ensures InOrder(items, files[a], files[b]) {
        if b < |before| {
          assert InOrder(less, before[a], before[b]);
          var i, j :| 0 <= i < j < |less| && less[i] == before[a] && less[j] == before[b];
          assert items[i] == files[a] && items[j] == files[b];
        } else {
          assert before[a] in less;
          var i :| 0 <= i < |less| && less[i] == before[a];
          assert items[i] == files[a] && items[|items| - 1] == files[b];
        }
      }
    }
  }

  lemma {:induction false} DirectoriesAreSelected(reading: Reading, items: seq<Item>)
    ensures SelectsDirectories(reading, items, DirectoriesOf(reading, items))
  {
    hide Protected;
    if items != [] {
      var less, item := items[..|items| - 1], items[|items| - 1];
      DirectoriesAreSelected(reading, less);
      var all, before := DirectoriesOf(reading, items), DirectoriesOf(reading, less);
      assert all == before + if Followed(reading, item) then [item.path] else [];
      assert items == less + [item];
      forall a, b | 0 <= a < b < |all| ensures PathsInOrder(items, all[a], all[b]) {
        if b < |before| {
          var i, j :| 0 <= i < j < |less| && less[i].path == before[a] && less[j].path == before[b];
          assert items[i].path == all[a] && items[j].path == all[b];
        } else {
          assert before[a] in before;
          var f :| f in less && f.path == before[a];
          var i :| 0 <= i < |less| && less[i] == f;
          assert items[i].path == all[a] && items[|items| - 1].path == all[b];
        }
      }
    }
  }

  /** What a directory listing that returns normally has accepted: exactly the declared total of valid items with
      pairwise distinct paths. It returns, in order, the files among them that the reading accepts and the directories
      to descend into; without an inspection these are all the files and all the unprotected directories. */
  lemma ListingIsExact(reading: Reading, directory: Path, respond: nat -> Response, listing: Listing, seen: set<Path>)
    requires listing.pages > 0 && Progress(reading, directory, respond, listing.pages, listing.files, listing.directories, seen)
    ensures var items := ItemsOf(respond, listing.pages);
      && DistinctPaths(items) && (forall i :: 0 <= i < |items| ==> !BadItem(directory, items[i]))
      && SelectsFiles(reading, items, listing.files) && SelectsDirectories(reading, items, listing.directories)
      && (forall k :: 0 <= k < listing.pages ==> respond(k).Directory? && respond(k).page.Some?)
    ensures DistinctPaths(listing.files)
    ensures forall a, b :: 0 <= a < b < |listing.directories| ==> Normalize(listing.directories[a]) != Normalize(listing.directories[b])
    ensures reading.inspect.None? ==>
      forall f :: f in ItemsOf(respond, listing.pages) ==>
        if f.kind.File? then f in listing.files else !Protected(f.path) ==> f.path in listing.directories
  {
    hide ValidItem, FilesOf, DirectoriesOf, ItemsOf, Normalize, Protected, SelectsFiles, SelectsDirectories, ValidPage;
    var items := ItemsOf(respond, listing.pages);
    forall i | 0 <= i < |items| ensures !BadItem(directory, items[i]) && !items[i].kind.OtherKind? { ItemIff(directory, items[i]); }
    hide BadItem;
    FilesAreSelected(reading, items);
    DirectoriesAreSelected(reading, items);
    SelectionIsDistinct(reading, items, listing.files, listing.directories);
    if reading.inspect.None? { EveryFileIsSelected(reading, items, listing.files, listing.directories); }
  }

  lemma SelectionIsDistinct(reading: Reading, items: seq<Item>, files: seq<Item>, directories: seq<Path>)
    requires DistinctPaths(items) && SelectsFiles(reading, items, files) && SelectsDirectories(reading, items, directories)
    ensures DistinctPaths(files)
    ensures forall a, b :: 0 <= a < b < |directories| ==> Normalize(directories[a]) != Normalize(directories[b])
  {
    hide Normalize, Returned, Followed;
    forall a, b | 0 <= a < b < |files| ensures Normalize(files[a].path) != Normalize(files[b].path) {
      assert InOrder(items, files[a], files[b]);
    }
    forall a, b | 0 <= a < b < |directories| ensures Normalize(directories[a]) != Normalize(directories[b]) {
      assert PathsInOrder(items, directories[a], directories[b]);
    }
  }

  lemma EveryFileIsSelected(reading: Reading, items: seq<Item>, files: seq<Item>, directories: seq<Path>)
    requires SelectsFiles(reading, items, files) && SelectsDirectories(reading, items, directories) && reading.inspect.None?
    requires forall i :: 0 <= i < |items| ==> !items[i].kind.OtherKind?
    ensures forall f :: f in items ==> if f.kind.File? then f in files else !Protected(f.path) ==> f.path in directories
  {
    hide Protected;
  }

  /** An accepted item lies directly in the directory, which may be the root of the disk, exactly when its name has no
      backslash. */
  lemma AcceptedIsDirectChild(directory: Path, item: Item)
    requires (directory == [] || Normalized(directory)) && ValidItem(directory, item)
    ensures Normalize(item.path) == directory + [item.name] <==> '\\' !in item.name
  {
    if '\\' !in item.name {
      assert Normalized(directory + [item.name]);
    } else {
      NormalizeIsNormalized(item.path);
      assert (directory + [item.name])[|directory|] == item.name;
    }
  }

  lemma {:induction false} SplitHasNoBackslash(s: string)
    ensures forall k :: 0 <= k < |SplitBackslash(s)| ==> '\\' !in SplitBackslash(s)[k]
  {
    if s != "" { SplitHasNoBackslash(s[1..]); }
  }

  lemma {:induction false} DropEmptyKeeps(p: seq<string>)
    ensures forall k :: 0 <= k < |DropEmpty(p)| ==> DropEmpty(p)[k] in p && DropEmpty(p)[k] != ""
  {
    if p != [] { DropEmptyKeeps(p[1..]); }
  }

  lemma {:induction false} NormalizeIsNormalized(p: Path)
    ensures forall k :: 0 <= k < |Normalize(p)| ==> Normalize(p)[k] != "" && '\\' !in Normalize(p)[k]
  {
    if p != [] {
      SplitHasNoBackslash(p[0]);
      DropEmptyKeeps(SplitBackslash(p[0]));
      NormalizeIsNormalized(p[1..]);
    }
  }

  lemma {:induction false} SplitOne(a: string, b: string)
    requires '\\' !in a && '\\' !in b
    ensures SplitBackslash(a + "\\" + b) == [a, b]
  {
    var s := a + "\\" + b;
    if a == "" {
      assert s[1..] == b;
    } else {
      SplitOne(a[1..], b);
      assert s[1..] == a[1..] + "\\" + b && s[0] == a[0] && a[0] in a;
      assert [a[0]] + a[1..] == a;
    }
  }

  lemma {:induction false} NormalizeSnoc(directory: Path, segment: string)
    ensures Normalize(directory + [segment]) == Normalize(directory) + DropEmpty(SplitBackslash(segment))
  {
    hide DropEmpty, SplitBackslash;
    if directory == [] {
      assert [] + [segment] == [segment] && [segment][1..] == [];
    } else {
      NormalizeSnoc(directory[1..], segment);
      assert (directory + [segment])[1..] == directory[1..] + [segment];
    }
  }

  /** A file whose name joins two segments with a backslash. */
  function Backslashed(directory: Path, a: string, b: string): Item {
    Item(a + "\\" + b, directory + [a + "\\" + b], File)
  }

  /** Such a file is accepted in any directory, and its path is that of a file one level further down. */
  lemma BackslashIsAccepted(directory: Path, a: string, b: string)
    requires (directory == [] || Normalized(directory)) && a != "" && b != ""
    requires '/' !in a && '/' !in b && '\\' !in a && '\\' !in b
    ensures ValidItem(directory, Backslashed(directory, a, b)) && Acceptable(directory, [], [Backslashed(directory, a, b)])
    ensures Normalize(Backslashed(directory, a, b).path) == directory + [a, b]
  {
    assert |a + "\\" + b| >= 3;
    SplitOne(a, b);
    NormalizeSnoc(directory, a + "\\" + b);
  }
}
