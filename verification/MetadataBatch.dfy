/** src/api/yandex-client.ts `collectLogicalMetadata`: metadata of many files, with shared listings where they are
    cheaper. Each method of the class is one stretch of code between two awaits of one worker task. */
module MetadataBatch {
  import opened Basics
  import opened Paths

  type Resource = string

  /** What a collection is given: the physical path of a logical one, resources already observed, and the number of
      pages of known directories. */
  datatype Plan = Plan(target: Path -> Path, observed: map<Path, Resource>, pages: map<Path, nat>)

  /** `target.slice(0, target.lastIndexOf("/"))`: without a slash it loses its last character instead. */
  function Parent(p: Path): Path {
    if |p| >= 2 then p[..|p| - 1]
    else if |p| == 1 && p[0] != "" then [p[0][..|p[0]| - 1]] else [""]
  }

  /** The number of distinct requested paths below a parent that have not been observed. */
  function GroupSize(plan: Plan, paths: seq<Path>, parent: Path): nat {
    |set p | p in paths && plan.target(p) !in plan.observed && Parent(plan.target(p)) == parent|
  }

  /** One listing of the parent costs fewer requests than its paths would. */
  predicate Batched(plan: Plan, paths: seq<Path>, path: Path) {
    var parent := Parent(plan.target(path));
    plan.target(path) !in plan.observed && parent in plan.pages && plan.pages[parent] < GroupSize(plan, paths, parent)
  }

  /** A listing is worth its pages exactly when more distinct requested paths than that lie below the parent and have
      not been observed. */
  lemma BatchedIff(plan: Plan, paths: seq<Path>, path: Path)
    ensures Batched(plan, paths, path) <==>
      && plan.target(path) !in plan.observed && Parent(plan.target(path)) in plan.pages
      && exists group :: |group| > plan.pages[Parent(plan.target(path))] && Siblings(plan, paths, Parent(plan.target(path)), group)
  {
    var parent := Parent(plan.target(path));
    hide Parent;
    var siblings := set p | p in paths && plan.target(p) !in plan.observed && Parent(plan.target(p)) == parent;
    if Batched(plan, paths, path) {
      var group := Listed(siblings);
      assert Siblings(plan, paths, parent, group);
    }
    forall group | Siblings(plan, paths, parent, group) ensures |group| <= |siblings| {
      Counted(group);
      SubsetSize((set p | p in group), siblings);
    }
  }

  ghost predicate Siblings(plan: Plan, paths: seq<Path>, parent: Path, group: seq<Path>) {
    Distinct(group) && forall p :: p in group ==> p in paths && plan.target(p) !in plan.observed && Parent(plan.target(p)) == parent
  }

  lemma {:induction false} Listed(s: set<Path>) returns (list: seq<Path>)
    ensures Distinct(list) && |list| == |s| && forall p :: p in list <==> p in s
  {
    list := [];
    if s != {} {
      var p :| p in s;
      var rest := Listed(s - {p});
      list := rest + [p];
    }
  }

  lemma {:induction false} Counted(list: seq<Path>)
    requires Distinct(list)
    ensures |set p | p in list| == |list|
  {
    if list != [] {
      var init, last := list[..|list| - 1], list[|list| - 1];
      Counted(init);
      assert (set p | p in list) == (set p | p in init) + {last};
    }
  }

  lemma SubsetSize(a: set<Path>, b: set<Path>)
    requires a <= b
    ensures |a| <= |b|
  {
    assert b == a + (b - a);
  }

  /** The parent of a path with a slash is what stands before its last slash. */
  lemma ParentIsBeforeSlash(text: string)
    requires '/' in text
    ensures |Split(text)| >= 2 && Parent(Split(text)) != []
    ensures var p := Split(text);
      text == Join(Parent(p)) + "/" + p[|p| - 1] && '/' !in p[|p| - 1]
  {
    var p := Split(text);
    JoinSplit(text);
    JoinAppend(p[..|p| - 1], [p[|p| - 1]]);
    assert p == p[..|p| - 1] + [p[|p| - 1]];
  }

  /** Without a slash the last character goes. */
  lemma ParentWithoutSlash(text: string)
    requires '/' !in text
    ensures Parent(Split(text)) == [if text == "" then "" else text[..|text| - 1]]
  {
    WholeSegment(text);
  }

  lemma {:induction false} WholeSegment(text: string)
    requires '/' !in text
    ensures Split(text) == [text]
  {
    if text != "" {
      WholeSegment(text[1..]);
      assert text == [text[0]] + text[1..];
    }
  }

  // The order of the tasks.

  /** `q` is listed after some `p`, and not before it. */
  ghost predicate Before(paths: seq<Path>, p: Path, q: Path) {
    exists i :: 0 <= i < |paths| && paths[i] == p && q in paths[i..] && q !in paths[..i]
  }

  /** Every path comes after those that it follows in the listing. */
  ghost predicate InOrder(paths: seq<Path>, some: seq<Path>) {
    forall j, k :: 0 <= j < k < |some| ==> Before(paths, some[j], some[k])
  }

  lemma NextIsBehind(paths: seq<Path>, n: nat, p: Path)
    requires n < |paths| && p in paths[..n] && paths[n] !in paths[..n]
    ensures Before(paths, p, paths[n])
  {
    var i :| 0 <= i < n && paths[i] == p;
    assert paths[i..][n - i] == paths[n];
  }

  lemma NextInOrder(paths: seq<Path>, n: nat, some: seq<Path>)
    requires n < |paths| && paths[n] !in paths[..n]
    requires InOrder(paths, some) && forall p :: p in some ==> p in paths[..n]
    ensures InOrder(paths, some + [paths[n]])
  {
    forall j | 0 <= j < |some| ensures Before(paths, some[j], paths[n]) { NextIsBehind(paths, n, some[j]); }
    hide Before;
  }

  /** `new Set(paths)`, in order of first occurrence. */
  method Deduplicate(paths: seq<Path>) returns (distinct: seq<Path>)
    ensures Distinct(distinct) && forall p :: p in distinct <==> p in paths
    ensures InOrder(paths, distinct)
  {
    distinct := [];
    for i := 0 to |paths|
      invariant Distinct(distinct) && forall p :: p in distinct <==> p in paths[..i]
      invariant InOrder(paths, distinct)
    {
      assert paths[..i + 1] == paths[..i] + [paths[i]];
      if paths[i] !in distinct {
        NextInOrder(paths, i, distinct);
        distinct := distinct + [paths[i]];
      }
    }
    assert paths[..|paths|] == paths;
  }

  ghost function ParentsOf(plan: Plan, paths: seq<Path>): set<Path> { set p | p in paths :: Parent(plan.target(p)) }

  lemma MoreParents(plan: Plan, paths: seq<Path>, path: Path)
    ensures ParentsOf(plan, paths + [path]) == ParentsOf(plan, paths) + {Parent(plan.target(path))}
  {
    hide Parent;
    assert forall p :: p in paths + [path] <==> p in paths || p == path;
  }

  /** The leading paths are batched, one for each parent. */
  ghost predicate Leads(plan: Plan, paths: seq<Path>, leading: seq<Path>) {
    && (forall p :: p in leading ==> Batched(plan, paths, p))
    && forall j, k :: 0 <= j < k < |leading| ==> Parent(plan.target(leading[j])) != Parent(plan.target(leading[k]))
  }

  lemma LeadMore(plan: Plan, paths: seq<Path>, leading: seq<Path>, path: Path)
    requires Leads(plan, paths, leading) && Batched(plan, paths, path) && Parent(plan.target(path)) !in ParentsOf(plan, leading)
    ensures Leads(plan, paths, leading + [path])
  {
    hide Parent, Batched;
    forall j | 0 <= j < |leading| ensures Parent(plan.target(leading[j])) in ParentsOf(plan, leading) { assert leading[j] in leading; }
  }

  /** No batched path comes before the leading path of its parent. */
  ghost predicate LeadFirst(plan: Plan, paths: seq<Path>, leading: seq<Path>, seen: seq<Path>) {
    forall p, q :: p in leading && q in seen && Batched(plan, paths, q) && Parent(plan.target(q)) == Parent(plan.target(p)) && q != p ==>
      Before(paths, p, q)
  }

  lemma FirstMore(plan: Plan, paths: seq<Path>, leading: seq<Path>, n: nat)
    requires n < |paths| && Distinct(paths) && LeadFirst(plan, paths, leading, paths[..n]) && forall p :: p in leading ==> p in paths[..n]
    ensures LeadFirst(plan, paths, leading, paths[..n + 1])
    ensures Parent(plan.target(paths[n])) !in ParentsOf(plan, leading)
      && (forall q :: q in paths[..n] && Batched(plan, paths, q) ==> Parent(plan.target(q)) in ParentsOf(plan, leading))
      ==> LeadFirst(plan, paths, leading + [paths[n]], paths[..n + 1])
  {
    hide Parent, Batched;
    NewPath(paths, n);
    hide Distinct;
    forall p | p in leading ensures Before(paths, p, paths[n]) { NextIsBehind(paths, n, p); }
    assert forall q :: q in paths[..n + 1] <==> q in paths[..n] || q == paths[n];
    hide Before;
  }

  lemma AllSeen(leading: seq<Path>, remaining: seq<Path>, seen: seq<Path>)
    requires forall p :: p in leading + remaining <==> p in seen
    ensures forall p :: p in leading || p in remaining ==> p in seen
  {
    forall p | p in leading || p in remaining ensures p in seen { assert p in leading + remaining; }
  }

  /** The first path of each batched parent leads, so that independent listings start early; no path is lost or
      doubled. */
  method Arrange(plan: Plan, paths: seq<Path>) returns (leading: seq<Path>, remaining: seq<Path>)
    requires Distinct(paths)
    ensures Distinct(leading + remaining) && forall p :: p in leading + remaining <==> p in paths
    ensures Leads(plan, paths, leading)
    ensures forall p :: p in paths && Batched(plan, paths, p) ==> Parent(plan.target(p)) in ParentsOf(plan, leading)
    ensures InOrder(paths, leading) && InOrder(paths, remaining) && LeadFirst(plan, paths, leading, paths)
  {
    var scheduled: set<Path> := {};
    leading, remaining := [], [];
    for i := 0 to |paths|
      invariant Distinct(leading + remaining) && forall p :: p in leading + remaining <==> p in paths[..i]
      invariant Leads(plan, paths, leading) && scheduled == ParentsOf(plan, leading)
      invariant forall p :: p in paths[..i] && Batched(plan, paths, p) ==> Parent(plan.target(p)) in scheduled
      invariant InOrder(paths, leading) && InOrder(paths, remaining) && LeadFirst(plan, paths, leading, paths[..i])
    {
      hide Parent, Batched, Leads, ParentsOf, Distinct, InOrder, LeadFirst;
      var path := paths[i];
      NewPath(paths, i);
      AllSeen(leading, remaining, paths[..i]);
      NextInOrder(paths, i, leading);
      NextInOrder(paths, i, remaining);
      FirstMore(plan, paths, leading, i);
      InsertKeepsDistinct(leading, remaining, path);
      var parent := Parent(plan.target(path));
      if Batched(plan, paths, path) && parent !in scheduled {
        LeadMore(plan, paths, leading, path);
        MoreParents(plan, leading, path);
        scheduled := scheduled + {parent};
        leading := leading + [path];
      } else {
        remaining := remaining + [path];
      }
    }
    assert paths[..|paths|] == paths;
  }

  lemma NewPath(paths: seq<Path>, i: nat)
    requires Distinct(paths) && i < |paths|
    ensures paths[..i + 1] == paths[..i] + [paths[i]] && paths[i] !in paths[..i]
  {}

  lemma InsertKeepsDistinct(a: seq<Path>, b: seq<Path>, x: Path)
    requires Distinct(a + b) && x !in a + b
    ensures Distinct((a + [x]) + b) && Distinct(a + (b + [x]))
    ensures forall p :: p in (a + [x]) + b <==> p in a + b || p == x
    ensures forall p :: p in a + (b + [x]) <==> p in a + b || p == x
  {
    var l := (a + [x]) + b;
    forall i, j | 0 <= i < j < |l| ensures l[i] != l[j] {
      var u := if i < |a| then (a + b)[i] else if i == |a| then x else (a + b)[i - 1];
      var v := if j < |a| then (a + b)[j] else if j == |a| then x else (a + b)[j - 1];
      assert l[i] == u && l[j] == v;
    }
    assert a + (b + [x]) == (a + b) + [x];
  }

  // The tasks.

  datatype Stage =
    | Pending | AwaitListing | AwaitGet | Ready(resource: Option<Resource>) | Reported

  /** Every path is reported at most once, and with what the remote holds for it. */
  ghost predicate ReportsValid(plan: Plan, remote: map<Path, Resource>, tasks: seq<Path>, stages: seq<Stage>,
                               reports: seq<(Path, Option<Resource>)>)
  {
    && |stages| == |tasks|
    && (forall i, j :: 0 <= i < j < |reports| ==> reports[i].0 != reports[j].0)
    && (forall r :: r in reports ==> r.1 == Own(plan, remote, r.0))
    && (forall i :: 0 <= i < |tasks| && stages[i].Ready? ==> stages[i].resource == Own(plan, remote, tasks[i]))
    && (forall i :: 0 <= i < |tasks| ==> (stages[i].Reported? <==> exists r :: r in reports && r.0 == tasks[i]))
    && (forall r :: r in reports ==> r.0 in tasks)
  }

  /** What the own GET of a path returns. */
  function Own(plan: Plan, remote: map<Path, Resource>, path: Path): Option<Resource> {
    var t := plan.target(path);
    if t in remote then Some(remote[t]) else None
  }

  lemma MoveOn(plan: Plan, remote: map<Path, Resource>, tasks: seq<Path>, stages: seq<Stage>,
               reports: seq<(Path, Option<Resource>)>, i: nat, stage: Stage)
    requires ReportsValid(plan, remote, tasks, stages, reports) && i < |tasks| && !stages[i].Reported? && !stage.Reported?
    requires stage.Ready? ==> stage.resource == Own(plan, remote, tasks[i])
    ensures ReportsValid(plan, remote, tasks, stages[i := stage], reports)
  {}

  lemma ReportOne(plan: Plan, remote: map<Path, Resource>, tasks: seq<Path>, stages: seq<Stage>,
                  reports: seq<(Path, Option<Resource>)>, i: nat)
    requires ReportsValid(plan, remote, tasks, stages, reports) && Distinct(tasks) && i < |tasks| && stages[i].Ready?
    ensures ReportsValid(plan, remote, tasks, stages[i := Reported], reports + [(tasks[i], stages[i].resource)])
  {
    var more, report := stages[i := Reported], (tasks[i], stages[i].resource);
    hide Own;
    assert forall r :: r in reports + [report] <==> r in reports || r == report;
    forall j | 0 <= j < |tasks| ensures more[j].Reported? <==> exists r :: r in reports + [report] && r.0 == tasks[j] {
      if j == i { assert report in reports + [report]; }
      else if stages[j].Reported? { var r :| r in reports && r.0 == tasks[j]; assert r in reports + [report]; }
    }
  }

  class Collection {
    const plan: Plan
    const tasks: seq<Path>
    ghost const remote: map<Path, Resource>
    var stages: seq<Stage>
    var listed: seq<Path>                         // parents listed, in order
    var listings: map<Path, map<Path, Resource>>  // listings that have arrived
    var reports: seq<(Path, Option<Resource>)>
    var failed: bool

    ghost predicate Valid()
      reads this
    {
      && Distinct(tasks) && Distinct(listed) && ReportsValid(plan, remote, tasks, stages, reports)
      && (forall t :: t in plan.observed ==> t in remote && remote[t] == plan.observed[t])
      && (forall p, t :: p in listings && t in listings[p] ==> t in remote && remote[t] == listings[p][t])
      && (forall p :: p in listings ==> p in listed)
      && (forall p :: p in listed ==> p in plan.pages && plan.pages[p] < GroupSize(plan, tasks, p))
      && (forall i :: 0 <= i < |tasks| && stages[i].AwaitListing? ==> Parent(plan.target(tasks[i])) in listed)
    }

    constructor (plan: Plan, paths: seq<Path>, ghost remote: map<Path, Resource>)
      requires forall t :: t in plan.observed ==> t in remote && remote[t] == plan.observed[t]
      ensures Valid() && this.plan == plan && this.remote == remote && listed == [] && reports == [] && !failed
      ensures forall p :: p in tasks <==> p in paths
      ensures forall i :: 0 <= i < |tasks| ==> stages[i].Pending?
    {
      var distinct := Deduplicate(paths);
      var leading, remaining := Arrange(plan, distinct);
      var arranged := leading + remaining;
      this.plan, this.tasks, this.remote := plan, arranged, remote;
      stages := seq(|arranged|, i => Pending);
      listed, listings, reports, failed := [], map[], [], false;
    }

    /** A task starts: an observation is used, a cheaper listing is read once for all its paths, or the path is read
        itself. */
    method Start(i: nat)
      requires Valid() && i < |tasks| && stages[i].Pending? && !failed
      modifies this`stages, this`listed
      ensures Valid() && (listed == old(listed) || listed == old(listed) + [Parent(plan.target(tasks[i]))])
      ensures plan.target(tasks[i]) in plan.observed ==> stages == old(stages)[i := Ready(Some(plan.observed[plan.target(tasks[i])]))]
      ensures plan.target(tasks[i]) !in plan.observed ==>
        stages == old(stages)[i := if Batched(plan, tasks, tasks[i]) then AwaitListing else AwaitGet]
      ensures listed != old(listed) <==> Batched(plan, tasks, tasks[i]) && Parent(plan.target(tasks[i])) !in old(listed)
    {
      hide ReportsValid, Parent, GroupSize;
      var target := plan.target(tasks[i]);
      var parent := Parent(target);
      if target in plan.observed {
        MoveOn(plan, remote, tasks, stages, reports, i, Ready(Some(plan.observed[target])));
        StagesFit(plan, remote, tasks, stages, reports);
        stages := stages[i := Ready(Some(plan.observed[target]))];
      } else if Batched(plan, tasks, tasks[i]) {
        MoveOn(plan, remote, tasks, stages, reports, i, AwaitListing);
        StagesFit(plan, remote, tasks, stages, reports);
        stages := stages[i := AwaitListing];
        if parent !in listed { listed := listed + [parent]; }
      } else {
        MoveOn(plan, remote, tasks, stages, reports, i, AwaitGet);
        StagesFit(plan, remote, tasks, stages, reports);
        stages := stages[i := AwaitGet];
      }
    }

    /** A listing arrives; it may lack anything, but what it has is what the remote holds. */
    method ListingArrives(parent: Path, content: map<Path, Resource>)
      requires Valid() && parent in listed && parent !in listings
      requires forall t :: t in content ==> t in remote && remote[t] == content[t]
      modifies this`listings
      ensures Valid() && listings == old(listings)[parent := content]
    {
      hide ReportsValid, Parent, GroupSize;
      listings := listings[parent := content];
    }

    /** A task goes on with the listing it waited for; what is not listed is read itself. */
    method UseListing(i: nat)
      requires Valid() && i < |tasks| && stages[i].AwaitListing? && Parent(plan.target(tasks[i])) in listings
      modifies this`stages
      ensures Valid()
      ensures var content := listings[Parent(plan.target(tasks[i]))];
        stages == old(stages)[i := if plan.target(tasks[i]) in content then Ready(Some(content[plan.target(tasks[i])])) else AwaitGet]
    {
      hide ReportsValid, Parent, GroupSize;
      var target := plan.target(tasks[i]);
      var content := listings[Parent(target)];
      var stage := if target in content then Ready(Some(content[target])) else AwaitGet;
      MoveOn(plan, remote, tasks, stages, reports, i, stage);
      StagesFit(plan, remote, tasks, stages, reports);
      stages := stages[i := stage];
    }

    /** The own GET of a path arrives. */
    method GetArrives(i: nat, resource: Option<Resource>)
      requires Valid() && i < |tasks| && stages[i].AwaitGet? && resource == Own(plan, remote, tasks[i])
      modifies this`stages
      ensures Valid() && stages == old(stages)[i := Ready(resource)]
    {
      hide ReportsValid, Parent, GroupSize;
      MoveOn(plan, remote, tasks, stages, reports, i, Ready(resource));
      StagesFit(plan, remote, tasks, stages, reports);
      stages := stages[i := Ready(resource)];
    }

    /** `onResource` */
    method Report(i: nat)
      requires Valid() && i < |tasks| && stages[i].Ready?
      modifies this`stages, this`reports
      ensures Valid() && stages == old(stages)[i := Reported] && reports == old(reports) + [(tasks[i], old(stages)[i].resource)]
    {
      hide ReportsValid, Parent, GroupSize;
      ReportOne(plan, remote, tasks, stages, reports, i);
      StagesFit(plan, remote, tasks, stages, reports);
      reports := reports + [(tasks[i], stages[i].resource)];
      stages := stages[i := Reported];
    }

    /** A failure of any task stops the tasks that have not started. */
    method Fail()
      requires Valid()
      modifies this`failed
      ensures Valid() && failed
    {
      hide ReportsValid, Parent, GroupSize;
      failed := true;
    }
  }

  lemma StagesFit(plan: Plan, remote: map<Path, Resource>, tasks: seq<Path>, stages: seq<Stage>, reports: seq<(Path, Option<Resource>)>)
    requires ReportsValid(plan, remote, tasks, stages, reports)
    ensures |stages| == |tasks|
  {}

  /** A collection whose tasks have all reported agrees with single reads: every requested path has been reported
      exactly once, with what its own GET returns, and no parent has been listed twice or without need. */
  lemma CollectionRefinesReads(c: Collection, paths: seq<Path>)
    requires c.Valid() && (forall p :: p in c.tasks <==> p in paths)
    requires forall i :: 0 <= i < |c.tasks| ==> c.stages[i].Reported?
    ensures forall p :: p in paths <==> exists k :: 0 <= k < |c.reports| && c.reports[k].0 == p
    ensures forall j, k :: 0 <= j < k < |c.reports| ==> c.reports[j].0 != c.reports[k].0
    ensures forall k :: 0 <= k < |c.reports| ==> c.reports[k].1 == Own(c.plan, c.remote, c.reports[k].0)
    ensures Distinct(c.listed) && forall p :: p in c.listed ==> p in c.plan.pages && c.plan.pages[p] < GroupSize(c.plan, c.tasks, p)
  {
    hide Own, GroupSize, Parent;
    forall p | p in paths ensures exists k :: 0 <= k < |c.reports| && c.reports[k].0 == p {
      var i :| 0 <= i < |c.tasks| && c.tasks[i] == p;
      var r :| r in c.reports && r.0 == c.tasks[i];
      var k :| 0 <= k < |c.reports| && c.reports[k] == r;
    }
  }
}
