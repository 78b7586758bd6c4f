/** What the session queue guarantees, and what a rejecting `onQueued` takes away. */
module CoordinatorSafety {
  import opened Basics
  import opened CoordinatorSteps

  datatype Event =
    | Requested(full: bool) | PrepareEnds(i: nat, ok: bool) | AnnounceEnds(i: nat, ok: bool) | Starts(i: nat)
    | Resumes(i: nat, ok: bool) | Closes(i: nat) | Clears(i: nat)

  /** The session before a queued one, whose promise it waits for. */
  function Before(queue: seq<nat>, i: nat): Option<nat> {
    if |queue| <= 1 then None
    else if queue[|queue| - 1] == i then Some(queue[|queue| - 2])
    else Before(queue[..|queue| - 1], i)
  }

  function Next(s: State, e: Event): Option<State> {
    match e
    case Requested(full) => Some(Run(s, full))
    case PrepareEnds(i, ok) => if i < |s.sessions| && s.sessions[i].stage.Preparing? then Some(Prepared(s, i, ok)) else None
    case AnnounceEnds(i, ok) =>
      if i < |s.sessions| && s.sessions[i].stage == Waiting(false) then Some(Announced(s, i, ok)) else None
    case Starts(i) => if i < |s.sessions| && s.sessions[i].stage == Waiting(true) && MayStart(s, i) then Some(Start(s, i)) else None
    case Resumes(i, ok) => if i < |s.sessions| && InBody(s.sessions[i].stage) then Some(Advance(s, i, ok)) else None
    case Closes(i) =>
      if i < |s.sessions| && s.sessions[i].stage.Finished? && s.pendingWork > 0 then Some(Close(s, i)) else None
    case Clears(i) => if i < |s.sessions| && s.sessions[i].stage.Closed? then Some(ClearFull(s, i)) else None
  }

  predicate MayStart(s: State, i: nat) {
    var before := Before(s.queue, i);
    before.Some? ==> before.value < |s.sessions| && Settled(s.sessions[before.value].stage)
  }

  ghost predicate Trace(s: State, events: seq<Event>, last: State)
    decreases events
  {
    if events == [] then last == s
    else Next(s, events[0]).Some? && Trace(Next(s, events[0]).value, events[1..], last)
  }

  const EMPTY := State([], [], None, None, 0)

  // The queue.

  predicate Queued(stage: Stage) { !stage.Preparing? }

  /** Every queued session is in the queue once; whatever is out of preparation but not queued has failed it. */
  ghost predicate QueueValid(s: State) {
    && (forall k :: 0 <= k < |s.queue| ==> s.queue[k] < |s.sessions| && Queued(s.sessions[s.queue[k]].stage))
    && (forall j, k :: 0 <= j < k < |s.queue| ==> s.queue[j] != s.queue[k])
    && (forall i :: 0 <= i < |s.sessions| && i !in s.queue ==> s.sessions[i].stage.Preparing? || Settled(s.sessions[i].stage))
  }

  /** A session that has left the queue's waiting room has everything before it settled. */
  ghost predicate Exclusive(s: State)
    requires QueueValid(s)
  {
    && (forall j, k :: 0 <= j < k < |s.queue| && !s.sessions[s.queue[k]].stage.Waiting? ==> Settled(s.sessions[s.queue[j]].stage))
    && (forall i :: 0 <= i < |s.sessions| && InBody(s.sessions[i].stage) ==> s.activeSession == Some(i))
    && (s.activeSession.Some? ==> s.activeSession.value < |s.sessions| && InBody(s.sessions[s.activeSession.value].stage))
  }

  /** An `onQueued` that fails does so only after the session before has settled. */
  predicate Patient(s: State, e: Event) { e.AnnounceEnds? && !e.ok ==> MayStart(s, e.i) }

  ghost predicate PatientTrace(s: State, events: seq<Event>, last: State)
    decreases events
  {
    if events == [] then last == s
    else Next(s, events[0]).Some? && Patient(s, events[0]) && PatientTrace(Next(s, events[0]).value, events[1..], last)
  }

  lemma {:induction false} BeforeIsPrevious(queue: seq<nat>, k: nat)
    requires k < |queue| && forall a, b :: 0 <= a < b < |queue| ==> queue[a] != queue[b]
    ensures Before(queue, queue[k]) == if k == 0 then None else Some(queue[k - 1])
    decreases |queue|
  {
    if |queue| > 1 && k < |queue| - 1 {
      BeforeIsPrevious(queue[..|queue| - 1], k);
    }
  }

  /** One session changes stage, without going back to its preparation or its waiting. */
  predicate Moves(s: State, n: State, i: nat) {
    && i < |s.sessions| == |n.sessions| && n.queue == s.queue
    && (forall j :: 0 <= j < |s.sessions| && j != i ==> n.sessions[j] == s.sessions[j])
    && Queued(n.sessions[i].stage) && (Settled(s.sessions[i].stage) ==> Settled(n.sessions[i].stage))
    && !n.sessions[i].stage.Waiting?
  }

  lemma MovesKeepQueue(s: State, n: State, i: nat)
    requires QueueValid(s) && Moves(s, n, i) && (i in s.queue || Settled(n.sessions[i].stage))
    ensures QueueValid(n)
  {}

  /** The session moves on in its body, or it is over and nothing is active. */
  predicate Advances(s: State, n: State, i: nat) {
    && Moves(s, n, i) && n.pendingFull == s.pendingFull && n.pendingWork == s.pendingWork
    && n.sessions[i].full == s.sessions[i].full
    && (InBody(n.sessions[i].stage) || n.sessions[i].stage.Finished?)
    && (if InBody(n.sessions[i].stage) then n.activeSession == s.activeSession else n.activeSession == None)
  }

  lemma LeaveAdvances(s: State, i: nat)
    requires i < |s.sessions| && !Settled(s.sessions[i].stage)
    ensures Advances(s, Leave(s, i), i) && Advances(s, AfterRecovery(s, i), i)
  {}

  lemma CaughtAdvances(s: State, i: nat, attempted: bool)
    requires i < |s.sessions| && !Settled(s.sessions[i].stage)
    ensures Advances(s, Caught(s, i, attempted), i)
  {
    LeaveAdvances(s.(sessions := s.sessions[i := s.sessions[i].(failed := true)]), i);
    hide AfterRecovery;
  }

  /** One session is replaced, and nothing else changes before it leaves. */
  lemma LeaveAfterAdvances(s: State, i: nat, x: Session)
    requires i < |s.sessions| && !Settled(s.sessions[i].stage) && !Settled(x.stage) && x.full == s.sessions[i].full
    ensures Advances(s, Leave(s.(sessions := s.sessions[i := x]), i), i)
  {
    hide Leave;
    LeaveAdvances(s.(sessions := s.sessions[i := x]), i);
  }

  lemma SetAdvances(s: State, i: nat, x: Session)
    requires i < |s.sessions| && InBody(s.sessions[i].stage) && InBody(x.stage) && x.full == s.sessions[i].full
    ensures Advances(s, s.(sessions := s.sessions[i := x]), i)
  {}

  lemma ExitAdvances(s: State, i: nat, ok: bool)
    requires i < |s.sessions| && InBody(s.sessions[i].stage)
    ensures Advances(s, Over(s, i, ok).(activeSession := None), i)
  {}

  /** What an awaited end does to the session and to the active one. */
  lemma AdvanceMoves(s: State, i: nat, ok: bool)
    requires i < |s.sessions| && InBody(s.sessions[i].stage)
    ensures Advances(s, Advance(s, i, ok), i)
  {
    hide Caught, Leave, AfterRecovery, Over, Advances;
    var x := s.sessions[i];
    match x.stage
    case Entering =>
      CaughtAdvances(s, i, false);
      SetAdvances(s, i, x.(stage := Working, entered := true, admitted := true, tasks := x.tasks + 1));
    case Working =>
      CaughtAdvances(s, i, false);
      SetAdvances(s, i, x.(stage := Settling, fulfilled := x.fulfilled + 1));
    case Settling => CaughtAdvances(s, i, true); LeaveAdvances(s, i);
    case Recovering => LeaveAdvances(s, i);
    case ExitingFailed => LeaveAfterAdvances(s, i, if ok then x.(entered := false) else x.(exitThrew := true));
    case _ => ExitAdvances(s, i, ok && !x.failed);
  }

  lemma QueuePosition(s: State, i: nat) returns (k: nat)
    requires QueueValid(s) && i < |s.sessions| && !s.sessions[i].stage.Preparing? && !Settled(s.sessions[i].stage)
    ensures k < |s.queue| && s.queue[k] == i
    ensures Before(s.queue, i) == if k == 0 then None else Some(s.queue[k - 1])
  {
    k :| 0 <= k < |s.queue| && s.queue[k] == i;
    BeforeIsPrevious(s.queue, k);
  }

  lemma PrepareKeepsQueue(s: State, i: nat, ok: bool)
    requires QueueValid(s) && i < |s.sessions| && s.sessions[i].stage.Preparing?
    ensures QueueValid(Prepared(s, i, ok))
  {}

  lemma AnnounceKeepsQueue(s: State, i: nat, ok: bool)
    requires QueueValid(s) && i < |s.sessions| && s.sessions[i].stage == Waiting(false)
    ensures QueueValid(Announced(s, i, ok))
  {}

  lemma RequestKeepsQueue(s: State, full: bool)
    requires QueueValid(s)
    ensures QueueValid(Run(s, full))
  {}

  lemma StepKeepsQueue(s: State, e: Event)
    requires QueueValid(s) && Next(s, e).Some?
    ensures QueueValid(Next(s, e).value)
  {
    hide Advance, Prepared, Announced, Run, QueueValid;
    match e
    case Resumes(i, ok) => BodyIsQueued(s, i); AdvanceMoves(s, i, ok); MovesKeepQueue(s, Advance(s, i, ok), i);
    case Closes(i) => MovesKeepQueue(s, Close(s, i), i);
    case Starts(i) => BodyIsQueued(s, i); MovesKeepQueue(s, Start(s, i), i);
    case AnnounceEnds(i, ok) => AnnounceKeepsQueue(s, i, ok);
    case PrepareEnds(i, ok) => PrepareKeepsQueue(s, i, ok);
    case Requested(full) => RequestKeepsQueue(s, full);
    case Clears(i) => SameSessionsKeepQueue(s, ClearFull(s, i));
  }

  lemma BodyIsQueued(s: State, i: nat)
    requires QueueValid(s) && i < |s.sessions| && !s.sessions[i].stage.Preparing? && !Settled(s.sessions[i].stage)
    ensures i in s.queue
  {}

  lemma SameSessionsKeepQueue(s: State, n: State)
    requires QueueValid(s) && n.sessions == s.sessions && n.queue == s.queue
    ensures QueueValid(n)
  {}

  // Exclusion.

  lemma StartKeepsExclusive(s: State, i: nat)
    requires QueueValid(s) && Exclusive(s) && i < |s.sessions| && s.sessions[i].stage == Waiting(true) && MayStart(s, i)
    ensures QueueValid(Start(s, i)) && Exclusive(Start(s, i))
  {
    StepKeepsQueue(s, Starts(i));
    var k := QueuePosition(s, i);
    EarlierAreSettled(s, k);
  }

  /** Once the previous session has settled, so have all before it, and no session is in its body. */
  lemma EarlierAreSettled(s: State, k: nat)
    requires QueueValid(s) && Exclusive(s) && k < |s.queue| && s.sessions[s.queue[k]].stage.Waiting?
    requires k > 0 ==> Settled(s.sessions[s.queue[k - 1]].stage)
    ensures forall j :: 0 <= j < k ==> Settled(s.sessions[s.queue[j]].stage)
    ensures forall i :: 0 <= i < |s.sessions| ==> !InBody(s.sessions[i].stage)
    ensures s.activeSession.None?
  {
    forall i | 0 <= i < |s.sessions| ensures !InBody(s.sessions[i].stage) {
      if i in s.queue { var j :| 0 <= j < |s.queue| && s.queue[j] == i; }
    }
  }

  lemma AnnounceKeepsExclusive(s: State, i: nat, ok: bool)
    requires QueueValid(s) && Exclusive(s) && i < |s.sessions| && s.sessions[i].stage == Waiting(false) && (!ok ==> MayStart(s, i))
    ensures QueueValid(Announced(s, i, ok)) && Exclusive(Announced(s, i, ok))
  {
    AnnounceKeepsQueue(s, i, ok);
    var k := QueuePosition(s, i);
    if !ok {
      EarlierAreSettled(s, k);
      FailureKeepsExclusive(s, i, k);
    }
  }

  lemma FailureKeepsExclusive(s: State, i: nat, k: nat)
    requires QueueValid(s) && Exclusive(s) && k < |s.queue| && s.queue[k] == i && s.sessions[i].stage == Waiting(false)
    requires QueueValid(Announced(s, i, false)) && s.activeSession.None?
    requires forall j :: 0 <= j < k ==> Settled(s.sessions[s.queue[j]].stage)
    requires forall j :: 0 <= j < |s.sessions| ==> !InBody(s.sessions[j].stage)
    ensures Exclusive(Announced(s, i, false))
  {}

  lemma ResumeKeepsExclusive(s: State, i: nat, ok: bool)
    requires QueueValid(s) && Exclusive(s) && i < |s.sessions| && InBody(s.sessions[i].stage)
    ensures QueueValid(Advance(s, i, ok)) && Exclusive(Advance(s, i, ok))
  {
    hide Advance;
    StepKeepsQueue(s, Resumes(i, ok));
    AdvanceMoves(s, i, ok);
  }

  lemma PrepareKeepsExclusive(s: State, i: nat, ok: bool)
    requires QueueValid(s) && Exclusive(s) && i < |s.sessions| && s.sessions[i].stage.Preparing?
    ensures QueueValid(Prepared(s, i, ok)) && Exclusive(Prepared(s, i, ok))
  {
    PrepareKeepsQueue(s, i, ok);
    assert i !in s.queue;
  }

  lemma RequestKeepsExclusive(s: State, full: bool)
    requires QueueValid(s) && Exclusive(s)
    ensures QueueValid(Run(s, full)) && Exclusive(Run(s, full))
  {
    RequestKeepsQueue(s, full);
  }

  lemma CloseKeepsExclusive(s: State, i: nat)
    requires QueueValid(s) && Exclusive(s) && i < |s.sessions| && s.sessions[i].stage.Finished? && s.pendingWork > 0
    ensures QueueValid(Close(s, i)) && Exclusive(Close(s, i))
  {
    StepKeepsQueue(s, Closes(i));
  }

  lemma StepKeepsExclusive(s: State, e: Event)
    requires QueueValid(s) && Exclusive(s) && Next(s, e).Some? && Patient(s, e)
    ensures QueueValid(Next(s, e).value) && Exclusive(Next(s, e).value)
  {
    hide Advance, Prepared, Announced, Run, Start, Close, QueueValid, Exclusive;
    match e
    case Requested(full) => RequestKeepsExclusive(s, full);
    case PrepareEnds(i, ok) => PrepareKeepsExclusive(s, i, ok);
    case AnnounceEnds(i, ok) => AnnounceKeepsExclusive(s, i, ok);
    case Starts(i) => StartKeepsExclusive(s, i);
    case Resumes(i, ok) => ResumeKeepsExclusive(s, i, ok);
    case Closes(i) => CloseKeepsExclusive(s, i);
    case Clears(i) => SameSessionsKeepExclusive(s, ClearFull(s, i));
  }

  lemma SameSessionsKeepExclusive(s: State, n: State)
    requires QueueValid(s) && Exclusive(s) && n.sessions == s.sessions && n.queue == s.queue && n.activeSession == s.activeSession
    ensures QueueValid(n) && Exclusive(n)
  {}

  lemma {:induction false} PatientTraceIsExclusive(s: State, events: seq<Event>, last: State)
    requires QueueValid(s) && Exclusive(s) && PatientTrace(s, events, last)
    ensures QueueValid(last) && Exclusive(last)
    decreases events
  {
    hide Next, QueueValid, Exclusive;
    if events != [] {
      StepKeepsExclusive(s, events[0]);
      PatientTraceIsExclusive(Next(s, events[0]).value, events[1..], last);
    }
  }

  /** When no `onQueued` fails ahead of its turn, two session bodies never overlap, the active session is the one in
      its body, and sessions enter their bodies in the order in which they were enqueued. */
  lemma BodiesNeverOverlap(events: seq<Event>, last: State, i: nat, j: nat)
    requires PatientTrace(EMPTY, events, last)
    requires i < |last.sessions| && j < |last.sessions| && InBody(last.sessions[i].stage) && InBody(last.sessions[j].stage)
    ensures i == j && last.activeSession == Some(i)
    ensures forall a, b :: 0 <= a < b < |last.queue| && last.queue[b] == i ==>
      last.queue[a] < |last.sessions| && Settled(last.sessions[last.queue[a]].stage)
  {
    PatientTraceIsExclusive(EMPTY, events, last);
  }

  // What an early rejection does.

  ghost predicate Overlaps(s: State) {
    exists i, j :: 0 <= i < j < |s.sessions| && InBody(s.sessions[i].stage) && InBody(s.sessions[j].stage)
  }

  lemma PatientCons(s: State, e: Event, events: seq<Event>, last: State)
    requires Next(s, e).Some? && Patient(s, e) && PatientTrace(Next(s, e).value, events, last)
    ensures PatientTrace(s, [e] + events, last)
  {
    hide Next, Patient;
    assert ([e] + events)[1..] == events;
  }

  lemma EmptyPatient(s: State)
    ensures PatientTrace(s, [], s)
  {}

  lemma {:induction false} PatientConcat(s: State, first: seq<Event>, middle: State, second: seq<Event>, last: State)
    requires PatientTrace(s, first, middle) && PatientTrace(middle, second, last)
    ensures PatientTrace(s, first + second, last)
    decreases first
  {
    hide Next, Patient;
    if first == [] {
      assert first + second == second;
    } else {
      PatientConcat(Next(s, first[0]).value, first[1..], middle, second, last);
      assert (first + second)[1..] == first[1..] + second;
    }
  }

  /** A queued session whose predecessor has settled can be brought into its body; nothing else moves. */
  lemma Enters(s: State, i: nat) returns (events: seq<Event>, n: State)
    requires i < |s.sessions| && MayStart(s, i) && (s.sessions[i].stage.Waiting? || InBody(s.sessions[i].stage))
    ensures PatientTrace(s, events, n) && |n.sessions| == |s.sessions| && n.queue == s.queue && InBody(n.sessions[i].stage)
    ensures forall j :: 0 <= j < |s.sessions| && j != i ==> n.sessions[j] == s.sessions[j]
  {
    if InBody(s.sessions[i].stage) {
      EmptyPatient(s);
      return [], s;
    }
    var announced := s;
    if s.sessions[i].stage == Waiting(false) { announced := Announced(s, i, true); }
    n := Start(announced, i);
    EmptyPatient(n);
    PatientCons(announced, Starts(i), [], n);
    events := [Starts(i)] + [];
    if s.sessions[i].stage == Waiting(false) {
      PatientCons(s, AnnounceEnds(i, true), events, n);
      events := [AnnounceEnds(i, true)] + events;
    }
  }

  /** The first session of the queue that has not settled; none behind it has left the waiting room. */
  lemma FirstUnsettled(s: State, k: nat) returns (f: nat)
    requires QueueValid(s) && Exclusive(s) && k < |s.queue| && !Settled(s.sessions[s.queue[k]].stage)
    ensures f <= k && !Settled(s.sessions[s.queue[f]].stage) && MayStart(s, s.queue[f])
    ensures forall j :: f < j < |s.queue| ==> s.sessions[s.queue[j]].stage.Waiting?
  {
    f := 0;
    while Settled(s.sessions[s.queue[f]].stage)
      invariant f <= k && forall j :: 0 <= j < f ==> Settled(s.sessions[s.queue[j]].stage)
      decreases k - f
    {
      f := f + 1;
    }
    BeforeIsPrevious(s.queue, f);
  }

  /** A session behind the rejected one: the next in the queue, or else a new one. */
  lemma Successor(s: State, k: nat) returns (events: seq<Event>, n: State, b: nat)
    requires QueueValid(s) && k < |s.queue| && Settled(s.sessions[s.queue[k]].stage)
    requires forall j :: k < j < |s.queue| ==> s.sessions[s.queue[j]].stage.Waiting?
    ensures PatientTrace(s, events, n) && QueueValid(n) && |s.sessions| <= |n.sessions| && s.queue <= n.queue
    ensures b < |n.sessions| && n.sessions[b].stage.Waiting? && MayStart(n, b) && b !in s.queue[..k + 1]
    ensures forall j :: 0 <= j < |s.sessions| ==> n.sessions[j] == s.sessions[j]
  {
    if k + 1 < |s.queue| {
      EmptyPatient(s);
      BeforeIsPrevious(s.queue, k + 1);
      return [], s, s.queue[k + 1];
    }
    events, n, b := NewSuccessor(s);
  }

  lemma NewSuccessor(s: State) returns (events: seq<Event>, n: State, b: nat)
    requires QueueValid(s) && s.queue != [] && Settled(s.sessions[s.queue[|s.queue| - 1]].stage)
    ensures PatientTrace(s, events, n) && QueueValid(n) && |s.sessions| <= |n.sessions| && s.queue <= n.queue
    ensures b < |n.sessions| && n.sessions[b].stage.Waiting? && MayStart(n, b) && b == |s.sessions|
    ensures forall j :: 0 <= j < |s.sessions| ==> n.sessions[j] == s.sessions[j]
  {
    b := |s.sessions|;
    var requested := Run(s, false);
    n := Prepared(requested, b, true);
    RequestKeepsQueue(s, false);
    PrepareKeepsQueue(requested, b, true);
    EmptyPatient(n);
    PatientCons(requested, PrepareEnds(b, true), [], n);
    PatientCons(s, Requested(false), [PrepareEnds(b, true)] + [], n);
    events := [Requested(false)] + ([PrepareEnds(b, true)] + []);
    assert n.queue[|s.queue|] == b && n.queue[|s.queue| - 1] == s.queue[|s.queue| - 1];
    BeforeIsPrevious(n.queue, |s.queue|);
    hide QueueValid, PatientTrace;
  }

  /** An `onQueued` that fails ahead of its turn leaves a state from which two bodies overlap without any further
      failure: the first unsettled session enters, and so does the one behind the rejected. */
  lemma EarlyFailureLeadsToOverlap(s: State, i: nat) returns (events: seq<Event>, last: State)
    requires QueueValid(s) && Exclusive(s) && Next(s, AnnounceEnds(i, false)).Some? && !MayStart(s, i)
    ensures PatientTrace(Announced(s, i, false), events, last) && Overlaps(last)
  {
    var k, a := Rejected(s, i);
    hide QueueValid, Exclusive, MayStart, Announced, PatientTrace;
    var n := Announced(s, i, false);
    var e1, n1 := Enters(n, a);
    EntryKeepsQueue(n, n1, a);
    var e2, n2, b := Successor(n1, k);
    var e3, n3 := Enters(n2, b);
    PatientConcat(n, e1, n1, e2, n2);
    PatientConcat(n, e1 + e2, n2, e3, n3);
    events, last := (e1 + e2) + e3, n3;
    assert InBody(last.sessions[a].stage) && InBody(last.sessions[b].stage) && a != b;
  }

  /** Where the rejected session stands, and the first unsettled one before it, which may enter now. */
  lemma Rejected(s: State, i: nat) returns (k: nat, a: nat)
    requires QueueValid(s) && Exclusive(s) && Next(s, AnnounceEnds(i, false)).Some? && !MayStart(s, i)
    ensures var n := Announced(s, i, false);
      && QueueValid(n) && k < |n.queue| && n.queue[k] == i && Settled(n.sessions[i].stage) && |n.sessions| == |s.sessions|
      && a < |n.sessions| && a in n.queue[..k] && a != i && (n.sessions[a].stage.Waiting? || InBody(n.sessions[a].stage)) && MayStart(n, a)
      && forall j :: k < j < |n.queue| ==> n.sessions[n.queue[j]].stage.Waiting?
  {
    k := QueuePosition(s, i);
    var f := FirstUnsettled(s, k - 1);
    a := s.queue[f];
    AnnounceKeepsQueue(s, i, false);
    BeforeIsPrevious(s.queue, f);
    assert s.queue[..k][f] == a;
    hide QueueValid, Before;
  }

  lemma EntryKeepsQueue(s: State, n: State, i: nat)
    requires QueueValid(s) && i in s.queue && i < |s.sessions| == |n.sessions| && n.queue == s.queue && InBody(n.sessions[i].stage)
    requires forall j :: 0 <= j < |s.sessions| && j != i ==> n.sessions[j] == s.sessions[j]
    ensures QueueValid(n)
  {}

  /** Some session bodies overlap from here without any further `onQueued` failing ahead of its turn. */
  ghost predicate MayOverlap(s: State) { exists more, last :: PatientTrace(s, more, last) && Overlaps(last) }

  lemma ExclusiveNeverOverlaps(s: State)
    requires QueueValid(s) && Exclusive(s)
    ensures !MayOverlap(s)
  {
    hide Overlaps;
    forall more, last | PatientTrace(s, more, last) ensures !Overlaps(last) {
      PatientTraceIsExclusive(s, more, last);
      ExclusiveIsAlone(last);
    }
  }

  /** The state after the first events of a trace. */
  function After(s: State, events: seq<Event>, n: nat): State
    requires n <= |events|
    decreases n
  {
    if n == 0 || Next(s, events[0]).None? then s else After(Next(s, events[0]).value, events[1..], n - 1)
  }

  /** Bodies may overlap from one of the states of the trace. */
  ghost predicate EverMayOverlap(s: State, events: seq<Event>) { exists n: nat :: n <= |events| && MayOverlap(After(s, events, n)) }

  lemma {:induction false} ExclusiveIff(s: State, events: seq<Event>, last: State)
    requires QueueValid(s) && Exclusive(s) && Trace(s, events, last)
    ensures EverMayOverlap(s, events) <==> !PatientTrace(s, events, last)
    decreases events
  {
    hide MayOverlap, Next, QueueValid, Exclusive, Patient;
    ExclusiveNeverOverlaps(s);
    if events != [] {
      var next := Next(s, events[0]).value;
      forall n: nat | n < |events| ensures After(s, events, n + 1) == After(next, events[1..], n) {}
      if Patient(s, events[0]) {
        StepKeepsExclusive(s, events[0]);
        ExclusiveIff(next, events[1..], last);
        if EverMayOverlap(s, events) {
          var n: nat :| n <= |events| && MayOverlap(After(s, events, n));
          assert MayOverlap(After(next, events[1..], n - 1));
        }
        if EverMayOverlap(next, events[1..]) {
          var n: nat :| n < |events| && MayOverlap(After(next, events[1..], n));
          assert MayOverlap(After(s, events, n + 1));
        }
      } else {
        ImpatientOverlaps(s, events[0]);
        assert After(s, events, 1) == After(next, events[1..], 0) == next;
      }
    }
  }

  lemma ImpatientOverlaps(s: State, e: Event)
    requires QueueValid(s) && Exclusive(s) && Next(s, e).Some? && !Patient(s, e)
    ensures MayOverlap(Next(s, e).value)
  {
    var more, last := EarlyFailureLeadsToOverlap(s, e.i);
  }

  /** The exact condition, over every trace: bodies can come to overlap at some point of it, with no further failure
      of that kind, if and only if some `onQueued` in it has failed ahead of its turn. */
  lemma OverlapIff(events: seq<Event>, last: State)
    requires Trace(EMPTY, events, last)
    ensures EverMayOverlap(EMPTY, events) <==> !PatientTrace(EMPTY, events, last)
  {
    ExclusiveIff(EMPTY, events, last);
  }

  lemma ExclusiveIsAlone(s: State)
    requires QueueValid(s) && Exclusive(s)
    ensures !Overlaps(s)
  {}

  lemma TraceCons(s: State, e: Event, events: seq<Event>, last: State)
    requires Next(s, e).Some? && Trace(Next(s, e).value, events, last)
    ensures Trace(s, [e] + events, last)
  {
    hide Next;
    assert ([e] + events)[1..] == events;
  }

  lemma EmptyTrace(s: State)
    ensures Trace(s, [], s)
  {}

  const HELD := NEW_PARTIAL.(stage := Waiting(false))

  /** Three sessions have been enqueued. */
  const THREE := State([HELD, HELD, HELD], [0, 1, 2], None, None, 3)

  lemma ThreeEnqueued(later: seq<Event>, last: State) returns (events: seq<Event>)
    requires Trace(THREE, later, last)
    ensures Trace(EMPTY, events, last)
  {
    hide Trace;
    var three := [NEW_PARTIAL, NEW_PARTIAL, NEW_PARTIAL];
    var s3 := State(three, [], None, None, 3);
    var s4 := State([HELD, NEW_PARTIAL, NEW_PARTIAL], [0], None, None, 3);
    var s5 := State([HELD, HELD, NEW_PARTIAL], [0, 1], None, None, 3);
    assert [0, 1] + [2] == [0, 1, 2] && s5.sessions[2 := HELD] == THREE.sessions;
    TraceCons(s5, PrepareEnds(2, true), later, last);
    events := [PrepareEnds(2, true)] + later;
    assert [0] + [1] == [0, 1] && s4.sessions[1 := HELD] == s5.sessions;
    TraceCons(s4, PrepareEnds(1, true), events, last);
    events := [PrepareEnds(1, true)] + events;
    assert [] + [0] == [0] && s3.sessions[0 := HELD] == s4.sessions;
    TraceCons(s3, PrepareEnds(0, true), events, last);
    events := [PrepareEnds(0, true)] + events;
    assert three[..2] + [NEW_PARTIAL] == three && three[..1] + [NEW_PARTIAL] == three[..2] && [] + [NEW_PARTIAL] == three[..1];
    TraceCons(State(three[..2], [], None, None, 2), Requested(false), events, last);
    events := [Requested(false)] + events;
    TraceCons(State(three[..1], [], None, None, 1), Requested(false), events, last);
    events := [Requested(false)] + events;
    TraceCons(EMPTY, Requested(false), events, last);
    events := [Requested(false)] + events;
  }

  /** One `onQueued` that fails while an earlier session is in its body lets a later session into its own. */
  lemma EarlyFailureOverlaps() returns (events: seq<Event>, last: State)
    ensures Trace(EMPTY, events, last) && |last.sessions| == 3
    ensures InBody(last.sessions[0].stage) && InBody(last.sessions[2].stage)
  {
    hide Trace;
    var entering, waiting := NEW_PARTIAL.(stage := Entering), NEW_PARTIAL.(stage := Waiting(true));
    var over := NEW_PARTIAL.(stage := Finished, result := Some(false));
    var s7 := THREE.(sessions := [waiting, HELD, HELD]);
    var s8 := THREE.(sessions := [entering, HELD, HELD], activeSession := Some(0));
    var s9 := s8.(sessions := [entering, over, HELD]);
    var s10 := s9.(sessions := [entering, over, waiting]);
    last := s9.(sessions := [entering, over, entering], activeSession := Some(2));
    assert Before([0, 1, 2], 2) == Some(1) && Before([0, 1, 2], 0) == None;
    EmptyTrace(last);
    assert s10.sessions[2 := entering] == last.sessions;
    TraceCons(s10, Starts(2), [], last);
    events := [Starts(2)] + [];
    assert s9.sessions[2 := waiting] == s10.sessions;
    TraceCons(s9, AnnounceEnds(2, true), events, last);
    events := [AnnounceEnds(2, true)] + events;
    assert s8.sessions[1 := over] == s9.sessions;
    TraceCons(s8, AnnounceEnds(1, false), events, last);
    events := [AnnounceEnds(1, false)] + events;
    assert s7.sessions[0 := entering] == s8.sessions;
    TraceCons(s7, Starts(0), events, last);
    events := [Starts(0)] + events;
    assert THREE.sessions[0 := waiting] == s7.sessions;
    TraceCons(THREE, AnnounceEnds(0, true), events, last);
    events := ThreeEnqueued([AnnounceEnds(0, true)] + events, last);
  }

  // Coalescing and pending work.

  function Open(sessions: seq<Session>): nat {
    if sessions == [] then 0
    else Open(sessions[..|sessions| - 1]) + if sessions[|sessions| - 1].stage.Closed? then 0 else 1
  }

  lemma {:induction false} OpenUpdate(sessions: seq<Session>, i: nat, x: Session)
    requires i < |sessions|
    ensures Open(sessions[i := x]) ==
      Open(sessions) + (if x.stage.Closed? then 0 else 1) - (if sessions[i].stage.Closed? then 0 else 1)
  {
    var init := sessions[..|sessions| - 1];
    if i < |sessions| - 1 {
      OpenUpdate(init, i, x);
      assert sessions[i := x][..|sessions| - 1] == init[i := x];
    } else {
      assert sessions[i := x][..|sessions| - 1] == init;
    }
  }

  lemma OpenIsCounted(sessions: seq<Session>, i: nat)
    requires i < |sessions| && !sessions[i].stage.Closed?
    ensures Open(sessions) > 0
  {
    OpenUpdate(sessions, i, sessions[i].(stage := Closed));
  }

  /** Pending work counts the unsettled runs; every open full session is the one that later full requests join. */
  ghost predicate Counted(s: State) {
    && s.pendingWork == Open(s.sessions)
    && (forall i :: 0 <= i < |s.sessions| && s.sessions[i].full && !s.sessions[i].stage.Closed? ==> s.pendingFull == Some(i))
    && (s.pendingFull.Some? ==> s.pendingFull.value < |s.sessions| && s.sessions[s.pendingFull.value].full)
  }

  /** Every step but a new request changes at most one session. */
  lemma StepChangesOne(s: State, e: Event) returns (i: nat)
    requires Next(s, e).Some? && !e.Requested? && !e.Clears?
    ensures i < |s.sessions| && Next(s, e).value.sessions == s.sessions[i := Next(s, e).value.sessions[i]]
    ensures Next(s, e).value.sessions[i].full == s.sessions[i].full && Next(s, e).value.pendingFull == s.pendingFull
    ensures !s.sessions[i].stage.Closed?
    ensures Next(s, e).value.pendingWork == s.pendingWork - if e.Closes? then 1 else 0
    ensures Next(s, e).value.sessions[i].stage.Closed? <==> e.Closes?
  {
    i := e.i;
    if e.Resumes? {
      AdvanceMoves(s, e.i, e.ok);
      hide Advance;
    }
  }

  lemma StepKeepsCounted(s: State, e: Event)
    requires Counted(s) && Next(s, e).Some?
    ensures Counted(Next(s, e).value)
  {
    if e.Requested? { RequestKeepsCounted(s, e.full); }
    else if !e.Clears? {
      var i := StepChangesOne(s, e);
      hide Next;
      OpenUpdate(s.sessions, i, Next(s, e).value.sessions[i]);
    }
  }

  lemma RequestKeepsCounted(s: State, full: bool)
    requires Counted(s)
    ensures Counted(Run(s, full))
  {
    var n := Run(s, full);
    if n.sessions != s.sessions { assert n.sessions[..|s.sessions|] == s.sessions; }
  }

  lemma {:induction false} TraceKeepsCounted(s: State, events: seq<Event>, last: State)
    requires Counted(s) && Trace(s, events, last)
    ensures Counted(last)
    decreases events
  {
    hide Next, Counted;
    if events != [] {
      StepKeepsCounted(s, events[0]);
      TraceKeepsCounted(Next(s, events[0]).value, events[1..], last);
    }
  }

  /** Over every run, whatever fails: pending work is exactly the number of unsettled runs, at most one full session
      is unsettled, and a full request made meanwhile starts no other. */
  lemma FullRequestsShare(events: seq<Event>, last: State)
    requires Trace(EMPTY, events, last)
    ensures last.pendingWork == Open(last.sessions)
    ensures forall i, j :: 0 <= i < |last.sessions| && 0 <= j < |last.sessions|
              && last.sessions[i].full && !last.sessions[i].stage.Closed? && last.sessions[j].full && !last.sessions[j].stage.Closed?
              ==> i == j
    ensures forall i :: 0 <= i < |last.sessions| && last.sessions[i].full && !last.sessions[i].stage.Closed? ==>
              last.pendingFull == Some(i) && Run(last, true) == last
  {
    TraceKeepsCounted(EMPTY, events, last);
  }

  // The hooks of one session.

  predicate HooksValid(x: Session) {
    && x.fulfilled + x.rejected <=
         (if x.stage.Settling? || x.stage.Recovering? || x.stage.ExitingFailed? || x.stage.Exiting? || Settled(x.stage) then 1 else 0)
    && (x.entered ==> x.admitted)
    && (match x.stage
        case Preparing => !x.admitted && x.exits == 0
        case Waiting(_) => !x.admitted && x.exits == 0
        case Entering => !x.admitted && x.exits == 0
        case Working => x.entered && x.exits == 0
        case Settling => x.entered && x.exits == 0
        case Recovering => x.entered == x.admitted && x.exits == 0
        case ExitingFailed => x.entered && x.exits == 1
        case Exiting => x.entered && x.exits == if x.exitThrew then 2 else 1
        case _ => x.exits == if !x.admitted then 0 else if x.exitThrew then 2 else 1)
    && (x.exitThrew ==> x.stage.Exiting? || Settled(x.stage))
  }

  ghost predicate AllHooksValid(s: State) { forall i :: 0 <= i < |s.sessions| ==> HooksValid(s.sessions[i]) }

  lemma ResumeKeepsHooks(s: State, i: nat, ok: bool)
    requires i < |s.sessions| && InBody(s.sessions[i].stage) && HooksValid(s.sessions[i]) && s.activeSession == Some(i)
    ensures HooksValid(Advance(s, i, ok).sessions[i])
  {}

  lemma StepKeepsHooks(s: State, e: Event)
    requires QueueValid(s) && Exclusive(s) && AllHooksValid(s) && Next(s, e).Some?
    ensures AllHooksValid(Next(s, e).value)
  {
    if e.Resumes? {
      AdvanceMoves(s, e.i, e.ok);
      ResumeKeepsHooks(s, e.i, e.ok);
      hide Advance;
    }
  }

  lemma {:induction false} PatientTraceKeepsHooks(s: State, events: seq<Event>, last: State)
    requires QueueValid(s) && Exclusive(s) && AllHooksValid(s) && PatientTrace(s, events, last)
    ensures AllHooksValid(last)
    decreases events
  {
    hide Next, QueueValid, Exclusive, AllHooksValid;
    if events != [] {
      StepKeepsExclusive(s, events[0]);
      StepKeepsHooks(s, events[0]);
      PatientTraceKeepsHooks(Next(s, events[0]).value, events[1..], last);
    }
  }

  /** When no `onQueued` fails ahead of its turn: a session settles at most once, and once it is over it has exited
      exactly once if it was entered and never otherwise, unless the exit hook of its failure threw; then it has
      exited twice. */
  lemma EnteredSessionsExitOnce(events: seq<Event>, last: State, i: nat)
    requires PatientTrace(EMPTY, events, last) && i < |last.sessions|
    ensures last.sessions[i].fulfilled + last.sessions[i].rejected <= 1
    ensures Settled(last.sessions[i].stage) ==>
      last.sessions[i].exits == if !last.sessions[i].admitted then 0 else if last.sessions[i].exitThrew then 2 else 1
  {
    PatientTraceKeepsHooks(EMPTY, events, last);
  }

  // What a session does, told from how its awaits end.

  /** How the awaits of a session's body have ended, in order: `onEnter`, the task, the settlement and the exits. */
  function Awaited(events: seq<Event>, i: nat): seq<bool> {
    if events == [] then []
    else
      var rest := Awaited(events[1..], i);
      if events[0].Resumes? && events[0].i == i then [events[0].ok] + rest else rest
  }

  /** The hook resolved, so the task was started. */
  predicate Opened(ends: seq<bool>) { |ends| >= 1 && ends[0] }

  predicate Returned(ends: seq<bool>) { |ends| >= 2 && ends[0] && ends[1] }

  /** The hook or the task failed. */
  predicate Broke(ends: seq<bool>) { (|ends| >= 1 && !ends[0]) || (|ends| >= 2 && !ends[1]) }

  /** An opened session exits after its settlement, a second time when the exit of a failure throws. */
  function ExitCalls(ends: seq<bool>): nat {
    if !Opened(ends) || |ends| < 3 then 0
    else if !(ends[1] && ends[2]) && |ends| >= 4 && !ends[3] then 2 else 1
  }

  /** How many awaits there are in all, once they tell. */
  predicate Complete(ends: seq<bool>) {
    if !Opened(ends) then |ends| == 2
    else if |ends| < 4 then false
    else |ends| == if (ends[1] && ends[2]) || ends[3] then 4 else 5
  }

  /** More awaits are to come. */
  predicate Unfinished(ends: seq<bool>) {
    |ends| <= 4 && (ends != [] && !ends[0] ==> |ends| == 1) && (|ends| == 4 ==> !(ends[1] && ends[2]) && !ends[3])
  }

  /** Where the body stands after these awaits. */
  function StageAfter(ends: seq<bool>): Stage {
    if ends == [] then Entering
    else if Complete(ends) then Finished
    else if Broke(ends) && |ends| == (if ends[0] then 2 else 1) then Recovering
    else if |ends| == 1 then Working
    else if |ends| == 2 then Settling
    else if |ends| == 3 && !(ends[1] && ends[2]) then ExitingFailed
    else Exiting
  }

  /** The counts that the awaits imply. */
  predicate Counts(x: Session, ends: seq<bool>) {
    && x.tasks == (if Opened(ends) then 1 else 0)
    && x.fulfilled == (if Returned(ends) then 1 else 0)
    && x.rejected == (if Broke(ends) then 1 else 0)
    && x.exits == ExitCalls(ends)
  }

  /** The session has done what its awaits say; one that never started its body has done nothing. */
  predicate Follows(x: Session, ends: seq<bool>) {
    && Counts(x, ends) && x.admitted == Opened(ends)
    && x.failed == (Broke(ends) || (|ends| >= 3 && ends[0] && ends[1] && !ends[2]))
    && (x.stage.Preparing? || x.stage.Waiting? ==> ends == [] && x.result.None? && !x.entered)
    && (InBody(x.stage) ==>
          x.stage == StageAfter(ends) && Unfinished(ends) && x.result.None? && x.entered == (x.admitted && !x.stage.Entering?))
    && (Settled(x.stage) ==> if ends == [] then x.result == Some(false) else Complete(ends) && x.result == Some(Succeeded(ends)))
  }

  /** The promise of the run resolves only when nothing failed. */
  predicate Succeeded(ends: seq<bool>) { forall k :: 0 <= k < |ends| ==> ends[k] }

  lemma ResumeFollows(s: State, i: nat, ok: bool, ends: seq<bool>)
    requires i < |s.sessions| && InBody(s.sessions[i].stage) && Follows(s.sessions[i], ends) && s.activeSession == Some(i)
    ensures Follows(Advance(s, i, ok).sessions[i], ends + [ok])
  {
    var more := ends + [ok];
    assert forall k :: 0 <= k < |ends| ==> more[k] == ends[k];
    assert more[|ends|] == ok;
  }

  /** A step that is no resumption of the session. */
  lemma OtherFollows(s: State, e: Event, i: nat, ends: seq<bool>)
    requires Next(s, e).Some? && i < |s.sessions| && Follows(s.sessions[i], ends) && !(e.Resumes? && e.i == i)
    ensures i < |Next(s, e).value.sessions| && Follows(Next(s, e).value.sessions[i], ends)
  {
    if e.Resumes? {
      AdvanceMoves(s, e.i, e.ok);
      hide Advance;
    }
  }

  lemma RequestFollows(s: State, e: Event, i: nat)
    requires Next(s, e).Some? && |s.sessions| <= i < |Next(s, e).value.sessions|
    ensures Follows(Next(s, e).value.sessions[i], [])
  {
    if e.Resumes? { AdvanceMoves(s, e.i, e.ok); }
  }

  /** What has been heard of the sessions after one more event. */
  ghost function Heard(s: State, e: Event, ends: seq<seq<bool>>): seq<seq<bool>>
    requires |ends| == |s.sessions| && Next(s, e).Some?
  {
    if e.Resumes? then ends[e.i := ends[e.i] + [e.ok]]
    else ends + seq(|Next(s, e).value.sessions| - |s.sessions|, _ => [])
  }

  ghost predicate AllFollow(s: State, ends: seq<seq<bool>>) {
    |ends| == |s.sessions| && forall i :: 0 <= i < |s.sessions| ==> Follows(s.sessions[i], ends[i])
  }

  lemma StepKeepsFollowing(s: State, e: Event, ends: seq<seq<bool>>)
    requires QueueValid(s) && Exclusive(s) && AllFollow(s, ends) && Next(s, e).Some?
    ensures AllFollow(Next(s, e).value, Heard(s, e, ends))
  {
    hide Follows, QueueValid, Exclusive;
    var n := Next(s, e).value;
    SessionsGrow(s, e);
    forall i | 0 <= i < |n.sessions| ensures Follows(n.sessions[i], Heard(s, e, ends)[i]) {
      if e.Resumes? && e.i == i { ActiveIsInBody(s, i); ResumeFollows(s, i, e.ok, ends[i]); }
      else if i < |s.sessions| { OtherFollows(s, e, i, ends[i]); }
      else { RequestFollows(s, e, i); }
    }
  }

  lemma SessionsGrow(s: State, e: Event)
    requires Next(s, e).Some?
    ensures |s.sessions| <= |Next(s, e).value.sessions| && (e.Resumes? ==> |Next(s, e).value.sessions| == |s.sessions|)
  {
    if e.Resumes? {
      AdvanceMoves(s, e.i, e.ok);
      hide Advance;
    }
  }

  lemma {:induction false} TraceFollows(s: State, events: seq<Event>, last: State, i: nat, ends: seq<bool>)
    requires QueueValid(s) && Exclusive(s) && PatientTrace(s, events, last) && i < |last.sessions|
    requires if i < |s.sessions| then Follows(s.sessions[i], ends) else ends == []
    ensures Follows(last.sessions[i], ends + Awaited(events, i))
    decreases events
  {
    hide QueueValid, Exclusive, Follows;
    if events == [] {
      assert ends + [] == ends;
    } else {
      var e := events[0];
      StepKeepsExclusive(s, e);
      var n := Next(s, e).value;
      var more := if e.Resumes? && e.i == i then ends + [e.ok] else ends;
      if i < |s.sessions| {
        if e.Resumes? && e.i == i { ActiveIsInBody(s, i); ResumeFollows(s, i, e.ok, ends); SessionsGrow(s, e); }
        else { OtherFollows(s, e, i, ends); }
      } else if i < |n.sessions| {
        RequestFollows(s, e, i);
      }
      hide Next;
      assert ends + Awaited(events, i) == more + Awaited(events[1..], i);
      TraceFollows(n, events[1..], last, i, more);
    }
  }

  lemma ActiveIsInBody(s: State, i: nat)
    requires QueueValid(s) && Exclusive(s) && i < |s.sessions| && InBody(s.sessions[i].stage)
    ensures s.activeSession == Some(i)
  {}

  /** Over every trace without early rejections, what a session has done follows from how its awaits ended: its task
      was started once if `onEnter` resolved, it was settled as fulfilled once if the task returned and as rejected
      once if the hook or the task failed, and it has exited as often as it should; and once it is over all this has
      happened, and its promise has resolved only if nothing failed. */
  lemma SessionFollowsAwaits(events: seq<Event>, last: State, i: nat)
    requires PatientTrace(EMPTY, events, last) && i < |last.sessions|
    ensures Counts(last.sessions[i], Awaited(events, i))
    ensures InBody(last.sessions[i].stage) ==>
      Unfinished(Awaited(events, i)) && last.sessions[i].stage == StageAfter(Awaited(events, i))
    ensures Settled(last.sessions[i].stage) && Awaited(events, i) != [] ==>
      Complete(Awaited(events, i)) && last.sessions[i].result == Some(Succeeded(Awaited(events, i)))
    ensures Settled(last.sessions[i].stage) && Awaited(events, i) == [] ==> last.sessions[i].result == Some(false)
  {
    TraceFollows(EMPTY, events, last, i, []);
    assert [] + Awaited(events, i) == Awaited(events, i);
  }

  lemma {:induction false} PatientSnoc(s: State, events: seq<Event>, last: State, e: Event, next: State)
    requires PatientTrace(s, events, last) && Next(last, e) == Some(next) && Patient(last, e)
    ensures PatientTrace(s, events + [e], next)
    decreases events
  {
    hide Next, Patient;
    if events == [] {
      assert [] + [e] == [e] && [e][1..] == [];
      EmptyPatient(next);
    } else {
      PatientSnoc(Next(s, events[0]).value, events[1..], last, e, next);
      assert (events + [e])[1..] == events[1..] + [e];
    }
  }

  /** One session alone in the queue, in its body. */
  function Alone(x: Session): State { State([x], [0], Some(0), None, 1) }

  lemma EntersAlone() returns (events: seq<Event>)
    ensures PatientTrace(EMPTY, events, Alone(NEW_PARTIAL.(stage := Entering)))
  {
    hide PatientTrace;
    var s1, s2 := State([NEW_PARTIAL], [], None, None, 1), State([HELD], [0], None, None, 1);
    var s3 := s2.(sessions := [NEW_PARTIAL.(stage := Waiting(true))]);
    assert [] + [NEW_PARTIAL] == [NEW_PARTIAL] && [] + [0] == [0];
    assert s1.sessions[0 := HELD] == s2.sessions;
    assert s2.sessions[0 := NEW_PARTIAL.(stage := Waiting(true))] == s3.sessions;
    assert s3.sessions[0 := NEW_PARTIAL.(stage := Entering)] == [NEW_PARTIAL.(stage := Entering)];
    EmptyPatient(EMPTY);
    PatientSnoc(EMPTY, [], EMPTY, Requested(false), s1);
    PatientSnoc(EMPTY, [] + [Requested(false)], s1, PrepareEnds(0, true), s2);
    events := [] + [Requested(false)] + [PrepareEnds(0, true)];
    PatientSnoc(EMPTY, events, s2, AnnounceEnds(0, true), s3);
    PatientSnoc(EMPTY, events + [AnnounceEnds(0, true)], s3, Starts(0), Alone(NEW_PARTIAL.(stage := Entering)));
    events := events + [AnnounceEnds(0, true)] + [Starts(0)];
  }

  /** A session whose task fails and whose exit hook then throws: the hook is called a second time. */
  lemma FailedExitExitsTwice() returns (events: seq<Event>, last: State)
    ensures PatientTrace(EMPTY, events, last) && |last.sessions| == 1
    ensures Settled(last.sessions[0].stage) && last.sessions[0].exits == 2
  {
    hide PatientTrace;
    events := EntersAlone();
    var entering := NEW_PARTIAL.(stage := Entering);
    var working := NEW_PARTIAL.(stage := Working, entered := true, admitted := true, tasks := 1);
    var recovering := working.(stage := Recovering, rejected := 1, failed := true);
    var failed := recovering.(stage := ExitingFailed, exits := 1);
    var exiting := failed.(stage := Exiting, exits := 2, exitThrew := true);
    last := State([exiting.(stage := Finished, result := Some(false))], [0], None, None, 1);
    assert [entering][0 := working] == [working] && [working][0 := recovering] == [recovering];
    assert [recovering][0 := failed] == [failed] && [exiting][0 := exiting.(stage := Finished, result := Some(false))] == last.sessions;
    assert [failed][0 := failed.(exitThrew := true)][0 := exiting] == [exiting];
    PatientSnoc(EMPTY, events, Alone(entering), Resumes(0, true), Alone(working));
    events := events + [Resumes(0, true)];
    PatientSnoc(EMPTY, events, Alone(working), Resumes(0, false), Alone(recovering));
    events := events + [Resumes(0, false)];
    PatientSnoc(EMPTY, events, Alone(recovering), Resumes(0, true), Alone(failed));
    events := events + [Resumes(0, true)];
    PatientSnoc(EMPTY, events, Alone(failed), Resumes(0, false), Alone(exiting));
    events := events + [Resumes(0, false)];
    PatientSnoc(EMPTY, events, Alone(exiting), Resumes(0, true), last);
    events := events + [Resumes(0, true)];
  }
}
