/** src/sync/coordinator.ts as functions on its state: what each stretch of code between two awaits does to the queue of
    sessions. The environment chooses the order and how each hook and task ends. */
module CoordinatorSteps {
  import opened Basics

  /** Where a session stands: what it awaits, or how it ended. `Waiting` knows whether its `onQueued` has resolved. */
  datatype Stage =
    | Preparing | Waiting(announced: bool)
    | Entering | Working | Settling | Recovering | ExitingFailed | Exiting
    | Finished                             // its promise has settled
    | Closed                               // ... and is no longer pending work

  /** A session with what its hooks have seen: `entered` is the local flag of the source and `admitted` its highest
      value; `tasks` counts the starts of its task, `fulfilled` and `rejected` its settlements; `failed` says that its
      body threw, `result` how its promise settled. */
  datatype Session = Session(
    full: bool, stage: Stage, entered: bool, admitted: bool, tasks: nat, fulfilled: nat, rejected: nat, failed: bool,
    exits: nat, exitThrew: bool, result: Option<bool>)

  datatype State = State(
    sessions: seq<Session>,                // in the order of `run`
    queue: seq<nat>,                       // in the order of `enqueueSession`
    activeSession: Option<nat>, pendingFull: Option<nat>, pendingWork: nat)

  predicate InBody(stage: Stage) {
    stage.Entering? || stage.Working? || stage.Settling? || stage.Recovering? || stage.ExitingFailed? || stage.Exiting?
  }

  predicate Settled(stage: Stage) { stage.Finished? || stage.Closed? }

  const NEW_FULL := Session(true, Preparing, false, false, 0, 0, 0, false, 0, false, None)
  const NEW_PARTIAL := Session(false, Preparing, false, false, 0, 0, 0, false, 0, false, None)

  /** `run`: a full request joins the pending full session. */
  function Run(s: State, full: bool): State {
    if full && s.pendingFull.Some? then s
    else s.(sessions := s.sessions + [if full then NEW_FULL else NEW_PARTIAL], pendingWork := s.pendingWork + 1,
            pendingFull := if full then Some(|s.sessions|) else s.pendingFull)
  }

  function At(s: State, i: nat, stage: Stage): State
    requires i < |s.sessions|
  {
    s.(sessions := s.sessions[i := s.sessions[i].(stage := stage)])
  }

  /** The promise of the session settles. */
  function Over(s: State, i: nat, ok: bool): State
    requires i < |s.sessions|
  {
    s.(sessions := s.sessions[i := s.sessions[i].(stage := Finished, result := Some(ok))])
  }

  /** Preparation and the synchronous part of `onQueued` end. */
  function Prepared(s: State, i: nat, ok: bool): State
    requires i < |s.sessions|
  {
    if ok then At(s, i, Waiting(false)).(queue := s.queue + [i]) else Over(s, i, false)
  }

  /** The promise of `onQueued` ends: `Promise.all` rejects at once, whatever the session before is doing. */
  function Announced(s: State, i: nat, ok: bool): State
    requires i < |s.sessions|
  {
    if ok then At(s, i, Waiting(true)) else Over(s, i, false)
  }

  // The body of a session.

  /** The last block: an entered session exits, then nothing is active. */
  function Leave(s: State, i: nat): State
    requires i < |s.sessions|
  {
    var x := s.sessions[i];
    if x.entered && s.activeSession.Some? then s.(sessions := s.sessions[i := x.(stage := Exiting, exits := x.exits + 1)])
    else Over(s, i, !x.failed).(activeSession := None)
  }

  /** After the rejected settlement. */
  function AfterRecovery(s: State, i: nat): State
    requires i < |s.sessions|
  {
    var x := s.sessions[i];
    if x.entered && s.activeSession.Some? then s.(sessions := s.sessions[i := x.(stage := ExitingFailed, exits := x.exits + 1)])
    else Leave(s, i)
  }

  /** The error path: a rejected settlement unless the fulfilled one was already attempted. */
  function Caught(s: State, i: nat, attempted: bool): State
    requires i < |s.sessions|
  {
    var x := s.sessions[i].(failed := true);
    if !attempted && s.activeSession.Some? then s.(sessions := s.sessions[i := x.(stage := Recovering, rejected := x.rejected + 1)])
    else AfterRecovery(s.(sessions := s.sessions[i := x]), i)
  }

  function Start(s: State, i: nat): State
    requires i < |s.sessions|
  {
    At(s, i, Entering).(activeSession := Some(i))
  }

  /** What the session awaits ends. */
  function Advance(s: State, i: nat, ok: bool): State
    requires i < |s.sessions| && InBody(s.sessions[i].stage)
  {
    var x := s.sessions[i];
    match x.stage
    case Entering =>
      if ok then s.(sessions := s.sessions[i := x.(stage := Working, entered := true, admitted := true, tasks := x.tasks + 1)])
      else Caught(s, i, false)
    case Working =>
      if ok then s.(sessions := s.sessions[i := x.(stage := Settling, fulfilled := x.fulfilled + 1)]) else Caught(s, i, false)
    case Settling => if ok then Leave(s, i) else Caught(s, i, true)
    case Recovering => AfterRecovery(s, i)
    case ExitingFailed =>
      Leave(s.(sessions := s.sessions[i := if ok then x.(entered := false) else x.(exitThrew := true)]), i)
    case _ => Over(s, i, ok && !x.failed).(activeSession := None)
  }

  /** `pendingWork` and then `pendingFull` are released after the promise has settled. */
  function Close(s: State, i: nat): State
    requires i < |s.sessions| && s.pendingWork > 0
  {
    At(s, i, Closed).(pendingWork := s.pendingWork - 1)
  }

  function ClearFull(s: State, i: nat): State { if s.pendingFull == Some(i) then s.(pendingFull := None) else s }
}
