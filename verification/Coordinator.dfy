/** src/sync/coordinator.ts: every synchronization session in one queue, as the object that the plugin keeps. Each
    method is one stretch of code between two awaits. It keeps the invariants of CoordinatorSafety, so what is proved
    there about traces holds of every sequence of calls. */
module Coordinator {
  import opened Basics
  import opened CoordinatorSteps
  import opened CoordinatorSafety

  class SyncCoordinator {
    var sessions: seq<Session>
    var queue: seq<nat>
    var activeSession: Option<nat>
    var pendingFull: Option<nat>
    var pendingWork: nat
    ghost var patient: bool                // no `onQueued` has failed ahead of its turn
    ghost var awaited: seq<seq<bool>>      // how the awaits of each session's body have ended

    function View(): State
      reads this
    {
      State(sessions, queue, activeSession, pendingFull, pendingWork)
    }

    /** The queue and the counters are right whatever fails; bodies exclude each other and every hook is called as
        often as it should be, as long as no `onQueued` has failed ahead of its turn. */
    ghost predicate Valid()
      reads this
    {
      && QueueValid(View()) && Counted(View())
      && |awaited| == |sessions| && (patient ==> Exclusive(View()) && AllHooksValid(View()) && AllFollow(View(), awaited))
    }

    /** The step that a method has taken keeps the invariants. */
    lemma Keeps(before: State, e: Event, calm: bool, ends: seq<seq<bool>>)
      requires QueueValid(before) && Counted(before) && |ends| == |before.sessions|
      requires calm ==> Exclusive(before) && AllHooksValid(before) && AllFollow(before, ends)
      requires Next(before, e) == Some(View()) && patient == (calm && Patient(before, e)) && awaited == Heard(before, e, ends)
      ensures Valid()
    {
      SessionsGrow(before, e);
      hide Next, QueueValid, Counted, Exclusive, AllHooksValid, AllFollow, Patient;
      StepKeepsQueue(before, e);
      StepKeepsCounted(before, e);
      if patient {
        StepKeepsExclusive(before, e);
        StepKeepsHooks(before, e);
        StepKeepsFollowing(before, e, ends);
      }
    }

    constructor ()
      ensures Valid() && patient
      ensures View() == State([], [], None, None, 0)
    {
      sessions, queue, activeSession, pendingFull, pendingWork, patient, awaited := [], [], None, None, 0, true, [];
    }

    /** Returns the session whose result the caller shares: while a full session is unsettled every full request
        shares it. */
    method DoRun(full: bool) returns (session: nat)
      requires Valid()
      modifies this
      ensures Valid() && View() == Run(old(View()), full) && patient == old(patient)
      ensures session < |sessions| && (full ==> sessions[session].full && pendingFull == Some(session))
      ensures full ==> forall i :: 0 <= i < old(|sessions|) && old(sessions[i]).full && !old(sessions[i]).stage.Closed? ==>
        session == i && sessions == old(sessions)
      ensures !full || old(pendingFull).None? ==> session == old(|sessions|) && |sessions| == session + 1
      ensures pendingWork == Open(sessions)
    {
      ghost var before := View();
      StepKeepsQueue(before, Requested(full));
      StepKeepsCounted(before, Requested(full));
      session := Join(full);
      ghost var ends := awaited;
      if |sessions| > |before.sessions| { awaited := awaited + [[]]; }
      Keeps(before, Requested(full), patient, ends);
    }

    method Join(full: bool) returns (session: nat)
      modifies this`sessions, this`pendingWork, this`pendingFull
      ensures View() == Run(old(View()), full) && patient == old(patient)
      ensures session == if full && old(pendingFull).Some? then old(pendingFull).value else old(|sessions|)
    {
      if full && pendingFull.Some? { return pendingFull.value; }
      session := |sessions|;
      sessions := sessions + [if full then NEW_FULL else NEW_PARTIAL];
      pendingWork := pendingWork + 1;
      if full { pendingFull := Some(session); }
    }

    method SetStage(i: nat, stage: Stage)
      requires i < |sessions|
      modifies this`sessions
      ensures View() == At(old(View()), i, stage)
    {
      sessions := sessions[i := sessions[i].(stage := stage)];
    }

    method EndSession(i: nat, ok: bool)
      requires i < |sessions|
      modifies this`sessions
      ensures View() == Over(old(View()), i, ok)
    {
      sessions := sessions[i := sessions[i].(stage := Finished, result := Some(ok))];
    }

    /** A prepared session joins the queue at its end; one that fails its preparation never does. */
    method EnqueueSession(i: nat, ok: bool)
      requires Valid() && i < |sessions| && sessions[i].stage.Preparing?
      modifies this`sessions, this`queue
      ensures Valid() && View() == Prepared(old(View()), i, ok)
      ensures queue == if ok then old(queue) + [i] else old(queue)
      ensures sessions == old(sessions)[i := if ok then old(sessions)[i].(stage := Waiting(false))
                                             else old(sessions)[i].(stage := Finished, result := Some(false))]
    {
      ghost var before := View();
      if ok {
        SetStage(i, Waiting(false));
        queue := queue + [i];
      } else {
        EndSession(i, false);
      }
      Keeps(before, PrepareEnds(i, ok), patient, awaited);
    }

    /** A rejection ends the session at once, and the one behind it no longer waits for those ahead. */
    method QueuedHookEnds(i: nat, ok: bool)
      requires Valid() && i < |sessions| && sessions[i].stage == Waiting(false)
      modifies this`sessions, this`patient
      ensures Valid() && View() == Announced(old(View()), i, ok)
      ensures patient == (old(patient) && (ok || MayStart(old(View()), i)))
      ensures sessions == old(sessions)[i := if ok then old(sessions)[i].(stage := Waiting(true))
                                             else old(sessions)[i].(stage := Finished, result := Some(false))]
    {
      ghost var before, calm := View(), patient;
      patient := patient && (ok || MayStart(before, i));
      if ok { SetStage(i, Waiting(true)); } else { EndSession(i, false); }
      Keeps(before, AnnounceEnds(i, ok), calm, awaited);
    }

    /** The body of a session starts: alone, and after all that were queued before it. */
    method StartBody(i: nat)
      requires Valid() && i < |sessions| && sessions[i].stage == Waiting(true) && MayStart(View(), i)
      modifies this`sessions, this`activeSession
      ensures Valid() && View() == Start(old(View()), i)
      ensures sessions == old(sessions)[i := old(sessions)[i].(stage := Entering)] && activeSession == Some(i)
      ensures patient ==> forall j :: 0 <= j < |sessions| && InBody(sessions[j].stage) ==> j == i
      ensures patient ==> forall a, b :: 0 <= a < b < |queue| && queue[b] == i ==>
        queue[a] < |sessions| && Settled(sessions[queue[a]].stage)
    {
      ghost var before := View();
      activeSession := Some(i);
      SetStage(i, Entering);
      Keeps(before, Starts(i), patient, awaited);
    }

    method DoLeave(i: nat)
      requires i < |sessions|
      modifies this`sessions, this`activeSession
      ensures View() == Leave(old(View()), i)
    {
      if sessions[i].entered && activeSession.Some? {
        sessions := sessions[i := sessions[i].(stage := Exiting, exits := sessions[i].exits + 1)];
      } else {
        EndSession(i, !sessions[i].failed);
        activeSession := None;
      }
    }

    method DoAfterRecovery(i: nat)
      requires i < |sessions|
      modifies this`sessions, this`activeSession
      ensures View() == AfterRecovery(old(View()), i)
    {
      if sessions[i].entered && activeSession.Some? {
        sessions := sessions[i := sessions[i].(stage := ExitingFailed, exits := sessions[i].exits + 1)];
      } else {
        DoLeave(i);
      }
    }

    method DoCatch(i: nat, attempted: bool)
      requires i < |sessions|
      modifies this`sessions, this`activeSession
      ensures View() == Caught(old(View()), i, attempted)
    {
      sessions := sessions[i := sessions[i].(failed := true)];
      if !attempted && activeSession.Some? {
        sessions := sessions[i := sessions[i].(stage := Recovering, rejected := sessions[i].rejected + 1)];
      } else {
        DoAfterRecovery(i);
      }
    }

    /** The body resumes after one of its awaits, and no other session is touched. The task starts when `onEnter` has
        resolved and only then; the session is settled as fulfilled when the task has returned and only then, as
        rejected when the hook or the task has failed; exits follow, and at the end the promise tells whether all went
        well. */
    method Resume(i: nat, ok: bool)
      requires Valid() && i < |sessions| && InBody(sessions[i].stage)
      modifies this`sessions, this`activeSession, this`awaited
      ensures Valid() && View() == Advance(old(View()), i, ok) && |sessions| == old(|sessions|)
      ensures |awaited| == |sessions| && awaited == old(awaited)[i := old(awaited)[i] + [ok]]
      ensures patient ==> Counts(sessions[i], awaited[i])
      ensures patient && InBody(sessions[i].stage) ==> Unfinished(awaited[i]) && sessions[i].stage == StageAfter(awaited[i])
      ensures patient && sessions[i].stage.Finished? ==> Complete(awaited[i]) && sessions[i].result == Some(Succeeded(awaited[i]))
      ensures forall j :: 0 <= j < |sessions| && j != i ==> sessions[j] == old(sessions[j])
      ensures InBody(sessions[i].stage) || sessions[i].stage.Finished?
      ensures patient ==> activeSession == if InBody(sessions[i].stage) then Some(i) else None
      ensures patient && sessions[i].stage.Finished? ==>
        (sessions[i].exits == if !sessions[i].admitted then 0 else if sessions[i].exitThrew then 2 else 1)
    {
      ghost var before := View();
      AdvanceMoves(before, i, ok);
      ResumeBody(i, ok);
      ghost var ends := awaited;
      awaited := awaited[i := awaited[i] + [ok]];
      Keeps(before, Resumes(i, ok), patient, ends);
      hide Advance, Exclusive;
      if patient { ActiveIsInBody(before, i); }
    }

    method ResumeBody(i: nat, ok: bool)
      requires i < |sessions| && InBody(sessions[i].stage)
      modifies this`sessions, this`activeSession
      ensures View() == Advance(old(View()), i, ok)
    {
      hide Caught, Leave, AfterRecovery;
      var x := sessions[i];
      match x.stage
      case Entering =>
        if ok {
          sessions := sessions[i := x.(stage := Working, entered := true, admitted := true, tasks := x.tasks + 1)];
        } else {
          DoCatch(i, false);
        }
      case Working =>
        if ok { sessions := sessions[i := x.(stage := Settling, fulfilled := x.fulfilled + 1)]; } else { DoCatch(i, false); }
      case Settling => if ok { DoLeave(i); } else { DoCatch(i, true); }
      case Recovering => DoAfterRecovery(i);
      case ExitingFailed =>
        sessions := sessions[i := if ok then x.(entered := false) else x.(exitThrew := true)];
        DoLeave(i);
      case Exiting =>
        EndSession(i, ok && !x.failed);
        activeSession := None;
    }

    /** A settled run is no longer pending work. */
    method Release(i: nat)
      requires Valid() && i < |sessions| && sessions[i].stage.Finished?
      modifies this`sessions, this`pendingWork
      ensures Valid() && old(pendingWork) > 0 && View() == Close(old(View()), i)
      ensures pendingWork == Open(sessions) == old(pendingWork) - 1
    {
      ghost var before := View();
      OpenIsCounted(sessions, i);
      pendingWork := pendingWork - 1;
      SetStage(i, Closed);
      Keeps(before, Closes(i), patient, awaited);
    }

    /** Later full requests start a new session, unless a newer full session is already pending. */
    method ReleaseFull(i: nat)
      requires Valid() && i < |sessions| && sessions[i].stage.Closed?
      modifies this`pendingFull
      ensures Valid() && View() == ClearFull(old(View()), i)
      ensures pendingFull == if old(pendingFull) == Some(i) then None else old(pendingFull)
    {
      ghost var before := View();
      if pendingFull == Some(i) { pendingFull := None; }
      Keeps(before, Clears(i), patient, awaited);
    }
  }
}
