/** src/plugin-persistence.ts: the single queue of device snapshots as the object that the plugin keeps. Each method
    is one stretch of code between two awaits. It keeps the invariants of PersistenceSafety, so what is proved there
    about runs holds of every sequence of calls. */
module PluginPersistence {
  import opened Basics
  import opened AuthenticationState
  import opened PersistenceSteps
  import opened PersistenceSafety

  class PluginPersistence {
    var queue: seq<Task>
    var running: Option<Running>
    var load: Load
    var generation: nat
    var loaded: bool
    var saveFailed: bool
    var failure: bool
    var failureGeneration: nat
    var data: Option<PluginData>
    var authenticationCommitted: bool
    var sensitiveLogoutCommitted: bool
    var stored: Option<PluginData>
    ghost var stray: Option<PluginData>    // left in the storage by a save that overtook the completion of a load

    ghost function View(): State
      reads this
    {
      State(queue, running, load, generation, loaded, saveFailed, failure, failureGeneration, data,
            authenticationCommitted, sensitiveLogoutCommitted, stored)
    }

    /** Tasks of an earlier load are superseded, committed credentials survive every save, and the storage holds the
        data in memory when idle. */
    ghost predicate Valid()
      reads this
    {
      Fresh(View()) && Kept(View()) && Matching(View(), stray)
    }

    /** The step that a method has taken keeps the invariants. */
    lemma Keeps(before: State, e: Event, left: Option<PluginData>)
      requires Fresh(before) && Kept(before) && Matching(before, left) && Next(before, e) == Some(View())
      requires stray == StrayAfter(before, e, left)
      ensures Valid()
    {
      hide Next, Fresh, Kept, Matching, StrayAfter;
      StepKeepsFresh(before, e);
      StepKeepsAccount(before, e);
      StepKeepsMatching(before, e, left);
    }

    constructor (file: Option<PluginData>)
      ensures Valid() && stray == None
      ensures View() == State([], None, NoLoad, 0, false, false, false, 0, None, false, false, file)
    {
      queue, running, load := [], None, NoLoad;
      generation, loaded, saveFailed, failure, failureGeneration := 0, false, false, false, 0;
      data, authenticationCommitted, sensitiveLogoutCommitted, stored, stray := None, false, false, file, None;
    }

    /** Nothing but the save at unload is queued before a load has read. */
    method EnqueueSave(job: Job)
      requires Valid()
      modifies this`queue
      ensures Valid() && View() == Enqueue(old(View()), job)
      ensures queue == old(queue) + if loaded || job.Unload? then [Task(job, generation, false)] else []
    {
      ghost var before := View();
      if !loaded && !job.Unload? { return; }
      queue := queue + [Task(job, generation, false)];
      Keeps(before, Enqueued(job), stray);
    }

    /** A load supersedes every task queued before it and forgets which credentials were committed. */
    method BeginLoad()
      requires Valid()
      modifies this
      ensures Valid() && View() == StartLoad(old(View())) && stray == old(stray)
      ensures !loaded && !authenticationCommitted && forall i :: 0 <= i < |queue| ==> queue[i].generation < generation
      ensures !sensitiveLogoutCommitted && load == Waiting && generation == old(generation) + 1 && queue == old(queue)
      ensures running == old(running) && data == old(data) && stored == old(stored) && saveFailed == old(saveFailed)
    {
      ghost var before := View();
      loaded := false;
      authenticationCommitted := false;
      sensitiveLogoutCommitted := false;
      generation := generation + 1;
      load := Waiting;
      Keeps(before, LoadStarted, stray);
    }

    /** The mark of a sensitive logout drops the password, whatever was stored; saves are admitted only after a
        successful initialization, and the first of them is the load's own. */
    method FinishRead(content: Result<Option<PluginData>, string>, unloaded: bool, initialized: bool)
      requires Valid() && load == Waiting && CaughtUp(View())
      requires content.Success? && content.value.Some? ==> Consistent(content.value.value.settings)
      modifies this
      ensures Valid() && ReadEnds(old(View()), View(), content, unloaded, initialized) && stray == old(stray)
      ensures loaded <==> content.Success? && !unloaded && initialized
      ensures content.Success? && !unloaded && LoggedOut(content.value) ==>
        authenticationCommitted && sensitiveLogoutCommitted && data.Some? && data.value.settings.password.None?
    {
      ghost var before := View();
      ReadContent(content, unloaded, initialized);
      Keeps(before, WasRead(content, unloaded, initialized), stray);
      ReadIsExact(before, content, unloaded, initialized);
    }

    method ReadContent(content: Result<Option<PluginData>, string>, unloaded: bool, initialized: bool)
      requires load == Waiting && CaughtUp(View())
      modifies this
      ensures View() == Read(old(View()), content, unloaded, initialized) && stray == old(stray)
    {
      load := NoLoad;
      if content.Failure? || unloaded { return; }
      data := content.value;
      if LoggedOut(data) {
        data := Some(data.value.(settings := data.value.settings.(password := None)));
        authenticationCommitted := true;
        sensitiveLogoutCommitted := true;
      }
      if !initialized { return; }
      loaded := true;
      queue := queue + [Task(Plain, generation, true)];
      load := Saving;
    }

    /** A load that succeeds leaves no failure behind, and the storage holds the data but for what overtook it. */
    method CompleteLoad()
      requires Valid() && load.Finishing?
      modifies this
      ensures Valid() && View() == FinishLoad(old(View())) && stray == old(stray)
      ensures old(load.ok) ==> !saveFailed && !failure && loaded == old(loaded)
      ensures old(load.ok) && loaded ==> stored == if stray.Some? then stray else data
      ensures !old(load.ok) ==> !loaded && saveFailed == old(saveFailed) && failure == old(failure)
      ensures load.NoLoad? && queue == old(queue) && running == old(running) && data == old(data) && stored == old(stored)
    {
      ghost var before := View();
      if load.ok {
        saveFailed := false;
        failure := false;
      } else {
        loaded := false;
      }
      load := NoLoad;
      Keeps(before, LoadFinished, stray);
    }

    method EndTask(task: Task, ok: bool)
      modifies this`running, this`load
      ensures View() == Ended(old(View()), task, ok)
    {
      running := None;
      if task.byLoad && task.generation == generation && load == Saving { load := Finishing(ok); }
    }

    /** The snapshot of a task that may start, built at execution time. */
    method BuildSnapshot(job: Job, live: Live) returns (snapshot: Option<PluginData>)
      ensures snapshot == Prepare(View(), job, live)
    {
      hide Capture, WithAuthentication, Update, ApplyPatch;
      var current := live.snapshot.settings;
      if authenticationCommitted && data.Some? {
        var captured := Capture(data.value.settings);
        if captured.None? { return None; }
        current := WithAuthentication(current, captured.value);
        if sensitiveLogoutCommitted && data.value.settings.token == "" { current := current.(password := None); }
      }
      match job {
        case Draft(patch) =>
          if !live.valid { return None; }
          current := ApplyPatch(current, patch);
        case Activate => current := current.(manualSyncRequired := false);
        case Credentials(change) =>
          var updated := Update(current, change);
          if updated.None? { return None; }
          current := updated.value;
        case _ =>
      }
      return Some(live.snapshot.(settings := current));
    }

    /** The body of a queued task up to its save: whatever the live settings are, the snapshot carries the committed
        account unless the task replaces it, and no password after a sensitive logout. A task of an earlier load
        writes nothing. */
    method BeginTask(live: Live)
      requires Valid() && running.None? && queue != []
      modifies this
      ensures Valid() && View() == Begin(old(View()), live) && stray == old(stray)
      ensures exists base :: StartsFrom(old(View()), live.snapshot.settings, base) && BeginsWith(old(View()), View(), live, base)
      ensures data == old(data) && stored == old(stored) && saveFailed == old(saveFailed)
      ensures running.Some? ==> running.value.task == old(queue[0]) && loaded && running.value.task.generation == generation
      ensures running.Some? && authenticationCommitted && !CommitsCredentials(running.value.task.job) ==>
        data.Some? && Account(running.value.snapshot.settings) == Account(data.value.settings)
      ensures running.Some? && authenticationCommitted && sensitiveLogoutCommitted && data.Some? && data.value.settings.token == "" ==>
        running.value.snapshot.settings.password.None?
    {
      ghost var before := View();
      ExecuteTask(live);
      if running.Some? { BeginGuarantees(before, live); }
      Keeps(before, Began(live), stray);
      hide Begin, StartsFrom, BeginsWith, Kept;
      var base := BeginIsExact(before, live);
    }

    lemma BeginGuarantees(s: State, live: Live)
      requires Fresh(s) && Kept(s) && s.running.None? && s.queue != [] && Begin(s, live).running.Some?
      ensures var n := Begin(s, live);
        && (s.authenticationCommitted && !CommitsCredentials(n.running.value.task.job) ==>
              s.data.Some? && Account(n.running.value.snapshot.settings) == Account(s.data.value.settings))
        && (s.authenticationCommitted && s.sensitiveLogoutCommitted && s.data.Some? && s.data.value.settings.token == "" ==>
              n.running.value.snapshot.settings.password.None?)
    {
      hide Prepare, Account, Consistent;
      var job := s.queue[0].job;
      PreparedAccount(s, job, live);
      if s.authenticationCommitted && s.sensitiveLogoutCommitted && s.data.value.settings.token == "" { PreparedPassword(s, job, live); }
    }

    method ExecuteTask(live: Live)
      requires running.None? && queue != []
      modifies this
      ensures View() == Begin(old(View()), live) && stray == old(stray)
    {
      hide Prepare;
      var task := queue[0];
      var snapshot := None;
      if task.job.Unload? && !(loaded && !saveFailed) {
      } else if !loaded || task.generation != generation {
      } else if (task.job.Draft? || task.job.Credentials?) && live.unloaded {
      } else if (task.job.Activate? || task.job.Credentials?) && !live.guarded {
      } else {
        snapshot := BuildSnapshot(task.job, live);
      }
      queue := queue[1..];
      if snapshot.Some? { running := Some(Running(task, snapshot.value, false)); } else { EndTask(task, false); }
    }

    /** `saveSnapshot` classifies a failed write. */
    method RefuseSave(took: bool)
      requires running.Some?
      modifies this
      ensures View() == Refused(old(View()), took) && stray == old(stray)
    {
      var run := running.value;
      if took { stored := Some(run.snapshot); }
      if run.task.generation == generation {
        saveFailed := true;
        failureGeneration := failureGeneration + 1;
        failure := true;
      }
      EndTask(run.task, false);
    }

    method CommitSave(live: Live)
      requires running.Some?
      modifies this
      ensures View() == Committed(old(View()), live) && stray == old(stray)
    {
      hide CommitsCredentials, CommitsSensitiveLogout, Publishes;
      var run := running.value;
      stored := Some(run.snapshot);
      data := Some(run.snapshot);
      if CommitsCredentials(run.task.job) { authenticationCommitted := true; }
      if CommitsSensitiveLogout(run.task.job) { sensitiveLogoutCommitted := true; }
      if Publishes(run.task.job, live) { saveFailed := false; }
      EndTask(run.task, true);
    }

    /** The rest of the body of a task, after its save. A failed write changes nothing in memory but the failure; a
        successful one of a current task becomes the data, and the storage holds it; committed credentials change only
        by a task that replaces them. */
    method FinishSave(write: Write, live: Live)
      requires Valid() && running.Some? && (load.Finishing? ==> write.NotWritten?)
      modifies this
      ensures Valid() && View() == EndSave(old(View()), write, live) && SaveEnds(old(View()), View(), write, live)
      ensures write.NotWritten? ==> data == old(data) && running.None? && (old(running.value.task.generation) == generation ==> saveFailed)
      ensures write.Written? && running.None? && old(running.value.task.generation) == generation ==>
        data == stored == Some(old(running.value.snapshot))
      ensures CommitsCredentials(old(running.value.task.job)) && write.Written? && old(running.value.task.generation) == generation ==>
        authenticationCommitted && data.Some? && Consistent(data.value.settings)
      ensures CommitsSensitiveLogout(old(running.value.task.job)) && write.Written? && old(running.value.task.generation) == generation ==>
        && authenticationCommitted && sensitiveLogoutCommitted && running.None?
        && data.Some? && data.value.settings.token == "" && data.value.settings.password.None?
      ensures old(authenticationCommitted) && !(write.Written? && CommitsCredentials(old(running.value.task.job))) ==>
        authenticationCommitted && data.Some? && Account(data.value.settings) == Account(old(data.value.settings))
      ensures loaded && running.None? && load.NoLoad? && !saveFailed && stray.None? ==> data == stored
    {
      ghost var before, left, e := View(), stray, Saved(write, live);
      EndTaskSave(write, live);
      stray := StrayAfter(before, e, left);
      SaveGuarantees(before, write, live);
      Keeps(before, e, left);
      hide SaveEnds, EndSave;
      SaveIsExact(before, write, live);
    }

    lemma SaveGuarantees(s: State, write: Write, live: Live)
      requires Fresh(s) && Kept(s) && s.running.Some?
      ensures var n, run := EndSave(s, write, live), s.running.value;
        && (write.NotWritten? ==> n.data == s.data && n.running.None? && (run.task.generation == s.generation ==> n.saveFailed))
        && (write.Written? && n.running.None? && run.task.generation == s.generation ==> n.data == n.stored == Some(run.snapshot))
        && (CommitsCredentials(run.task.job) && write.Written? && run.task.generation == s.generation ==>
              n.authenticationCommitted && n.data.Some? && Consistent(n.data.value.settings))
        && (CommitsSensitiveLogout(run.task.job) && write.Written? && run.task.generation == s.generation ==>
              Locked(n) && n.running.None?)
        && (s.authenticationCommitted && !(write.Written? && CommitsCredentials(run.task.job)) ==>
              n.authenticationCommitted && n.data.Some? && s.data.Some? && Account(n.data.value.settings) == Account(s.data.value.settings))
    {
      RefusalFacts(s, false);
      RefusalFacts(s, true);
      CommitFacts(s, live);
      hide Account, Consistent, Pending, CommitsSensitiveLogout, Locked, Refused, Committed;
      if CommitsSensitiveLogout(s.running.value.task.job) && write.Written? && s.running.value.task.generation == s.generation {
        SensitiveLogoutLocks(s, live);
      }
      if s.authenticationCommitted && !(write.Written? && CommitsCredentials(s.running.value.task.job)) { QuietSaveKeepsAccount(s, write, live); }
    }

    method EndTaskSave(write: Write, live: Live)
      requires running.Some?
      modifies this
      ensures View() == EndSave(old(View()), write, live) && stray == old(stray)
    {
      hide Refused, Committed;
      var run := running.value;
      if write.NotWritten? {
        RefuseSave(write.took);
      } else if run.revoked {
        stored := Some(run.snapshot);
        if run.task.generation == generation { data := Some(run.snapshot); }
        EndTask(run.task, false);
      } else if run.task.job.Activate? && (run.task.generation != generation || !live.guarded) {
        stored := Some(run.snapshot);
        running := Some(Running(run.task, Pending(run.snapshot), true));
      } else if run.task.generation != generation {
        stored := Some(run.snapshot);
        EndTask(run.task, false);
      } else {
        CommitSave(live);
      }
    }

    /** Only the failure that was reconciled is retired, and only once it has been repaired. */
    method Recovered(recovered: nat)
      requires Valid()
      modifies this`failure
      ensures Valid() && View() == CompleteRecovery(old(View()), recovered)
      ensures failure == (old(failure) && (saveFailed || recovered != failureGeneration))
    {
      ghost var before := View();
      if !saveFailed && recovered == failureGeneration { failure := false; }
      Keeps(before, RecoveryCompleted(recovered), stray);
    }
  }
}
