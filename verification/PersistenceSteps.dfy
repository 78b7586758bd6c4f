/** src/plugin-persistence.ts as functions on its state: what each stretch of code between two awaits does. The
    environment chooses when they run, what live settings they meet and how writes end. */
module PersistenceSteps {
  import opened Basics
  import opened AuthenticationState

  datatype PluginData = PluginData(settings: Settings, rest: string, unfinished: bool)

  datatype Job =
    | Plain
    | Unload
    | Draft(patch: Patch)
    | Activate
    | Credentials(change: Change)

  /** A queued save; `byLoad` marks the first save of a load. */
  datatype Task = Task(job: Job, generation: nat, byLoad: bool)

  /** The save in flight; `revoked` marks the second save of an activation that was taken back. */
  datatype Running = Running(task: Task, snapshot: PluginData, revoked: bool)

  /** A load waits for the queue, then for its own first save, then for its own continuation. */
  datatype Load = NoLoad | Waiting | Saving | Finishing(ok: bool)

  /** What a stretch of code meets: the live snapshot, whether the plugin is unloaded, whether the caller's guard
      passes, whether a draft is valid. */
  datatype Live = Live(snapshot: PluginData, unloaded: bool, guarded: bool, valid: bool)

  /** How a write ends, and whether it took effect although it failed. */
  datatype Write = Written | NotWritten(took: bool)

  datatype State = State(
    queue: seq<Task>, running: Option<Running>, load: Load, generation: nat, loaded: bool,
    saveFailed: bool, failure: bool, failureGeneration: nat, data: Option<PluginData>,
    authenticationCommitted: bool, sensitiveLogoutCommitted: bool,
    stored: Option<PluginData>)          // what the storage holds

  // What a save writes.

  /** Committed credentials replace whatever the live settings still carry. */
  function Overlay(s: State, live: Settings): Option<Settings> {
    if !s.authenticationCommitted || s.data.None? then Some(live)
    else
      var captured := Capture(s.data.value.settings);
      if captured.None? then None
      else
        var current := WithAuthentication(live, captured.value);
        Some(if s.sensitiveLogoutCommitted && s.data.value.settings.token == "" then current.(password := None) else current)
  }

  function Prepare(s: State, job: Job, live: Live): Option<PluginData> {
    match Overlay(s, live.snapshot.settings)
    case None => None
    case Some(current) =>
      match job
      case Draft(patch) => if live.valid then Some(live.snapshot.(settings := ApplyPatch(current, patch))) else None
      case Activate => Some(live.snapshot.(settings := current.(manualSyncRequired := false)))
      case Credentials(change) =>
        var updated := Update(current, change);
        if updated.None? then None else Some(live.snapshot.(settings := updated.value))
      case _ => Some(live.snapshot.(settings := current))
  }

  predicate MayStart(s: State, task: Task, live: Live) {
    && s.loaded && task.generation == s.generation
    && (task.job.Unload? ==> !s.saveFailed)
    && (task.job.Draft? || task.job.Credentials? ==> !live.unloaded)
    && (task.job.Activate? || task.job.Credentials? ==> live.guarded)
  }

  // The stretches of code.

  /** A task ends; the load that queued it will notice. */
  function Ended(s: State, task: Task, ok: bool): State {
    s.(running := None, load := if task.byLoad && task.generation == s.generation && s.load == Saving
                                then Finishing(ok) else s.load)
  }

  function Begin(s: State, live: Live): State
    requires s.running.None? && s.queue != []
  {
    var task, rest := s.queue[0], s.(queue := s.queue[1..]);
    var prepared := if MayStart(s, task, live) then Prepare(s, task.job, live) else None;
    if prepared.None? then Ended(rest, task, false) else rest.(running := Some(Running(task, prepared.value, false)))
  }

  predicate CommitsCredentials(job: Job) { job.Credentials? || (job.Draft? && job.patch.ChangesCredentials()) }

  predicate CommitsSensitiveLogout(job: Job) { job.Credentials? && job.change.Logout? && !job.change.preservePassword }

  function Pending(snapshot: PluginData): PluginData { snapshot.(settings := snapshot.settings.(manualSyncRequired := true)) }

  /** A failed write is remembered unless a load has superseded the task. */
  function Refused(s: State, took: bool): State
    requires s.running.Some?
  {
    var run := s.running.value;
    var kept := if took then s.(stored := Some(run.snapshot)) else s;
    Ended(if run.task.generation == s.generation
          then kept.(saveFailed := true, failure := true, failureGeneration := s.failureGeneration + 1) else kept,
          run.task, false)
  }

  /** A committed draft or credential change reaches the running plugin, and with it the failure flag is cleared. */
  predicate Publishes(job: Job, live: Live) {
    (job.Draft? && !live.unloaded) || (job.Credentials? && !live.unloaded && live.guarded)
  }

  /** A successful write of a current task becomes the current data and is published. */
  function Committed(s: State, live: Live): State
    requires s.running.Some?
  {
    var run := s.running.value;
    var committed := s.(
      stored := Some(run.snapshot), data := Some(run.snapshot),
      authenticationCommitted := s.authenticationCommitted || CommitsCredentials(run.task.job),
      sensitiveLogoutCommitted := s.sensitiveLogoutCommitted || CommitsSensitiveLogout(run.task.job));
    Ended(if Publishes(run.task.job, live) then committed.(saveFailed := false) else committed, run.task, true)
  }

  /** The end of a write: an activation that is no longer wanted is taken back by a second save. */
  function EndSave(s: State, write: Write, live: Live): State
    requires s.running.Some?
  {
    var run := s.running.value;
    var current := run.task.generation == s.generation;
    var kept := s.(stored := Some(run.snapshot));
    if write.NotWritten? then Refused(s, write.took)
    else if run.revoked then Ended(if current then kept.(data := Some(run.snapshot)) else kept, run.task, false)
    else if run.task.job.Activate? && (!current || !live.guarded) then
      kept.(running := Some(Running(run.task, Pending(run.snapshot), true)))
    else if !current then Ended(kept, run.task, false)
    else Committed(s, live)
  }

  /** `requireLoaded` precedes every save but the one at unload. */
  function Enqueue(s: State, job: Job): State {
    if !s.loaded && !job.Unload? then s else s.(queue := s.queue + [Task(job, s.generation, false)])
  }

  function StartLoad(s: State): State {
    s.(loaded := false, authenticationCommitted := false, sensitiveLogoutCommitted := false, generation := s.generation + 1, load := Waiting)
  }

  /** Everything queued before the load has ended. */
  predicate CaughtUp(s: State) {
    && (s.running.Some? ==> s.running.value.task.generation == s.generation)
    && forall i :: 0 <= i < |s.queue| ==> s.queue[i].generation == s.generation
  }

  /** A password without a token and without unfinished work is the mark of a sensitive logout. */
  predicate LoggedOut(data: Option<PluginData>) {
    && data.Some? && data.value.settings.password.Some? && data.value.settings.password.value != ""
    && Blank(data.value.settings.token) && !data.value.unfinished
  }

  /** The read of a load: rejected data, an unloaded plugin and a failing initialization all leave it unloaded. */
  function Read(s: State, content: Result<Option<PluginData>, string>, unloaded: bool, initialized: bool): State
    requires s.load == Waiting && CaughtUp(s)
  {
    if content.Failure? || unloaded then s.(load := NoLoad)
    else
      var out := LoggedOut(content.value);
      var data := if out then Some(content.value.value.(settings := content.value.value.settings.(password := None))) else content.value;
      var read := s.(data := data, authenticationCommitted := s.authenticationCommitted || out,
                     sensitiveLogoutCommitted := s.sensitiveLogoutCommitted || out);
      if !initialized then read.(load := NoLoad)
      else read.(loaded := true, load := Saving, queue := s.queue + [Task(Plain, s.generation, true)])
  }

  function FinishLoad(s: State): State
    requires s.load.Finishing?
  {
    if s.load.ok then s.(load := NoLoad, saveFailed := false, failure := false) else s.(load := NoLoad, loaded := false)
  }

  function CompleteRecovery(s: State, generation: nat): State {
    if !s.saveFailed && generation == s.failureGeneration then s.(failure := false) else s
  }
}
