/** What the snapshot queue guarantees over every order of queued saves, stale live settings, failed and late writes,
    revoked activations and new loads. */
module PersistenceSafety {
  import opened Basics
  import opened AuthenticationState
  import opened PersistenceSteps

  datatype Event =
    | Enqueued(job: Job) | Began(live: Live) | Saved(write: Write, live: Live)
    | LoadStarted | WasRead(content: Result<Option<PluginData>, string>, unloaded: bool, initialized: bool)
    | LoadFinished | RecoveryCompleted(generation: nat)

  /** The next state, or None when the event cannot happen. A read that succeeds has passed the loader's own check of
      the credentials (src/plugin-data-loader.ts:194). Between the end of a load's own save and the rest of the load
      there are only the few microtasks that carry the result through `enqueue` and `persist`
      (src/plugin-persistence.ts:293-298, 152, 137): the next queued save may begin in them, but it ends in them only
      when the port rejects before it has awaited anything. */
  function Next(s: State, e: Event): Option<State> {
    match e
    case Enqueued(job) => Some(Enqueue(s, job))
    case Began(live) => if s.running.None? && s.queue != [] then Some(Begin(s, live)) else None
    case Saved(write, live) =>
      if s.running.Some? && (s.load.Finishing? ==> write.NotWritten?) then Some(EndSave(s, write, live)) else None
    case LoadStarted => Some(StartLoad(s))
    case WasRead(content, unloaded, initialized) =>
      if s.load == Waiting && CaughtUp(s) && (content.Success? && content.value.Some? ==> Consistent(content.value.value.settings))
      then Some(Read(s, content, unloaded, initialized)) else None
    case LoadFinished => if s.load.Finishing? then Some(FinishLoad(s)) else None
    case RecoveryCompleted(generation) => Some(CompleteRecovery(s, generation))
  }

  ghost predicate Run(s: State, events: seq<Event>, last: State)
    decreases events
  {
    if events == [] then last == s
    else Next(s, events[0]).Some? && Run(Next(s, events[0]).value, events[1..], last)
  }

  function Initial(file: Option<PluginData>): State {
    State([], None, NoLoad, 0, false, false, false, 0, None, false, false, file)
  }

  /** What identifies the account: client, token, method and grant. */
  function Account(s: Settings): Option<(string, string, Method, Option<Authorization>)> {
    match Capture(s)
    case None => None
    case Some(a) => Some((a.clientId, a.token, a.authMethod, a.grant))
  }

  /** Work queued before a load has ended when the load reads, and nothing is committed while it waits. */
  ghost predicate Fresh(s: State) {
    && (forall i :: 0 <= i < |s.queue| ==> s.queue[i].generation <= s.generation)
    && (s.running.Some? ==> s.running.value.task.generation <= s.generation)
    && (s.load != Waiting ==> CaughtUp(s))
    && (s.load == Waiting ==>
          !s.loaded && !s.authenticationCommitted && (s.running.Some? ==> s.running.value.task.generation != s.generation))
    && (s.running.Some? && s.running.value.revoked ==> s.running.value.task.job.Activate?)
    && !(s.load.Saving? && !s.loaded)
  }

  /** Committed credentials are consistent, and a save in flight carries them unless it is about to replace them. */
  ghost predicate Kept(s: State) {
    && (s.running.Some? && CommitsSensitiveLogout(s.running.value.task.job) ==> Cleared(s.running.value.snapshot))
    && (s.running.Some? && CommitsCredentials(s.running.value.task.job) ==> Consistent(s.running.value.snapshot.settings))
    && (s.authenticationCommitted ==>
          && s.data.Some? && Consistent(s.data.value.settings)
          && (s.running.Some? && !CommitsCredentials(s.running.value.task.job) ==>
                Account(s.running.value.snapshot.settings) == Account(s.data.value.settings)))
  }

  /** What a sensitive logout is about to write. */
  predicate Cleared(snapshot: PluginData) { snapshot.settings.password.None? && snapshot.settings.token == "" }

  lemma InitialKept(file: Option<PluginData>)
    ensures Fresh(Initial(file)) && Kept(Initial(file))
  {}

  lemma RefusalFacts(s: State, took: bool)
    requires s.running.Some?
    ensures var n := Refused(s, took);
      && n.data == s.data && n.running.None? && n.loaded == s.loaded
      && n.authenticationCommitted == s.authenticationCommitted && n.sensitiveLogoutCommitted == s.sensitiveLogoutCommitted
      && (s.running.value.task.generation == s.generation ==> n.saveFailed)
  {}

  lemma CommitFacts(s: State, live: Live)
    requires s.running.Some?
    ensures var n, run := Committed(s, live), s.running.value;
      && n.data == n.stored == Some(run.snapshot) && n.running.None?
      && (n.authenticationCommitted <==> s.authenticationCommitted || CommitsCredentials(run.task.job))
      && (n.sensitiveLogoutCommitted <==> s.sensitiveLogoutCommitted || CommitsSensitiveLogout(run.task.job))
  {
    hide CommitsCredentials, CommitsSensitiveLogout, Publishes;
  }

  /** A step of a running task leaves the queue alone. */
  predicate SameQueue(s: State, n: State) {
    && n.queue == s.queue && n.generation == s.generation && n.loaded == s.loaded
    && (n.load == s.load || (s.load.Saving? && n.load.Finishing?))
    && (n.running.Some? ==> s.running.Some? && n.running.value.task == s.running.value.task && n.running.value.task.job.Activate?)
    && (n.authenticationCommitted ==>
          s.authenticationCommitted || (s.running.Some? && s.running.value.task.generation == s.generation))
  }

  lemma SaveKeepsQueue(s: State, write: Write, live: Live)
    requires s.running.Some?
    ensures SameQueue(s, EndSave(s, write, live))
  {
    hide Refused, Committed, Pending;
    if write.NotWritten? { RefusalKeepsQueue(s, write.took); }
    else if s.running.value.task.generation == s.generation { CommitKeepsQueue(s, live); }
  }

  lemma RefusalKeepsQueue(s: State, took: bool)
    requires s.running.Some?
    ensures SameQueue(s, Refused(s, took))
  {}

  lemma CommitKeepsQueue(s: State, live: Live)
    requires s.running.Some? && s.running.value.task.generation == s.generation
    ensures SameQueue(s, Committed(s, live))
  {
    hide CommitsSensitiveLogout, CommitsCredentials;
  }

  lemma SameQueueKeepsFresh(s: State, n: State)
    requires Fresh(s) && SameQueue(s, n)
    ensures Fresh(n)
  {}

  lemma BeginKeepsFresh(s: State, live: Live)
    requires Fresh(s) && s.running.None? && s.queue != []
    ensures Fresh(Begin(s, live))
  {
    hide Prepare;
    assert forall i :: 0 <= i < |s.queue| - 1 ==> s.queue[1..][i] == s.queue[i + 1];
  }

  lemma StepKeepsFresh(s: State, e: Event)
    requires Fresh(s) && Next(s, e).Some?
    ensures Fresh(Next(s, e).value)
  {
    hide Fresh, Prepare, LoggedOut, Consistent, EndSave, Begin, Enqueue, Read, StartLoad;
    match e
    case Saved(write, live) => SaveKeepsQueue(s, write, live); SameQueueKeepsFresh(s, EndSave(s, write, live));
    case Began(live) => BeginKeepsFresh(s, live);
    case Enqueued(job) => EnqueueKeepsFresh(s, job);
    case _ => LoadKeepsFresh(s, e);
  }

  lemma EnqueueKeepsFresh(s: State, job: Job)
    requires Fresh(s)
    ensures Fresh(Enqueue(s, job))
  {}

  lemma LoadKeepsFresh(s: State, e: Event)
    requires Fresh(s) && Next(s, e).Some? && (e.LoadStarted? || e.WasRead? || e.LoadFinished? || e.RecoveryCompleted?)
    ensures Fresh(Next(s, e).value)
  {
    hide LoggedOut, Consistent;
  }

  lemma SensitiveLogoutClears(s: State, job: Job, live: Live)
    requires CommitsSensitiveLogout(job) && Prepare(s, job, live).Some?
    ensures Cleared(Prepare(s, job, live).value)
  {}

  /** What a task is about to write, whatever the live settings say. */
  lemma PreparedAccount(s: State, job: Job, live: Live)
    requires Prepare(s, job, live).Some?
    ensures CommitsCredentials(job) ==> Consistent(Prepare(s, job, live).value.settings)
    ensures s.authenticationCommitted && s.data.Some? && !CommitsCredentials(job) ==>
      Account(Prepare(s, job, live).value.settings) == Account(s.data.value.settings)
  {
    var current := Overlay(s, live.snapshot.settings).value;
    if job.Credentials? { UpdatesAreConsistent(current, job.change); }
    if job.Draft? && job.patch.ChangesCredentials() { PatchesAreConsistent(current, job.patch); }
    if s.authenticationCommitted && s.data.Some? { CaptureIsStable(s.data.value.settings, live.snapshot.settings); }
  }

  lemma SaveKeepsAccount(s: State, write: Write, live: Live)
    requires Fresh(s) && Kept(s) && s.running.Some?
    ensures Kept(EndSave(s, write, live))
  {
    CommitFacts(s, live);
    hide Capture, Consistent, Account, Pending, CaughtUp, CommitsSensitiveLogout, CommitsCredentials, Refused, Committed;
    PendingAccount(s.running.value.snapshot);
    AccountsAreConsistent(s.running.value.snapshot.settings);
    if s.data.Some? { AccountsAreConsistent(s.data.value.settings); }
    if write.NotWritten? { RefusalKeepsAccount(s, write.took); }
  }

  lemma RefusalKeepsAccount(s: State, took: bool)
    requires Kept(s) && s.running.Some?
    ensures Kept(Refused(s, took))
  {
    hide Capture, Consistent, Account;
  }

  lemma StepKeepsAccount(s: State, e: Event)
    requires Fresh(s) && Kept(s) && Next(s, e).Some?
    ensures Kept(Next(s, e).value)
  {
    hide Prepare, Capture, Consistent, Account, EndSave;
    match e {
      case Began(live) =>
        var job := s.queue[0].job;
        if Prepare(s, job, live).Some? {
          PreparedAccount(s, job, live);
          if CommitsSensitiveLogout(job) { SensitiveLogoutClears(s, job, live); }
        }
      case Saved(write, live) => SaveKeepsAccount(s, write, live);
      case WasRead(content, _, _) =>
        if content.Success? && content.value.Some? { PasswordAccount(content.value.value.settings); }
      case _ =>
    }
  }

  lemma PendingAccount(snapshot: PluginData)
    ensures Account(Pending(snapshot).settings) == Account(snapshot.settings)
    ensures Consistent(Pending(snapshot).settings) == Consistent(snapshot.settings)
  {}

  lemma AccountsAreConsistent(s: Settings)
    ensures Account(s).Some? <==> Consistent(s)
  {}

  lemma PasswordAccount(s: Settings)
    ensures Consistent(s.(password := None)) == Consistent(s) && Account(s.(password := None)) == Account(s)
  {}

  // What one task does, told from its job and the state it meets.

  /** What a task starts from: the live settings, under the committed account, and without the password when a
      sensitive logout has been committed and no token has followed. */
  predicate StartsFrom(s: State, live: Settings, base: Settings) {
    match s.data
    case Some(data) =>
      if !s.authenticationCommitted then base == live
      else
        && base.remotePath == live.remotePath && base.rest == live.rest && Account(base) == Account(data.settings)
        && base.authMethod == Some(MethodOf(data.settings))
        && base.manualSyncRequired == data.settings.manualSyncRequired && base.manualConfirmed == data.settings.manualConfirmed
        && base.password == if s.sensitiveLogoutCommitted && data.settings.token == "" then None else live.password
    case None => base == live
  }

  /** The plugin is loaded and no load has come since the task was queued, nothing has failed before an unload, a
      draft is valid, credentials and drafts find the plugin in use, and the guard of the caller holds. */
  predicate MayRun(s: State, task: Task, live: Live) {
    && s.loaded && task.generation == s.generation
    && match task.job
       case Plain => true
       case Unload => !s.saveFailed
       case Draft(_) => !live.unloaded && live.valid
       case Activate => live.guarded
       case Credentials(_) => !live.unloaded && live.guarded
  }

  /** The settings that a task writes; None when a credential change refuses what it starts from. */
  function SettingsWritten(job: Job, base: Settings): Option<Settings> {
    match job
    case Plain => Some(base)
    case Unload => Some(base)
    case Draft(patch) => Some(ApplyPatch(base, patch))
    case Activate => Some(base.(manualSyncRequired := false))
    case Credentials(change) => Update(base, change)
  }

  /** What the load learns of the end of its own save. */
  function Noticed(s: State, task: Task, ok: bool): Load {
    if task.byLoad && s.load.Saving? && task.generation == s.generation then Finishing(ok) else s.load
  }

  /** The first task of the queue has begun: it writes the live snapshot with its own settings, or nothing. */
  predicate BeginsWith(s: State, n: State, live: Live, base: Settings)
    requires s.queue != []
  {
    var task := s.queue[0];
    var settings := SettingsWritten(task.job, base);
    if MayRun(s, task, live) && settings.Some?
    then n == s.(queue := s.queue[1..], running := Some(Running(task, live.snapshot.(settings := settings.value), false)))
    else n == s.(queue := s.queue[1..], load := Noticed(s, task, false))
  }

  lemma OverlayIsExact(s: State, live: Settings)
    requires Kept(s)
    ensures Overlay(s, live).Some? && StartsFrom(s, live, Overlay(s, live).value)
  {
    if s.authenticationCommitted && s.data.Some? {
      CaptureIsStable(s.data.value.settings, live);
      PasswordAccount(WithAuthentication(live, Capture(s.data.value.settings).value));
    }
    hide ValidAuthorization;
  }

  lemma BeginIsExact(s: State, live: Live) returns (base: Settings)
    requires Kept(s) && s.running.None? && s.queue != []
    ensures StartsFrom(s, live.snapshot.settings, base) && BeginsWith(s, Begin(s, live), live, base)
  {
    hide Update, ApplyPatch, Overlay, StartsFrom, Kept;
    OverlayIsExact(s, live.snapshot.settings);
    base := Overlay(s, live.snapshot.settings).value;
  }

  /** The job commits credentials, a sensitive logout, or reaches the running plugin. */
  predicate ReplacesAccount(job: Job) {
    match job case Credentials(_) => true case Draft(patch) => patch.token.Some? || patch.clientId.Some? case _ => false
  }

  predicate ForgetsPassword(job: Job) {
    match job case Credentials(Logout(_, preserve)) => !preserve case _ => false
  }

  predicate ReachesPlugin(job: Job, live: Live) {
    match job case Draft(_) => !live.unloaded case Credentials(_) => !live.unloaded && live.guarded case _ => false
  }

  /** A save has ended. A failed one changes nothing but the failure, and only when no load has come since. A written
      activation that is no longer wanted is followed by a second save that asks for a manual sync again. Any other
      written snapshot becomes the data when no load has come since. */
  predicate SaveEnds(s: State, n: State, write: Write, live: Live)
    requires s.running.Some?
  {
    var run := s.running.value;
    var current := run.task.generation == s.generation;
    match write
    case NotWritten(took) =>
      n == s.(running := None, load := Noticed(s, run.task, false), stored := if took then Some(run.snapshot) else s.stored,
              saveFailed := s.saveFailed || current, failure := s.failure || current,
              failureGeneration := s.failureGeneration + if current then 1 else 0)
    case Written =>
      if run.revoked then
        n == s.(running := None, load := Noticed(s, run.task, false), stored := Some(run.snapshot),
                data := if current then Some(run.snapshot) else s.data)
      else if run.task.job.Activate? && !(current && live.guarded) then
        var again := run.snapshot.(settings := run.snapshot.settings.(manualSyncRequired := true));
        n == s.(running := Some(Running(run.task, again, true)), stored := Some(run.snapshot))
      else if !current then n == s.(running := None, load := Noticed(s, run.task, false), stored := Some(run.snapshot))
      else
        n == s.(running := None, load := Noticed(s, run.task, true), stored := Some(run.snapshot), data := Some(run.snapshot),
                authenticationCommitted := s.authenticationCommitted || ReplacesAccount(run.task.job),
                sensitiveLogoutCommitted := s.sensitiveLogoutCommitted || ForgetsPassword(run.task.job),
                saveFailed := s.saveFailed && !ReachesPlugin(run.task.job, live))
  }

  lemma SaveIsExact(s: State, write: Write, live: Live)
    requires s.running.Some?
    ensures SaveEnds(s, EndSave(s, write, live), write, live)
  {
    hide Refused, Committed;
    if write.NotWritten? { RefusalIsExact(s, write.took, live); }
    else if s.running.value.task.generation == s.generation && !s.running.value.revoked
            && (s.running.value.task.job.Activate? ==> live.guarded) { CommitIsExact(s, live); }
  }

  lemma RefusalIsExact(s: State, took: bool, live: Live)
    requires s.running.Some?
    ensures SaveEnds(s, Refused(s, took), NotWritten(took), live)
  {
    hide ReplacesAccount, ForgetsPassword, ReachesPlugin;
  }

  lemma CommitIsExact(s: State, live: Live)
    requires s.running.Some? && s.running.value.task.generation == s.generation && !s.running.value.revoked
    requires s.running.value.task.job.Activate? ==> live.guarded
    ensures SaveEnds(s, Committed(s, live), Written, live)
  {
    SameCommits(s.running.value.task.job, live);
    hide CommitsCredentials, CommitsSensitiveLogout, Publishes, ReplacesAccount, ForgetsPassword, ReachesPlugin;
  }

  lemma SameCommits(job: Job, live: Live)
    ensures CommitsCredentials(job) == ReplacesAccount(job) && CommitsSensitiveLogout(job) == ForgetsPassword(job)
    ensures Publishes(job, live) == ReachesPlugin(job, live)
  {}

  /** The mark of a sensitive logout: a password without a token and without unfinished work. */
  predicate Marked(data: PluginData) {
    data.settings.password.Some? && data.settings.password.value != "" && Blank(data.settings.token) && !data.unfinished
  }

  /** A load has read its data: it keeps them, without the password when they are marked, and queues its own save. */
  predicate ReadEnds(s: State, n: State, content: Result<Option<PluginData>, string>, unloaded: bool, initialized: bool) {
    if content.Failure? || unloaded then n == s.(load := NoLoad)
    else
      var marked := content.value.Some? && Marked(content.value.value);
      && n.queue == (if initialized then s.queue + [Task(Plain, s.generation, true)] else s.queue)
      && n.load == (if initialized then Saving else NoLoad) && n.loaded == (initialized || s.loaded)
      && n.data == (if marked then Some(content.value.value.(settings := content.value.value.settings.(password := None)))
                    else content.value)
      && n.authenticationCommitted == (marked || s.authenticationCommitted)
      && n.sensitiveLogoutCommitted == (marked || s.sensitiveLogoutCommitted)
      && n == s.(queue := n.queue, load := n.load, loaded := n.loaded, data := n.data,
                 authenticationCommitted := n.authenticationCommitted, sensitiveLogoutCommitted := n.sensitiveLogoutCommitted)
  }

  lemma ReadIsExact(s: State, content: Result<Option<PluginData>, string>, unloaded: bool, initialized: bool)
    requires s.load == Waiting && CaughtUp(s)
    ensures ReadEnds(s, Read(s, content, unloaded, initialized), content, unloaded, initialized)
  {}

  // Credentials.

  /** The event neither starts a load nor completes a change of credentials. */
  predicate SameAccount(s: State, e: Event) {
    && !e.LoadStarted? && !e.WasRead?
    && !(e.Saved? && e.write.Written? && s.running.Some? && CommitsCredentials(s.running.value.task.job))
  }

  ghost predicate QuietRun(s: State, events: seq<Event>, last: State)
    decreases events
  {
    if events == [] then last == s
    else Next(s, events[0]).Some? && SameAccount(s, events[0]) && QuietRun(Next(s, events[0]).value, events[1..], last)
  }

  lemma QuietStepKeepsAccount(s: State, e: Event)
    requires Fresh(s) && Kept(s) && s.authenticationCommitted && Next(s, e).Some? && SameAccount(s, e)
    ensures var n := Next(s, e).value;
      n.authenticationCommitted && n.data.Some? && Account(n.data.value.settings) == Account(s.data.value.settings)
  {
    hide Prepare, Account, Consistent, Pending;
    if e.Saved? { QuietSaveKeepsAccount(s, e.write, e.live); }
  }

  lemma QuietSaveKeepsAccount(s: State, write: Write, live: Live)
    requires Fresh(s) && Kept(s) && s.authenticationCommitted && s.running.Some?
    requires write.Written? ==> !CommitsCredentials(s.running.value.task.job)
    ensures var n := EndSave(s, write, live);
      n.authenticationCommitted && n.data.Some? && Account(n.data.value.settings) == Account(s.data.value.settings)
  {
    RefusalFacts(s, false);
    RefusalFacts(s, true);
    CommitFacts(s, live);
    hide Account, Consistent, Pending, CommitsSensitiveLogout, CommitsCredentials, Refused, Committed;
  }

  /** From a committed change of credentials until the next one, across failed and late writes and any live settings,
      the data keeps the committed account, and so does every snapshot written by a save that is not itself such a
      change. */
  lemma {:induction false} CommittedAccountPersists(s: State, events: seq<Event>, last: State)
    requires Fresh(s) && Kept(s) && s.authenticationCommitted && QuietRun(s, events, last)
    ensures Fresh(last) && Kept(last) && last.authenticationCommitted
    ensures Account(last.data.value.settings) == Account(s.data.value.settings) != None
    ensures last.running.Some? && !CommitsCredentials(last.running.value.task.job) ==>
      Account(last.running.value.snapshot.settings) == Account(s.data.value.settings)
    decreases events
  {
    hide Next, Account, Consistent, Fresh, SameAccount;
    if events != [] {
      StepKeepsFresh(s, events[0]);
      StepKeepsAccount(s, events[0]);
      QuietStepKeepsAccount(s, events[0]);
      CommittedAccountPersists(Next(s, events[0]).value, events[1..], last);
    } else {
      AccountsAreConsistent(s.data.value.settings);
    }
  }

  /** A completed change of credentials commits exactly the account that was written. */
  lemma ChangeCommitsAccount(s: State, live: Live)
    requires Fresh(s) && Kept(s) && s.running.Some? && CommitsCredentials(s.running.value.task.job)
    requires s.running.value.task.generation == s.generation
    ensures var n := EndSave(s, Written, live);
      && n.authenticationCommitted && n.data == n.stored == Some(s.running.value.snapshot)
      && Consistent(n.data.value.settings)
  {}

  // The grant, which a refresh renews and only a login, a logout or a draft of credentials replaces.

  function GrantOf(s: Settings): Option<(string, string)> {
    if s.grant.None? then None else Some((s.grant.value.clientId, s.grant.value.grantId))
  }

  predicate ReplacesGrant(job: Job) {
    || (job.Draft? && job.patch.ChangesCredentials())
    || (job.Credentials? && (job.change.Interactive? || job.change.Logout?))
  }

  /** A save in flight carries the grant of the data unless it is about to replace it. */
  predicate GrantKept(s: State) {
    s.data.Some? && (s.running.Some? && !ReplacesGrant(s.running.value.task.job) ==>
      GrantOf(s.running.value.snapshot.settings) == GrantOf(s.data.value.settings))
  }

  predicate SameGrant(s: State, e: Event) {
    && !e.LoadStarted? && !e.WasRead?
    && !(e.Saved? && e.write.Written? && s.running.Some? && ReplacesGrant(s.running.value.task.job))
  }

  ghost predicate RenewingRun(s: State, events: seq<Event>, last: State)
    decreases events
  {
    if events == [] then last == s
    else Next(s, events[0]).Some? && SameGrant(s, events[0]) && RenewingRun(Next(s, events[0]).value, events[1..], last)
  }

  lemma PreparedGrant(s: State, job: Job, live: Live)
    requires s.authenticationCommitted && s.data.Some? && Prepare(s, job, live).Some? && !ReplacesGrant(job)
    ensures GrantOf(Prepare(s, job, live).value.settings) == GrantOf(s.data.value.settings)
  {
    var current := Overlay(s, live.snapshot.settings).value;
    CaptureIsStable(s.data.value.settings, live.snapshot.settings);
    if job.Credentials? && job.change.Refresh? { RefreshKeepsGrant(current, job.change); }
  }

  lemma StepKeepsGrant(s: State, e: Event)
    requires Fresh(s) && s.authenticationCommitted && GrantKept(s) && Next(s, e).Some? && SameGrant(s, e)
    ensures var n := Next(s, e).value;
      n.authenticationCommitted && GrantKept(n) && GrantOf(n.data.value.settings) == GrantOf(s.data.value.settings)
  {
    hide Prepare, Consistent, GrantOf, ReplacesGrant, EndSave;
    match e {
      case Began(live) =>
        var job := s.queue[0].job;
        if Prepare(s, job, live).Some? && !ReplacesGrant(job) { PreparedGrant(s, job, live); }
      case Saved(write, live) => SaveKeepsGrant(s, write, live);
      case _ =>
    }
  }

  lemma SaveKeepsGrant(s: State, write: Write, live: Live)
    requires Fresh(s) && s.authenticationCommitted && GrantKept(s) && s.running.Some?
    requires write.Written? ==> !ReplacesGrant(s.running.value.task.job)
    ensures var n := EndSave(s, write, live);
      n.authenticationCommitted && GrantKept(n) && GrantOf(n.data.value.settings) == GrantOf(s.data.value.settings)
  {
    RefusalFacts(s, false);
    RefusalFacts(s, true);
    CommitFacts(s, live);
    assert GrantOf(Pending(s.running.value.snapshot).settings) == GrantOf(s.running.value.snapshot.settings);
    hide Pending, GrantOf, ReplacesGrant, Refused, Committed, CommitsCredentials, CommitsSensitiveLogout;
  }

  /** However often the token is refreshed or confirmed, and whatever else is saved or fails, the data and every
      snapshot written keep the client and the grant until a login, a logout or a draft of credentials completes. */
  lemma {:induction false} RefreshesKeepGrant(s: State, events: seq<Event>, last: State)
    requires Fresh(s) && s.authenticationCommitted && GrantKept(s) && RenewingRun(s, events, last)
    ensures last.authenticationCommitted && GrantKept(last) && GrantOf(last.data.value.settings) == GrantOf(s.data.value.settings)
    decreases events
  {
    hide Next, Fresh, SameGrant, GrantOf;
    if events != [] {
      StepKeepsFresh(s, events[0]);
      StepKeepsGrant(s, events[0]);
      RefreshesKeepGrant(Next(s, events[0]).value, events[1..], last);
    }
  }

  lemma {:induction false} RunKeepsCommitted(s: State, events: seq<Event>, last: State)
    requires Fresh(s) && Kept(s) && Run(s, events, last)
    ensures Fresh(last) && Kept(last)
    decreases events
  {
    hide Next, Fresh, Kept;
    if events != [] {
      StepKeepsFresh(s, events[0]);
      StepKeepsAccount(s, events[0]);
      RunKeepsCommitted(Next(s, events[0]).value, events[1..], last);
    }
  }

  /** Over every run, once credentials are committed, whatever a save writes passes the credential check of the next
      load. */
  lemma CommittedSavesAreLoadable(file: Option<PluginData>, events: seq<Event>, last: State)
    requires Run(Initial(file), events, last) && last.authenticationCommitted && last.running.Some?
    ensures Consistent(last.running.value.snapshot.settings)
  {
    InitialKept(file);
    RunKeepsCommitted(Initial(file), events, last);
    AccountsAreConsistent(last.running.value.snapshot.settings);
    AccountsAreConsistent(last.data.value.settings);
  }

  // The encryption password after a sensitive logout.

  /** The event completes a sensitive logout, or reads the mark of one. */
  predicate LogsOut(s: State, e: Event) {
    match e
    case Saved(write, _) =>
      && write.Written? && s.running.Some? && s.running.value.task.generation == s.generation
      && CommitsSensitiveLogout(s.running.value.task.job)
    case WasRead(content, unloaded, _) => content.Success? && !unloaded && LoggedOut(content.value)
    case _ => false
  }

  predicate Locked(s: State) {
    && s.authenticationCommitted && s.sensitiveLogoutCommitted && s.data.Some?
    && s.data.value.settings.token == "" && s.data.value.settings.password.None?
    && (s.running.Some? ==> s.running.value.snapshot.settings.password.None?)
  }

  /** The event neither starts a load nor makes a token durable. */
  predicate NoLogin(s: State, e: Event) {
    && !e.LoadStarted? && !e.WasRead?
    && !(e.Saved? && e.write.Written? && s.running.Some? && s.running.value.snapshot.settings.token != "")
  }

  ghost predicate LoggedOutRun(s: State, events: seq<Event>, last: State)
    decreases events
  {
    if events == [] then last == s
    else Next(s, events[0]).Some? && NoLogin(s, events[0]) && LoggedOutRun(Next(s, events[0]).value, events[1..], last)
  }

  lemma PreparedPassword(s: State, job: Job, live: Live)
    requires s.authenticationCommitted && s.sensitiveLogoutCommitted && s.data.Some? && s.data.value.settings.token == ""
    requires Prepare(s, job, live).Some?
    ensures Prepare(s, job, live).value.settings.password.None?
  {}

  lemma StepKeepsLocked(s: State, e: Event)
    requires Fresh(s) && Locked(s) && Next(s, e).Some? && NoLogin(s, e)
    ensures Locked(Next(s, e).value)
  {
    hide Prepare, Consistent;
    if e.Began? && Prepare(s, s.queue[0].job, e.live).Some? { PreparedPassword(s, s.queue[0].job, e.live); }
    if e.Saved? { SaveKeepsLocked(s, e.write, e.live); }
  }

  lemma SaveKeepsLocked(s: State, write: Write, live: Live)
    requires Locked(s) && s.running.Some? && (write.Written? ==> s.running.value.snapshot.settings.token == "")
    ensures Locked(EndSave(s, write, live))
  {
    RefusalFacts(s, false);
    RefusalFacts(s, true);
    CommitFacts(s, live);
    hide CommitsSensitiveLogout, CommitsCredentials, Refused, Committed;
  }

  /** After a sensitive logout every snapshot written keeps the password null while no token becomes durable, whatever
      the live settings still hold. */
  lemma {:induction false} PasswordStaysNull(s: State, events: seq<Event>, last: State)
    requires Fresh(s) && Locked(s) && LoggedOutRun(s, events, last)
    ensures Locked(last)
    decreases events
  {
    hide Next, Fresh, Locked, NoLogin;
    if events != [] {
      StepKeepsFresh(s, events[0]);
      StepKeepsLocked(s, events[0]);
      PasswordStaysNull(Next(s, events[0]).value, events[1..], last);
    }
  }

  /** A sensitive logout that completes leads there. */
  lemma SensitiveLogoutLocks(s: State, live: Live)
    requires Fresh(s) && Kept(s) && LogsOut(s, Saved(Written, live))
    ensures Locked(EndSave(s, Written, live)) && EndSave(s, Written, live).running.None?
  {
    hide Consistent, Account;
    CommitFacts(s, live);
    hide Committed;
  }

  /** Over every run: once a sensitive logout has completed, nothing that is written until a token becomes durable
      again carries a password, whatever settings are live, whatever fails and whatever is queued or revoked
      meanwhile; and the data keeps none either. */
  lemma SensitiveLogoutKeepsPasswordNull(
      file: Option<PluginData>, before: seq<Event>, s: State, live: Live, after: seq<Event>, last: State)
    requires Run(Initial(file), before, s) && Next(s, Saved(Written, live)).Some? && LogsOut(s, Saved(Written, live))
    requires LoggedOutRun(EndSave(s, Written, live), after, last)
    ensures Locked(last) && last.data.value.settings.password.None?
    ensures last.running.Some? ==> last.running.value.snapshot.settings.password.None?
  {
    InitialKept(file);
    RunKeepsCommitted(Initial(file), before, s);
    hide Run, LoggedOutRun, EndSave, LogsOut, Fresh, Kept;
    SensitiveLogoutLocks(s, live);
    StepKeepsFresh(s, Saved(Written, live));
    PasswordStaysNull(EndSave(s, Written, live), after, last);
  }

  /** The password is null in whatever a run without a login writes. */
  ghost predicate NeverWritesPassword(s: State) {
    forall events, last :: LoggedOutRun(s, events, last) && last.running.Some? ==> last.running.value.snapshot.settings.password.None?
  }

  /** A load that finds the mark of a sensitive logout keeps the password out of every later snapshot, until a login,
      exactly when the token it found is empty: a token of blanks counts as absent for the load, but not for the saves
      after it. */
  lemma MarkedLoadLocksIff(s: State, content: Option<PluginData>)
    requires Fresh(s) && s.load == Waiting && s.queue == [] && s.running.None?
    requires LoggedOut(content) && Consistent(content.value.settings)
    ensures NeverWritesPassword(Read(s, Success(content), false, true)) <==> content.value.settings.token == ""
  {
    var r := Read(s, Success(content), false, true);
    if content.value.settings.token == "" {
      LoadKeepsFresh(s, WasRead(Success(content), false, true));
      forall events, last | LoggedOutRun(r, events, last) && last.running.Some?
        ensures last.running.value.snapshot.settings.password.None?
      {
        PasswordStaysNull(r, events, last);
      }
    } else {
      var live := Live(content.value, false, true, true);
      var last := Next(r, Began(live)).value;
      PasswordAccount(content.value.settings);
      LoggedOutOnce(r, Began(live), last);
    }
  }

  lemma LoggedOutOnce(s: State, e: Event, last: State)
    requires Next(s, e) == Some(last) && NoLogin(s, e)
    ensures LoggedOutRun(s, [e], last)
  {
    assert [e][1..] == [];
    assert LoggedOutRun(last, [], last);
  }

  // Which logout the saves after it remember.

  /** The state after the first events of a run. */
  function After(s: State, events: seq<Event>, n: nat): State
    requires n <= |events|
    decreases n
  {
    if n == 0 || Next(s, events[0]).None? then s else After(Next(s, events[0]).value, events[1..], n - 1)
  }

  ghost predicate NoLoadAfter(events: seq<Event>, i: int) { forall j :: 0 <= j < |events| && i < j ==> !events[j].LoadStarted? }

  /** A sensitive logout was completed, or its mark was read, and no load has started since. */
  ghost predicate LoggedOutSinceLoad(s: State, events: seq<Event>) {
    exists i :: 0 <= i < |events| && LogsOut(After(s, events, i), events[i]) && NoLoadAfter(events, i)
  }

  lemma StepMarks(s: State, e: Event)
    requires Fresh(s) && Next(s, e).Some?
    ensures Next(s, e).value.sensitiveLogoutCommitted <==> LogsOut(s, e) || (s.sensitiveLogoutCommitted && !e.LoadStarted?)
  {
    hide Prepare, LoggedOut, Consistent, CaughtUp, EndSave;
    if e.Saved? { SaveMarks(s, e.write, e.live); }
  }

  lemma SaveMarks(s: State, write: Write, live: Live)
    requires Fresh(s) && s.running.Some?
    ensures EndSave(s, write, live).sensitiveLogoutCommitted <==> LogsOut(s, Saved(write, live)) || s.sensitiveLogoutCommitted
  {
    RefusalFacts(s, false);
    RefusalFacts(s, true);
    CommitFacts(s, live);
    hide CaughtUp, CommitsCredentials, Pending, Refused, Committed;
  }

  lemma FirstOrLater(s: State, events: seq<Event>)
    requires events != [] && Next(s, events[0]).Some?
    ensures var n := Next(s, events[0]).value;
      LoggedOutSinceLoad(s, events) <==> (LogsOut(s, events[0]) && NoLoadAfter(events, 0)) || LoggedOutSinceLoad(n, events[1..])
  {
    hide LogsOut, Next;
    var n, rest := Next(s, events[0]).value, events[1..];
    forall i | 0 <= i < |rest|
      ensures After(s, events, i + 1) == After(n, rest, i) && (NoLoadAfter(events, i + 1) <==> NoLoadAfter(rest, i))
    {
      assert forall j :: i + 1 < j < |events| ==> events[j] == rest[j - 1];
      assert forall j :: i < j < |rest| ==> rest[j] == events[j + 1];
    }
    if LoggedOutSinceLoad(n, rest) {
      var i :| 0 <= i < |rest| && LogsOut(After(n, rest, i), rest[i]) && NoLoadAfter(rest, i);
      assert LogsOut(After(s, events, i + 1), events[i + 1]) && NoLoadAfter(events, i + 1);
    }
    if LoggedOutSinceLoad(s, events) {
      var i :| 0 <= i < |events| && LogsOut(After(s, events, i), events[i]) && NoLoadAfter(events, i);
      if i > 0 { assert LogsOut(After(n, rest, i - 1), rest[i - 1]) && NoLoadAfter(rest, i - 1); }
    }
    if LogsOut(s, events[0]) && NoLoadAfter(events, 0) { assert LogsOut(After(s, events, 0), events[0]); }
  }

  lemma {:induction false} RunMarks(s: State, events: seq<Event>, last: State)
    requires Fresh(s) && Run(s, events, last)
    ensures last.sensitiveLogoutCommitted <==>
      LoggedOutSinceLoad(s, events) || (s.sensitiveLogoutCommitted && NoLoadAfter(events, -1))
    decreases events
  {
    hide Next, Fresh, LogsOut, LoggedOutSinceLoad;
    if events == [] {
      NothingLogged(s);
    } else {
      StepKeepsFresh(s, events[0]);
      StepMarks(s, events[0]);
      FirstOrLater(s, events);
      RunMarks(Next(s, events[0]).value, events[1..], last);
      assert forall j :: 0 < j < |events| ==> events[j] == events[1..][j - 1];
      assert forall j :: 0 <= j < |events[1..]| ==> events[1..][j] == events[j + 1];
    }
  }

  lemma NothingLogged(s: State)
    ensures !LoggedOutSinceLoad(s, [])
  {}

  /** Over every run: while logged out, the next ordinary save writes the live password, which a logout may have been
      asked to preserve, exactly when no sensitive logout was completed or found since the last load began. */
  lemma PreservedPasswordIsKeptIff(file: Option<PluginData>, events: seq<Event>, s: State, live: Live)
    requires Run(Initial(file), events, s) && s.authenticationCommitted && s.data.Some? && s.data.value.settings.token == ""
    requires s.running.None? && s.queue != [] && s.queue[0].job == Plain && MayStart(s, s.queue[0], live)
    requires live.snapshot.settings.password.Some?
    ensures var written := Begin(s, live).running;
      && written.Some?
      && (written.value.snapshot.settings.password == live.snapshot.settings.password <==> !LoggedOutSinceLoad(Initial(file), events))
  {
    hide LoggedOutSinceLoad, Run;
    InitialKept(file);
    RunKeepsCommitted(Initial(file), events, s);
    RunMarks(Initial(file), events, s);
  }

  // What the storage holds.

  predicate Revoking(s: State) { s.running.Some? && s.running.value.revoked }

  /** What the storage should hold: the data in memory, or what a failed save left there while a load was completing. */
  function Expected(s: State, stray: Option<PluginData>): Option<PluginData> { if stray.Some? then stray else s.data }

  ghost predicate Matching(s: State, stray: Option<PluginData>) {
    && (s.loaded && s.load.NoLoad? && !s.saveFailed && !Revoking(s) ==> s.stored == Expected(s, stray))
    && (s.load.Finishing? ==> !Revoking(s)) && (s.load.Finishing? && s.load.ok ==> s.stored == Expected(s, stray))
  }

  /** A save fails at once although it took effect, and the load whose save came before it has still to complete. */
  predicate Overtakes(s: State, e: Event) {
    e.Saved? && e.write == NotWritten(true) && s.running.Some? && s.load.Finishing?
  }

  /** The snapshot that such a save left behind, until the next save that succeeds. */
  function StrayAfter(s: State, e: Event, stray: Option<PluginData>): Option<PluginData> {
    if Overtakes(s, e) then Some(s.running.value.snapshot) else if e.Saved? && e.write.Written? then None else stray
  }

  ghost function Stray(s: State, events: seq<Event>, stray: Option<PluginData>): Option<PluginData>
    decreases events
  {
    if events == [] || Next(s, events[0]).None? then stray
    else Stray(Next(s, events[0]).value, events[1..], StrayAfter(s, events[0], stray))
  }

  lemma SaveKeepsMatching(s: State, write: Write, live: Live, stray: Option<PluginData>)
    requires Fresh(s) && Matching(s, stray) && Next(s, Saved(write, live)).Some?
    ensures Matching(EndSave(s, write, live), StrayAfter(s, Saved(write, live), stray))
  {
    if write.NotWritten? { RefusalKeepsMatching(s, write.took, stray); }
    else if CaughtUp(s) && !s.running.value.revoked && (s.running.value.task.job.Activate? ==> live.guarded) { CommitKeepsMatching(s, live); }
    hide CommitsSensitiveLogout, CommitsCredentials, Pending, Refused, Committed;
  }

  lemma RefusalKeepsMatching(s: State, took: bool, stray: Option<PluginData>)
    requires Fresh(s) && Matching(s, stray) && s.running.Some?
    ensures Matching(Refused(s, took), if took && s.load.Finishing? then Some(s.running.value.snapshot) else stray)
  {}

  lemma CommitKeepsMatching(s: State, live: Live)
    requires Fresh(s) && s.running.Some?
    ensures Matching(Committed(s, live), None)
  {
    hide CommitsSensitiveLogout, CommitsCredentials;
  }

  lemma StepKeepsMatching(s: State, e: Event, stray: Option<PluginData>)
    requires Fresh(s) && Matching(s, stray) && Next(s, e).Some?
    ensures Matching(Next(s, e).value, StrayAfter(s, e, stray))
  {
    hide Prepare, EndSave, MayStart, Begin, Read, FinishLoad, Fresh, Matching, StrayAfter;
    match e
    case Saved(write, live) => SaveKeepsMatching(s, write, live, stray);
    case Began(live) => BeginKeepsMatching(s, live, stray);
    case _ => LoadKeepsMatching(s, e, stray);
  }

  lemma BeginKeepsMatching(s: State, live: Live, stray: Option<PluginData>)
    requires Matching(s, stray) && s.running.None? && s.queue != []
    ensures Matching(Begin(s, live), StrayAfter(s, Began(live), stray))
  {
    hide Prepare, MayStart;
  }

  lemma LoadKeepsMatching(s: State, e: Event, stray: Option<PluginData>)
    requires Fresh(s) && Matching(s, stray) && Next(s, e).Some? && !e.Saved? && !e.Began?
    ensures Matching(Next(s, e).value, StrayAfter(s, e, stray))
  {
    hide LoggedOut, Consistent, CaughtUp;
  }

  lemma {:induction false} RunKeepsMatching(s: State, events: seq<Event>, last: State, stray: Option<PluginData>)
    requires Fresh(s) && Matching(s, stray) && Run(s, events, last)
    ensures Matching(last, Stray(s, events, stray))
    decreases events
  {
    hide Next, Fresh, Matching, StrayAfter;
    if events != [] {
      StepKeepsFresh(s, events[0]);
      StepKeepsMatching(s, events[0], stray);
      RunKeepsMatching(Next(s, events[0]).value, events[1..], last, StrayAfter(s, events[0], stray));
    }
  }

  predicate Idle(s: State) { s.loaded && s.running.None? && s.load.NoLoad? && !s.saveFailed }

  /** Over every run, when loaded, idle and not failed, the storage holds the data in memory, or exactly the snapshot
      that the last save left behind that failed at once, although it took effect, while a load was completing. */
  lemma IdleStorage(file: Option<PluginData>, events: seq<Event>, last: State)
    requires Run(Initial(file), events, last) && Idle(last)
    ensures last.stored == Expected(last, Stray(Initial(file), events, None))
    ensures last.data == last.stored <==> Stray(Initial(file), events, None) in [None, last.data]
  {
    InitialKept(file);
    RunKeepsMatching(Initial(file), events, last, None);
  }

  /** The port behaves like a storage that does its work asynchronously: what rejects at once has written nothing. */
  ghost predicate AsynchronousStorage(s: State, events: seq<Event>) {
    forall i :: 0 <= i < |events| ==> !Overtakes(After(s, events, i), events[i])
  }

  lemma {:induction false} NothingStray(s: State, events: seq<Event>)
    requires AsynchronousStorage(s, events)
    ensures Stray(s, events, None) == None
    decreases events
  {
    hide Next, Overtakes;
    if events != [] && Next(s, events[0]).Some? {
      var n, rest := Next(s, events[0]).value, events[1..];
      assert After(s, events, 0) == s;
      forall i | 0 <= i < |rest| ensures !Overtakes(After(n, rest, i), rest[i]) {
        assert After(s, events, i + 1) == After(n, rest, i) && events[i + 1] == rest[i];
      }
      NothingStray(n, rest);
    }
  }

  /** With such a storage the data in memory is what is stored, whenever loaded, idle and not failed. */
  lemma IdleDataIsStored(file: Option<PluginData>, events: seq<Event>, last: State)
    requires Run(Initial(file), events, last) && Idle(last) && AsynchronousStorage(Initial(file), events)
    ensures last.data == last.stored
  {
    IdleStorage(file, events, last);
    NothingStray(Initial(file), events);
  }

  // Runs in which these conditions fail.

  lemma {:induction false} RunSnoc(s: State, events: seq<Event>, last: State, e: Event, next: State)
    requires Run(s, events, last) && Next(last, e) == Some(next)
    ensures Run(s, events + [e], next)
    decreases events
  {
    hide Next;
    if events == [] {
      assert [] + [e] == [e] && [e][1..] == [];
      assert Run(next, [], next);
    } else {
      RunSnoc(Next(s, events[0]).value, events[1..], last, e, next);
      assert (events + [e])[1..] == events[1..] + [e];
    }
  }

  /** A first load of an empty storage; its first save writes the live snapshot. */
  lemma FirstLoad(live: Live) returns (events: seq<Event>, saved: State, last: State)
    ensures Run(Initial(None), events, saved) && Next(saved, LoadFinished) == Some(last) && Run(Initial(None), events + [LoadFinished], last)
    ensures saved == State([], None, Finishing(true), 1, true, false, false, 0, Some(live.snapshot), false, false, Some(live.snapshot))
    ensures last == saved.(load := NoLoad)
  {
    hide Run;
    var task := Task(Plain, 1, true);
    var s0 := Initial(None);
    var s1 := s0.(generation := 1, load := Waiting);
    var s2 := s1.(loaded := true, load := Saving, queue := [task]);
    var s3 := s2.(queue := [], running := Some(Running(task, live.snapshot, false)));
    saved := s3.(running := None, load := Finishing(true), data := Some(live.snapshot), stored := Some(live.snapshot));
    last := saved.(load := NoLoad);
    assert [task][1..] == [] && [] + [task] == [task];
    EmptyRun(s0);
    RunSnoc(s0, [], s0, LoadStarted, s1);
    RunSnoc(s0, [] + [LoadStarted], s1, WasRead(Success(None), false, true), s2);
    RunSnoc(s0, [] + [LoadStarted] + [WasRead(Success(None), false, true)], s2, Began(live), s3);
    events := [] + [LoadStarted] + [WasRead(Success(None), false, true)] + [Began(live)];
    RunSnoc(s0, events, s3, Saved(Written, live), saved);
    events := events + [Saved(Written, live)];
    RunSnoc(s0, events, saved, LoadFinished, last);
  }

  /** The first save of a load ends; a save queued behind it rejects at once although it took effect, and then the
      load completes and clears the failure. */
  lemma LoadMayHideFailure(first: PluginData, second: PluginData) returns (events: seq<Event>, last: State)
    requires first != second
    ensures Run(Initial(None), events, last) && Idle(last) && last.queue == []
    ensures last.data == Some(first) && last.stored == Some(second)
  {
    hide Run;
    var task, late := Task(Plain, 1, false), Live(second, false, true, true);
    var load, s0, _ := FirstLoad(Live(first, false, true, true));
    var s1 := s0.(queue := [task]);
    var s2 := s0.(running := Some(Running(task, second, false)));
    var s3 := s0.(stored := Some(second), saveFailed := true, failure := true, failureGeneration := 1);
    last := s3.(load := NoLoad, saveFailed := false, failure := false);
    assert [task][1..] == [] && [] + [task] == [task];
    RunSnoc(Initial(None), load, s0, Enqueued(Plain), s1);
    RunSnoc(Initial(None), load + [Enqueued(Plain)], s1, Began(late), s2);
    RunSnoc(Initial(None), load + [Enqueued(Plain)] + [Began(late)], s2, Saved(NotWritten(true), late), s3);
    events := load + [Enqueued(Plain)] + [Began(late)] + [Saved(NotWritten(true), late)];
    RunSnoc(Initial(None), events, s3, LoadFinished, last);
    events := events + [LoadFinished];
  }

  lemma EmptyRun(s: State)
    ensures Run(s, [], s)
  {}

  /** A save from its request to its successful end. */
  lemma OneSave(file: Option<PluginData>, events: seq<Event>, s: State, job: Job, live: Live) returns (more: seq<Event>, n: State)
    requires Run(Initial(file), events, s) && Idle(s) && s.queue == [] && !live.unloaded && live.guarded
    requires !job.Activate? && Prepare(s, job, live).Some?
    ensures Run(Initial(file), more, n) && events <= more && Idle(n) && n.queue == [] && n.generation == s.generation
    ensures n.data == Prepare(s, job, live)
    ensures n.authenticationCommitted == (s.authenticationCommitted || CommitsCredentials(job))
    ensures n.sensitiveLogoutCommitted == (s.sensitiveLogoutCommitted || CommitsSensitiveLogout(job))
  {
    hide Run, Prepare, CommitsCredentials, CommitsSensitiveLogout;
    var task := Task(job, s.generation, false);
    var s1 := s.(queue := [task]);
    var s2 := s.(running := Some(Running(task, Prepare(s, job, live).value, false)));
    assert [task][1..] == [] && [] + [task] == [task];
    assert Prepare(s1, job, live) == Prepare(s, job, live) by { SamePrepared(s, s1, job, live); }
    n := EndSave(s2, Written, live);
    RunSnoc(Initial(file), events, s, Enqueued(job), s1);
    RunSnoc(Initial(file), events + [Enqueued(job)], s1, Began(live), s2);
    RunSnoc(Initial(file), events + [Enqueued(job)] + [Began(live)], s2, Saved(Written, live), n);
    more := events + [Enqueued(job)] + [Began(live)] + [Saved(Written, live)];
  }

  lemma SamePrepared(s: State, n: State, job: Job, live: Live)
    requires n == s.(queue := n.queue)
    ensures Prepare(n, job, live) == Prepare(s, job, live)
  {}

  const GRANT := Authorization("client", "grant", None, None)

  /** Settings as the plugin keeps them in memory: a password, and whatever credentials. */
  const LIVE := Live(PluginData(Settings("", "", Some(OAuth), None, false, false, "", Some("secret"), ""), "", false), false, true, true)

  predicate Keeps(data: Option<PluginData>, token: string, password: Option<string>) {
    && data.Some? && Consistent(data.value.settings)
    && data.value.settings.token == token && data.value.settings.password == password
  }

  lemma LogoutWrites(s: State, preserve: bool)
    requires s.authenticationCommitted ==> exists password :: Keeps(s.data, "token", password)
    ensures var written := Prepare(s, Credentials(Logout(None, preserve)), LIVE);
      written.Some? && Keeps(written, "", if preserve then Some("secret") else None)
  {}

  lemma LoginWrites(s: State)
    requires s.authenticationCommitted && Keeps(s.data, "", None)
    ensures var written := Prepare(s, Credentials(Interactive("token", GRANT)), LIVE);
      written.Some? && Keeps(written, "token", written.value.settings.password)
  {
    var current, change := Overlay(s, LIVE.snapshot.settings).value, Interactive("token", GRANT);
    GrantIsValid();
    hide Blank, ValidAuthorization;
    UpdatesAreConsistent(current, change);
  }

  lemma GrantIsValid()
    ensures !Blank("token") && ValidAuthorization(GRANT)
  {
    assert !Whitespace("token"[0]) && !Whitespace("client"[0]);
  }

  lemma PlainWrites(s: State)
    requires s.authenticationCommitted && s.sensitiveLogoutCommitted && Keeps(s.data, "", Some("secret"))
    ensures Prepare(s, Plain, LIVE).Some? && Keeps(Prepare(s, Plain, LIVE), "", None)
  {}

  /** A sensitive logout, a login, a logout that is asked to preserve the password, and an ordinary save: the third
      snapshot keeps the password, the fourth drops it. */
  lemma PreservedPasswordIsLost() returns (before: seq<Event>, kept: State, events: seq<Event>, last: State)
    ensures Run(Initial(None), before, kept) && Keeps(kept.data, "", Some("secret"))
    ensures Run(Initial(None), events, last) && Idle(last) && before <= events && Keeps(last.data, "", None)
  {
    hide Run, Prepare, Keeps;
    var load, _, s := FirstLoad(LIVE);
    LogoutWrites(s, false);
    var e1, s1 := OneSave(None, load + [LoadFinished], s, Credentials(Logout(None, false)), LIVE);
    LoginWrites(s1);
    var e2, s2 := OneSave(None, e1, s1, Credentials(Interactive("token", GRANT)), LIVE);
    LogoutWrites(s2, true);
    before, kept := OneSave(None, e2, s2, Credentials(Logout(None, true)), LIVE);
    PlainWrites(kept);
    events, last := OneSave(None, before, kept, Plain, LIVE);
  }

  /** A stored token of blanks with a password: the load takes it for the mark of a sensitive logout, and its own
      first save writes the live password again. */
  lemma BlankTokenUnlocks() returns (stored: PluginData, events: seq<Event>, last: State)
    ensures LoggedOut(Some(stored)) && Consistent(stored.settings)
    ensures Run(Initial(Some(stored)), events, last) && last.data.Some? && last.running.Some?
    ensures last.data.value.settings.password.None? && last.running.value.snapshot.settings.password == Some("secret")
  {
    hide Run;
    stored := LIVE.snapshot.(settings := LIVE.snapshot.settings.(token := " ", authMethod := Some(Manual)));
    assert Whitespace(' ');
    var task, s0 := Task(Plain, 1, true), Initial(Some(stored));
    var s1 := StartLoad(s0);
    var s2 := Read(s1, Success(Some(stored)), false, true);
    last := Begin(s2, LIVE);
    assert s2.queue == [task];
    EmptyRun(s0);
    RunSnoc(s0, [], s0, LoadStarted, s1);
    RunSnoc(s0, [] + [LoadStarted], s1, WasRead(Success(Some(stored)), false, true), s2);
    events := [] + [LoadStarted] + [WasRead(Success(Some(stored)), false, true)];
    RunSnoc(s0, events, s2, Began(LIVE), last);
    events := events + [Began(LIVE)];
  }
}
