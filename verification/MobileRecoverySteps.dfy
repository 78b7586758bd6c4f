/** src/sync/mobile-recovery.ts as functions on its state: what each stretch of synchronous code does. The environment
    supplies what the ports read and the time on the clock. */
module MobileRecoverySteps {
  import opened Basics

  datatype Context = Context(
    generation: int, enabled: bool, manualAllowed: bool, mobile: bool, cooldownUntil: int, visible: bool,
    busy: bool, blocked: bool, nativeReads: nat, nativeWrites: nat)

  datatype Outcome = Successful | Deferred | Retryable | OutcomeBlocked

  datatype Reason = Visible | Online | PageShow | Resume | Freeze | Focus | FailureHint | Gap | ScheduleHint

  datatype Ticket = Ticket(epoch: nat, revision: nat)

  /** The attempt that awaits a port; a manual one keeps the request it answers. */
  datatype Attempt = Probing(ticket: Ticket) | Syncing(ticket: Ticket) | ManualRun(request: nat)

  datatype Timer = Timer(at: int, manual: bool)

  const PROBE_DELAY := 300000

  function RetryDelay(retries: nat): int { if retries == 0 then 5000 else if retries == 1 then 15000 else 60000 }

  /** The episode of hints that is being recovered from. */
  datatype Episode = Episode(
    pending: bool, waitingSignal: bool, slowProbe: bool, wakeDuringAttempt: bool, retries: nat, dueAt: int)

  datatype State = State(
    generation: int, enabled: bool, visible: bool, epoch: nat, revision: nat, episode: Episode,
    attempt: Option<Attempt>,            // `running`
    timer: Option<Timer>, heartbeat: bool, lastTick: int, disposed: bool,
    manual: Option<nat>, requests: nat, answered: seq<nat>)  // manual requests are numbered; their answers in order

  // The helpers.

  function CancelAutomatic(s: State): State {
    s.(epoch := s.epoch + 1, episode := Episode(false, false, false, false, 0, s.episode.dueAt), timer := None)
  }

  function Cancel(s: State): State {
    var c := CancelAutomatic(s);
    if s.manual.Some? then c.(manual := None, answered := s.answered + [s.manual.value]) else c
  }

  function Seen(s: State, x: Context): State {
    var hidden := if !x.visible && s.visible then s.(revision := s.revision + 1, timer := None) else s;
    hidden.(generation := x.generation, enabled := x.enabled, visible := x.visible,
            heartbeat := s.heartbeat && x.enabled && x.visible)
  }

  function Refresh(s: State, x: Context): State {
    Seen(if x.generation != s.generation || !x.manualAllowed then Cancel(s)
         else if !x.enabled && s.enabled then CancelAutomatic(s) else s, x)
  }

  function Max(a: int, b: int): int { if a < b then b else a }
  function Min(a: int, b: int): int { if a < b then a else b }

  /** Nothing outside keeps an automatic attempt from starting. */
  predicate Clear(x: Context) { !x.busy && !x.blocked && x.nativeReads + x.nativeWrites == 0 }

  predicate Eligible(s: State, x: Context) { s.episode.pending && !s.episode.waitingSignal && s.enabled && s.visible && Clear(x) }

  function Schedule(s: State, x: Context, now: int): State {
    if s.attempt.Some? || s.timer.Some? then s
    else if s.manual.Some? then
      if !x.busy && x.nativeWrites == 0 then s.(timer := Some(Timer(now + Max(0, x.cooldownUntil - now), true))) else s
    else if !Eligible(s, x) then s
    else s.(timer := Some(Timer(now + Max(0, Max(s.episode.dueAt, x.cooldownUntil) - now), false)))
  }

  predicate Current(s: State, t: Ticket, x: Context) {
    !s.disposed && x.enabled && x.generation == s.generation && t.epoch == s.epoch && t.revision == s.revision
  }

  predicate Wakes(reason: Reason) { reason == Visible || reason == Online || reason == Focus || reason == Gap || reason == Resume }

  /** A new episode; the next attempt is due half a second later. */
  function Open(s: State, now: int): State {
    s.(revision := s.revision + 1, episode := Episode(true, false, false, s.episode.wakeDuringAttempt, 0, now + 500))
  }

  // The public operations.

  predicate Ignored(s: State, reason: Reason, now: int) {
    s.disposed || !s.enabled || (reason == Focus && !s.episode.pending && now - s.lastTick < 30000)
  }

  function Request(s: State, reason: Reason, x: Context, now: int): State {
    var r := Refresh(s, x);
    if Ignored(r, reason, now) then r
    else if !r.episode.pending || r.episode.waitingSignal then Schedule(Open(r, now), x, now)
    else if r.episode.slowProbe && Wakes(reason) then Schedule(Wake(r, now), x, now)
    else Schedule(r, x, now)
  }

  /** A strong hint pulls a slow probe forward. */
  function Wake(s: State, now: int): State {
    s.(timer := None, episode := s.episode.(wakeDuringAttempt := s.episode.wakeDuringAttempt || s.attempt.Some?,
                                            dueAt := Min(s.episode.dueAt, now + 500)))
  }

  function Notify(s: State, x: Context, now: int): State {
    if s.disposed then s
    else
      var r := Refresh(s, x);
      var hinted := if !s.visible && r.visible && (x.mobile || now - r.lastTick >= 30000) then Request(r, Visible, x, now) else r;
      var scheduled := Schedule(hinted, x, now);
      if scheduled.enabled && scheduled.visible && !scheduled.heartbeat then scheduled.(lastTick := now, heartbeat := true) else scheduled
  }

  function Tick(s: State, x: Context, now: int): State {
    var t := s.(heartbeat := false);
    Notify(if now - s.lastTick >= 30000 || now - s.lastTick < 0 then Request(t, Gap, x, now) else t, x, now)
  }

  function RequestManual(s: State, x: Context, now: int): State {
    var r := Refresh(s, x);
    if r.disposed || !x.manualAllowed || r.manual.Some? then r
    else Schedule(r.(manual := Some(r.requests), requests := r.requests + 1, timer := None), x, now)
  }

  function BeginFull(s: State): Ticket { Ticket(s.epoch, s.revision) }

  function CompleteFull(s: State, t: Ticket, success: bool, x: Context): State {
    var r := Refresh(s, x);
    if success && Current(r, t, x) then r.(episode := r.episode.(pending := false, waitingSignal := false), timer := None) else r
  }

  function Dispose(s: State): State { Cancel(s.(disposed := true)).(heartbeat := false) }

  // The attempts.

  /** A full sync may follow a successful probe. */
  predicate Admitted(s: State, t: Ticket, x: Context, now: int) {
    Current(s, t, x) && s.manual.None? && x.manualAllowed && x.visible && Clear(x) && x.cooldownUntil <= now
  }

  /** What the outcome of an attempt means for the episode that it was started for. */
  function Judge(e: Episode, outcome: Outcome, now: int): Episode {
    match outcome
    case Successful => e.(pending := false, slowProbe := false)
    case Retryable =>
      if e.retries < 3 then e.(dueAt := now + RetryDelay(e.retries), retries := e.retries + 1)
      else e.(slowProbe := true, dueAt := now + if e.wakeDuringAttempt then 500 else PROBE_DELAY)
    case Deferred => e.(dueAt := now + 500)
    case OutcomeBlocked => e.(waitingSignal := true)
  }

  /** An attempt judges the episode only when nothing has superseded it. */
  function Settle(s: State, t: Ticket, outcome: Outcome, x: Context, now: int): State {
    var judged := if Current(s, t, x) && s.episode.pending then Judge(s.episode, outcome, now) else s.episode;
    s.(episode := judged.(wakeDuringAttempt := false))
  }

  /** The `finally` part of an automatic attempt. */
  function EndAttempt(s: State, t: Ticket, outcome: Outcome, x: Context, now: int): State {
    Schedule(Settle(Refresh(s.(attempt := None), x), t, outcome, x, now), x, now)
  }

  /** The full sync of an attempt starts, or the attempt ends deferred. */
  function Admit(s: State, t: Ticket, x: Context, now: int): State {
    if Admitted(s, t, x, now) then s.(attempt := Some(Syncing(t))) else EndAttempt(s, t, Deferred, x, now)
  }

  /** The automatic timer fires. */
  function StartAttempt(s: State, x: Context, now: int): State {
    var r := Refresh(s.(timer := None), x);
    if r.disposed || !r.enabled || !r.visible || !r.episode.pending || !Clear(x) then r
    else if x.cooldownUntil > now then Schedule(r, x, now)
    else Proceed(r, x, now)
  }

  /** A probe first while the episode is in its slow phase. */
  function Proceed(s: State, x: Context, now: int): State {
    if s.episode.slowProbe then s.(attempt := Some(Probing(BeginFull(s)))) else Admit(s, BeginFull(s), x, now)
  }

  /** A probe settles; None when it was rejected. */
  function EndProbe(s: State, outcome: Option<Outcome>, x: Context, now: int): State
    requires s.attempt.Some? && s.attempt.value.Probing?
  {
    var t := s.attempt.value.ticket;
    if outcome.None? then EndAttempt(s, t, OutcomeBlocked, x, now)
    else if s.episode.slowProbe && outcome.value != Successful then EndAttempt(s, t, outcome.value, x, now)
    else Admit(s, t, x, now)
  }

  /** The manual timer fires. */
  function StartManual(s: State, x: Context, now: int): State {
    var r := Refresh(s.(timer := None), x);
    if r.manual.None? || !x.manualAllowed || x.busy || x.nativeWrites > 0 || x.cooldownUntil > now then Schedule(r, x, now)
    else r.(attempt := Some(ManualRun(r.manual.value)))
  }

  function EndManual(s: State, request: nat, x: Context, now: int): State {
    var answered := if s.manual == Some(request) then s.(manual := None, answered := s.answered + [request]) else s;
    Schedule(Refresh(answered.(attempt := None), x), x, now)
  }

  function Fresh(x: Context, now: int): State {
    State(x.generation, x.enabled, x.visible, 0, 0, Episode(false, false, false, false, 0, 0), None, None, false, now, false, None, 0, [])
  }
}
