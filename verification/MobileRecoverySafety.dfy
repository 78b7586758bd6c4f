/** What mobile recovery guarantees over every order of hints, timers, attempt outcomes and manual requests. */
module MobileRecoverySafety {
  import opened Basics
  import opened MobileRecoverySteps

  datatype Event =
    | Hinted(reason: Reason) | Notified | Ticked | ManualAsked | FullEnded(ticket: Ticket, success: bool) | Disposed
    | AttemptStarts | ProbeEnds(outcome: Option<Outcome>) | AttemptEnds(result: Outcome) | ManualStarts | ManualEnds

  /** An event with what the ports read and the clock shows while it is handled. */
  datatype Step = Step(event: Event, x: Context, now: int)

  predicate Running(s: State) { s.attempt.Some? }

  function Next(s: State, e: Step): Option<State> {
    match e.event
    case Hinted(reason) => Some(Request(s, reason, e.x, e.now))
    case Notified => Some(Notify(s, e.x, e.now))
    case Ticked => if s.heartbeat then Some(Tick(s, e.x, e.now)) else None
    case ManualAsked => Some(RequestManual(s, e.x, e.now))
    case FullEnded(ticket, success) => Some(CompleteFull(s, ticket, success, e.x))
    case Disposed => Some(Dispose(s))
    case AttemptStarts =>
      if s.timer.Some? && !s.timer.value.manual && s.timer.value.at <= e.now then Some(StartAttempt(s, e.x, e.now)) else None
    case ProbeEnds(outcome) => if Running(s) && s.attempt.value.Probing? then Some(EndProbe(s, outcome, e.x, e.now)) else None
    case AttemptEnds(result) =>
      if Running(s) && s.attempt.value.Syncing? then Some(EndAttempt(s, s.attempt.value.ticket, result, e.x, e.now)) else None
    case ManualStarts =>
      if s.timer.Some? && s.timer.value.manual && s.timer.value.at <= e.now then Some(StartManual(s, e.x, e.now)) else None
    case ManualEnds =>
      if Running(s) && s.attempt.value.ManualRun? then Some(EndManual(s, s.attempt.value.request, e.x, e.now)) else None
  }

  ghost predicate Run(s: State, steps: seq<Step>, last: State)
    decreases steps
  {
    if steps == [] then last == s
    else Next(s, steps[0]).Some? && Run(Next(s, steps[0]).value, steps[1..], last)
  }

  // The invariant.

  predicate EpisodeValid(e: Episode) { e.retries <= 3 && (e.slowProbe ==> e.retries == 3) }

  /** A timer is armed for what is waiting, never beside a running attempt and never before the deadline. */
  predicate TimerValid(s: State) {
    s.timer.Some? ==>
      && !Running(s) && s.timer.value.manual == s.manual.Some?
      && (!s.timer.value.manual ==>
            s.episode.pending && !s.episode.waitingSignal && s.enabled && s.visible && s.timer.value.at >= s.episode.dueAt)
  }

  /** Every manual request but the open one has been answered exactly once, in order. */
  ghost predicate AnsweredValid(s: State) {
    && (s.manual.Some? ==> s.manual.value + 1 == s.requests)
    && |s.answered| == (if s.manual.Some? then s.manual.value else s.requests)
    && forall i :: 0 <= i < |s.answered| ==> s.answered[i] == i
  }

  predicate DisposedValid(s: State) {
    s.disposed ==> s.timer.None? && !s.heartbeat && !s.episode.pending && s.manual.None?
  }

  predicate Ahead(s: State, t: Ticket) { t.epoch > s.epoch || t.revision > s.revision }

  /** The ticket of a running attempt is none of the future. */
  predicate TicketValid(s: State) {
    s.attempt.Some? && !s.attempt.value.ManualRun? ==> !Ahead(s, s.attempt.value.ticket)
  }

  ghost predicate Valid(s: State) {
    EpisodeValid(s.episode) && TimerValid(s) && AnsweredValid(s) && DisposedValid(s) && TicketValid(s)
  }

  lemma SeenKeepsValid(s: State, x: Context)
    requires Valid(s) && (s.enabled && !x.enabled ==> s.timer.None? || s.timer.value.manual)
    ensures Valid(Seen(s, x))
  {}

  lemma CancelKeepsValid(s: State)
    requires Valid(s)
    ensures Valid(CancelAutomatic(s)) && Valid(Cancel(s)) && Cancel(s).timer.None? && CancelAutomatic(s).timer.None?
  {}

  /** Nothing but the schedule and the seen context differ. */
  lemma RefreshKeepsValid(s: State, x: Context)
    requires Valid(s)
    ensures Valid(Refresh(s, x)) && Refresh(s, x).enabled == x.enabled && Refresh(s, x).visible == x.visible
    ensures Refresh(s, x).disposed == s.disposed && (s.timer.None? ==> Refresh(s, x).timer.None?)
    ensures Refresh(s, x).attempt == s.attempt
  {
    hide Valid;
    CancelKeepsValid(s);
    if x.generation != s.generation || !x.manualAllowed { SeenKeepsValid(Cancel(s), x); }
    else if !x.enabled && s.enabled { SeenKeepsValid(CancelAutomatic(s), x); }
    else { SeenKeepsValid(s, x); }
  }

  lemma ScheduleKeepsValid(s: State, x: Context, now: int)
    requires Valid(s)
    ensures Valid(Schedule(s, x, now)) && Schedule(s, x, now).disposed == s.disposed
  {}

  lemma SettleKeepsValid(s: State, t: Ticket, outcome: Outcome, x: Context, now: int)
    requires Valid(s) && s.timer.None?
    ensures Valid(Settle(s, t, outcome, x, now))
  {}

  lemma EndAttemptKeepsValid(s: State, t: Ticket, outcome: Outcome, x: Context, now: int)
    requires Valid(s) && s.timer.None?
    ensures Valid(EndAttempt(s, t, outcome, x, now))
  {
    hide Refresh, Schedule, Settle;
    var ended := s.(attempt := None);
    RefreshKeepsValid(ended, x);
    SettleKeepsValid(Refresh(ended, x), t, outcome, x, now);
    ScheduleKeepsValid(Settle(Refresh(ended, x), t, outcome, x, now), x, now);
  }

  lemma OpenKeepsValid(s: State, now: int)
    requires Valid(s) && !s.disposed && (!s.episode.pending || s.episode.waitingSignal)
    ensures Valid(Open(s, now))
  {}

  lemma WakeKeepsValid(s: State, now: int)
    requires Valid(s) && !s.disposed
    ensures Valid(Wake(s, now))
  {}

  lemma RequestKeepsValid(s: State, reason: Reason, x: Context, now: int)
    requires Valid(s)
    ensures Valid(Request(s, reason, x, now)) && Request(s, reason, x, now).disposed == s.disposed
  {
    hide Refresh, Schedule, Valid;
    var r := Refresh(s, x);
    RefreshKeepsValid(s, x);
    ScheduleKeepsValid(r, x, now);
    if !Ignored(r, reason, now) {
      if !r.episode.pending || r.episode.waitingSignal { OpenKeepsValid(r, now); ScheduleKeepsValid(Open(r, now), x, now); }
      WakeKeepsValid(r, now);
      ScheduleKeepsValid(Wake(r, now), x, now);
    }
  }

  lemma NotifyKeepsValid(s: State, x: Context, now: int)
    requires Valid(s)
    ensures Valid(Notify(s, x, now))
  {
    hide Refresh, Schedule, Request;
    var r := Refresh(s, x);
    RefreshKeepsValid(s, x);
    RequestKeepsValid(r, Visible, x, now);
    ScheduleKeepsValid(r, x, now);
    ScheduleKeepsValid(Request(r, Visible, x, now), x, now);
  }

  lemma TickKeepsValid(s: State, x: Context, now: int)
    requires Valid(s)
    ensures Valid(Tick(s, x, now))
  {
    hide Request, Notify;
    var t := s.(heartbeat := false);
    RequestKeepsValid(t, Gap, x, now);
    NotifyKeepsValid(t, x, now);
    NotifyKeepsValid(Request(t, Gap, x, now), x, now);
  }

  lemma AskKeepsValid(s: State, x: Context, now: int)
    requires Valid(s)
    ensures Valid(RequestManual(s, x, now))
  {
    hide Refresh, Schedule;
    var r := Refresh(s, x);
    RefreshKeepsValid(s, x);
    if !r.disposed && r.manual.None? { ScheduleKeepsValid(r.(manual := Some(r.requests), requests := r.requests + 1, timer := None), x, now); }
  }

  lemma AdmitKeepsValid(s: State, t: Ticket, x: Context, now: int)
    requires Valid(s) && s.timer.None? && !Ahead(s, t)
    ensures Valid(Admit(s, t, x, now))
  {
    hide EndAttempt;
    EndAttemptKeepsValid(s, t, Deferred, x, now);
  }

  lemma StartKeepsValid(s: State, x: Context, now: int)
    requires Valid(s)
    ensures Valid(StartAttempt(s, x, now))
  {
    hide Refresh, Schedule, Admit;
    var r := Refresh(s.(timer := None), x);
    RefreshKeepsValid(s.(timer := None), x);
    ScheduleKeepsValid(r, x, now);
    AdmitKeepsValid(r, BeginFull(r), x, now);
  }

  lemma StartManualKeepsValid(s: State, x: Context, now: int)
    requires Valid(s)
    ensures Valid(StartManual(s, x, now))
  {
    hide Refresh, Schedule;
    RefreshKeepsValid(s.(timer := None), x);
    ScheduleKeepsValid(Refresh(s.(timer := None), x), x, now);
  }

  lemma EndManualKeepsValid(s: State, request: nat, x: Context, now: int)
    requires Valid(s) && s.timer.None?
    ensures Valid(EndManual(s, request, x, now))
  {
    hide Refresh, Schedule;
    var ended := (if s.manual == Some(request) then s.(manual := None, answered := s.answered + [request]) else s).(attempt := None);
    RefreshKeepsValid(ended, x);
    ScheduleKeepsValid(Refresh(ended, x), x, now);
  }

  lemma StepKeepsValid(s: State, e: Step)
    requires Valid(s) && Next(s, e).Some?
    ensures Valid(Next(s, e).value)
  {
    hide Refresh, Schedule, Request, Notify, Tick, RequestManual, EndAttempt, Admit, StartAttempt, StartManual, EndManual, Cancel, CompleteFull;
    match e.event
    case Hinted(reason) => RequestKeepsValid(s, reason, e.x, e.now);
    case Notified => NotifyKeepsValid(s, e.x, e.now);
    case Ticked => TickKeepsValid(s, e.x, e.now);
    case ManualAsked => AskKeepsValid(s, e.x, e.now);
    case FullEnded(ticket, success) => CompleteKeepsValid(s, ticket, success, e.x);
    case Disposed => DisposeKeepsValid(s);
    case AttemptStarts => StartKeepsValid(s, e.x, e.now);
    case ProbeEnds(outcome) =>
      var t := s.attempt.value.ticket;
      AdmitKeepsValid(s, t, e.x, e.now);
      EndAttemptKeepsValid(s, t, OutcomeBlocked, e.x, e.now);
      if outcome.Some? { EndAttemptKeepsValid(s, t, outcome.value, e.x, e.now); }
    case AttemptEnds(result) => EndAttemptKeepsValid(s, s.attempt.value.ticket, result, e.x, e.now);
    case ManualStarts => StartManualKeepsValid(s, e.x, e.now);
    case ManualEnds => EndManualKeepsValid(s, s.attempt.value.request, e.x, e.now);
  }

  lemma CompleteKeepsValid(s: State, t: Ticket, success: bool, x: Context)
    requires Valid(s)
    ensures Valid(CompleteFull(s, t, success, x))
  {
    hide Refresh;
    RefreshKeepsValid(s, x);
  }

  lemma DisposeKeepsValid(s: State)
    requires Valid(s)
    ensures Valid(Dispose(s))
  {}

  lemma FreshIsValid(x: Context, now: int)
    ensures Valid(Fresh(x, now))
  {}

  lemma InitialValid(x: Context, now: int)
    ensures Valid(Notify(Fresh(x, now), x, now))
  {
    NotifyKeepsValid(Fresh(x, now), x, now);
  }

  lemma {:induction false} RunKeepsValid(s: State, steps: seq<Step>, last: State)
    requires Valid(s) && Run(s, steps, last)
    ensures Valid(last)
    decreases steps
  {
    hide Next, Valid;
    if steps != [] {
      StepKeepsValid(s, steps[0]);
      RunKeepsValid(Next(s, steps[0]).value, steps[1..], last);
    }
  }

  /** Over every run from construction: no timer beside a running attempt or before the deadline, at most three
      retries and slow probing only after the third, every manual request answered exactly once, nothing left after
      disposal. */
  lemma EveryRunIsValid(x: Context, now: int, steps: seq<Step>, last: State)
    requires Run(Notify(Fresh(x, now), x, now), steps, last)
    ensures Running(last) ==> last.timer.None?
    ensures last.timer.Some? && !last.timer.value.manual ==> last.episode.pending && last.timer.value.at >= last.episode.dueAt
    ensures last.episode.retries <= 3 && (last.episode.slowProbe ==> last.episode.retries == 3)
    ensures |last.answered| + (if last.manual.Some? then 1 else 0) == last.requests
    ensures forall i :: 0 <= i < |last.answered| ==> last.answered[i] == i
    ensures last.disposed ==> last.timer.None? && !last.heartbeat && !last.episode.pending && last.manual.None?
  {
    InitialValid(x, now);
    RunKeepsValid(Notify(Fresh(x, now), x, now), steps, last);
  }

  // No lost wake-up.

  /** After an activity notification whatever can be recovered has a timer or a running attempt. */
  lemma NotifiedWorkIsScheduled(s: State, x: Context, now: int)
    requires !s.disposed
    ensures var n := Notify(s, x, now);
      && (n.manual.None? && Eligible(n, x) ==> n.timer.Some? || Running(n))
      && (n.manual.Some? && !x.busy && x.nativeWrites == 0 ==> n.timer.Some? || Running(n))
      && (n.enabled && n.visible ==> n.heartbeat)
  {
    hide Refresh, Request;
  }

  // Nothing but an attempt's own steps starts or ends it.

  lemma RefreshKeepsAttempt(s: State, x: Context)
    ensures var r := Refresh(s, x);
      r.attempt == s.attempt && r.disposed == s.disposed && r.requests == s.requests && (r.manual == s.manual || r.manual.None?)
  {
    SeenKeepsAttempt(s, x);
    SeenKeepsAttempt(CancelAutomatic(s), x);
    SeenKeepsAttempt(Cancel(s), x);
    hide Seen;
  }

  lemma SeenKeepsAttempt(s: State, x: Context)
    ensures var r := Seen(s, x); r.attempt == s.attempt && r.disposed == s.disposed && r.requests == s.requests && r.manual == s.manual
  {}

  lemma ScheduleKeepsAttempt(s: State, x: Context, now: int)
    ensures Schedule(s, x, now).attempt == s.attempt && Schedule(s, x, now) == s.(timer := Schedule(s, x, now).timer)
  {}

  lemma RequestKeepsAttempt(s: State, reason: Reason, x: Context, now: int)
    ensures Request(s, reason, x, now).attempt == s.attempt
  {
    hide Refresh, Schedule;
    var r := Refresh(s, x);
    RefreshKeepsAttempt(s, x);
    ScheduleKeepsAttempt(r, x, now);
    ScheduleKeepsAttempt(Open(r, now), x, now);
    ScheduleKeepsAttempt(Wake(r, now), x, now);
  }

  // Episodes, and the attempts and full syncs that belong to older ones.

  predicate NotBefore(s: State, t: State) { s.epoch <= t.epoch && s.revision <= t.revision }

  /** Nothing has cancelled the episode in between; hiding and showing the app only outdates tickets. */
  predicate Uncancelled(s: State, t: State) { s.epoch == t.epoch }

  lemma RefreshAdvances(s: State, x: Context)
    ensures NotBefore(s, Refresh(s, x))
    ensures Uncancelled(s, Refresh(s, x)) ==> Refresh(s, x).episode == s.episode
  {}

  lemma ScheduleAdvances(s: State, x: Context, now: int)
    ensures var n := Schedule(s, x, now); n.epoch == s.epoch && n.revision == s.revision && n.episode == s.episode
  {}

  lemma RequestAdvances(s: State, reason: Reason, x: Context, now: int)
    ensures NotBefore(s, Request(s, reason, x, now))
  {
    hide Refresh, Schedule;
    RefreshAdvances(s, x);
    var r := Refresh(s, x);
    ScheduleAdvances(r, x, now);
    ScheduleAdvances(Open(r, now), x, now);
    ScheduleAdvances(Wake(r, now), x, now);
  }

  lemma NotifyAdvances(s: State, x: Context, now: int)
    ensures NotBefore(s, Notify(s, x, now))
  {
    hide Refresh, Schedule, Request;
    RefreshAdvances(s, x);
    var r := Refresh(s, x);
    RequestAdvances(r, Visible, x, now);
    ScheduleAdvances(r, x, now);
    ScheduleAdvances(Request(r, Visible, x, now), x, now);
  }

  lemma EndAdvances(s: State, t: Ticket, outcome: Outcome, x: Context, now: int)
    ensures NotBefore(s, EndAttempt(s, t, outcome, x, now)) && NotBefore(s, Admit(s, t, x, now))
  {
    hide Refresh, Schedule;
    var r := Refresh(s.(attempt := None), x);
    RefreshAdvances(s.(attempt := None), x);
    ScheduleAdvances(Settle(r, t, outcome, x, now), x, now);
    ScheduleAdvances(Settle(r, t, Deferred, x, now), x, now);
  }

  lemma StepAdvances(s: State, e: Step)
    requires Next(s, e).Some?
    ensures NotBefore(s, Next(s, e).value)
  {
    hide Refresh, Schedule, Request, Notify, EndAttempt, Admit, Admitted;
    match e.event
    case Hinted(reason) => RequestAdvances(s, reason, e.x, e.now);
    case Notified => NotifyAdvances(s, e.x, e.now);
    case Ticked =>
      var t := s.(heartbeat := false);
      RequestAdvances(t, Gap, e.x, e.now);
      NotifyAdvances(t, e.x, e.now);
      NotifyAdvances(Request(t, Gap, e.x, e.now), e.x, e.now);
    case ManualAsked =>
      RefreshAdvances(s, e.x);
      var r := Refresh(s, e.x);
      ScheduleAdvances(r.(manual := Some(r.requests), requests := r.requests + 1, timer := None), e.x, e.now);
    case FullEnded(_, _) => RefreshAdvances(s, e.x);
    case Disposed =>
    case AttemptStarts =>
      var r := Refresh(s.(timer := None), e.x);
      RefreshAdvances(s.(timer := None), e.x);
      ScheduleAdvances(r, e.x, e.now);
      EndAdvances(r, BeginFull(r), Deferred, e.x, e.now);
    case ProbeEnds(outcome) =>
      EndAdvances(s, s.attempt.value.ticket, if outcome.Some? then outcome.value else OutcomeBlocked, e.x, e.now);
    case AttemptEnds(result) => EndAdvances(s, s.attempt.value.ticket, result, e.x, e.now);
    case ManualStarts =>
      RefreshAdvances(s.(timer := None), e.x);
      ScheduleAdvances(Refresh(s.(timer := None), e.x), e.x, e.now);
    case ManualEnds => EndManualAdvances(s, s.attempt.value.request, e.x, e.now);
  }

  lemma EndManualAdvances(s: State, request: nat, x: Context, now: int)
    ensures NotBefore(s, EndManual(s, request, x, now))
  {
    hide Refresh, Schedule;
    var ended := (if s.manual == Some(request) then s.(manual := None, answered := s.answered + [request]) else s).(attempt := None);
    RefreshAdvances(ended, x);
    ScheduleAdvances(Refresh(ended, x), x, now);
  }

  lemma {:induction false} RunAdvances(s: State, steps: seq<Step>, last: State)
    requires Run(s, steps, last)
    ensures NotBefore(s, last)
    decreases steps
  {
    hide Next;
    if steps != [] {
      StepAdvances(s, steps[0]);
      RunAdvances(Next(s, steps[0]).value, steps[1..], last);
    }
  }

  /** The hint opens a new episode. */
  predicate Opens(s: State, reason: Reason, x: Context, now: int) {
    var r := Refresh(s, x);
    !Ignored(r, reason, now) && (!r.episode.pending || r.episode.waitingSignal)
  }

  lemma OpeningAdvances(s: State, reason: Reason, x: Context, now: int)
    requires Opens(s, reason, x, now)
    ensures s.revision < Request(s, reason, x, now).revision
    ensures Request(s, reason, x, now).episode.pending && !Request(s, reason, x, now).episode.waitingSignal
  {
    hide Refresh, Schedule;
    RefreshAdvances(s, x);
    ScheduleAdvances(Open(Refresh(s, x), now), x, now);
  }

  /** An episode opened at any time after a full sync began is never cleared by that full sync, and an attempt that
      began before it changes nothing of it when it ends. */
  lemma NewerEpisodeSurvives(s: State, before: seq<Step>, u: State, reason: Reason, x: Context, now: int,
                             after: seq<Step>, last: State, y: Context, later: int, outcome: Outcome)
    requires Run(s, before, u) && Opens(u, reason, x, now) && Run(Request(u, reason, x, now), after, last)
    ensures CompleteFull(last, BeginFull(s), true, y) == Refresh(last, y)
    ensures var r := Refresh(last.(attempt := None), y);
      Settle(r, BeginFull(s), outcome, y, later).episode == r.episode.(wakeDuringAttempt := false)
  {
    hide Refresh, Request, Opens, Next;
    RunAdvances(s, before, u);
    OpeningAdvances(u, reason, x, now);
    RunAdvances(Request(u, reason, x, now), after, last);
    RefreshAdvances(last, y);
    RefreshAdvances(last.(attempt := None), y);
  }

  // What ends an episode.

  /** The connection is another one, or syncing is forbidden. */
  predicate Reconnects(s: State, x: Context) { x.generation != s.generation || !x.manualAllowed }

  /** ... or automatic recovery has just been disabled. */
  predicate Interrupts(s: State, x: Context) { Reconnects(s, x) || (s.enabled && !x.enabled) }

  /** Afterwards no open episode, no retries and no automatic timer are left of the one before, and a manual request
      has been answered when the connection has changed. */
  lemma RefreshInterrupts(s: State, x: Context)
    ensures var r := Refresh(s, x);
      && r.epoch == s.epoch + (if Interrupts(s, x) then 1 else 0)
      && r.revision == s.revision + (if s.visible && !x.visible then 1 else 0)
      && r.episode == (if Interrupts(s, x) then Episode(false, false, false, false, 0, s.episode.dueAt) else s.episode)
      && r.timer == (if Interrupts(s, x) || (s.visible && !x.visible) then None else s.timer)
      && r.manual == (if Reconnects(s, x) then None else s.manual)
      && r.answered == s.answered + (if Reconnects(s, x) && s.manual.Some? then [s.manual.value] else [])
      && r.generation == x.generation && r.enabled == x.enabled && r.visible == x.visible
      && r.attempt == s.attempt && r.disposed == s.disposed && r.lastTick == s.lastTick && r.requests == s.requests
      && r.heartbeat == (s.heartbeat && x.enabled && x.visible)
  {}

  /** What a step does to the episode and to the open manual request of a device whose connection it finds changed. */
  predicate Interrupted(s: State, n: State, x: Context, now: int) {
    && n.epoch > s.epoch && !n.episode.waitingSignal && !n.episode.slowProbe && n.episode.retries == 0
    && (n.episode.pending ==> n.revision > s.revision && n.episode.dueAt == now + 500)
    && (Reconnects(s, x) && s.manual.Some? ==> n.manual != s.manual && s.manual.value in n.answered)
    && s.revision <= n.revision && s.answered <= n.answered
  }

  lemma RequestInterrupts(s: State, reason: Reason, x: Context, now: int)
    requires Valid(s)
    ensures var n := Request(s, reason, x, now);
      && (if Interrupts(s, x) then Interrupted(s, n, x, now) else n.epoch == s.epoch)
      && (if Reconnects(s, x) then n.manual.None? else n.manual == s.manual && n.answered == s.answered)
      && n.generation == x.generation && n.enabled == x.enabled && n.visible == x.visible && n.disposed == s.disposed
  {
    var r := Refresh(s, x);
    RefreshInterrupts(s, x);
    hide Refresh, Schedule;
    ScheduleKeepsAttempt(r, x, now);
    ScheduleKeepsAttempt(Open(r, now), x, now);
    ScheduleKeepsAttempt(Wake(r, now), x, now);
  }

  lemma NotifyInterrupts(s: State, x: Context, now: int)
    requires Valid(s) && !s.disposed
    ensures var n := Notify(s, x, now);
      && (if Interrupts(s, x) then Interrupted(s, n, x, now) else n.epoch == s.epoch)
      && (if Reconnects(s, x) then n.manual.None? else n.manual == s.manual && n.answered == s.answered)
  {
    var r := Refresh(s, x);
    RefreshInterrupts(s, x);
    RefreshKeepsValid(s, x);
    RequestInterrupts(r, Visible, x, now);
    hide Refresh, Schedule, Request;
    ScheduleKeepsAttempt(r, x, now);
    ScheduleKeepsAttempt(Request(r, Visible, x, now), x, now);
  }

  /** A second look at the same context. */
  lemma NotifyAgain(s: State, x: Context, now: int)
    requires !s.disposed && !Interrupts(s, x) && s.visible == x.visible
    ensures var n := Notify(s, x, now);
      n.episode == s.episode && n.epoch == s.epoch && n.revision == s.revision && n.manual == s.manual && n.answered == s.answered
  {
    var r := Refresh(s, x);
    RefreshInterrupts(s, x);
    hide Refresh, Schedule, Request;
    ScheduleKeepsAttempt(r, x, now);
  }

  lemma TickInterrupts(s: State, x: Context, now: int)
    requires Valid(s) && !s.disposed
    ensures var n := Tick(s, x, now);
      && (if Interrupts(s, x) then Interrupted(s, n, x, now) else n.epoch == s.epoch)
      && (!Reconnects(s, x) ==> n.manual == s.manual)
  {
    hide Request, Notify;
    var t := s.(heartbeat := false);
    var q := Request(t, Gap, x, now);
    RequestKeepsValid(t, Gap, x, now);
    RequestInterrupts(t, Gap, x, now);
    NotifyInterrupts(t, x, now);
    NotifyInterrupts(q, x, now);
    if !Interrupts(q, x) { NotifyAgain(q, x, now); }
    if s.manual.Some? && Reconnects(s, x) && Interrupts(q, x) {
      assert s.manual.value in q.answered ==> s.manual.value in Notify(q, x, now).answered;
    }
  }

  lemma AskInterrupts(s: State, x: Context, now: int)
    requires Valid(s)
    ensures var n := RequestManual(s, x, now);
      && (if Interrupts(s, x) then Interrupted(s, n, x, now) else n.epoch == s.epoch)
      && (!Reconnects(s, x) && s.manual.Some? ==> n.manual == s.manual)
  {
    var r := Refresh(s, x);
    RefreshInterrupts(s, x);
    hide Refresh, Schedule;
    ScheduleKeepsAttempt(r.(manual := Some(r.requests), requests := r.requests + 1, timer := None), x, now);
  }

  lemma EndInterrupts(s: State, t: Ticket, outcome: Outcome, x: Context, now: int)
    requires Valid(s) && !Ahead(s, t)
    ensures var n := EndAttempt(s, t, outcome, x, now);
      && (if Interrupts(s, x) then Interrupted(s, n, x, now) else n.epoch == s.epoch)
      && (!Reconnects(s, x) ==> n.manual == s.manual)
  {
    var r := Refresh(s.(attempt := None), x);
    RefreshInterrupts(s.(attempt := None), x);
    hide Refresh, Schedule;
    ScheduleKeepsAttempt(Settle(r, t, outcome, x, now), x, now);
  }

  lemma StartInterrupts(s: State, x: Context, now: int)
    requires Valid(s)
    ensures var n := StartAttempt(s, x, now);
      && (if Interrupts(s, x) then Interrupted(s, n, x, now) else n.epoch == s.epoch)
      && (!Reconnects(s, x) ==> n.manual == s.manual)
  {
    var r := Refresh(s.(timer := None), x);
    RefreshInterrupts(s.(timer := None), x);
    RefreshKeepsValid(s.(timer := None), x);
    hide Refresh, Schedule, EndAttempt;
    ScheduleKeepsAttempt(r, x, now);
    EndInterrupts(r, BeginFull(r), Deferred, x, now);
  }

  lemma ManualEndInterrupts(s: State, request: nat, x: Context, now: int)
    requires Valid(s)
    ensures var n := EndManual(s, request, x, now);
      if Interrupts(s, x) then Interrupted(s, n, x, now) else n.epoch == s.epoch
  {
    var ended := (if s.manual == Some(request) then s.(manual := None, answered := s.answered + [request]) else s).(attempt := None);
    RefreshInterrupts(ended, x);
    hide Refresh, Schedule;
    ScheduleKeepsAttempt(Refresh(ended, x), x, now);
  }

  /** Whatever happens first after the connection has changed, or syncing was forbidden, or automatic recovery
      disabled, cancels the episode with its retries, and nothing else does but disposal. An open manual request is
      answered then, and is kept while only automatic recovery has been disabled. */
  lemma ContextChangesCancel(s: State, e: Step)
    requires Valid(s) && !s.disposed && !e.event.Disposed? && Next(s, e).Some?
    ensures var n := Next(s, e).value;
      && (n.epoch > s.epoch <==> Interrupts(s, e.x))
      && (Interrupts(s, e.x) ==> Interrupted(s, n, e.x, e.now))
      && (s.manual.Some? && !Reconnects(s, e.x) && !e.event.ManualEnds? ==> n.manual == s.manual)
  {
    hide Refresh, Schedule, Request, Notify, Tick, RequestManual, EndAttempt, StartAttempt, EndManual;
    hide EpisodeValid, TimerValid, AnsweredValid, DisposedValid;
    match e.event
    case Hinted(reason) => RequestInterrupts(s, reason, e.x, e.now);
    case Notified => NotifyInterrupts(s, e.x, e.now);
    case Ticked => TickInterrupts(s, e.x, e.now);
    case ManualAsked => AskInterrupts(s, e.x, e.now);
    case FullEnded(_, _) => RefreshInterrupts(s, e.x);
    case AttemptStarts => StartInterrupts(s, e.x, e.now);
    case ProbeEnds(outcome) =>
      EndInterrupts(s, s.attempt.value.ticket, if outcome.Some? then outcome.value else OutcomeBlocked, e.x, e.now);
      EndInterrupts(s, s.attempt.value.ticket, Deferred, e.x, e.now);
    case AttemptEnds(result) => EndInterrupts(s, s.attempt.value.ticket, result, e.x, e.now);
    case ManualStarts =>
      RefreshInterrupts(s.(timer := None), e.x);
      ScheduleKeepsAttempt(Refresh(s.(timer := None), e.x), e.x, e.now);
    case ManualEnds => ManualEndInterrupts(s, s.attempt.value.request, e.x, e.now);
  }

  // What a hint, a notification and a timer do, told from the state after the refresh that each begins with.

  /** The timer for what is waiting: a manual request as soon as the cooldown is over, an open episode not before its
      deadline; a timer that is armed stays, and nothing is armed beside an attempt. */
  function TimerFor(s: State, x: Context, now: int): Option<Timer> {
    if s.timer.Some? || s.attempt.Some? then s.timer
    else if s.manual.Some? then
      if x.busy || x.nativeWrites > 0 then None else Some(Timer(if x.cooldownUntil > now then x.cooldownUntil else now, true))
    else if !s.episode.pending || s.episode.waitingSignal || !s.enabled || !s.visible then None
    else if x.busy || x.blocked || x.nativeReads > 0 || x.nativeWrites > 0 then None
    else
      var due := if x.cooldownUntil > s.episode.dueAt then x.cooldownUntil else s.episode.dueAt;
      Some(Timer(if due > now then due else now, false))
  }

  lemma ScheduleIsExact(s: State, x: Context, now: int)
    ensures Schedule(s, x, now) == s.(timer := TimerFor(s, x, now))
  {}

  /** Hints that pull a slow probe forward. */
  predicate Strong(reason: Reason) {
    match reason
    case Visible => true case Online => true case Focus => true case Gap => true case Resume => true
    case PageShow => false case Freeze => false case FailureHint => false case ScheduleHint => false
  }

  /** The episode after a hint: a new one, or the old one with an earlier slow probe, or the old one as it was; a
      focus that comes within half a minute of the last tick opens none. */
  predicate HintEnds(r: State, n: State, reason: Reason, x: Context, now: int) {
    if r.disposed || !r.enabled || (reason == Focus && !r.episode.pending && now < r.lastTick + 30000) then n == r
    else if !r.episode.pending || r.episode.waitingSignal then
      && n.episode == Episode(true, false, false, r.episode.wakeDuringAttempt, 0, now + 500)
      && n == r.(episode := n.episode, revision := r.revision + 1, timer := TimerFor(n.(timer := r.timer), x, now))
    else if r.episode.slowProbe && Strong(reason) then
      && n.episode.dueAt == (if r.episode.dueAt < now + 500 then r.episode.dueAt else now + 500)
      && n.episode.wakeDuringAttempt == (r.episode.wakeDuringAttempt || r.attempt.Some?)
      && n.episode == r.episode.(dueAt := n.episode.dueAt, wakeDuringAttempt := n.episode.wakeDuringAttempt)
      && n == r.(episode := n.episode, timer := TimerFor(n.(timer := None), x, now))
    else n == r.(timer := TimerFor(r, x, now))
  }

  lemma HintIsExact(s: State, reason: Reason, x: Context, now: int)
    ensures HintEnds(Refresh(s, x), Request(s, reason, x, now), reason, x, now)
  {
    hide Refresh, Schedule, TimerFor;
    var r := Refresh(s, x);
    ScheduleIsExact(r, x, now);
    ScheduleIsExact(Open(r, now), x, now);
    ScheduleIsExact(Wake(r, now), x, now);
  }

  /** A notification is a hint when the app comes into view, on a mobile device or after half a minute without a tick;
      it arms what is waiting and starts the heartbeat of a visible plugin. */
  predicate NotificationEnds(s: State, n: State, x: Context, now: int) {
    if s.disposed then n == s
    else
      var r := Refresh(s, x);
      var h := if !s.visible && x.visible && (x.mobile || r.lastTick + 30000 <= now) then Request(r, Visible, x, now) else r;
      && n.heartbeat == (x.enabled && x.visible) && n.lastTick == (if x.enabled && x.visible && !r.heartbeat then now else r.lastTick)
      && n == h.(timer := TimerFor(h, x, now), heartbeat := n.heartbeat, lastTick := n.lastTick)
  }

  lemma NotificationIsExact(s: State, x: Context, now: int)
    ensures NotificationEnds(s, Notify(s, x, now), x, now)
  {
    var r := Refresh(s, x);
    RefreshInterrupts(s, x);
    RefreshInterrupts(r, x);
    HintIsExact(r, Visible, x, now);
    hide Refresh, Schedule, Request, TimerFor;
    ScheduleIsExact(r, x, now);
    ScheduleIsExact(Request(r, Visible, x, now), x, now);
  }

  /** A tick that comes half a minute late, or before the last one, is a hint; every tick is a notification. */
  lemma TickIsExact(s: State, x: Context, now: int)
    ensures var t := s.(heartbeat := false);
      Tick(s, x, now) ==
        Notify(if s.lastTick <= now < s.lastTick + 30000 then t else Request(t, Gap, x, now), x, now)
  {
    hide Request, Notify;
  }

  /** An automatic attempt starts exactly when its episode is open, nothing is busy and no cooldown runs, with a probe
      first in the slow phase; an open manual request defers it, a cooldown arms its timer again, and otherwise it is
      dropped. */
  predicate AttemptBegins(r: State, n: State, x: Context, now: int) {
    if r.disposed || !x.enabled || !x.visible || !r.episode.pending || x.busy || x.blocked || x.nativeReads > 0 || x.nativeWrites > 0
    then n == r
    else if x.cooldownUntil > now then n == r.(timer := TimerFor(r, x, now))
    else if r.episode.slowProbe then n == r.(attempt := Some(Probing(Ticket(r.epoch, r.revision))))
    else if r.manual.None? && x.manualAllowed then n == r.(attempt := Some(Syncing(Ticket(r.epoch, r.revision))))
    else n == EndAttempt(r, Ticket(r.epoch, r.revision), Deferred, x, now)
  }

  lemma StartIsExact(s: State, x: Context, now: int)
    ensures AttemptBegins(Refresh(s.(timer := None), x), StartAttempt(s, x, now), x, now)
  {
    var r := Refresh(s.(timer := None), x);
    RefreshInterrupts(s.(timer := None), x);
    hide Refresh, Schedule, EndAttempt, TimerFor;
    ScheduleIsExact(r, x, now);
  }

  /** A manual attempt starts exactly for an open request that may run now; otherwise what waits is armed again. */
  predicate ManualBegins(r: State, n: State, x: Context, now: int) {
    if r.manual.Some? && x.manualAllowed && !x.busy && x.nativeWrites == 0 && x.cooldownUntil <= now
    then n == r.(attempt := Some(ManualRun(r.manual.value))) else n == r.(timer := TimerFor(r, x, now))
  }

  lemma ManualIsExact(s: State, x: Context, now: int)
    ensures ManualBegins(Refresh(s.(timer := None), x), StartManual(s, x, now), x, now)
  {
    hide Refresh, Schedule, TimerFor;
    ScheduleIsExact(Refresh(s.(timer := None), x), x, now);
  }

  /** A manual request is taken exactly when syncing is allowed and none is open, and goes before any timer. */
  predicate RequestEnds(r: State, n: State, x: Context, now: int) {
    if r.disposed || !x.manualAllowed || r.manual.Some? then n == r
    else
      var taken := r.(manual := Some(r.requests), requests := r.requests + 1, timer := None);
      n == taken.(timer := TimerFor(taken, x, now))
  }

  lemma RequestIsExact(s: State, x: Context, now: int)
    ensures RequestEnds(Refresh(s, x), RequestManual(s, x, now), x, now)
  {
    hide Refresh, Schedule, TimerFor;
    var r := Refresh(s, x);
    ScheduleIsExact(r.(manual := Some(r.requests), requests := r.requests + 1, timer := None), x, now);
  }

  // What the outcome of an attempt does.

  /** Nothing has superseded the attempt when it ends. */
  predicate StillCurrent(s: State, t: Ticket, x: Context) {
    !s.disposed && t == Ticket(s.epoch, s.revision) && x.enabled && !Interrupts(s, x) && (s.visible ==> x.visible)
  }

  /** The deadline of a retry: after 5, 15 and 60 seconds, then a slow probe after five minutes, or after half a
      second when a strong hint came meanwhile. */
  predicate Retried(e: Episode, n: Episode, now: int) {
    match e.retries
    case 0 => n == e.(retries := 1, dueAt := now + 5000, wakeDuringAttempt := false)
    case 1 => n == e.(retries := 2, dueAt := now + 15000, wakeDuringAttempt := false)
    case 2 => n == e.(retries := 3, dueAt := now + 60000, wakeDuringAttempt := false)
    case _ => n == e.(slowProbe := true, dueAt := now + (if e.wakeDuringAttempt then 500 else 300000), wakeDuringAttempt := false)
  }

  /** An open episode after an attempt for it has ended. */
  predicate Answers(e: Episode, n: Episode, outcome: Outcome, now: int) {
    match outcome
    case Successful => !n.pending && !n.slowProbe && n.retries == e.retries
    case OutcomeBlocked => n == e.(waitingSignal := true, wakeDuringAttempt := false)
    case Deferred => n == e.(dueAt := now + 500, wakeDuringAttempt := false)
    case Retryable => Retried(e, n, now)
  }

  /** The next attempt is due at the deadline of the episode or when the cooldown is over; none is while the episode
      is closed or waits for a signal. */
  predicate Rearmed(n: State, x: Context, now: int) {
    && n.attempt.None?
    && (!n.episode.pending || n.episode.waitingSignal ==> n.timer.None? || n.timer.value.manual)
    && (n.episode.pending && !n.episode.waitingSignal && n.manual.None? && x.enabled && x.visible && Clear(x) ==>
          n.timer == Some(Timer(Max(now, Max(n.episode.dueAt, x.cooldownUntil)), false)))
  }

  /** The outcome of an attempt that is still current decides what becomes of its episode, and no other outcome
      decides anything. */
  lemma OutcomeDecides(s: State, t: Ticket, outcome: Outcome, x: Context, now: int)
    requires Valid(s) && s.timer.None?
    ensures var n := EndAttempt(s, t, outcome, x, now);
      && (StillCurrent(s, t, x) && s.episode.pending ==> Answers(s.episode, n.episode, outcome, now))
      && ((!StillCurrent(s, t, x) || !s.episode.pending) && !Ahead(s, t) ==>
            n.episode == Refresh(s, x).episode.(wakeDuringAttempt := false))
      && n.attempt.None? && (!s.disposed ==> Rearmed(n, x, now))
  {
    var r := Refresh(s.(attempt := None), x);
    RefreshInterrupts(s.(attempt := None), x);
    RefreshInterrupts(s, x);
    hide Refresh, Schedule;
    ScheduleKeepsAttempt(Settle(r, t, outcome, x, now), x, now);
    ScheduleArms(Settle(r, t, outcome, x, now), x, now);
  }

  /** How an attempt ends that starts no full sync after its probe: a rejected probe blocks the episode, a slow probe
      decides by its own outcome, and anything in the way of the full sync defers it. */
  function ProbeVerdict(e: Episode, outcome: Option<Outcome>): Outcome {
    match outcome
    case None => OutcomeBlocked
    case Some(Successful) => Deferred
    case Some(o) => if e.slowProbe then o else Deferred
  }

  /** A full sync follows a probe exactly when the probe succeeded or the episode has left its slow phase meanwhile,
      the ticket is still that of the episode, and nothing stands in the way. */
  predicate MaySync(s: State, t: Ticket, outcome: Option<Outcome>, x: Context, now: int) {
    && outcome.Some? && (outcome == Some(Successful) || !s.episode.slowProbe)
    && !s.disposed && x.enabled && x.generation == s.generation && t == Ticket(s.epoch, s.revision)
    && s.manual.None? && x.manualAllowed && x.visible && !x.busy && !x.blocked && x.nativeReads == 0 && x.nativeWrites == 0
    && x.cooldownUntil <= now
  }

  lemma ProbeGoesOn(s: State, outcome: Option<Outcome>, x: Context, now: int)
    requires s.attempt.Some? && s.attempt.value.Probing?
    ensures var t := s.attempt.value.ticket;
      EndProbe(s, outcome, x, now) ==
        if MaySync(s, t, outcome, x, now) then s.(attempt := Some(Syncing(t)))
        else EndAttempt(s, t, ProbeVerdict(s.episode, outcome), x, now)
  {
    hide EndAttempt;
  }

  lemma ProbeDecides(s: State, outcome: Option<Outcome>, x: Context, now: int)
    requires Valid(s) && s.attempt.Some? && s.attempt.value.Probing?
    ensures var n, t := EndProbe(s, outcome, x, now), s.attempt.value.ticket;
      if MaySync(s, t, outcome, x, now) then n == s.(attempt := Some(Syncing(t)))
      else
        && (StillCurrent(s, t, x) && s.episode.pending ==> Answers(s.episode, n.episode, ProbeVerdict(s.episode, outcome), now))
        && (!StillCurrent(s, t, x) || !s.episode.pending ==> n.episode == Refresh(s, x).episode.(wakeDuringAttempt := false))
        && n.attempt.None? && (!s.disposed ==> Rearmed(n, x, now))
  {
    hide EndProbe, MaySync, EndAttempt, Answers, Rearmed, Refresh, StillCurrent, ProbeVerdict;
    var t := s.attempt.value.ticket;
    ProbeGoesOn(s, outcome, x, now);
    OutcomeDecides(s, t, ProbeVerdict(s.episode, outcome), x, now);
  }

  lemma ScheduleArms(s: State, x: Context, now: int)
    requires s.attempt.None? && s.timer.None? && s.enabled == x.enabled && s.visible == x.visible
    ensures Rearmed(Schedule(s, x, now), x, now) && Schedule(s, x, now).manual == s.manual
  {}

  // Deadlines.

  predicate OpenFast(s: State) { s.episode.pending && !s.episode.waitingSignal && !s.episode.slowProbe }

  predicate Hintlike(e: Event) { e.Hinted? || e.Notified? || e.Ticked? || e.ManualAsked? }

  lemma RequestKeepsDeadline(s: State, reason: Reason, x: Context, now: int)
    requires OpenFast(s) && Uncancelled(s, Request(s, reason, x, now))
    ensures Request(s, reason, x, now).episode == s.episode
  {
    hide Refresh, Schedule;
    var r := Refresh(s, x);
    RefreshAdvances(s, x);
    ScheduleAdvances(r, x, now);
    ScheduleAdvances(Open(r, now), x, now);
    ScheduleAdvances(Wake(r, now), x, now);
  }

  lemma NotifyKeepsDeadline(s: State, x: Context, now: int)
    requires OpenFast(s) && Uncancelled(s, Notify(s, x, now))
    ensures Notify(s, x, now).episode == s.episode
  {
    hide Refresh, Schedule, Request;
    var r := Refresh(s, x);
    RefreshAdvances(s, x);
    RequestAdvances(r, Visible, x, now);
    ScheduleAdvances(r, x, now);
    ScheduleAdvances(Request(r, Visible, x, now), x, now);
    if Uncancelled(s, r) && Uncancelled(r, Request(r, Visible, x, now)) { RequestKeepsDeadline(r, Visible, x, now); }
  }

  lemma StepKeepsDeadline(s: State, e: Step)
    requires OpenFast(s) && Hintlike(e.event) && Next(s, e).Some? && Uncancelled(s, Next(s, e).value)
    ensures Next(s, e).value.episode == s.episode
  {
    hide Refresh, Schedule, Request, Notify;
    match e.event {
      case Hinted(reason) => RequestKeepsDeadline(s, reason, e.x, e.now);
      case Notified => NotifyKeepsDeadline(s, e.x, e.now);
      case Ticked => TickKeepsDeadline(s, e.x, e.now);
      case ManualAsked =>
        RefreshAdvances(s, e.x);
        var r := Refresh(s, e.x);
        ScheduleAdvances(r.(manual := Some(r.requests), requests := r.requests + 1, timer := None), e.x, e.now);
      case _ => assert false;
    }
  }

  lemma TickKeepsDeadline(s: State, x: Context, now: int)
    requires OpenFast(s) && Uncancelled(s, Tick(s, x, now))
    ensures Tick(s, x, now).episode == s.episode
  {
    hide Request, Notify;
    var t := s.(heartbeat := false);
    var q := Request(t, Gap, x, now);
    RequestAdvances(t, Gap, x, now);
    NotifyAdvances(t, x, now);
    NotifyAdvances(q, x, now);
    if Uncancelled(t, q) { RequestKeepsDeadline(t, Gap, x, now); }
    if Uncancelled(t, Notify(t, x, now)) { NotifyKeepsDeadline(t, x, now); }
    if Uncancelled(t, q) && Uncancelled(q, Notify(q, x, now)) { NotifyKeepsDeadline(q, x, now); }
  }

  /** However many hints, notifications, heartbeats and manual requests arrive, and however often the app is hidden
      and shown, an open episode keeps its deadline and its retries until it probes slowly or is cancelled. */
  lemma {:induction false} HintsKeepDeadline(s: State, steps: seq<Step>, last: State)
    requires OpenFast(s) && Run(s, steps, last) && Uncancelled(s, last)
    requires forall i :: 0 <= i < |steps| ==> Hintlike(steps[i].event)
    ensures last.episode == s.episode
    decreases steps
  {
    hide Next;
    if steps != [] {
      var next := Next(s, steps[0]).value;
      StepAdvances(s, steps[0]);
      RunAdvances(next, steps[1..], last);
      StepKeepsDeadline(s, steps[0]);
      HintsKeepDeadline(next, steps[1..], last);
    }
  }

  /** The context neither changes the connection nor forbids or disables recovery. */
  predicate Steady(s: State, x: Context) { x.generation == s.generation && x.manualAllowed && (s.enabled ==> x.enabled) }

  lemma RefreshSteady(s: State, x: Context)
    requires Steady(s, x)
    ensures var r := Refresh(s, x); Uncancelled(s, r) && r.generation == s.generation && r.enabled == x.enabled && Steady(r, x)
  {}

  lemma ScheduleSteady(s: State, x: Context, now: int)
    ensures var n := Schedule(s, x, now); Uncancelled(s, n) && n.generation == s.generation && n.enabled == s.enabled
  {}

  lemma RequestSteady(s: State, reason: Reason, x: Context, now: int)
    requires Steady(s, x)
    ensures var n := Request(s, reason, x, now);
      Uncancelled(s, n) && n.generation == s.generation && n.enabled == x.enabled && Steady(n, x)
  {
    hide Refresh, Schedule;
    var r := Refresh(s, x);
    RefreshSteady(s, x);
    ScheduleSteady(r, x, now);
    ScheduleSteady(Open(r, now), x, now);
    ScheduleSteady(Wake(r, now), x, now);
  }

  lemma NotifySteady(s: State, x: Context, now: int)
    requires Steady(s, x)
    ensures var n := Notify(s, x, now); Uncancelled(s, n) && n.generation == s.generation && (n.enabled ==> x.enabled || s.disposed)
  {
    hide Refresh, Schedule, Request;
    var r := Refresh(s, x);
    RefreshSteady(s, x);
    RequestSteady(r, Visible, x, now);
    ScheduleSteady(r, x, now);
    ScheduleSteady(Request(r, Visible, x, now), x, now);
  }

  lemma StepSteady(s: State, e: Step)
    requires Hintlike(e.event) && Next(s, e).Some? && Steady(s, e.x)
    ensures Uncancelled(s, Next(s, e).value) && Next(s, e).value.generation == s.generation
  {
    hide Refresh, Schedule, Request, Notify;
    match e.event {
      case Hinted(reason) => RequestSteady(s, reason, e.x, e.now);
      case Notified => NotifySteady(s, e.x, e.now);
      case Ticked =>
        var t := s.(heartbeat := false);
        RequestSteady(t, Gap, e.x, e.now);
        NotifySteady(t, e.x, e.now);
        NotifySteady(Request(t, Gap, e.x, e.now), e.x, e.now);
      case ManualAsked =>
        var r := Refresh(s, e.x);
        RefreshSteady(s, e.x);
        ScheduleSteady(r.(manual := Some(r.requests), requests := r.requests + 1, timer := None), e.x, e.now);
      case _ => assert false;
    }
  }

  lemma {:induction false} SteadyRunIsUncancelled(s: State, steps: seq<Step>, last: State)
    requires Run(s, steps, last)
    requires forall i :: 0 <= i < |steps| ==> Hintlike(steps[i].event) && SteadyContext(s.generation, steps[i].x)
    ensures Uncancelled(s, last)
    decreases steps
  {
    hide Next;
    if steps != [] {
      assert Steady(s, steps[0].x);
      StepSteady(s, steps[0]);
      SteadyRunIsUncancelled(Next(s, steps[0]).value, steps[1..], last);
    }
  }

  /** The connection is the same, and recovery is allowed and enabled. */
  predicate SteadyContext(generation: int, x: Context) { x.generation == generation && x.manualAllowed && x.enabled }

  /** The same told from the contexts alone: whatever the app is doing, shown or hidden, busy or blocked, an open
      episode keeps its deadline and its retries while the connection stays the same and recovery stays enabled. */
  lemma SteadyHintsKeepDeadline(s: State, steps: seq<Step>, last: State)
    requires OpenFast(s) && Run(s, steps, last)
    requires forall i :: 0 <= i < |steps| ==> Hintlike(steps[i].event) && SteadyContext(s.generation, steps[i].x)
    ensures last.episode == s.episode
  {
    SteadyRunIsUncancelled(s, steps, last);
    HintsKeepDeadline(s, steps, last);
  }

  /** A strong hint never pushes a slow probe back. */
  lemma WakeNeverDelays(s: State, reason: Reason, x: Context, now: int)
    requires s.episode.pending && !s.episode.waitingSignal && Uncancelled(s, Request(s, reason, x, now))
    ensures Request(s, reason, x, now).episode.dueAt <= s.episode.dueAt
  {
    hide Refresh, Schedule;
    var r := Refresh(s, x);
    RefreshAdvances(s, x);
    ScheduleAdvances(r, x, now);
    ScheduleAdvances(Open(r, now), x, now);
    ScheduleAdvances(Wake(r, now), x, now);
  }
}
