/** src/sync/mobile-recovery.ts: lifecycle hints coalesced into recovery attempts, as the object that the plugin
    keeps. Each method is one stretch of synchronous code. It keeps the invariant of MobileRecoverySafety, so what is
    proved there about runs holds of every sequence of calls. */
module MobileRecovery {
  import opened Basics
  import opened MobileRecoverySteps
  import opened MobileRecoverySafety

  class MobileSyncRecovery {
    var generation: int
    var enabled: bool
    var visible: bool
    var epoch: nat
    var revision: nat
    var episode: Episode
    var attempt: Option<Attempt>
    var timer: Option<Timer>
    var heartbeat: bool
    var lastTick: int
    var disposed: bool
    var manual: Option<nat>
    var requests: nat
    var answered: seq<nat>

    function View(): State
      reads this
    {
      State(generation, enabled, visible, epoch, revision, episode, attempt, timer, heartbeat, lastTick, disposed, manual,
            requests, answered)
    }

    /** A timer never runs beside an attempt or before the deadline, retries and slow probing keep their bounds,
        manual requests are answered once and in order, and disposal leaves nothing behind. */
    ghost predicate Valid()
      reads this
    {
      MobileRecoverySafety.Valid(View())
    }

    /** The step that a method has taken keeps the invariant. */
    lemma Keeps(before: State, e: Event, x: Context, now: int)
      requires MobileRecoverySafety.Valid(before) && Next(before, Step(e, x, now)) == Some(View())
      ensures Valid()
    {
      StepKeepsValid(before, Step(e, x, now));
    }

    /** The current episode, as far as tickets tell it. */
    ghost function Now(): Ticket
      reads this
    {
      Ticket(epoch, revision)
    }

    constructor (x: Context, now: int)
      ensures Valid() && View() == Notify(Fresh(x, now), x, now)
    {
      generation, enabled, visible := x.generation, x.enabled, x.visible;
      epoch, revision, episode, attempt := 0, 0, Episode(false, false, false, false, 0, 0), None;
      timer, heartbeat, lastTick, disposed := None, false, now, false;
      manual, requests, answered := None, 0, [];
      new;
      FreshIsValid(x, now);
      NotifyActivityChanged(x, now);
    }

    method DoCancelAutomatic()
      modifies this
      ensures View() == CancelAutomatic(old(View()))
    {
      epoch := epoch + 1;
      episode := Episode(false, false, false, false, 0, episode.dueAt);
      timer := None;
    }

    method DoCancel()
      modifies this
      ensures View() == Cancel(old(View()))
    {
      DoCancelAutomatic();
      if manual.Some? { answered, manual := answered + [manual.value], None; }
    }

    method DoRefresh(x: Context)
      modifies this
      ensures View() == Refresh(old(View()), x)
    {
      hide Cancel, CancelAutomatic;
      if x.generation != generation || !x.manualAllowed { DoCancel(); }
      else if !x.enabled && enabled { DoCancelAutomatic(); }
      See(x);
    }

    /** The rest of `refresh`: hiding the app invalidates the running attempt and stops the heartbeat. */
    method See(x: Context)
      modifies this
      ensures View() == Seen(old(View()), x)
    {
      if !x.visible && visible { revision, timer := revision + 1, None; }
      generation, enabled, visible := x.generation, x.enabled, x.visible;
      if !enabled || !visible { heartbeat := false; }
    }

    method DoSchedule(x: Context, now: int)
      modifies this`timer
      ensures View() == Schedule(old(View()), x, now)
    {
      if attempt.Some? || timer.Some? { return; }
      if manual.Some? {
        if !x.busy && x.nativeWrites == 0 { timer := Some(Timer(now + Max(0, x.cooldownUntil - now), true)); }
        return;
      }
      if !episode.pending || episode.waitingSignal || !enabled || !visible { return; }
      if x.busy || x.blocked || x.nativeReads + x.nativeWrites > 0 { return; }
      timer := Some(Timer(now + Max(0, Max(episode.dueAt, x.cooldownUntil) - now), false));
    }

    method OpenEpisode(now: int)
      modifies this
      ensures View() == Open(old(View()), now)
    {
      revision := revision + 1;
      episode := Episode(true, false, false, episode.wakeDuringAttempt, 0, now + 500);
    }

    /** `request`: a hint never touches a running attempt, never changes an open episode before slow probing, and
        never moves its deadline later; it is answered by an episode or it is ignored. */
    method Hint(reason: Reason, x: Context, now: int)
      requires Valid()
      modifies this
      ensures Valid() && View() == Request(old(View()), reason, x, now)
      ensures HintEnds(old(Refresh(View(), x)), View(), reason, x, now)
      ensures attempt == old(attempt) && disposed == old(disposed) && epoch >= old(epoch) && revision >= old(revision)
      ensures old(OpenFast(View())) && epoch == old(epoch) ==> episode == old(episode)
      ensures old(episode.pending && !episode.waitingSignal) && epoch == old(epoch) ==> episode.dueAt <= old(episode.dueAt)
      ensures Opens(old(View()), reason, x, now) ==> episode.pending && !episode.waitingSignal && revision > old(revision)
    {
      ghost var before := View();
      HandleHint(reason, x, now);
      Keeps(before, Hinted(reason), x, now);
      HintGuarantees(before, reason, x, now);
      hide HintEnds, Refresh, Request;
      HintIsExact(before, reason, x, now);
    }

    lemma HintGuarantees(s: State, reason: Reason, x: Context, now: int)
      requires MobileRecoverySafety.Valid(s)
      ensures var n := Request(s, reason, x, now);
        && n.attempt == s.attempt && n.disposed == s.disposed && NotBefore(s, n)
        && (OpenFast(s) && Uncancelled(s, n) ==> n.episode == s.episode)
        && (s.episode.pending && !s.episode.waitingSignal && Uncancelled(s, n) ==> n.episode.dueAt <= s.episode.dueAt)
        && (Opens(s, reason, x, now) ==> n.episode.pending && !n.episode.waitingSignal && n.revision > s.revision)
    {
      RequestKeepsValid(s, reason, x, now);
      RequestKeepsAttempt(s, reason, x, now);
      RequestAdvances(s, reason, x, now);
      hide Refresh, Schedule, Request, Opens, MobileRecoverySafety.Valid;
      if OpenFast(s) && Uncancelled(s, Request(s, reason, x, now)) { RequestKeepsDeadline(s, reason, x, now); }
      if s.episode.pending && !s.episode.waitingSignal && Uncancelled(s, Request(s, reason, x, now)) { WakeNeverDelays(s, reason, x, now); }
      if Opens(s, reason, x, now) { OpeningAdvances(s, reason, x, now); }
    }

    method HandleHint(reason: Reason, x: Context, now: int)
      modifies this
      ensures View() == Request(old(View()), reason, x, now)
    {
      hide Refresh, Schedule, Open;
      DoRefresh(x);
      if disposed || !enabled { return; }
      if reason == Focus && !episode.pending && now - lastTick < 30000 { return; }
      if !episode.pending || episode.waitingSignal {
        OpenEpisode(now);
      } else if episode.slowProbe && Wakes(reason) {
        episode := episode.(wakeDuringAttempt := episode.wakeDuringAttempt || attempt.Some?);
        timer := None;
        episode := episode.(dueAt := Min(episode.dueAt, now + 500));
      }
      DoSchedule(x, now);
    }

    /** No wake-up is lost: whatever can be recovered afterwards has a timer or a running attempt. */
    method NotifyActivityChanged(x: Context, now: int)
      requires Valid()
      modifies this
      ensures NotificationEnds(old(View()), View(), x, now)
      ensures Valid() && View() == Notify(old(View()), x, now) && epoch >= old(epoch) && revision >= old(revision)
      ensures !disposed && manual.None? && Eligible(View(), x) ==> timer.Some? || attempt.Some?
      ensures !disposed && manual.Some? && !x.busy && x.nativeWrites == 0 ==> timer.Some? || attempt.Some?
      ensures !disposed && enabled && visible ==> heartbeat
      ensures old(OpenFast(View())) && epoch == old(epoch) ==> episode == old(episode)
    {
      ghost var before := View();
      HandleActivity(x, now);
      Keeps(before, Notified, x, now);
      NotifyGuarantees(before, x, now);
      hide NotificationEnds, Notify;
      NotificationIsExact(before, x, now);
    }

    lemma NotifyGuarantees(s: State, x: Context, now: int)
      requires MobileRecoverySafety.Valid(s)
      ensures var n := Notify(s, x, now);
        && NotBefore(s, n)
        && (!n.disposed && n.manual.None? && Eligible(n, x) ==> n.timer.Some? || n.attempt.Some?)
        && (!n.disposed && n.manual.Some? && !x.busy && x.nativeWrites == 0 ==> n.timer.Some? || n.attempt.Some?)
        && (!n.disposed && n.enabled && n.visible ==> n.heartbeat)
        && (OpenFast(s) && Uncancelled(s, n) ==> n.episode == s.episode)
    {
      NotifyAdvances(s, x, now);
      if !s.disposed { NotifiedWorkIsScheduled(s, x, now); }
      if OpenFast(s) && Uncancelled(s, Notify(s, x, now)) { NotifyKeepsDeadline(s, x, now); }
      hide Refresh, Schedule, Request, MobileRecoverySafety.Valid;
    }

    method HandleActivity(x: Context, now: int)
      modifies this
      ensures View() == Notify(old(View()), x, now)
    {
      hide Refresh, Schedule, Request;
      if disposed { return; }
      var wasVisible := visible;
      DoRefresh(x);
      if !wasVisible && visible && (x.mobile || now - lastTick >= 30000) { HandleHint(Visible, x, now); }
      DoSchedule(x, now);
      if enabled && visible && !heartbeat {
        lastTick := now;
        heartbeat := true;
      }
    }

    /** `tick`: one that comes late, or before the last one, counts as a hint. */
    method Heartbeat(x: Context, now: int)
      requires Valid() && heartbeat
      modifies this
      ensures Valid() && View() == Tick(old(View()), x, now)
      ensures var t := old(View()).(heartbeat := false);
        View() == Notify(if old(lastTick) <= now < old(lastTick) + 30000 then t else Request(t, Gap, x, now), x, now)
      ensures !disposed && manual.None? && Eligible(View(), x) ==> timer.Some? || attempt.Some?
      ensures !disposed && enabled && visible ==> heartbeat
    {
      ghost var before := View();
      HandleTick(x, now);
      Keeps(before, Ticked, x, now);
      hide Tick, Notify, Request, Eligible;
      TickIsExact(before, x, now);
      TickGuarantees(before, x, now);
    }

    lemma TickGuarantees(s: State, x: Context, now: int)
      requires MobileRecoverySafety.Valid(s)
      ensures var n := Tick(s, x, now);
        && (!n.disposed && n.manual.None? && Eligible(n, x) ==> n.timer.Some? || n.attempt.Some?)
        && (!n.disposed && n.enabled && n.visible ==> n.heartbeat)
    {
      hide Notify, Request, Eligible;
      var t := s.(heartbeat := false);
      RequestKeepsValid(t, Gap, x, now);
      NotifyGuarantees(t, x, now);
      NotifyGuarantees(Request(t, Gap, x, now), x, now);
    }

    method HandleTick(x: Context, now: int)
      modifies this
      ensures View() == Tick(old(View()), x, now)
    {
      heartbeat := false;
      var elapsed := now - lastTick;
      hide Request, Notify;
      if elapsed >= 30000 || elapsed < 0 { HandleHint(Gap, x, now); }
      HandleActivity(x, now);
    }

    /** A manual request is taken when none is open, and an automatic timer gives way to it. */
    method ManualRequested(x: Context, now: int)
      requires Valid()
      modifies this
      ensures Valid() && View() == RequestManual(old(View()), x, now) && RequestEnds(old(Refresh(View(), x)), View(), x, now)
      ensures attempt == old(attempt) && (manual.Some? && timer.Some? ==> timer.value.manual)
      ensures requests == old(requests) || (requests == old(requests) + 1 && manual == Some(old(requests)))
    {
      ghost var before := View();
      AskManual(x, now);
      Keeps(before, ManualAsked, x, now);
      ManualGuarantees(before, x, now);
      hide RequestEnds, Refresh, RequestManual;
      RequestIsExact(before, x, now);
    }

    lemma ManualGuarantees(s: State, x: Context, now: int)
      ensures var n := RequestManual(s, x, now);
        n.attempt == s.attempt && (n.requests == s.requests || (n.requests == s.requests + 1 && n.manual == Some(s.requests)))
    {
      var r := Refresh(s, x);
      RefreshKeepsAttempt(s, x);
      hide Refresh, Schedule;
      ScheduleKeepsAttempt(r.(manual := Some(r.requests), requests := r.requests + 1, timer := None), x, now);
    }

    method AskManual(x: Context, now: int)
      modifies this
      ensures View() == RequestManual(old(View()), x, now)
    {
      hide Refresh, Schedule;
      DoRefresh(x);
      if disposed || !x.manualAllowed || manual.Some? { return; }
      manual := Some(requests);
      requests := requests + 1;
      timer := None;
      DoSchedule(x, now);
    }

    /** A successful full sync closes the episode exactly when it is still current; one that began before the episode
        clears nothing. */
    method FullCompleted(ticket: Ticket, success: bool, x: Context)
      requires Valid()
      modifies this
      ensures Valid() && View() == CompleteFull(old(View()), ticket, success, x)
      ensures success && old(StillCurrent(View(), ticket, x)) ==>
        timer.None? && episode == old(episode).(pending := false, waitingSignal := false)
      ensures (!success || !old(StillCurrent(View(), ticket, x))) && !Ahead(old(View()), ticket) ==> View() == Refresh(old(View()), x)
    {
      ghost var before := View();
      RefreshInterrupts(before, x);
      HandleFull(ticket, success, x);
      Keeps(before, FullEnded(ticket, success), x, 0);
      hide Refresh;
    }

    method HandleFull(ticket: Ticket, success: bool, x: Context)
      modifies this
      ensures View() == CompleteFull(old(View()), ticket, success, x)
    {
      hide Refresh;
      DoRefresh(x);
      if success && Current(View(), ticket, x) {
        episode := episode.(pending := false, waitingSignal := false);
        timer := None;
      }
    }

    /** Nothing is left running but the attempt, whose end will find nothing to do; an open manual request is
        answered. */
    method DoDispose(x: Context)
      requires Valid()
      modifies this
      ensures Valid() && View() == Dispose(old(View()))
      ensures disposed && timer.None? && !heartbeat && !episode.pending && manual.None? && |answered| == requests == old(requests)
    {
      ghost var before := View();
      disposed := true;
      DoCancel();
      heartbeat := false;
      Keeps(before, Disposed, x, 0);
    }

    method SettleEpisode(ticket: Ticket, outcome: Outcome, x: Context, now: int)
      modifies this`episode
      ensures View() == Settle(old(View()), ticket, outcome, x, now)
    {
      hide Judge, Current;
      var judged := episode;
      if Current(View(), ticket, x) && episode.pending { judged := Judge(episode, outcome, now); }
      episode := judged.(wakeDuringAttempt := false);
    }

    /** The end of the full sync of an attempt. While it is still current its outcome decides: a success closes the
        episode, a blocked one makes it wait for a signal, a deferred one comes again in half a second, a retryable one
        after 5, 15 and 60 seconds and then as a slow probe. One that has been superseded changes nothing. */
    method AttemptSettled(outcome: Outcome, x: Context, now: int)
      requires Valid() && attempt.Some? && attempt.value.Syncing?
      modifies this
      ensures Valid() && attempt.None? && View() == EndAttempt(old(View()), old(attempt.value.ticket), outcome, x, now)
      ensures old(StillCurrent(View(), attempt.value.ticket, x) && episode.pending) ==> Answers(old(episode), episode, outcome, now)
      ensures !old(StillCurrent(View(), attempt.value.ticket, x) && episode.pending) ==>
        episode == old(Refresh(View(), x).episode).(wakeDuringAttempt := false)
      ensures !disposed ==> Rearmed(View(), x, now)
    {
      ghost var before := View();
      var ticket := attempt.value.ticket;
      Finally(ticket, outcome, x, now);
      Keeps(before, AttemptEnds(outcome), x, now);
      EndGuarantees(before, ticket, outcome, x, now);
      hide EndAttempt, Answers, Rearmed, Refresh, StillCurrent;
      OutcomeDecides(before, ticket, outcome, x, now);
    }

    lemma EndGuarantees(s: State, ticket: Ticket, outcome: Outcome, x: Context, now: int)
      ensures EndAttempt(s, ticket, outcome, x, now).attempt.None? && EndAttempt(s, ticket, outcome, x, now).disposed == s.disposed
    {
      var r := Refresh(s.(attempt := None), x);
      RefreshKeepsAttempt(s.(attempt := None), x);
      hide Refresh, Schedule;
      ScheduleKeepsAttempt(Settle(r, ticket, outcome, x, now), x, now);
    }

    /** The `finally` block of `attempt`. */
    method Finally(ticket: Ticket, outcome: Outcome, x: Context, now: int)
      modifies this
      ensures View() == EndAttempt(old(View()), ticket, outcome, x, now)
    {
      hide Refresh, Schedule, Settle;
      attempt := None;
      DoRefresh(x);
      SettleEpisode(ticket, outcome, x, now);
      DoSchedule(x, now);
    }

    method AdmitFull(ticket: Ticket, x: Context, now: int)
      modifies this
      ensures View() == Admit(old(View()), ticket, x, now)
    {
      hide EndAttempt;
      if Admitted(View(), ticket, x, now) { attempt := Some(Syncing(ticket)); } else { Finally(ticket, Deferred, x, now); }
    }

    /** An attempt starts only for an open episode of a plugin in use, when nothing else is busy and no cooldown runs,
        and its ticket is that of the episode. */
    method AttemptFired(x: Context, now: int)
      requires Valid() && timer.Some? && !timer.value.manual && timer.value.at <= now
      modifies this
      ensures Valid() && AttemptBegins(old(Refresh(View().(timer := None), x)), View(), x, now)
      ensures attempt.Some? ==>
        && timer.None? && !disposed && enabled && visible && episode.pending && Clear(x) && x.cooldownUntil <= now
        && attempt == Some(if episode.slowProbe then Probing(Now()) else Syncing(Now()))
    {
      ghost var before := View();
      Fire(x, now);
      Keeps(before, AttemptStarts, x, now);
      StartGuarantees(before, x, now);
      hide AttemptBegins, Refresh, StartAttempt;
      StartIsExact(before, x, now);
    }

    lemma StartGuarantees(s: State, x: Context, now: int)
      requires MobileRecoverySafety.Valid(s) && s.timer.Some?
      ensures var n := StartAttempt(s, x, now);
        n.attempt.Some? ==>
          && !n.disposed && n.enabled && n.visible && n.episode.pending && Clear(x) && x.cooldownUntil <= now
          && n.attempt == Some(if n.episode.slowProbe then Probing(Ticket(n.epoch, n.revision)) else Syncing(Ticket(n.epoch, n.revision)))
    {
      var r := Refresh(s.(timer := None), x);
      RefreshKeepsAttempt(s.(timer := None), x);
      hide Refresh, Schedule, EndAttempt;
      ScheduleKeepsAttempt(r, x, now);
      EndGuarantees(r, BeginFull(r), Deferred, x, now);
    }

    method Fire(x: Context, now: int)
      modifies this
      ensures View() == StartAttempt(old(View()), x, now)
    {
      hide Refresh, Schedule, Proceed;
      timer := None;
      DoRefresh(x);
      if disposed || !enabled || !visible || !episode.pending || x.blocked || x.busy || x.nativeReads + x.nativeWrites > 0 { return; }
      if x.cooldownUntil > now {
        DoSchedule(x, now);
        return;
      }
      StartProceeding(x, now);
    }

    method StartProceeding(x: Context, now: int)
      modifies this
      ensures View() == Proceed(old(View()), x, now)
    {
      hide Admit;
      var ticket := Ticket(epoch, revision);
      if episode.slowProbe { attempt := Some(Probing(ticket)); } else { AdmitFull(ticket, x, now); }
    }

    /** A full sync follows a probe exactly when it still belongs to the current episode and nothing stands in its
        way; otherwise the attempt ends with what the probe has decided. */
    method ProbeSettled(outcome: Option<Outcome>, x: Context, now: int)
      requires Valid() && attempt.Some? && attempt.value.Probing?
      modifies this
      ensures Valid() && View() == EndProbe(old(View()), outcome, x, now)
      ensures attempt == if old(MaySync(View(), attempt.value.ticket, outcome, x, now)) then Some(Syncing(old(attempt.value.ticket))) else None
      ensures attempt.Some? ==> episode == old(episode) && timer.None?
      ensures attempt.None? && old(StillCurrent(View(), attempt.value.ticket, x) && episode.pending) ==>
        Answers(old(episode), episode, ProbeVerdict(old(episode), outcome), now)
      ensures attempt.None? && !old(StillCurrent(View(), attempt.value.ticket, x) && episode.pending) ==>
        episode == old(Refresh(View(), x).episode).(wakeDuringAttempt := false)
      ensures attempt.None? && !old(disposed) ==> Rearmed(View(), x, now)
    {
      ghost var before := View();
      EndProbing(outcome, x, now);
      Keeps(before, ProbeEnds(outcome), x, now);
      hide EndProbe, Answers, Rearmed, Refresh, StillCurrent, MaySync;
      ProbeDecides(before, outcome, x, now);
    }

    method EndProbing(outcome: Option<Outcome>, x: Context, now: int)
      requires attempt.Some? && attempt.value.Probing?
      modifies this
      ensures View() == EndProbe(old(View()), outcome, x, now)
    {
      hide Admit, EndAttempt;
      var ticket := attempt.value.ticket;
      if outcome.None? { Finally(ticket, OutcomeBlocked, x, now); }
      else if episode.slowProbe && outcome.value != Successful { Finally(ticket, outcome.value, x, now); }
      else { AdmitFull(ticket, x, now); }
    }

    /** The manual attempt that starts is for the open request. */
    method ManualFired(x: Context, now: int)
      requires Valid() && timer.Some? && timer.value.manual && timer.value.at <= now
      modifies this
      ensures Valid() && ManualBegins(old(Refresh(View().(timer := None), x)), View(), x, now)
      ensures attempt.Some? ==> manual.Some? && attempt == Some(ManualRun(manual.value)) && x.manualAllowed && !x.busy
    {
      ghost var before := View();
      FireManual(x, now);
      Keeps(before, ManualStarts, x, now);
      ManualStartGuarantees(before, x, now);
      hide ManualBegins, Refresh, StartManual;
      ManualIsExact(before, x, now);
    }

    lemma ManualStartGuarantees(s: State, x: Context, now: int)
      requires MobileRecoverySafety.Valid(s) && s.timer.Some?
      ensures var n := StartManual(s, x, now);
        n.attempt.Some? ==> n.manual.Some? && n.attempt == Some(ManualRun(n.manual.value)) && x.manualAllowed && !x.busy
    {
      var r := Refresh(s.(timer := None), x);
      RefreshKeepsAttempt(s.(timer := None), x);
      hide Refresh, Schedule;
      ScheduleKeepsAttempt(r, x, now);
    }

    method FireManual(x: Context, now: int)
      modifies this
      ensures View() == StartManual(old(View()), x, now)
    {
      hide Refresh, Schedule;
      timer := None;
      DoRefresh(x);
      if manual.None? || !x.manualAllowed || x.busy || x.nativeWrites > 0 || x.cooldownUntil > now {
        DoSchedule(x, now);
        return;
      }
      attempt := Some(ManualRun(manual.value));
    }

    /** A manual attempt answers the request it ran for, unless a cancellation already has. */
    method ManualSettled(x: Context, now: int)
      requires Valid() && attempt.Some? && attempt.value.ManualRun?
      modifies this
      ensures Valid() && View() == EndManual(old(View()), old(attempt.value.request), x, now)
      ensures attempt.None? && manual != Some(old(attempt.value.request))
    {
      ghost var before := View();
      var request := attempt.value.request;
      EndManualRun(request, x, now);
      Keeps(before, ManualEnds, x, now);
      ManualEndGuarantees(before, request, x, now);
    }

    lemma ManualEndGuarantees(s: State, request: nat, x: Context, now: int)
      ensures var n := EndManual(s, request, x, now); n.attempt.None? && n.manual != Some(request)
    {
      var ended := (if s.manual == Some(request) then s.(manual := None, answered := s.answered + [request]) else s).(attempt := None);
      RefreshKeepsAttempt(ended, x);
      hide Refresh, Schedule;
      ScheduleKeepsAttempt(Refresh(ended, x), x, now);
    }

    method EndManualRun(request: nat, x: Context, now: int)
      modifies this
      ensures View() == EndManual(old(View()), request, x, now)
    {
      hide Refresh, Schedule;
      if manual == Some(request) {
        answered := answered + [request];
        manual := None;
      }
      attempt := None;
      DoRefresh(x);
      DoSchedule(x, now);
    }
  }
}
