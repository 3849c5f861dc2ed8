/**
 What observers of the tracker see: the status stream agrees with the panes and never repeats itself, queued alerts
 are delivered in order and at a bounded rate, and superseded registrations have no effect.
 */
module ActivityObserver {
  import opened Util
  import opened AgentActivity
  import opened ActivityRuns
  import opened ActivityCompletion

  // ---------------------------------------------------------------------------------------------
  // The status stream
  // ---------------------------------------------------------------------------------------------

  /** The last announcement for pane `id` in a piece of the status stream. */
  function LastFor(stream: seq<Emission>, id: string): Option<Signature> {
    if stream == [] then None
    else if stream[|stream| - 1].paneId == id then Some(stream[|stream| - 1].signature)
    else LastFor(stream[..|stream| - 1], id)
  }

  /** What the last operation of a run added to the status stream. */
  function NewEmissions(before: State, after: State): seq<Emission> {
    if |before.emitted| <= |after.emitted| then after.emitted[|before.emitted|..] else []
  }

  /** The status an observer of the stream shows for the pane in its present lifetime; Idle until it hears one. */
  function Shown(s0: State, ops: seq<Op>, id: string): Status {
    if ops == [] then Idle
    else
      var before := Run(s0, ops[..|ops| - 1]);
      var after := Run(s0, ops);
      match LastFor(NewEmissions(before, after), id)
      case Some(signature) => if id in after.panes then signature.status else Idle
      case None => if id in before.panes && id in after.panes then Shown(s0, ops[..|ops| - 1], id) else Idle
  }

  /** The last announcement an observer heard for the pane since it was inserted or registered with a generation. */
  function LastHeard(s0: State, ops: seq<Op>, id: string): Option<Signature> {
    if ops == [] then None
    else
      var before, op := Run(s0, ops[..|ops| - 1]), ops[|ops| - 1];
      var after := Run(s0, ops);
      if id !in after.panes then None
      else if LastFor(NewEmissions(before, after), id).Some? then LastFor(NewEmissions(before, after), id)
      else if id !in before.panes || op == OpRegisterWithGeneration(id) then None
      else LastHeard(s0, ops[..|ops| - 1], id)
  }

  lemma {:induction false} LastForAppend(earlier: seq<Emission>, more: seq<Emission>)
    ensures (earlier + more)[|earlier|..] == more
  {
  }

  lemma LastForOne(id: string, other: string, signature: Signature)
    ensures LastFor([Emission(other, signature)], id) == if other == id then Some(signature) else None
  {
    assert [Emission(other, signature)][..0] == [];
  }

  /** What one operation adds to the stream, seen from pane `id`. */
  lemma HeardStep(s: State, op: Op, id: string)
    ensures Reaches(s, op, id) ==>
              var f := EffectOf(s, op, id);
              LastFor(NewEmissions(s, Step(s, op)), id)
              == if f.changed && f.pane.lastEmitted != Some(SignatureOf(f.pane)) then Some(SignatureOf(f.pane))
                  else None
    ensures !Reaches(s, op, id) && !Removes(s, op, id) ==> LastFor(NewEmissions(s, Step(s, op)), id) == None
  {
    if Named(op).Some? && Reaches(s, op, op.id) {
      hide Step, EffectOf;
      var f := EffectOf(s, op, op.id);
      StepReaches(s, op, op.id);
      LastForAppend(s.emitted, Announced(f, op.id));
      LastForOne(id, op.id, SignatureOf(f.pane));
    } else {
      QuietStep(s, op);
      LastForAppend(s.emitted, Step(s, op).emitted[|s.emitted|..]);
      if op.OpForget? && |Step(s, op).emitted| > |s.emitted| {
        LastForOne(id, op.id, Step(s, op).emitted[|s.emitted|].signature);
      }
    }
  }

  lemma QuietStep(s: State, op: Op)
    requires !(Named(op).Some? && Reaches(s, op, op.id))
    ensures |s.emitted| <= |Step(s, op).emitted|
    ensures !op.OpForget? ==> Step(s, op).emitted == s.emitted
    ensures op.OpForget? ==>
              var added := Step(s, op).emitted[|s.emitted|..];
              added == [] || (|added| == 1 && added[0].paneId == op.id)
  {
    hide Commit, OutputEffect, PushEffect, ShellFinishedEffect, HeartbeatEffect, AcknowledgeEffect, StartEffect,
        CancelEffect;
    if op.OpForget? && op.id in s.panes {
      CommitFacts(s, op.id, CancelEffect(s.panes[op.id], op.now, s.cfg), true);
    }
  }

  /** Neither a plugin status nor a launch of pane `id`; those change a status without announcing it. */
  predicate Observed(op: Op, id: string) {
    match op
    case OpPluginStatus(i, _) => i != id
    case OpStart(i, _, _) => i != id
    case _ => true
  }

  ghost predicate Agrees(e: Pane, shown: Status) {
    e.status == shown && (e.lastEmitted.Some? ==> e.lastEmitted.value.status == shown)
  }

  lemma AgreementStep(s: State, op: Op, id: string, shown: Status)
    requires Reaches(s, op, id) && Observed(op, id) && Agrees(Found(s, id), shown)
    ensures var heard := LastFor(NewEmissions(s, Step(s, op)), id);
            Agrees(Settled(EffectOf(s, op, id)), if heard.Some? then heard.value.status else shown)
  {
    hide Step, EffectOf, Reaches, Confirms;
    HeardStep(s, op, id);
    StatusIsAnnounced(s, op, id);
    ReachingGeneration(s, op, id);
  }

  /**
   Observer agreement: along any run that starts while the pane is absent, whatever was done to it before, without
   plugin statuses for the pane or launches of it, the status the stream last showed for it, Idle if none, is its
   status.
   */
  lemma {:induction false} ObserverAgreement(s0: State, ops: seq<Op>, id: string)
    requires id !in s0.panes && forall op :: op in ops ==> Observed(op, id)
    ensures var s := Run(s0, ops); id in s.panes ==> Agrees(s.panes[id], Shown(s0, ops, id))
    decreases |ops|
  {
    hide Reaches, Removes, EffectOf, Step, Agrees, Observed, LastFor, NewEmissions;
    if ops != [] {
      var init, op := ops[..|ops| - 1], ops[|ops| - 1];
      ObserverAgreement(s0, init, id);
      var s := Run(s0, init);
      assert Observed(op, id);
      if Removes(s, op, id) {
        StepRemoves(s, op, id);
      } else if Reaches(s, op, id) {
        StepReaches(s, op, id);
        FreshAgrees(id);
        AgreementStep(s, op, id, if id in s.panes then Shown(s0, init, id) else Idle);
      } else {
        StepPasses(s, op, id);
        HeardStep(s, op, id);
      }
    }
  }

  lemma FreshAgrees(id: string)
    ensures Agrees(FreshPane(id), Idle)
  {
  }

  lemma {:induction false} LastHeardIsLastEmitted(s0: State, ops: seq<Op>, id: string)
    requires id !in s0.panes
    ensures var s := Run(s0, ops); id in s.panes ==> s.panes[id].lastEmitted == LastHeard(s0, ops, id)
    decreases |ops|
  {
    hide Reaches, Removes, EffectOf, Step, LastFor, NewEmissions;
    if ops != [] {
      var init, op := ops[..|ops| - 1], ops[|ops| - 1];
      LastHeardIsLastEmitted(s0, init, id);
      var s := Run(s0, init);
      if Removes(s, op, id) {
        StepRemoves(s, op, id);
      } else if Reaches(s, op, id) {
        StepReaches(s, op, id);
        HeardStep(s, op, id);
        StatusIsAnnounced(s, op, id);
        ReachingGeneration(s, op, id);
      } else {
        StepPasses(s, op, id);
        HeardStep(s, op, id);
        PassingGeneration(s, op, id);
      }
    }
  }

  lemma ReachingGeneration(s: State, op: Op, id: string)
    requires Reaches(s, op, id)
    ensures Named(op) == Some(id)
    ensures op.OpRegisterWithGeneration? <==> op == OpRegisterWithGeneration(id)
    ensures op.OpRegisterWithGeneration? ==> !EffectOf(s, op, id).changed
  {
  }

  lemma PassingGeneration(s: State, op: Op, id: string)
    requires !Reaches(s, op, id)
    ensures op != OpRegisterWithGeneration(id)
  {
  }

  /** Forgetting a pane announces its cancellation, if that changes what was announced last, and then removes it. */
  lemma ForgetHeard(s: State, id: string, now: nat)
    requires id in s.panes
    ensures var f := CancelEffect(s.panes[id], now, s.cfg);
            && LastFor(NewEmissions(s, Step(s, OpForget(id, now))), id)
               == (if f.changed && f.pane.lastEmitted != Some(SignatureOf(f.pane)) then Some(SignatureOf(f.pane))
                   else None)
            && f.pane.lastEmitted == s.panes[id].lastEmitted
  {
    hide CancelEffect, Commit;
    var f := CancelEffect(s.panes[id], now, s.cfg);
    CancelFacts(s.panes[id], now, s.cfg);
    CommitFacts(s, id, f, true);
    LastForAppend(s.emitted, Announced(f, id));
    LastForOne(id, id, SignatureOf(f.pane));
  }

  /** Within one registration no announcement repeats the one before it, that of a pane being forgotten included. */
  lemma NoRepeatedAnnouncement(s0: State, ops: seq<Op>, op: Op, id: string)
    requires id !in s0.panes
    ensures var s := Run(s0, ops);
            var heard := LastFor(NewEmissions(s, Step(s, op)), id);
            heard.Some? ==> heard != LastHeard(s0, ops, id)
  {
    var s := Run(s0, ops);
    if id in s.panes {
      hide Reaches, EffectOf, Step, Run, LastFor, CancelEffect;
      LastHeardIsLastEmitted(s0, ops, id);
      if Reaches(s, op, id) {
        HeardStep(s, op, id);
        StatusIsAnnounced(s, op, id);
        ReachingGeneration(s, op, id);
      } else if op.OpForget? && op.id == id {
        ForgetHeard(s, id, op.now);
      } else {
        SilentOtherwise(s, op, id);
      }
    }
  }

  lemma SilentOtherwise(s: State, op: Op, id: string)
    requires !Reaches(s, op, id) && !(op.OpForget? && op.id == id)
    ensures LastFor(NewEmissions(s, Step(s, op)), id) == None
  {
    if Removes(s, op, id) {
      QuietStep(s, op);
      hide Step;
    } else {
      hide Step, EffectOf, Reaches, Removes;
      HeardStep(s, op, id);
    }
  }

  // ---------------------------------------------------------------------------------------------
  // Alerts
  // ---------------------------------------------------------------------------------------------

  lemma ConservationStep(s: State, op: Op)
    requires s.delivered + s.pending == s.queued
    ensures var t := Step(s, op); t.delivered + t.pending == t.queued && s.delivered <= t.delivered
  {
    hide OutputEffect, PushEffect, ShellFinishedEffect, HeartbeatEffect, AcknowledgeEffect, StartEffect, CancelEffect;
    if Named(op).Some? && Reaches(s, op, op.id) {
      DeliveredGrows(s, op);
      hide Step, EffectOf;
      StepReaches(s, op, op.id);
      var f := EffectOf(s, op, op.id);
      assert s.delivered + s.pending + f.alerts == s.queued + f.alerts;
    } else if op.OpForget? && op.id in s.panes {
      hide Commit;
      var f := CancelEffect(s.panes[op.id], op.now, s.cfg);
      CommitFacts(s, op.id, f, true);
      CommitDelivers(s, op.id, f, true);
      assert s.delivered + s.pending + f.alerts == s.queued + f.alerts;
    }
  }

  lemma CommitDelivers(s: State, id: string, f: Effect, deliverFirst: bool)
    ensures s.delivered <= Commit(s, id, f, deliverFirst).delivered
  {
  }

  lemma DeliveredGrows(s: State, op: Op)
    requires Named(op).Some? && Reaches(s, op, op.id)
    ensures s.delivered <= Step(s, op).delivered
  {
    hide Commit, OutputEffect, PushEffect, ShellFinishedEffect, HeartbeatEffect, AcknowledgeEffect, StartEffect,
        CancelEffect;
    var id := op.id;
    var f := EffectOf(s, op, id);
    match op {
      case OpRegister(_) =>
      case OpRegisterWithGeneration(_) =>
        var g := s.nextGeneration + 1;
        CommitDelivers(Register(s.(nextGeneration := g, generations := s.generations[id := g]), id), id, f, true);
      case OpHeartbeat(_, _, _, _, _) => CommitDelivers(Ensure(s, id), id, f, false);
      case OpAcknowledge(_) => CommitDelivers(s, id, f, false);
      case OpLifecycle(_, _, _, _) => CommitDelivers(Ensure(s, id), id, f, true);
      case OpStart(_, _, _) => CommitDelivers(Ensure(s, id), id, f, true);
      case _ => CommitDelivers(s, id, f, true);
    }
  }

  /** What was delivered, followed by what is pending, is always the log of queued alerts, in order. */
  lemma {:induction false} AlertsAreConserved(cfg: Config, ops: seq<Op>)
    ensures var s := Run(NewState(cfg), ops); s.delivered + s.pending == s.queued
    decreases |ops|
  {
    hide Step;
    if ops != [] {
      AlertsAreConserved(cfg, ops[..|ops| - 1]);
      ConservationStep(Run(NewState(cfg), ops[..|ops| - 1]), ops[|ops| - 1]);
    }
  }

  /** The times of the alerts of one kind for one pane in a piece of the queue log. */
  function TimesOf(alerts: seq<Alert>, id: string, kind: NotifyKind): seq<nat> {
    if alerts == [] then []
    else
      var earlier, a := TimesOf(alerts[..|alerts| - 1], id, kind), alerts[|alerts| - 1];
      if a.paneId == id && a.kind == kind then earlier + [a.at] else earlier
  }

  function NewAlerts(before: State, after: State): seq<Alert> {
    if |before.queued| <= |after.queued| then after.queued[|before.queued|..] else []
  }

  /** The times of the alerts of one kind queued for the pane's present entry. */
  function AlertTimes(s0: State, ops: seq<Op>, id: string, kind: NotifyKind): seq<nat> {
    if ops == [] then []
    else
      var before, after := Run(s0, ops[..|ops| - 1]), Run(s0, ops);
      var added := TimesOf(NewAlerts(before, after), id, kind);
      if id in before.panes then AlertTimes(s0, ops[..|ops| - 1], id, kind) + added else added
  }

  /** Each time exceeds the one before it by more than the cooldown. */
  ghost predicate Spaced(times: seq<nat>, cooldown: nat) {
    forall i :: 0 < i < |times| ==> times[i - 1] + cooldown < times[i]
  }

  ghost predicate Recorded(e: Pane, times: seq<nat>, kind: NotifyKind, cooldown: nat) {
    && Spaced(times, cooldown)
    && (times != [] ==> kind in e.lastNotified && e.lastNotified[kind] == times[|times| - 1])
  }

  /** The user's switches cover two kinds of alert; launches and cancellations cannot be switched off. */
  predicate SwitchedOn(cfg: Config, kind: NotifyKind) {
    (kind == NeedsAttention ==> cfg.needsAttention) && (kind == ErrorAlert ==> cfg.error)
  }

  /** What an effect may queue for a pane: nothing, or one alert past its cooldown, which it records. */
  ghost predicate QueuesAtMostOne(e: Pane, f: Effect, cfg: Config) {
    && f.pane.id == e.id
    && (f.alerts == [] ==> f.pane.lastNotified == e.lastNotified || !cfg.hasService)
    && (f.alerts != [] ==>
          && |f.alerts| == 1 && f.alerts[0].paneId == e.id && cfg.hasService
          && CooldownOver(e, f.alerts[0].kind, f.alerts[0].at, cfg)
          && SwitchedOn(cfg, f.alerts[0].kind)
          && f.pane.lastNotified == e.lastNotified[f.alerts[0].kind := f.alerts[0].at])
  }

  lemma NotifyQueues(e: Pane, kind: NotifyKind, now: nat, cfg: Config)
    ensures QueuesAtMostOne(e, Notify(e, kind, now, cfg), cfg)
    ensures !cfg.hasService ==> Notify(e, kind, now, cfg).alerts == []
  {
  }

  lemma ApplyQueues(e: Pane, st: TurnStatus, now: nat, cfg: Config)
    ensures QueuesAtMostOne(e, ApplyStatus(e, st, now, cfg), cfg)
    ensures ApplyStatus(e, st, now, cfg).alerts != [] ==> st != TurnWorking && st != TurnCompleted
    ensures ApplyStatus(e, st, now, cfg).alerts != [] && st == TurnWaiting ==>
            ApplyStatus(e, st, now, cfg).pane.status == WaitingForInput
  {
    hide Notify;
    if st == TurnWaiting {
      NotifyQueues(e.(status := WaitingForInput, waitingSince := Some(now)), NeedsAttention, now, cfg);
    } else if st == TurnError {
      NotifyQueues(e.(status := Error), ErrorAlert, now, cfg);
    }
  }

  predicate IsOver(authoritative: Option<TurnStatus>) {
    authoritative == Some(TurnError) || authoritative == Some(TurnCompleted)
  }

  /** The session log and the prompt in the tail do not both alert in one heartbeat. */
  lemma TurnQueues(e: Pane, history: Option<Snapshot>, tailWaiting: bool, now: nat, cfg: Config)
    ensures QueuesAtMostOne(e, TurnTick(e, history, tailWaiting, now, cfg), cfg)
  {
    hide ApplyStatus, Foreign, ActivityOf, Silence, CheckTail, CooldownOver;
    var authoritative := Authoritative(e, history);
    var p := PinForeign(e, history);
    assert p.lastNotified == e.lastNotified && p.id == e.id;
    hide Authoritative, PinForeign;
    var applied := ApplyAuthoritative(p, authoritative, now, cfg);
    if authoritative.Some? {
      ApplyStatusFrame(p, authoritative.value, now, cfg);
      ApplyQueues(p, authoritative.value, now, cfg);
    }
    SilenceFrame(applied.pane, authoritative, now, cfg);
    var silenced := Silence(applied.pane, authoritative, now, cfg);
    if applied.alerts != [] && authoritative == Some(TurnWaiting) {
      WaitingIsNotSilenced(applied.pane, authoritative, now, cfg);
    }
    TailQueues(silenced.pane, authoritative, tailWaiting, now, cfg);
    var checked := CheckTail(silenced.pane, authoritative, tailWaiting, now, cfg);
    SameCooldown(e, p, cfg);
    SameCooldown(applied.pane, silenced.pane, cfg);
    if applied.alerts == [] {
      if cfg.hasService { SameCooldown(e, applied.pane, cfg); }
      assert applied.alerts + checked.alerts == checked.alerts;
    } else {
      assert applied.alerts + checked.alerts == applied.alerts;
    }
  }

  lemma TailQueues(e: Pane, authoritative: Option<TurnStatus>, tailWaiting: bool, now: nat, cfg: Config)
    ensures var f := CheckTail(e, authoritative, tailWaiting, now, cfg);
            && QueuesAtMostOne(e, f, cfg)
            && (e.status == WaitingForInput || IsOver(authoritative) ==>
                  f.alerts == [] && f.pane.lastNotified == e.lastNotified)
            && (!cfg.hasService ==> f.alerts == [])
  {
    hide Notify, CooldownOver;
    var p := e.(status := WaitingForInput, waitingSince := Some(now));
    NotifyQueues(p, NeedsAttention, now, cfg);
    SameCooldown(e, p, cfg);
  }

  lemma WaitingIsNotSilenced(e: Pane, authoritative: Option<TurnStatus>, now: nat, cfg: Config)
    requires e.status == WaitingForInput
    ensures Silence(e, authoritative, now, cfg).pane == e
  {
  }

  lemma EffectQueues(s: State, op: Op, id: string)
    requires Reaches(s, op, id)
    ensures QueuesAtMostOne(Found(s, id), EffectOf(s, op, id), s.cfg)
  {
    hide QueuesAtMostOne, PushEffect, ShellFinishedEffect, HeartbeatEffect, StartEffect, CancelEffect;
    var e := Found(s, id);
    match op {
      case OpLifecycle(_, push, _, now) => PushQueues(e, push, now, s.cfg);
      case OpShellFinished(_, launches, exitCode, now, _) => ShellFinishedQueues(e, launches, exitCode, now, s.cfg);
      case OpHeartbeat(_, fg, history, tailWaiting, now) => HeartbeatQueues(e, fg, history, tailWaiting, now, s.cfg);
      case OpStart(_, key, now) => StartQueues(e, key, now, s.cfg);
      case OpCancel(_, now) => CancelQueues(e, now, s.cfg);
      case _ => SilentEffect(s, op, id);
    }
  }

  /** The remaining operations queue nothing. */
  lemma SilentEffect(s: State, op: Op, id: string)
    requires Reaches(s, op, id)
    requires !op.OpLifecycle? && !op.OpShellFinished? && !op.OpHeartbeat? && !op.OpStart? && !op.OpCancel?
    ensures QueuesAtMostOne(Found(s, id), EffectOf(s, op, id), s.cfg)
  {
  }

  lemma PushQueues(e: Pane, push: Push, now: nat, cfg: Config)
    ensures QueuesAtMostOne(e, PushEffect(e, push, now, cfg), cfg)
  {
    hide ApplyStatus, CooldownOver;
    ApplyQueues(Adopt(e, push), TurnOf(push.kind), now, cfg);
    SameCooldown(e, Adopt(e, push), cfg);
  }

  lemma ShellFinishedQueues(e: Pane, launches: set<string>, exitCode: int, now: nat, cfg: Config)
    ensures QueuesAtMostOne(e, ShellFinishedEffect(e, launches, exitCode, now, cfg), cfg)
  {
    hide Notify;
    NotifyQueues(e, ErrorAlert, now, cfg);
  }

  lemma StartQueues(e: Pane, key: string, now: nat, cfg: Config)
    ensures QueuesAtMostOne(e, StartEffect(e, key, now, cfg), cfg)
  {
    hide Notify, CooldownOver;
    var p := e.(agentKey := Some(key), startupPending := true, startupSince := Some(now), status := Idle,
                sessionId := None, workStarted := None, historyTimestamp := None, acknowledged := None);
    NotifyQueues(p, Started, now, cfg);
    SameCooldown(e, p, cfg);
  }

  lemma CancelQueues(e: Pane, now: nat, cfg: Config)
    ensures QueuesAtMostOne(e, CancelEffect(e, now, cfg), cfg)
  {
    hide Notify;
    NotifyQueues(e, CancelledAlert, now, cfg);
  }

  lemma SameCooldown(e: Pane, p: Pane, cfg: Config)
    requires p.lastNotified == e.lastNotified
    ensures forall kind, now :: CooldownOver(p, kind, now, cfg) == CooldownOver(e, kind, now, cfg)
  {
  }

  lemma PreparingQueuesNothing(e: Pane, fg: Option<string>, key: string, history: Option<Snapshot>)
    ensures var p := AbsorbHistory(DetectAgent(ConfirmLaunch(TrackForeground(e, fg).pane, key).pane, key).pane,
            history).pane;
            p.lastNotified == e.lastNotified && p.id == e.id
  {
  }

  lemma HeartbeatQueues(e: Pane, fg: Option<string>, history: Option<Snapshot>, tailWaiting: bool, now: nat,
      cfg: Config)
    ensures QueuesAtMostOne(e, HeartbeatEffect(e, fg, history, tailWaiting, now, cfg), cfg)
  {
    hide TurnTick, CooldownOver, IsKnownAgentKey;
    if !e.pluginConnected && AgentIn(fg).Some? {
      var key := AgentIn(fg).value;
      var p := AbsorbHistory(DetectAgent(ConfirmLaunch(TrackForeground(e, fg).pane, key).pane, key).pane, history).pane;
      PreparingQueuesNothing(e, fg, key, history);
      hide AbsorbHistory, DetectAgent, ConfirmLaunch, TrackForeground;
      TurnQueues(p, history, tailWaiting, now, cfg);
      SameCooldown(e, p, cfg);
    }
  }

  lemma RecordedStep(e: Pane, f: Effect, times: seq<nat>, kind: NotifyKind, cfg: Config)
    requires Recorded(e, times, kind, cfg.cooldown) && QueuesAtMostOne(e, f, cfg) && (!cfg.hasService ==> times == [])
    ensures Recorded(f.pane, times + TimesOf(f.alerts, e.id, kind), kind, cfg.cooldown)
    ensures !cfg.hasService ==> times + TimesOf(f.alerts, e.id, kind) == []
  {
    if f.alerts == [] {
      assert times + [] == times;
    } else {
      var a := f.alerts[0];
      TimesOfOne(f.alerts, e.id, kind);
      if a.kind == kind {
        assert times == [] || SatSub(a.at, times[|times| - 1]) > cfg.cooldown;
        SpacedSnoc(times, a.at, cfg.cooldown);
      } else {
        assert times + [] == times;
      }
    }
  }

  lemma TimesOfOne(alerts: seq<Alert>, id: string, kind: NotifyKind)
    requires |alerts| == 1 && alerts[0].paneId == id
    ensures TimesOf(alerts, id, kind) == if alerts[0].kind == kind then [alerts[0].at] else []
  {
    assert alerts[..0] == [];
  }

  lemma SpacedSnoc(times: seq<nat>, at: nat, cooldown: nat)
    requires Spaced(times, cooldown) && (times != [] ==> times[|times| - 1] + cooldown < at)
    ensures Spaced(times + [at], cooldown)
  {
  }

  lemma AppendedAlerts(s: State, t: State, alerts: seq<Alert>, other: string, id: string, kind: NotifyKind)
    requires t.queued == s.queued + alerts
    requires alerts != [] ==> |alerts| == 1 && alerts[0].paneId == other
    ensures NewAlerts(s, t) == alerts
    ensures id != other ==> TimesOf(NewAlerts(s, t), id, kind) == []
  {
    assert (s.queued + alerts)[|s.queued|..] == alerts;
    assert alerts != [] ==> alerts[..0] == [];
  }

  lemma OneAlertOf(e: Pane, f: Effect, cfg: Config)
    requires QueuesAtMostOne(e, f, cfg)
    ensures f.alerts != [] ==> |f.alerts| == 1 && f.alerts[0].paneId == e.id
  {
  }

  /** The alerts an operation queues for pane `id`. */
  lemma AlertsStep(s: State, op: Op, id: string, kind: NotifyKind)
    requires WellKeyed(s)
    ensures Reaches(s, op, id) ==> NewAlerts(s, Step(s, op)) == EffectOf(s, op, id).alerts
    ensures !Reaches(s, op, id) && !(op.OpForget? && op.id == id && id in s.panes) ==>
            TimesOf(NewAlerts(s, Step(s, op)), id, kind) == []
    ensures op.OpForget? && op.id == id && id in s.panes ==>
              NewAlerts(s, Step(s, op)) == CancelEffect(s.panes[id], op.now, s.cfg).alerts
  {
    hide Commit, NewAlerts, TimesOf, EffectOf, CancelEffect, QueuesAtMostOne;
    if Named(op).Some? && Reaches(s, op, op.id) {
      FoundIsKeyed(s, op.id);
      hide Step, Found;
      var f := EffectOf(s, op, op.id);
      EffectQueues(s, op, op.id);
      OneAlertOf(Found(s, op.id), f, s.cfg);
      StepReaches(s, op, op.id);
      AppendedAlerts(s, Step(s, op), f.alerts, op.id, id, kind);
    } else if op.OpForget? && op.id in s.panes {
      var f := CancelEffect(s.panes[op.id], op.now, s.cfg);
      CommitFacts(s, op.id, f, true);
      CancelQueues(s.panes[op.id], op.now, s.cfg);
      OneAlertOf(s.panes[op.id], f, s.cfg);
      AppendedAlerts(s, Step(s, op), f.alerts, op.id, id, kind);
    } else {
      assert Step(s, op).queued == s.queued + [] by { hide EffectOf; QuietQueue(s, op); }
      AppendedAlerts(s, Step(s, op), [], id, id, kind);
      NoTimes(id, kind);
    }
  }

  lemma NoTimes(id: string, kind: NotifyKind)
    ensures TimesOf([], id, kind) == []
  {
  }

  lemma QuietQueue(s: State, op: Op)
    requires !(Named(op).Some? && Reaches(s, op, op.id)) && !(op.OpForget? && op.id in s.panes)
    ensures Step(s, op).queued == s.queued
  {
    hide Commit, OutputEffect, PushEffect, ShellFinishedEffect, HeartbeatEffect, AcknowledgeEffect, StartEffect,
        CancelEffect;
  }

  lemma WellKeyedStep(s: State, op: Op)
    requires WellKeyed(s)
    ensures WellKeyed(Step(s, op))
  {
    hide EffectOf, Reaches;
    forall id | id in Step(s, op).panes ensures Step(s, op).panes[id].id == id {
      hide Step, Removes;
      if Removes(s, op, id) {
        StepRemoves(s, op, id);
      } else if Reaches(s, op, id) {
        StepReaches(s, op, id);
        StatusIsAnnounced(s, op, id);
      } else {
        StepPasses(s, op, id);
      }
    }
  }

  lemma {:induction false} RecordedAlongRun(cfg: Config, ops: seq<Op>, id: string, kind: NotifyKind)
    ensures var s := Run(NewState(cfg), ops);
            var times := AlertTimes(NewState(cfg), ops, id, kind);
            && WellKeyed(s) && s.cfg.cooldown == cfg.cooldown && s.cfg.hasService == cfg.hasService
            && Spaced(times, cfg.cooldown)
            && (id in s.panes ==> Recorded(s.panes[id], times, kind, cfg.cooldown) && (!cfg.hasService ==> times == []))
    decreases |ops|
  {
    hide Step, Reaches, Removes, EffectOf, Recorded, Spaced, WellKeyed, NewAlerts, TimesOf;
    if ops == [] {
      NothingRecorded(cfg, id, kind);
    } else {
      var s0, init, op := NewState(cfg), ops[..|ops| - 1], ops[|ops| - 1];
      var s := Run(s0, init);
      RecordedAlongRun(cfg, init, id, kind);
      WellKeyedStep(s, op);
      ConfigStep(s, op);
      NothingRecorded(cfg, id, kind);
      RecordedOp(s, op, id, kind, if id in s.panes then AlertTimes(s0, init, id, kind) else []);
      assert [] + TimesOf(NewAlerts(s, Step(s, op)), id, kind) == TimesOf(NewAlerts(s, Step(s, op)), id, kind);
    }
  }

  lemma NothingRecorded(cfg: Config, id: string, kind: NotifyKind)
    ensures WellKeyed(NewState(cfg)) && Recorded(FreshPane(id), [], kind, cfg.cooldown) && Spaced([], cfg.cooldown)
  {
  }

  lemma ConfigStep(s: State, op: Op)
    ensures Step(s, op).cfg.cooldown == s.cfg.cooldown && Step(s, op).cfg.hasService == s.cfg.hasService
  {
    hide Commit, OutputEffect, PushEffect, ShellFinishedEffect, HeartbeatEffect, AcknowledgeEffect, StartEffect,
        CancelEffect;
    if Named(op).Some? && Reaches(s, op, op.id) {
      hide Step;
      StepReaches(s, op, op.id);
    } else if op.OpForget? && op.id in s.panes {
      CommitFacts(s, op.id, CancelEffect(s.panes[op.id], op.now, s.cfg), true);
    }
  }

  lemma RecordedOp(s: State, op: Op, id: string, kind: NotifyKind, times: seq<nat>)
    requires WellKeyed(s) && Recorded(Found(s, id), times, kind, s.cfg.cooldown) && (!s.cfg.hasService ==> times == [])
    ensures RecordedAfter(s, op, id, kind, times)
  {
    hide Step, EffectOf, TimesOf, NewAlerts, CancelEffect, Recorded, WellKeyed, Reaches, Removes;
    if Reaches(s, op, id) {
      RecordedReach(s, op, id, kind, times);
    } else if op.OpForget? && op.id == id && id in s.panes {
      RecordedForget(s, op, id, kind, times);
    } else {
      AlertsStep(s, op, id, kind);
      assert times + [] == times;
      SpacedOfRecorded(Found(s, id), times, kind, s.cfg.cooldown);
      if Removes(s, op, id) { StepRemoves(s, op, id); } else { StepPasses(s, op, id); }
    }
  }

  ghost predicate RecordedAfter(s: State, op: Op, id: string, kind: NotifyKind, times: seq<nat>) {
    var t := Step(s, op);
    var now := times + TimesOf(NewAlerts(s, t), id, kind);
    && Spaced(now, s.cfg.cooldown)
    && (id in t.panes ==> Recorded(t.panes[id], now, kind, s.cfg.cooldown) && (!s.cfg.hasService ==> now == []))
  }

  lemma SpacedOfRecorded(e: Pane, times: seq<nat>, kind: NotifyKind, cooldown: nat)
    requires Recorded(e, times, kind, cooldown)
    ensures Spaced(times, cooldown)
  {
  }

  lemma RecordedReach(s: State, op: Op, id: string, kind: NotifyKind, times: seq<nat>)
    requires WellKeyed(s) && Recorded(Found(s, id), times, kind, s.cfg.cooldown) && (!s.cfg.hasService ==> times == [])
    requires Reaches(s, op, id)
    ensures RecordedAfter(s, op, id, kind, times)
  {
    FoundIsKeyed(s, id);
    hide Step, EffectOf, TimesOf, NewAlerts, Reaches, Found, WellKeyed, Recorded, Spaced, QueuesAtMostOne, Removes;
    var e, f := Found(s, id), EffectOf(s, op, id);
    AlertsStep(s, op, id, kind);
    StepReaches(s, op, id);
    EffectQueues(s, op, id);
    RecordedStep(e, f, times, kind, s.cfg);
    var now := times + TimesOf(f.alerts, id, kind);
    SettledKeepsRecord(f, now, kind, s.cfg.cooldown);
    SpacedOfRecorded(f.pane, now, kind, s.cfg.cooldown);
  }

  lemma FoundIsKeyed(s: State, id: string)
    requires WellKeyed(s)
    ensures Found(s, id).id == id
  {
  }

  lemma SettledKeepsRecord(f: Effect, times: seq<nat>, kind: NotifyKind, cooldown: nat)
    requires Recorded(f.pane, times, kind, cooldown)
    ensures Recorded(Settled(f), times, kind, cooldown)
  {
  }

  lemma RecordedForget(s: State, op: Op, id: string, kind: NotifyKind, times: seq<nat>)
    requires WellKeyed(s) && Recorded(Found(s, id), times, kind, s.cfg.cooldown) && (!s.cfg.hasService ==> times == [])
    requires op.OpForget? && op.id == id && id in s.panes
    ensures RecordedAfter(s, op, id, kind, times)
  {
    hide Step, TimesOf, NewAlerts, CancelEffect, Recorded, Spaced, QueuesAtMostOne;
    var f := CancelEffect(s.panes[id], op.now, s.cfg);
    AlertsStep(s, op, id, kind);
    StepRemoves(s, op, id);
    CancelQueues(s.panes[id], op.now, s.cfg);
    RecordedStep(s.panes[id], f, times, kind, s.cfg);
    SpacedOfRecorded(f.pane, times + TimesOf(f.alerts, id, kind), kind, s.cfg.cooldown);
  }

  lemma {:induction false} SpacedCount(times: seq<nat>, cooldown: nat)
    requires Spaced(times, cooldown) && times != []
    ensures times[0] + (|times| - 1) * (cooldown + 1) <= times[|times| - 1]
  {
    if |times| > 1 {
      var init := times[..|times| - 1];
      SpacedCount(init, cooldown);
      assert (|times| - 1) * (cooldown + 1) == (|init| - 1) * (cooldown + 1) + (cooldown + 1);
    }
  }

  /**
   Alert rate: the alerts of one kind queued for one pane entry number at most one more than the time from the first
   to the last of them divided by the cooldown plus one, whatever the clock does in between.
   */
  lemma AlertRate(cfg: Config, ops: seq<Op>, id: string, kind: NotifyKind)
    ensures var times := AlertTimes(NewState(cfg), ops, id, kind);
            times != [] ==>
              && times[0] <= times[|times| - 1]
              && |times| <= (times[|times| - 1] - times[0]) / (cfg.cooldown + 1) + 1
  {
    hide AlertTimes, Run;
    var times := AlertTimes(NewState(cfg), ops, id, kind);
    RecordedAlongRun(cfg, ops, id, kind);
    if times != [] {
      SpacedCount(times, cfg.cooldown);
      DivideBound(|times| - 1, cfg.cooldown + 1, times[|times| - 1] - times[0]);
    }
  }

  lemma MulMono(a: int, b: int, d: nat)
    ensures a <= b ==> a * d <= b * d
  {
  }

  lemma DivideBound(n: nat, d: nat, t: int)
    requires d > 0 && n * d <= t
    ensures n <= t / d
  {
    MulMono(t / d + 1, n, d);
    assert t < (t / d + 1) * d;
  }

  /** A change of the switches that leaves this kind off. */
  predicate LeavesOff(op: Op, kind: NotifyKind) {
    op.OpSetConfig? ==> (kind == NeedsAttention && !op.needsAttention) || (kind == ErrorAlert && !op.error)
  }

  ghost predicate NoneOf(alerts: seq<Alert>, kind: NotifyKind) {
    forall i :: 0 <= i < |alerts| ==> alerts[i].kind != kind
  }

  lemma MutedEffect(e: Pane, f: Effect, cfg: Config, kind: NotifyKind)
    requires QueuesAtMostOne(e, f, cfg) && !SwitchedOn(cfg, kind)
    ensures NoneOf(f.alerts, kind)
  {
  }

  lemma MutedStep(s: State, op: Op, kind: NotifyKind) returns (added: seq<Alert>)
    requires !SwitchedOn(s.cfg, kind) && LeavesOff(op, kind)
    ensures var t := Step(s, op); !SwitchedOn(t.cfg, kind) && t.queued == s.queued + added && NoneOf(added, kind)
  {
    hide QueuesAtMostOne, EffectOf, Commit, CancelEffect;
    if Named(op).Some? && Reaches(s, op, op.id) {
      EffectQueues(s, op, op.id);
      hide Step;
      StepReaches(s, op, op.id);
      added := EffectOf(s, op, op.id).alerts;
      MutedEffect(Found(s, op.id), EffectOf(s, op, op.id), s.cfg, kind);
    } else if op.OpForget? && op.id in s.panes {
      var f := CancelEffect(s.panes[op.id], op.now, s.cfg);
      CommitFacts(s, op.id, f, true);
      CancelQueues(s.panes[op.id], op.now, s.cfg);
      added := f.alerts;
      MutedEffect(s.panes[op.id], f, s.cfg, kind);
    } else {
      added := [];
      QuietQueue(s, op);
      assert s.queued + [] == s.queued;
      hide OutputEffect, PushEffect, ShellFinishedEffect, HeartbeatEffect, AcknowledgeEffect, StartEffect;
    }
  }

  /** While its switch is off, no alert of the kind is queued, whatever happens. */
  lemma {:induction false} SwitchedOffIsSilent(s: State, ops: seq<Op>, kind: NotifyKind)
    requires (kind == NeedsAttention && !s.cfg.needsAttention) || (kind == ErrorAlert && !s.cfg.error)
    requires forall op :: op in ops ==> LeavesOff(op, kind)
    ensures var t := Run(s, ops);
            && !SwitchedOn(t.cfg, kind)
            && s.queued <= t.queued && NoneOf(t.queued[|s.queued|..], kind)
    decreases |ops|
  {
    hide Step, LeavesOff;
    if ops != [] {
      var init, op := ops[..|ops| - 1], ops[|ops| - 1];
      SwitchedOffIsSilent(s, init, kind);
      assert LeavesOff(op, kind);
      var before := Run(s, init);
      var added := MutedStep(before, op, kind);
      assert (before.queued + added)[|s.queued|..] == before.queued[|s.queued|..] + added;
    }
  }

  // ---------------------------------------------------------------------------------------------
  // Generations and retirement
  // ---------------------------------------------------------------------------------------------

  /** Tokens handed out so far are at most `nextGeneration`. */
  ghost predicate TokensIssued(s: State) {
    forall id :: id in s.generations ==> s.generations[id] <= s.nextGeneration
  }

  /** How an operation changes the registration tokens. */
  lemma TokensStep(s: State, op: Op)
    ensures var t := Step(s, op);
            match op
            case OpRegisterWithGeneration(id) =>
              t.nextGeneration == s.nextGeneration + 1 && t.generations == s.generations[id := s.nextGeneration + 1]
            case OpRemove(id, g) =>
              t.nextGeneration == s.nextGeneration
              && t.generations == if GenerationIsCurrent(s, id, g) then s.generations - {id} else s.generations
            case _ => t.nextGeneration == s.nextGeneration && t.generations == s.generations
  {
    hide EmitStatus, OutputEffect, PushEffect, ShellFinishedEffect, HeartbeatEffect, AcknowledgeEffect, StartEffect,
        CancelEffect;
    forall u: State, id: string
      ensures EmitStatus(u, id).generations == u.generations && EmitStatus(u, id).nextGeneration == u.nextGeneration
    {
      EmitKeepsTokens(u, id);
    }
  }

  lemma EmitKeepsTokens(s: State, id: string)
    ensures EmitStatus(s, id).generations == s.generations && EmitStatus(s, id).nextGeneration == s.nextGeneration
  {
  }

  /** A token is fresh: larger than every token issued before it, and current for its pane. */
  lemma {:induction false} TokensAreFresh(cfg: Config, ops: seq<Op>, id: string)
    ensures var s := Run(NewState(cfg), ops);
            var t := RegisterWithGeneration(s, id);
            && TokensIssued(s)
            && t.nextGeneration > s.nextGeneration
            && GenerationIsCurrent(t, id, Some(t.nextGeneration))
            && (forall other :: other != id ==> !GenerationIsCurrent(t, other, Some(t.nextGeneration)))
    decreases |ops|
  {
    hide Step, RegisterWithGeneration;
    if ops != [] {
      TokensAreFresh(cfg, ops[..|ops| - 1], id);
      TokensStep(Run(NewState(cfg), ops[..|ops| - 1]), ops[|ops| - 1]);
    }
    var s := Run(NewState(cfg), ops);
    assert Step(s, OpRegisterWithGeneration(id)) == RegisterWithGeneration(s, id) by { StepOfRegister(s, id); }
    TokensStep(s, OpRegisterWithGeneration(id));
  }

  lemma StepOfRegister(s: State, id: string)
    ensures Step(s, OpRegisterWithGeneration(id)) == RegisterWithGeneration(s, id)
  {
  }

  /** A token that was issued and is not current for a pane never becomes current for it again. */
  lemma {:induction false} SupersededForever(s: State, ops: seq<Op>, id: string, g: nat)
    requires g <= s.nextGeneration && !GenerationIsCurrent(s, id, Some(g))
    ensures var t := Run(s, ops); g <= t.nextGeneration && !GenerationIsCurrent(t, id, Some(g))
    decreases |ops|
  {
    hide Step;
    if ops != [] {
      SupersededForever(s, ops[..|ops| - 1], id, g);
      TokensStep(Run(s, ops[..|ops| - 1]), ops[|ops| - 1]);
    }
  }

  /** The token an operation carries, if it carries one. */
  function TokenOf(op: Op): Option<nat> {
    match op
    case OpOutput(_, _, g) => g
    case OpLifecycle(_, _, g, _) => g
    case OpShellFinished(_, _, _, _, g) => g
    case OpRemove(_, g) => g
    case _ => None
  }

  /**
   Once its token is superseded or removed, a read loop changes nothing and emits nothing, whatever happens
   meanwhile.
   */
  lemma StaleTokenIsInert(s: State, ops: seq<Op>, op: Op, g: nat)
    requires TokenOf(op) == Some(g) && g <= s.nextGeneration && !GenerationIsCurrent(s, op.id, Some(g))
    ensures Step(Run(s, ops), op) == Run(s, ops)
  {
    SupersededForever(s, ops, op.id, g);
    hide Run;
  }

  /** Neither a registration nor a launch of pane `id`. */
  predicate DoesNotRevive(op: Op, id: string) {
    match op
    case OpRegister(i) => i != id
    case OpRegisterWithGeneration(i) => i != id
    case OpStart(i, _, _) => i != id
    case _ => true
  }

  lemma RetiredStep(s: State, op: Op, id: string)
    requires id in s.retired && id !in s.panes && DoesNotRevive(op, id)
    ensures id in Step(s, op).retired && id !in Step(s, op).panes
  {
    StaysRetired(s, op, id);
    hide Step;
    if Removes(s, op, id) {
      StepRemoves(s, op, id);
    } else {
      StepPasses(s, op, id);
    }
  }

  lemma StaysRetired(s: State, op: Op, id: string)
    requires id in s.retired && DoesNotRevive(op, id)
    ensures id in Step(s, op).retired
  {
    hide EmitStatus, OutputEffect, PushEffect, ShellFinishedEffect, HeartbeatEffect, AcknowledgeEffect, StartEffect,
        CancelEffect;
    forall u: State, i: string ensures EmitStatus(u, i).retired == u.retired { EmitKeepsRetired(u, i); }
  }

  lemma EmitKeepsRetired(s: State, id: string)
    ensures EmitStatus(s, id).retired == s.retired
  {
  }

  /** A removed pane stays absent through any run until it is registered or launched again. */
  lemma {:induction false} RemovedStaysAbsent(s: State, ops: seq<Op>, id: string, generation: Option<nat>)
    requires GenerationIsCurrent(s, id, generation)
    requires forall op :: op in ops ==> DoesNotRevive(op, id)
    ensures var t := Run(Remove(s, id, generation), ops); id in t.retired && id !in t.panes
    decreases |ops|
  {
    hide Step, DoesNotRevive;
    if ops != [] {
      var init, op := ops[..|ops| - 1], ops[|ops| - 1];
      RemovedStaysAbsent(s, init, id, generation);
      assert DoesNotRevive(op, id);
      RetiredStep(Run(Remove(s, id, generation), init), op, id);
    }
  }
}
