/**
 Which fields an operation may change on a pane, and the rule that a pane completes by losing its foreground agent
 only on evidence gathered since the agent was last claimed.
 */
module ActivityCompletion {
  import opened Util
  import opened AgentActivity
  import opened ActivityRuns

  // ---------------------------------------------------------------------------------------------
  // Frames of the effects
  // ---------------------------------------------------------------------------------------------

  /** The fields a turn status may change. */
  ghost predicate TurnFrame(e: Pane, p: Pane) {
    p == e.(status := p.status, workStarted := p.workStarted, waitingSince := p.waitingSince,
            lastNotified := p.lastNotified, demotedFromWorking := p.demotedFromWorking,
            acknowledged := p.acknowledged)
  }

  lemma ApplyStatusFrame(e: Pane, st: TurnStatus, now: nat, cfg: Config)
    ensures var f := ApplyStatus(e, st, now, cfg);
            && TurnFrame(e, f.pane) && f.pane.acknowledged == e.acknowledged
            && (f.changed || f.pane == e)
            && (f.pane.workStarted.Some? ==> e.workStarted.Some? || f.pane.status == Working)
            && (st == TurnWorking ==> f.pane.status == Working || f.pane.status == WaitingForInput)
            && (st != TurnWorking ==> f.pane.workStarted.Some? ==> e.workStarted.Some?)
  {
    hide Notify;
  }

  lemma SilenceFrame(e: Pane, authoritative: Option<TurnStatus>, now: nat, cfg: Config)
    ensures var f := Silence(e, authoritative, now, cfg);
            && TurnFrame(e, f.pane) && f.pane.acknowledged == e.acknowledged && f.pane.workStarted == e.workStarted
            && f.pane.lastNotified == e.lastNotified
            && (f.changed || f.pane == e)
            && (f.pane.status == e.status || f.pane.status == Idle)
            && (authoritative == Some(TurnWorking) ==> f.pane == e)
  {
  }

  lemma CheckTailFrame(e: Pane, authoritative: Option<TurnStatus>, tailWaiting: bool, now: nat, cfg: Config)
    ensures var f := CheckTail(e, authoritative, tailWaiting, now, cfg);
            && TurnFrame(e, f.pane) && f.pane.acknowledged == e.acknowledged
            && (f.changed || f.pane == e)
            && (f.pane.workStarted.Some? ==> e.workStarted.Some? || IsActive(f.pane.status))
            && (f.pane.status == e.status || f.pane.status == WaitingForInput || f.pane.status == Working)
  {
    hide Notify;
  }

  lemma TurnTickFrame(e: Pane, history: Option<Snapshot>, tailWaiting: bool, now: nat, cfg: Config)
    ensures var f := TurnTick(e, history, tailWaiting, now, cfg);
            && TurnFrame(e, f.pane)
            && (f.changed || f.pane.status == e.status)
            && (f.pane.workStarted.Some? ==> e.workStarted.Some? || IsActive(f.pane.status))
  {
    hide ApplyStatus, Silence, CheckTail;
    var authoritative := Authoritative(e, history);
    var p := PinForeign(e, history);
    if authoritative.Some? { ApplyStatusFrame(p, authoritative.value, now, cfg); }
    var applied := ApplyAuthoritative(p, authoritative, now, cfg);
    SilenceFrame(applied.pane, authoritative, now, cfg);
    CheckTailFrame(Silence(applied.pane, authoritative, now, cfg).pane, authoritative, tailWaiting, now, cfg);
  }

  lemma AgentTickFrame(e: Pane, key: string, history: Option<Snapshot>, tailWaiting: bool, now: nat, cfg: Config)
    ensures var f := AgentTick(e, key, history, tailWaiting, now, cfg);
            && f.pane.agentKey == Some(key)
            && f.pane.startupPending == (e.startupPending && e.agentKey != Some(key))
            && (f.pane.id, f.pane.generation, f.pane.rawFg, f.pane.lastOutput, f.pane.pluginConnected,
               f.pane.lastEmitted)
            == (e.id, e.generation, e.rawFg, e.lastOutput, e.pluginConnected, e.lastEmitted)
            && (f.changed || f.pane.status == e.status)
            && (f.pane.workStarted.Some? ==>
               (e.agentKey == Some(key) && e.workStarted.Some?) || IsActive(f.pane.status))
  {
    hide TurnTick;
    var absorbed := AbsorbHistory(DetectAgent(ConfirmLaunch(e, key).pane, key).pane, history);
    TurnTickFrame(absorbed.pane, history, tailWaiting, now, cfg);
  }

  // ---------------------------------------------------------------------------------------------
  // Completion needs evidence
  // ---------------------------------------------------------------------------------------------

  /** A heartbeat that sees another agent than the recorded one. */
  predicate Detects(s: State, op: Op, id: string) {
    op.OpHeartbeat? && Reaches(s, op, id) && !Found(s, id).pluginConnected
    && AgentIn(op.fg).Some? && Found(s, id).agentKey != AgentIn(op.fg)
  }

  /** An explicit launch that starts a new run. */
  predicate Launches(s: State, op: Op, id: string) {
    op.OpStart? && Reaches(s, op, id)
    && (Found(s, id).agentKey.None? || Found(s, id).status == Completed || Found(s, id).status == Error)
  }

  /** A heartbeat that sees an agent, or a push by which the agent claims the pane itself. */
  predicate Confirms(s: State, op: Op, id: string) {
    && Reaches(s, op, id) && !Found(s, id).pluginConnected
    && ((op.OpHeartbeat? && AgentIn(op.fg).Some?)
        || (op.OpLifecycle? && Found(s, id).agentKey.None? && AgentIn(op.push.agent).Some?))
  }

  predicate ShowsActive(s: State, id: string) {
    id in s.panes && IsActive(s.panes[id].status)
  }

  /** The pane was Thinking, Working or WaitingForInput since its entry and its last claim by detection or launch. */
  function SeenActive(s0: State, ops: seq<Op>, id: string): bool {
    if ops == [] then false
    else
      var before, op := Run(s0, ops[..|ops| - 1]), ops[|ops| - 1];
      var after := Step(before, op);
      && id in after.panes
      && (ShowsActive(after, id)
          || (SeenActive(s0, ops[..|ops| - 1], id) && !Detects(before, op, id) && !Launches(before, op, id)))
  }

  /** The agent a confirming operation names. */
  function NamedAgent(op: Op): Option<string> {
    match op
    case OpHeartbeat(_, fg, _, _, _) => AgentIn(fg)
    case OpLifecycle(_, push, _, _) => AgentIn(push.agent)
    case _ => None
  }

  /** The agent last confirmed, by a heartbeat or its own push, since the pane's entry and its last launch. */
  function Confirmed(s0: State, ops: seq<Op>, id: string): Option<string> {
    if ops == [] then None
    else
      var before, op := Run(s0, ops[..|ops| - 1]), ops[|ops| - 1];
      if id !in Step(before, op).panes then None
      else if Confirms(before, op, id) then NamedAgent(op)
      else if Launches(before, op, id) then None
      else Confirmed(s0, ops[..|ops| - 1], id)
  }

  ghost predicate Evidenced(e: Pane, seen: bool, confirmed: Option<string>) {
    && (e.agentKey.Some? && !e.startupPending ==> confirmed == e.agentKey)
    && (e.workStarted.Some? || IsActive(e.status) ==> seen)
  }

  /**
   What an effect does to the announced status and to the evidence; `confirms` is the agent it confirms, if it does.
   */
  ghost predicate Facts(e: Pane, f: Effect, confirms: Option<string>, detects: bool, launches: bool) {
    && f.pane.id == e.id
    && (f.pane.agentKey.Some? && !f.pane.startupPending ==>
          if confirms.Some? then f.pane.agentKey == confirms
          else e.agentKey == f.pane.agentKey && !e.startupPending && !launches)
    && (f.pane.workStarted.Some? ==>
          IsActive(f.pane.status) || (e.workStarted.Some? && !detects && !launches))
  }

  /** The status is announced if it changes, and the last announcement is remembered. */
  ghost predicate Announces(e: Pane, f: Effect) {
    (f.changed || f.pane.status == e.status) && f.pane.lastEmitted == e.lastEmitted
  }

  lemma OutputFacts(e: Pane, now: nat)
    ensures var f := OutputEffect(e, now); Facts(e, f, None, false, false) && Announces(e, f)
  {
  }

  lemma PushFacts(e: Pane, push: Push, now: nat, cfg: Config)
    ensures var f := PushEffect(e, push, now, cfg);
            && Facts(e, f, if !e.pluginConnected && e.agentKey.None? then AgentIn(push.agent) else None, false, false)
            && Announces(e, f)
  {
    hide ApplyStatus;
    ApplyStatusFrame(Adopt(e, push), TurnOf(push.kind), now, cfg);
  }

  lemma ShellFinishedFacts(e: Pane, launches: set<string>, exitCode: int, now: nat, cfg: Config)
    ensures var f := ShellFinishedEffect(e, launches, exitCode, now, cfg);
            Facts(e, f, None, false, false) && Announces(e, f)
  {
    hide Notify;
  }

  lemma HeartbeatFacts(e: Pane, fg: Option<string>, history: Option<Snapshot>, tailWaiting: bool, now: nat, cfg: Config)
    ensures var f := HeartbeatEffect(e, fg, history, tailWaiting, now, cfg);
            var sees := !e.pluginConnected && AgentIn(fg).Some?;
            && Facts(e, f, if sees then AgentIn(fg) else None, sees && e.agentKey != AgentIn(fg), false)
            && Announces(e, f)
  {
    hide AgentTick;
    if AgentIn(fg).Some? {
      AgentTickFrame(TrackForeground(e, fg).pane, AgentIn(fg).value, history, tailWaiting, now, cfg);
    }
  }

  lemma StartFacts(e: Pane, key: string, now: nat, cfg: Config)
    ensures var f := StartEffect(e, key, now, cfg);
            && Facts(e, f, None, false, e.agentKey.None? || e.status == Completed || e.status == Error)
            && f.pane.lastEmitted == e.lastEmitted
  {
    hide Notify;
  }

  lemma CancelFacts(e: Pane, now: nat, cfg: Config)
    ensures var f := CancelEffect(e, now, cfg); Facts(e, f, None, false, false) && Announces(e, f)
  {
    hide Notify;
  }

  lemma EffectFacts(s: State, op: Op, id: string)
    requires Reaches(s, op, id)
    ensures var e, f := Found(s, id), EffectOf(s, op, id);
            && Facts(e, f, if Confirms(s, op, id) then NamedAgent(op) else None, Detects(s, op, id),
               Launches(s, op, id))
            && (!op.OpRegisterWithGeneration? && !op.OpPluginStatus? && !op.OpStart? ==> Announces(e, f))
  {
    hide OutputEffect, PushEffect, ShellFinishedEffect, HeartbeatEffect, StartEffect, CancelEffect, AgentIn;
    var e := Found(s, id);
    match op {
      case OpOutput(_, now, _) => OutputFacts(e, now);
      case OpLifecycle(_, push, _, now) => PushFacts(e, push, now, s.cfg);
      case OpShellFinished(_, launches, exitCode, now, _) => ShellFinishedFacts(e, launches, exitCode, now, s.cfg);
      case OpHeartbeat(_, fg, history, tailWaiting, now) => HeartbeatFacts(e, fg, history, tailWaiting, now, s.cfg);
      case OpStart(_, key, now) => StartFacts(e, key, now, s.cfg);
      case OpCancel(_, now) => CancelFacts(e, now, s.cfg);
      case _ =>
    }
  }

  /**
   No operation but a plugin status or a launch changes a pane's status without announcing it, and only a new
   registration forgets what was last announced.
   */
  lemma StatusIsAnnounced(s: State, op: Op, id: string)
    requires Reaches(s, op, id)
    ensures var e, f := Found(s, id), EffectOf(s, op, id);
            && (!op.OpPluginStatus? && !op.OpStart? ==> f.changed || f.pane.status == e.status)
            && f.pane.lastEmitted == (if op.OpRegisterWithGeneration? then None else e.lastEmitted)
            && f.pane.id == e.id
  {
    hide Reaches, OutputEffect, PushEffect, ShellFinishedEffect, HeartbeatEffect, StartEffect, CancelEffect,
        AcknowledgeEffect;
    EffectFacts(s, op, id);
    if op.OpStart? { StartFacts(Found(s, id), op.key, op.now, s.cfg); }
  }

  lemma ConfirmsNames(s: State, op: Op, id: string)
    ensures Confirms(s, op, id) ==> NamedAgent(op).Some?
  {
  }

  /** How one operation that reaches the pane keeps its evidence in step with its fields. */
  lemma EvidenceStep(s: State, op: Op, id: string, seen: bool, confirmed: Option<string>)
    requires Reaches(s, op, id) && Evidenced(Found(s, id), seen, confirmed)
    ensures var p := Settled(EffectOf(s, op, id));
            Evidenced(p,
                      IsActive(p.status) || (seen && !Detects(s, op, id) && !Launches(s, op, id)),
                      if Confirms(s, op, id) then NamedAgent(op) else if Launches(s, op, id) then None else confirmed)
  {
    ConfirmsNames(s, op, id);
    hide Reaches, EffectOf, Detects, Launches, Confirms, NamedAgent;
    EffectFacts(s, op, id);
  }

  lemma {:induction false} EvidenceAlongRun(cfg: Config, ops: seq<Op>, id: string)
    ensures var s := Run(NewState(cfg), ops);
            id in s.panes ==> Evidenced(s.panes[id], SeenActive(NewState(cfg), ops, id),
                Confirmed(NewState(cfg), ops, id))
    decreases |ops|
  {
    hide Reaches, Removes, EffectOf, Evidenced, Detects, Launches, Confirms, Step;
    if ops != [] {
      var init, op := ops[..|ops| - 1], ops[|ops| - 1];
      var s0 := NewState(cfg);
      var s := Run(s0, init);
      EvidenceAlongRun(cfg, init, id);
      if Removes(s, op, id) {
        StepRemoves(s, op, id);
      } else if Reaches(s, op, id) {
        StepReaches(s, op, id);
        FreshIsEvidenced(id);
        if id !in s.panes { NotInRunNotSeen(s0, init, id); }
        EvidenceStep(s, op, id, SeenActive(s0, init, id), Confirmed(s0, init, id));
      } else {
        StepPasses(s, op, id);
        ClaimsReach(s, op, id);
      }
    }
  }

  lemma FreshIsEvidenced(id: string)
    ensures Evidenced(FreshPane(id), false, None)
  {
  }

  lemma ClaimsReach(s: State, op: Op, id: string)
    requires !Reaches(s, op, id)
    ensures !Detects(s, op, id) && !Launches(s, op, id) && !Confirms(s, op, id)
  {
  }

  lemma NotInRunNotSeen(s0: State, ops: seq<Op>, id: string)
    requires s0.panes == map[] && id !in Run(s0, ops).panes
    ensures !SeenActive(s0, ops, id) && Confirmed(s0, ops, id).None?
  {
  }

  /** The heartbeat finds no known agent in the foreground and the pane turns Completed. */
  predicate CompletesByForegroundLoss(s: State, op: Op, id: string) {
    && op.OpHeartbeat? && op.id == id && AgentIn(op.fg).None?
    && (id !in s.panes || s.panes[id].status != Completed)
    && id in Step(s, op).panes && Step(s, op).panes[id].status == Completed
  }

  /**
   Over all runs: a pane that completes because its agent left the foreground had that very agent confirmed since its
   last launch, and was Thinking, Working or WaitingForInput since its last claim by detection or launch.
   */
  lemma CompletionNeedsEvidence(cfg: Config, ops: seq<Op>, op: Op, id: string)
    requires CompletesByForegroundLoss(Run(NewState(cfg), ops), op, id)
    ensures var s := Run(NewState(cfg), ops);
            && id in s.panes && s.panes[id].agentKey.Some? && !s.panes[id].startupPending
            && SeenActive(NewState(cfg), ops, id) && Confirmed(NewState(cfg), ops, id) == s.panes[id].agentKey
            && Step(s, op).panes[id].agentKey.None?
  {
    hide SeenActive, Confirmed, CompletesByForegroundLoss, Run;
    var s := Run(NewState(cfg), ops);
    ForegroundLoss(s, op, id);
    EvidenceAlongRun(cfg, ops, id);
  }

  lemma ForegroundLoss(s: State, op: Op, id: string)
    requires CompletesByForegroundLoss(s, op, id)
    ensures id in s.panes && s.panes[id].agentKey.Some? && !s.panes[id].startupPending && ProvesTurn(s.panes[id])
    ensures Step(s, op).panes[id].agentKey.None?
  {
    hide Step;
    if Reaches(s, op, id) {
      StepReaches(s, op, id);
      HeartbeatWithoutAgent(Found(s, id), op.fg, op.history, op.tailWaiting, op.now, s.cfg);
    } else {
      StepPasses(s, op, id);
    }
  }

  /** What a heartbeat with no agent in the foreground does to a pane. */
  lemma HeartbeatWithoutAgent(e: Pane, fg: Option<string>, history: Option<Snapshot>, tailWaiting: bool, now: nat,
      cfg: Config)
    requires AgentIn(fg).None?
    ensures var p := Settled(HeartbeatEffect(e, fg, history, tailWaiting, now, cfg));
            var completes := !e.pluginConnected && e.agentKey.Some? && !e.startupPending && ProvesTurn(e);
            var releases := !e.pluginConnected && !completes && GraceOver(e, now);
            && p.status == (if completes then Completed else e.status)
            && p.agentKey == (if completes || releases then None else e.agentKey)
            && p.startupPending == (e.startupPending && !releases)
  {
    hide GraceOver;
    var tracked := TrackForeground(e, fg).pane;
    assert GraceOver(tracked, now) == GraceOver(e, now) by { SameGrace(e, tracked, now); }
  }

  lemma SameGrace(e: Pane, p: Pane, now: nat)
    requires p.startupPending == e.startupPending && p.startupSince == e.startupSince
    ensures GraceOver(p, now) == GraceOver(e, now)
  {
  }

  // -- An unconfirmed launch ---------------------------------------------------------------------

  /** A launch still waiting for its first heartbeat, or a pane with no agent at all. */
  predicate Unconfirmed(e: Pane) {
    e.startupPending || e.agentKey.None?
  }

  lemma {:induction false} UnconfirmedAlongRun(s: State, ops: seq<Op>, id: string)
    requires id in s.panes && Unconfirmed(s.panes[id])
    requires forall n :: 0 <= n < |ops| ==> !Confirms(Run(s, ops[..n]), ops[n], id)
    ensures var t := Run(s, ops); id in t.panes ==> Unconfirmed(t.panes[id])
    decreases |ops|
  {
    hide Reaches, Removes, EffectOf, Step, Confirms;
    if ops != [] {
      var init, op := ops[..|ops| - 1], ops[|ops| - 1];
      forall n | 0 <= n < |init| ensures !Confirms(Run(s, init[..n]), init[n], id) {
        assert init[..n] == ops[..n];
      }
      UnconfirmedAlongRun(s, init, id);
      var t := Run(s, init);
      assert ops[..|ops| - 1] == init && !Confirms(t, op, id);
      if Removes(t, op, id) {
        StepRemoves(t, op, id);
      } else if Reaches(t, op, id) {
        StepReaches(t, op, id);
        UnconfirmedStep(t, op, id);
      } else {
        StepPasses(t, op, id);
      }
    }
  }

  lemma UnconfirmedStep(s: State, op: Op, id: string)
    requires Reaches(s, op, id) && !Confirms(s, op, id) && Unconfirmed(Found(s, id))
    ensures Unconfirmed(Settled(EffectOf(s, op, id)))
  {
    hide Notify, ApplyStatus;
    if op.OpLifecycle? {
      ApplyStatusFrame(Adopt(Found(s, id), op.push), TurnOf(op.push.kind), op.now, s.cfg);
    }
  }

  /** Whatever happens before its agent is confirmed, a launched pane does not complete by foreground loss. */
  lemma UnconfirmedLaunchNeverCompletes(s: State, ops: seq<Op>, op: Op, id: string)
    requires id in s.panes && s.panes[id].startupPending
    requires forall n :: 0 <= n < |ops| ==> !Confirms(Run(s, ops[..n]), ops[n], id)
    ensures !CompletesByForegroundLoss(Run(s, ops), op, id)
  {
    hide Step, Run, Unconfirmed;
    UnconfirmedAlongRun(s, ops, id) by { assert Unconfirmed(s.panes[id]) by { PendingIsUnconfirmed(s.panes[id]); } }
    if CompletesByForegroundLoss(Run(s, ops), op, id) {
      ForegroundLoss(Run(s, ops), op, id);
      ConfirmedIsNotUnconfirmed(Run(s, ops).panes[id]);
    }
  }

  lemma PendingIsUnconfirmed(e: Pane)
    requires e.startupPending
    ensures Unconfirmed(e)
  {
  }

  lemma ConfirmedIsNotUnconfirmed(e: Pane)
    requires e.agentKey.Some? && !e.startupPending
    ensures !Unconfirmed(e)
  {
  }

  /** The first heartbeat without an agent after the startup grace releases the launch, and only such a heartbeat. */
  lemma GraceReleasesLaunch(s: State, id: string, fg: Option<string>, history: Option<Snapshot>, tailWaiting: bool,
      now: nat)
    requires id in s.panes && id !in s.retired && AgentIn(fg).None?
    requires s.panes[id].startupPending && s.panes[id].startupSince.Some? && !s.panes[id].pluginConnected
    ensures var t := Heartbeat(s, id, fg, history, tailWaiting, now);
            && id in t.panes
            && t.panes[id].status == s.panes[id].status
            && (SatSub(now, s.panes[id].startupSince.value) > STARTUP_GRACE_MS <==> !t.panes[id].startupPending)
            && t.panes[id].agentKey == (if t.panes[id].startupPending then s.panes[id].agentKey else None)
  {
    hide HeartbeatEffect, Commit;
    CommitFacts(s, id, HeartbeatEffect(s.panes[id], fg, history, tailWaiting, now, s.cfg), false);
    HeartbeatWithoutAgent(s.panes[id], fg, history, tailWaiting, now, s.cfg);
  }
}
