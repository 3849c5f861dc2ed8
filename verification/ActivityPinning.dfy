/**
 Turns the user has acknowledged, or that a pane never saw start, are not reported again; a newer turn is. Waiting
 for input is left only on evidence that the prompt was answered.
 */
module ActivityPinning {
  import opened Util
  import opened AgentActivity
  import opened ActivityRuns
  import opened ActivityCompletion

  /** The pane's current turn, stamped `t`, is acknowledged, and the pane does not show it as over. */
  ghost predicate Pinned(e: Pane, key: string, t: nat) {
    && e.agentKey == Some(key) && e.historyTimestamp == Some(t) && e.acknowledged == Some(t)
    && e.status != Completed && e.status != Error
  }

  /**
   Operations of a run in which the turn stamped `t` stays the latest one of pane `id`: heartbeats that see the same
   agent with no snapshot or one stamped `t`, shell commands that do not launch that agent, and anything else but
   statuses set by a plugin and cancelling.
   */
  predicate SameTurn(op: Op, id: string, key: string, t: nat) {
    match op
    case OpHeartbeat(i, fg, history, _, _) =>
      i == id ==> fg == Some(key) && IsKnownAgentKey(key) && (history.Some? ==> history.value.timestamp == t)
    case OpShellFinished(i, launches, _, _, _) => i == id ==> key !in launches
    case OpPluginStatus(i, _) => i != id
    case OpCancel(i, _) => i != id
    case _ => true
  }

  lemma PinnedTurn(e: Pane, key: string, t: nat, history: Option<Snapshot>, tailWaiting: bool, now: nat, cfg: Config)
    requires Pinned(e, key, t)
    ensures Pinned(TurnTick(e, history, tailWaiting, now, cfg).pane, key, t)
  {
    hide Silence, CheckTail, Notify, Authoritative, Foreign;
    var authoritative := Authoritative(e, history);
    var p := PinForeign(e, history);
    assert Pinned(p, key, t);
    var applied := ApplyAuthoritative(p, authoritative, now, cfg);
    assert Pinned(applied.pane, key, t);
    hide ApplyStatus, ApplyAuthoritative, PinForeign;
    SilenceFrame(applied.pane, authoritative, now, cfg);
    CheckTailFrame(Silence(applied.pane, authoritative, now, cfg).pane, authoritative, tailWaiting, now, cfg);
  }

  lemma PinnedTick(e: Pane, key: string, t: nat, history: Option<Snapshot>, tailWaiting: bool, now: nat, cfg: Config)
    requires Pinned(e, key, t) && (history.Some? ==> history.value.timestamp == t)
    ensures Pinned(AgentTick(e, key, history, tailWaiting, now, cfg).pane, key, t)
  {
    hide TurnTick;
    var absorbed := AbsorbHistory(DetectAgent(ConfirmLaunch(e, key).pane, key).pane, history);
    PinnedTurn(absorbed.pane, key, t, history, tailWaiting, now, cfg);
  }

  lemma PinnedPush(e: Pane, key: string, t: nat, push: Push, now: nat, cfg: Config)
    requires Pinned(e, key, t)
    ensures Pinned(PushEffect(e, push, now, cfg).pane, key, t)
  {
    hide Notify;
  }

  lemma PinnedStep(s: State, op: Op, id: string, key: string, t: nat)
    requires Reaches(s, op, id) && SameTurn(op, id, key, t) && Pinned(Found(s, id), key, t)
    ensures Pinned(Settled(EffectOf(s, op, id)), key, t)
  {
    hide AgentTick, PushEffect, IsKnownAgentKey;
    var e := Found(s, id);
    match op {
      case OpHeartbeat(_, fg, history, tailWaiting, now) =>
        PinnedTick(TrackForeground(e, fg).pane, key, t, history, tailWaiting, now, s.cfg);
      case OpLifecycle(_, push, _, now) => PinnedPush(e, key, t, push, now, s.cfg);
      case _ =>
    }
  }

  /**
   A pinned turn never re-fires: along any such run the pane keeps its agent and its pinned turn, and is never
   Completed or in Error, as long as it is not removed.
   */
  lemma {:induction false} PinnedTurnNeverRefires(s: State, ops: seq<Op>, id: string, key: string, t: nat)
    requires id in s.panes && Pinned(s.panes[id], key, t)
    requires (forall op :: op in ops ==> SameTurn(op, id, key, t)) && Survives(s, ops, id)
    ensures var r := Run(s, ops); id in r.panes && Pinned(r.panes[id], key, t)
    decreases |ops|
  {
    hide Reaches, Removes, EffectOf, Step, Pinned, SameTurn, Survives;
    if ops != [] {
      var init, op := ops[..|ops| - 1], ops[|ops| - 1];
      SurvivesInit(s, ops, id);
      PinnedTurnNeverRefires(s, init, id, key, t);
      var r := Run(s, init);
      assert SameTurn(op, id, key, t);
      if Reaches(r, op, id) {
        StepReaches(r, op, id);
        PinnedStep(r, op, id, key, t);
      } else {
        StepPasses(r, op, id);
      }
    }
  }

  /** Acknowledging a pane pins the turn it has consumed last. */
  lemma AcknowledgePins(s: State, id: string, key: string, t: nat)
    requires id in s.panes && s.panes[id].agentKey == Some(key) && s.panes[id].historyTimestamp == Some(t)
    ensures id in Acknowledge(s, id).panes && Pinned(Acknowledge(s, id).panes[id], key, t)
  {
    hide Commit;
    CommitFacts(s, id, AcknowledgeEffect(s.panes[id]), false);
  }

  /**
   A finished turn fed to a pane that never saw it start is pinned, and does not change what the pane shows as over: by
   the heartbeat that first sees the agent, in a pane that may not be tracked yet, as well as by a later one.
   */
  lemma ForeignTurnIsPinned(s: State, id: string, key: string, h: Snapshot, tailWaiting: bool, now: nat)
    requires id !in s.retired && IsKnownAgentKey(key) && !Found(s, id).pluginConnected
    requires var e := Found(s, id);
             e.agentKey == Some(key) ==> !ProvesTurn(e) && e.status != Completed && e.status != Error
    requires h.activity.Some? && h.activity.value != TurnWorking
    ensures var t := Heartbeat(s, id, Some(key), Some(h), tailWaiting, now);
            id in t.panes && Pinned(t.panes[id], key, h.timestamp)
  {
    hide Commit, TurnTick;
    var e, u := Found(s, id), Ensure(s, id);
    CommitFacts(u, id, HeartbeatEffect(e, Some(key), Some(h), tailWaiting, now, s.cfg), false);
    var tracked := TrackForeground(e, Some(key)).pane;
    var absorbed := AbsorbHistory(DetectAgent(ConfirmLaunch(tracked, key).pane, key).pane, Some(h)).pane;
    assert absorbed.historyTimestamp == Some(h.timestamp) && !ProvesTurn(absorbed);
    ForeignTurn(absorbed, key, h, tailWaiting, now, s.cfg);
  }

  /** So a pane that is first detected with another turn's finished log never reports that turn. */
  lemma ForeignTurnNeverFires(s: State, id: string, key: string, h: Snapshot, tailWaiting: bool, now: nat, ops: seq<Op>)
    requires id !in s.retired && IsKnownAgentKey(key) && !Found(s, id).pluginConnected
    requires Found(s, id).agentKey != Some(key) && h.activity.Some? && h.activity.value != TurnWorking
    requires forall op :: op in ops ==> SameTurn(op, id, key, h.timestamp)
    requires Survives(Heartbeat(s, id, Some(key), Some(h), tailWaiting, now), ops, id)
    ensures var r := Run(Heartbeat(s, id, Some(key), Some(h), tailWaiting, now), ops);
            id in r.panes && r.panes[id].status != Completed && r.panes[id].status != Error
  {
    hide Heartbeat, Run, SameTurn, Survives;
    ForeignTurnIsPinned(s, id, key, h, tailWaiting, now);
    PinnedTurnNeverRefires(Heartbeat(s, id, Some(key), Some(h), tailWaiting, now), ops, id, key, h.timestamp);
  }

  lemma ForeignTurn(e: Pane, key: string, h: Snapshot, tailWaiting: bool, now: nat, cfg: Config)
    requires e.agentKey == Some(key) && e.historyTimestamp == Some(h.timestamp) && !ProvesTurn(e)
    requires h.activity.Some? && h.activity.value != TurnWorking && e.status != Completed && e.status != Error
    ensures Pinned(TurnTick(e, Some(h), tailWaiting, now, cfg).pane, key, h.timestamp)
  {
    hide Silence, CheckTail;
    var p := PinForeign(e, Some(h));
    SilenceFrame(p, None, now, cfg);
    CheckTailFrame(Silence(p, None, now, cfg).pane, None, tailWaiting, now, cfg);
  }

  // ---------------------------------------------------------------------------------------------
  // A newer turn does fire
  // ---------------------------------------------------------------------------------------------

  /** The pane is on a turn of agent `key` it has seen start, and has acknowledged at most the turn stamped `t`. */
  ghost predicate OnTurn(e: Pane, key: string, t: nat) {
    && e.agentKey == Some(key) && e.acknowledged == Some(t) && !e.pluginConnected
    && e.status != Completed && e.status != Error && ProvesTurn(e)
  }

  /** The proof that the turn was seen to start outlasts silence. */
  ghost predicate Clocked(e: Pane, key: string, t: nat) {
    OnTurn(e, key, t) && e.workStarted.Some?
  }

  ghost predicate Busy(e: Pane, key: string, t: nat) {
    OnTurn(e, key, t) && (e.status == Working || e.status == WaitingForInput)
  }

  /**
   Operations of a run in which a turn newer than the one stamped `t` goes on: heartbeats of the same agent that bring
   no record, one of a turn at work or waiting, or one stamped `t`; requests for input pushed by the agent; shell
   commands that do not launch it; and anything else but acknowledging, plugins and cancelling.
   */
  predicate TurnGoesOn(op: Op, id: string, key: string, t: nat) {
    match op
    case OpHeartbeat(i, fg, history, _, _) =>
      i == id ==> fg == Some(key) && IsKnownAgentKey(key)
                  && (history.Some? ==> history.value.timestamp == t || !IsFinal(history.value.activity))
    case OpLifecycle(i, push, _, _) => i == id ==> TurnOf(push.kind) == TurnWaiting
    case OpShellFinished(i, launches, _, _, _) => i == id ==> key !in launches
    case OpAcknowledge(i) => i != id
    case OpSetPlugin(i, connected) => i == id ==> !connected
    case OpPluginStatus(i, _) => i != id
    case OpCancel(i, _) => i != id
    case _ => true
  }

  predicate IsFinal(activity: Option<TurnStatus>) {
    activity == Some(TurnCompleted) || activity == Some(TurnError)
  }

  /** The poll brings the pane a record of a turn at work. */
  predicate WorkIsSeen(op: Op, id: string) {
    op.OpHeartbeat? && op.id == id ==> ActivityOf(op.history) == Some(TurnWorking)
  }

  lemma WorkingTurn(e: Pane, key: string, t: nat, history: Option<Snapshot>, tailWaiting: bool, now: nat, cfg: Config)
    requires e.agentKey == Some(key) && e.acknowledged == Some(t) && !e.pluginConnected
    requires ActivityOf(history) == Some(TurnWorking)
    ensures var p := TurnTick(e, history, tailWaiting, now, cfg).pane;
            && Busy(p, key, t)
            && (e.workStarted.Some? || (e.status != Working && e.status != WaitingForInput) ==> p.workStarted.Some?)
  {
    hide Notify, ProvesTurn;
    ApplyStatusFrame(e, TurnWorking, now, cfg);
    var applied := ApplyStatus(e, TurnWorking, now, cfg).pane;
    assert e.workStarted.Some? || (e.status != Working && e.status != WaitingForInput) ==> applied.workStarted.Some?;
    hide ApplyStatus;
    assert Silence(applied, Some(TurnWorking), now, cfg).pane == applied;
    assert CheckTail(applied, Some(TurnWorking), tailWaiting, now, cfg).pane.workStarted == applied.workStarted;
    ActiveProves();
  }

  lemma ActiveProves()
    ensures forall e: Pane :: e.status == Working || e.status == WaitingForInput ==> ProvesTurn(e)
  {
  }

  lemma ClockedTurn(e: Pane, key: string, t: nat, history: Option<Snapshot>, tailWaiting: bool, now: nat, cfg: Config)
    requires Clocked(e, key, t) && !(IsFinal(ActivityOf(history)) && e.historyTimestamp != Some(t))
    ensures Clocked(TurnTick(e, history, tailWaiting, now, cfg).pane, key, t)
  {
    hide Notify, Silence, CheckTail;
    var authoritative := ActivityOf(history);
    assert Authoritative(e, history) == authoritative && PinForeign(e, history) == e;
    var applied := ApplyAuthoritative(e, authoritative, now, cfg).pane;
    assert Clocked(applied, key, t);
    hide ApplyAuthoritative;
    SilenceFrame(applied, authoritative, now, cfg);
    var silenced := Silence(applied, authoritative, now, cfg).pane;
    CheckTailFrame(silenced, authoritative, tailWaiting, now, cfg);
    TailKeepsClock(silenced, authoritative, tailWaiting, now, cfg);
  }

  lemma TailKeepsClock(e: Pane, authoritative: Option<TurnStatus>, tailWaiting: bool, now: nat, cfg: Config)
    ensures e.workStarted.Some? ==> CheckTail(e, authoritative, tailWaiting, now, cfg).pane.workStarted.Some?
  {
    hide Notify;
  }

  lemma TurnStep(s: State, op: Op, id: string, key: string, t: nat)
    requires Reaches(s, op, id) && TurnGoesOn(op, id, key, t) && OnTurn(Found(s, id), key, t)
    ensures Clocked(Found(s, id), key, t) ==> Clocked(Settled(EffectOf(s, op, id)), key, t)
    ensures Busy(Found(s, id), key, t) && WorkIsSeen(op, id) ==> Busy(Settled(EffectOf(s, op, id)), key, t)
  {
    hide TurnTick, PushEffect, IsKnownAgentKey;
    var e := Found(s, id);
    match op {
      case OpHeartbeat(_, fg, history, tailWaiting, now) =>
        hide HeartbeatEffect;
        TurnHeartbeat(e, key, t, history, tailWaiting, now, s.cfg);
      case OpLifecycle(_, push, _, now) => RequestStep(e, key, t, push, now, s.cfg);
      case _ =>
    }
  }

  lemma TurnHeartbeat(e: Pane, key: string, t: nat, history: Option<Snapshot>, tailWaiting: bool, now: nat, cfg: Config)
    requires OnTurn(e, key, t) && IsKnownAgentKey(key)
    requires history.Some? ==> history.value.timestamp == t || !IsFinal(history.value.activity)
    ensures var p := HeartbeatEffect(e, Some(key), history, tailWaiting, now, cfg).pane;
            && (Clocked(e, key, t) ==> Clocked(p, key, t))
            && (ActivityOf(history) == Some(TurnWorking) ==> Busy(p, key, t))
  {
    hide TurnTick, IsKnownAgentKey;
    var p := AbsorbHistory(DetectAgent(ConfirmLaunch(TrackForeground(e, Some(key)).pane, key).pane, key).pane,
        history).pane;
    if ActivityOf(history) == Some(TurnWorking) { WorkingTurn(p, key, t, history, tailWaiting, now, cfg); }
    if e.workStarted.Some? { ClockedTurn(p, key, t, history, tailWaiting, now, cfg); }
  }

  lemma RequestStep(e: Pane, key: string, t: nat, push: Push, now: nat, cfg: Config)
    requires OnTurn(e, key, t) && TurnOf(push.kind) == TurnWaiting
    ensures var p := PushEffect(e, push, now, cfg).pane;
            && OnTurn(p, key, t) && p.workStarted == e.workStarted
            && (p.status == e.status || p.status == WaitingForInput)
  {
    hide Notify;
  }

  lemma {:induction false} TurnAlongRun(s: State, ops: seq<Op>, id: string, key: string, t: nat)
    requires id in s.panes && id !in s.retired && OnTurn(s.panes[id], key, t)
    requires (forall op :: op in ops ==> TurnGoesOn(op, id, key, t)) && Survives(s, ops, id)
    requires Clocked(s.panes[id], key, t)
             || (Busy(s.panes[id], key, t) && forall op :: op in ops ==> WorkIsSeen(op, id))
    ensures var r := Run(s, ops);
            && id in r.panes && id !in r.retired
            && (Clocked(s.panes[id], key, t) ==> Clocked(r.panes[id], key, t))
            && (!Clocked(s.panes[id], key, t) ==> Busy(r.panes[id], key, t))
    decreases |ops|
  {
    hide Step, Reaches, Removes, EffectOf, Busy, Clocked, TurnGoesOn, WorkIsSeen, Survives;
    if ops != [] {
      var init, op := ops[..|ops| - 1], ops[|ops| - 1];
      SurvivesInit(s, ops, id);
      TurnAlongRun(s, init, id, key, t);
      var r := Run(s, init);
      assert op in ops && TurnGoesOn(op, id, key, t);
      StaysLive(r, op, id);
      ClockedIsOnTurn(r.panes[id], key, t);
      if Reaches(r, op, id) {
        StepReaches(r, op, id);
        TurnStep(r, op, id, key, t);
      } else {
        StepPasses(r, op, id);
      }
    }
  }

  lemma ClockedIsOnTurn(e: Pane, key: string, t: nat)
    ensures Clocked(e, key, t) || Busy(e, key, t) ==> OnTurn(e, key, t)
  {
  }

  /** Only removing a pane retires it. */
  lemma StaysLive(s: State, op: Op, id: string)
    requires id !in s.retired && !Removes(s, op, id)
    ensures id !in Step(s, op).retired
  {
    hide Commit, OutputEffect, PushEffect, ShellFinishedEffect, HeartbeatEffect, AcknowledgeEffect, StartEffect,
        CancelEffect;
    if Named(op).Some? && Reaches(s, op, op.id) {
      StepKeepsRegistry(s, op);
    } else if op.OpForget? && op.id in s.panes {
      CommitFacts(s, op.id, CancelEffect(s.panes[op.id], op.now, s.cfg), true);
    }
  }

  lemma StepKeepsRegistry(s: State, op: Op)
    requires Named(op).Some? && Reaches(s, op, op.id)
    ensures Step(s, op).retired <= s.retired
  {
    hide Commit, OutputEffect, PushEffect, ShellFinishedEffect, HeartbeatEffect, AcknowledgeEffect, StartEffect,
        CancelEffect;
    var id := op.id;
    var f := EffectOf(s, op, id);
    var u := Ensure(s, id);
    match op {
      case OpRegister(_) =>
      case OpRegisterWithGeneration(_) =>
        var g := s.nextGeneration + 1;
        CommitFacts(Register(s.(nextGeneration := g, generations := s.generations[id := g]), id), id, f, true);
      case OpHeartbeat(_, _, _, _, _) => CommitFacts(u, id, f, false);
      case OpAcknowledge(_) => CommitFacts(s, id, f, false);
      case OpLifecycle(_, _, _, _) => CommitFacts(u, id, f, true);
      case OpStart(_, _, _) => CommitFacts(u, id, f, true);
      case _ => CommitFacts(s, id, f, true);
    }
  }

  /**
   Exactly when a completed record completes a pane: a heartbeat of its agent brings it, it is not the acknowledged
   turn, and the pane has seen a turn start. If it has not, the record is pinned instead.
   */
  lemma CompletedRecordCompletes(s: State, id: string, key: string, h: Snapshot, tailWaiting: bool, now: nat)
    requires id in s.panes && id !in s.retired && IsKnownAgentKey(key)
    requires var e := s.panes[id]; e.agentKey == Some(key) && !e.pluginConnected && e.status != Completed
    requires h.activity == Some(TurnCompleted)
    ensures var e := s.panes[id];
            var r := Heartbeat(s, id, Some(key), Some(h), tailWaiting, now);
            && id in r.panes
            && (r.panes[id].status == Completed <==> ProvesTurn(e) && e.acknowledged != Some(h.timestamp))
            && (!ProvesTurn(e) ==> r.panes[id].acknowledged == Some(h.timestamp))
  {
    hide Heartbeat;
    HeartbeatTurn(s, id, key, h, tailWaiting, now);
    CompletedTurn(TurnStart(s.panes[id], key, h), h, tailWaiting, now, s.cfg);
  }

  lemma CompletedTurn(e: Pane, h: Snapshot, tailWaiting: bool, now: nat, cfg: Config)
    requires e.historyTimestamp == Some(h.timestamp) && h.activity == Some(TurnCompleted) && e.status != Completed
    ensures var p := TurnTick(e, Some(h), tailWaiting, now, cfg).pane;
            && (p.status == Completed <==> ProvesTurn(e) && e.acknowledged != Some(h.timestamp))
            && (!ProvesTurn(e) ==> p.acknowledged == Some(h.timestamp))
  {
    hide Notify;
  }

  /**
   A pane whose turn stamped `t` is pinned completes when its log shows another turn at work and, any run of such
   operations later, a turn completed that is not stamped `t` either: always, if the record of work found the pane with
   a work clock or neither Working nor WaitingForInput, for then the clock runs; and in any case if every heartbeat in
   between saw work. What decides is whether the pane still shows that it saw the turn start.
   */
  lemma NewerTurnCompletes(s: State, ops: seq<Op>, id: string, key: string, t: nat,
                           h1: Snapshot, tail1: bool, now1: nat, h2: Snapshot, tail2: bool, now2: nat)
    requires id in s.panes && id !in s.retired && IsKnownAgentKey(key)
    requires Pinned(s.panes[id], key, t) && !s.panes[id].pluginConnected
    requires h1.activity == Some(TurnWorking)
    requires h2.timestamp != t && h2.activity == Some(TurnCompleted)
    requires forall op :: op in ops ==> TurnGoesOn(op, id, key, t)
    requires Survives(Heartbeat(s, id, Some(key), Some(h1), tail1, now1), ops, id)
    requires || s.panes[id].workStarted.Some?
             || (s.panes[id].status != Working && s.panes[id].status != WaitingForInput)
             || (forall op :: op in ops ==> WorkIsSeen(op, id))
    ensures var working := Heartbeat(s, id, Some(key), Some(h1), tail1, now1);
            var later := Run(working, ops);
            var done := Heartbeat(later, id, Some(key), Some(h2), tail2, now2);
            && id in working.panes && Busy(working.panes[id], key, t)
            && id in done.panes && done.panes[id].status == Completed
  {
    var working := Heartbeat(s, id, Some(key), Some(h1), tail1, now1);
    HeartbeatTurn(s, id, key, h1, tail1, now1);
    WorkingTurn(TurnStart(s.panes[id], key, h1), key, t, Some(h1), tail1, now1, s.cfg);
    hide Heartbeat, Run, Survives, TurnGoesOn, WorkIsSeen, TurnTick, TurnStart;
    TurnAlongRun(working, ops, id, key, t);
    CompletedRecordCompletes(Run(working, ops), id, key, h2, tail2, now2);
  }

  /** The pane a heartbeat of its own agent hands to the turn rules, when the snapshot is `h`. */
  function TurnStart(e: Pane, key: string, h: Snapshot): Pane {
    AbsorbHistory(DetectAgent(ConfirmLaunch(TrackForeground(e, Some(key)).pane, key).pane, key).pane, Some(h)).pane
  }

  lemma HeartbeatTurn(s: State, id: string, key: string, h: Snapshot, tailWaiting: bool, now: nat)
    requires id in s.panes && id !in s.retired && IsKnownAgentKey(key)
    requires s.panes[id].agentKey == Some(key) && !s.panes[id].pluginConnected
    ensures var r := Heartbeat(s, id, Some(key), Some(h), tailWaiting, now);
            var e := TurnStart(s.panes[id], key, h);
            var p := TurnTick(e, Some(h), tailWaiting, now, s.cfg).pane;
            && id in r.panes && id !in r.retired
            && r.panes[id] == p.(lastEmitted := r.panes[id].lastEmitted)
            && e.historyTimestamp == Some(h.timestamp)
            && (e.agentKey, e.acknowledged, e.pluginConnected, e.status, e.workStarted)
            == (s.panes[id].agentKey, s.panes[id].acknowledged, s.panes[id].pluginConnected, s.panes[id].status,
                s.panes[id].workStarted)
  {
    hide Commit, TurnTick;
    CommitFacts(s, id, HeartbeatEffect(s.panes[id], Some(key), Some(h), tailWaiting, now, s.cfg), false);
  }

  // ---------------------------------------------------------------------------------------------
  // Waiting is sticky
  // ---------------------------------------------------------------------------------------------

  /** Waiting since `w`, for an agent the heuristics follow. */
  ghost predicate WaitsSince(e: Pane, key: string, w: nat) {
    && e.status == WaitingForInput && e.waitingSince == Some(w)
    && e.agentKey == Some(key) && !e.pluginConnected
  }

  /**
   Heartbeats of the same agent whose log does not show the turn completed or failed, requests for input it pushes,
   shell commands that do not launch it, and anything else but acknowledging, plugins and cancelling.
   */
  predicate Parked(op: Op, id: string, key: string) {
    match op
    case OpHeartbeat(i, fg, history, _, _) =>
      i == id ==> fg == Some(key) && IsKnownAgentKey(key) && !IsFinal(ActivityOf(history))
    case OpLifecycle(i, push, _, _) => i == id ==> TurnOf(push.kind) == TurnWaiting
    case OpShellFinished(i, launches, _, _, _) => i == id ==> key !in launches
    case OpAcknowledge(i) => i != id
    case OpSetPlugin(i, connected) => i == id ==> !connected
    case OpPluginStatus(i, _) => i != id
    case OpCancel(i, _) => i != id
    case _ => true
  }

  /** A heartbeat with no prompt in the tail and no record of its own, after output later than `w`. */
  predicate Answered(e: Pane, op: Op, w: nat) {
    op.OpHeartbeat? && !op.tailWaiting && ActivityOf(op.history).None? && e.lastOutput > w
  }

  lemma ParkedTurn(e: Pane, key: string, w: nat, history: Option<Snapshot>, tailWaiting: bool, now: nat, cfg: Config)
    requires WaitsSince(e, key, w) && !IsFinal(ActivityOf(history))
    ensures var p := TurnTick(e, history, tailWaiting, now, cfg).pane;
            if !tailWaiting && ActivityOf(history).None? && e.lastOutput > w
            then p.status == Working else WaitsSince(p, key, w)
    ensures TurnTick(e, history, tailWaiting, now, cfg).pane.lastOutput == e.lastOutput
  {
    hide Notify;
    assert Authoritative(e, history) == ActivityOf(history);
    var applied := ApplyAuthoritative(e, ActivityOf(history), now, cfg);
    assert applied.pane == e;
    assert Silence(e, ActivityOf(history), now, cfg).pane == e;
  }

  lemma ParkedStep(s: State, op: Op, id: string, key: string, w: nat)
    requires id in s.panes && WaitsSince(s.panes[id], key, w) && Parked(op, id, key) && !Removes(s, op, id)
    ensures var t := Step(s, op);
            && id in t.panes
            && (Reaches(s, op, id) && Answered(s.panes[id], op, w) ==> t.panes[id].status == Working)
            && (!(Reaches(s, op, id) && Answered(s.panes[id], op, w)) ==> WaitsSince(t.panes[id], key, w))
  {
    hide Step, TurnTick, PushEffect, Removes;
    if Reaches(s, op, id) {
      StepReaches(s, op, id);
      var e := s.panes[id];
      if op.OpLifecycle? { ParkedPush(e, key, w, op.push, op.now, s.cfg); }
      if op.OpHeartbeat? {
        var absorbed := AbsorbHistory(DetectAgent(ConfirmLaunch(TrackForeground(e, op.fg).pane, key).pane, key).pane,
            op.history);
        ParkedTurn(absorbed.pane, key, w, op.history, op.tailWaiting, op.now, s.cfg);
      }
    } else {
      StepPasses(s, op, id);
    }
  }

  lemma ParkedPush(e: Pane, key: string, w: nat, push: Push, now: nat, cfg: Config)
    requires WaitsSince(e, key, w) && TurnOf(push.kind) == TurnWaiting
    ensures WaitsSince(PushEffect(e, push, now, cfg).pane, key, w)
  {
  }

  /** Some heartbeat of the run, in the state it finds, shows that the prompt was answered. */
  ghost predicate AnsweredIn(s: State, ops: seq<Op>, id: string, w: nat) {
    exists n :: 0 <= n < |ops| && AnsweredAt(s, ops, n, id, w)
  }

  ghost predicate AnsweredAt(s: State, ops: seq<Op>, n: nat, id: string, w: nat)
    requires n < |ops|
  {
    var before := Run(s, ops[..n]);
    id in before.panes && Reaches(before, ops[n], id) && Answered(before.panes[id], ops[n], w)
  }

  /**
   Sticky waiting: over any such run that does not remove the pane, it stays waiting unless a heartbeat finds the prompt
   gone, no record, and output later than the entry.
   */
  lemma {:induction false} WaitingIsSticky(s: State, ops: seq<Op>, id: string, key: string, w: nat)
    requires id in s.panes && WaitsSince(s.panes[id], key, w)
    requires (forall op :: op in ops ==> Parked(op, id, key)) && Survives(s, ops, id)
    requires !AnsweredIn(s, ops, id, w)
    ensures var t := Run(s, ops); id in t.panes && WaitsSince(t.panes[id], key, w)
    decreases |ops|
  {
    hide Step, Reaches, Removes, Parked, WaitsSince, Answered, Survives;
    if ops != [] {
      var init, op := ops[..|ops| - 1], ops[|ops| - 1];
      SurvivesInit(s, ops, id);
      forall n | 0 <= n < |init| ensures !AnsweredAt(s, init, n, id, w) {
        assert init[..n] == ops[..n] && init[n] == ops[n];
        assert !AnsweredAt(s, ops, n, id, w);
      }
      WaitingIsSticky(s, init, id, key, w);
      assert !AnsweredAt(s, ops, |init|, id, w);
      ParkedStep(Run(s, init), op, id, key, w);
    }
  }

  /** And the first such heartbeat does move the pane to Working. */
  lemma AnswerEndsWaiting(s: State, ops: seq<Op>, op: Op, id: string, key: string, w: nat)
    requires id in s.panes && WaitsSince(s.panes[id], key, w)
    requires Parked(op, id, key) && (forall o :: o in ops ==> Parked(o, id, key)) && Survives(s, ops, id)
    requires !AnsweredIn(s, ops, id, w) && AnsweredIn(s, ops + [op], id, w)
    ensures var t := Run(s, ops + [op]); id in t.panes && t.panes[id].status == Working
  {
    hide Step, Reaches, Removes, Parked, WaitsSince, Answered, Survives;
    WaitingIsSticky(s, ops, id, key, w);
    var all := ops + [op];
    forall n | 0 <= n < |ops| ensures AnsweredAt(s, all, n, id, w) == AnsweredAt(s, ops, n, id, w) {
      assert all[..n] == ops[..n] && all[n] == ops[n];
    }
    assert AnsweredAt(s, all, |ops|, id, w);
    assert all[..|ops|] == ops;
    RunSnoc(s, ops, op);
    HeartbeatsRemoveNothing(Run(s, ops), op, id, w);
    ParkedStep(Run(s, ops), op, id, key, w);
  }

  lemma HeartbeatsRemoveNothing(s: State, op: Op, id: string, w: nat)
    requires id in s.panes && Reaches(s, op, id) && Answered(s.panes[id], op, w)
    ensures !Removes(s, op, id)
  {
  }
}
