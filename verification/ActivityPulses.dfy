/** Output pulses and silence: how a quiet pane becomes a working one, and that silence takes nothing for good. */
module ActivityPulses {
  import opened Util
  import opened AgentActivity
  import opened ActivityRuns

  /** An agent the heuristics follow. */
  predicate Followed(e: Pane) {
    e.agentKey.Some? && !e.pluginConnected && !e.startupPending
  }

  /** Output on the pane, registering it, finding no plugin on it, pruning, or anything done to other panes. */
  predicate OutputOnly(op: Op, id: string) {
    match op
    case OpOutput(_, _, _) | OpPrune(_, _) | OpSetConfig(_, _) => true
    case OpRegister(_) | OpRegisterWithGeneration(_) | OpRemove(_, _) => true
    case OpSetPlugin(i, connected) => i == id ==> !connected
    case _ => op.id != id
  }

  /** How many output pulses of a run reached the pane. */
  function Pulses(s: State, ops: seq<Op>, id: string): nat {
    if ops == [] then 0
    else
      var init, op := ops[..|ops| - 1], ops[|ops| - 1];
      Pulses(s, init, id) + if op.OpOutput? && Reaches(Run(s, init), op, id) then 1 else 0
  }

  /** What a status is after so many pulses; a pane that silence demoted from Working is back after one. */
  function After(status: Status, demoted: bool, pulses: nat): Status {
    if pulses == 0 then status
    else if status == Thinking || (status == Idle && (demoted || pulses >= 2)) then Working
    else if status == Idle then Thinking
    else status
  }

  ghost predicate PulsedTo(e: Pane, p: Pane, pulses: nat) {
    && Followed(p) && p.agentKey == e.agentKey
    && p.status == After(e.status, e.demotedFromWorking, pulses)
    && p.demotedFromWorking == (e.demotedFromWorking && !(e.status == Idle && pulses > 0))
    && (p.workStarted.Some? <==>
          || e.workStarted.Some?
          || (p.status == Working && e.status != Working && !(e.status == Idle && e.demotedFromWorking)))
    && (e.workStarted.Some? ==> p.workStarted == e.workStarted)
  }

  lemma PulseStep(e: Pane, p: Pane, pulses: nat, now: nat)
    requires PulsedTo(e, p, pulses)
    ensures PulsedTo(e, OutputEffect(p, now).pane, pulses + 1)
  {
  }

  lemma PulsedToSettled(e: Pane, f: Effect, pulses: nat)
    requires PulsedTo(e, f.pane, pulses)
    ensures PulsedTo(e, Settled(f), pulses)
  {
  }

  /**
   Over all such runs that do not remove the pane: the number of pulses decides the status. One
   pulse makes an idle pane Thinking, a second one Working; if silence had demoted it, the first one does. No number of
   pulses moves a pane out of WaitingForInput or Completed.
   */
  lemma {:induction false} PulsesDecide(s: State, ops: seq<Op>, id: string)
    requires id in s.panes && Followed(s.panes[id])
    requires (forall op :: op in ops ==> OutputOnly(op, id)) && Survives(s, ops, id)
    ensures var r := Run(s, ops); id in r.panes && PulsedTo(s.panes[id], r.panes[id], Pulses(s, ops, id))
    decreases |ops|
  {
    hide Step, Reaches, EffectOf, PulsedTo, OutputOnly, Removes, Survives;
    if ops == [] {
      NoPulse(s.panes[id]);
    } else {
      var init, op := ops[..|ops| - 1], ops[|ops| - 1];
      var r := Run(s, init);
      SurvivesInit(s, ops, id);
      PulsesDecide(s, init, id);
      assert op in ops;
      if Reaches(r, op, id) {
        StepReaches(r, op, id);
        OutputReaches(r, op, id, s.panes[id], Pulses(s, init, id));
        PulsedToSettled(s.panes[id], EffectOf(r, op, id), Pulses(s, ops, id));
      } else {
        StepPasses(r, op, id);
      }
    }
  }

  lemma NoPulse(e: Pane)
    requires Followed(e)
    ensures PulsedTo(e, e, 0)
  {
  }

  lemma OutputReaches(s: State, op: Op, id: string, e: Pane, pulses: nat)
    requires OutputOnly(op, id) && Reaches(s, op, id) && id in s.panes && PulsedTo(e, s.panes[id], pulses)
    ensures PulsedTo(e, EffectOf(s, op, id).pane, if op.OpOutput? then pulses + 1 else pulses)
  {
    if op.OpOutput? {
      PulseStep(e, s.panes[id], pulses, op.now);
      hide OutputEffect, PulsedTo;
    }
  }

  /**
   A heartbeat of its agent that brings no verdict on the turn, with or without a log, and finds no prompt dims an
   active pane exactly when its last output is older than the limit. It alerts nobody and keeps the agent and the work
   clock, and the next pulse gives back the very status that silence took.
   */
  lemma SilenceIsUndone(s: State, id: string, key: string, history: Option<Snapshot>, now: nat, later: nat)
    requires id in s.panes && id !in s.retired && IsKnownAgentKey(key)
    requires Followed(s.panes[id]) && s.panes[id].agentKey == Some(key) && IsActive(s.panes[id].status)
    requires s.panes[id].status != WaitingForInput && ActivityOf(history).None?
    ensures var e, t := s.panes[id], Heartbeat(s, id, Some(key), history, false, now);
            var silent := e.lastOutput > 0 && SatSub(now, e.lastOutput) > s.cfg.idleAfter;
            && id in t.panes && t.queued == s.queued
            && t.panes[id].status == (if silent then Idle else e.status)
            && t.panes[id].agentKey == e.agentKey && t.panes[id].workStarted == e.workStarted
            && var r := Output(t, id, later, None);
               id in r.panes && (silent ==> r.panes[id].status == e.status && r.panes[id].workStarted == e.workStarted)
  {
    hide Commit;
    var e := s.panes[id];
    var f := HeartbeatEffect(e, Some(key), history, false, now, s.cfg);
    QuietEffect(e, key, history, now, s.cfg);
    hide HeartbeatEffect;
    CommitFacts(s, id, f, false);
    var t := Heartbeat(s, id, Some(key), history, false, now);
    CommitFacts(t, id, OutputEffect(t.panes[id], later), true);
  }

  lemma QuietEffect(e: Pane, key: string, history: Option<Snapshot>, now: nat, cfg: Config)
    requires Followed(e) && e.agentKey == Some(key) && IsKnownAgentKey(key)
             && (e.status == Working || e.status == Thinking)
    requires ActivityOf(history).None?
    ensures var f := HeartbeatEffect(e, Some(key), history, false, now, cfg);
            var silent := e.lastOutput > 0 && SatSub(now, e.lastOutput) > cfg.idleAfter;
            var p := f.pane;
            && f.alerts == []
            && p == e.(rawFg := Some(key), sessionId := p.sessionId, taskTitle := p.taskTitle, rawPrompt := p.rawPrompt,
                       historyTimestamp := p.historyTimestamp, status := if silent then Idle else e.status,
                       demotedFromWorking := if silent then e.status == Working else e.demotedFromWorking)
            && (history.None? ==> p.historyTimestamp == e.historyTimestamp)
  {
    hide IsKnownAgentKey, TurnTick;
    var p := AbsorbHistory(TrackForeground(e, Some(key)).pane, history).pane;
    QuietTurn(p, history, now, cfg);
  }

  lemma QuietTurn(e: Pane, history: Option<Snapshot>, now: nat, cfg: Config)
    requires (e.status == Working || e.status == Thinking) && ActivityOf(history).None?
    ensures var f := TurnTick(e, history, false, now, cfg);
            var silent := e.lastOutput > 0 && SatSub(now, e.lastOutput) > cfg.idleAfter;
            && f.alerts == []
            && f.pane == if silent then e.(status := Idle, demotedFromWorking := e.status == Working) else e
  {
    hide Notify;
  }
}
