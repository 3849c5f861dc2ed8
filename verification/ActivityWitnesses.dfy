/** Two runs of the tracker that end otherwise than its comments suggest, for every configuration. */
module ActivityWitnesses {
  import opened Util
  import opened AgentActivity
  import opened ActivityRuns
  import opened ActivityPinning
  import opened ActivityPulses

  const ID := "pane"
  const KEY := "omp"
  const OTHER := "codex"

  function Record(timestamp: nat, activity: TurnStatus): Option<Snapshot> {
    Some(Snapshot("title", "session", timestamp, "prompt", Some(activity)))
  }

  function Seen(key: string, history: Option<Snapshot>, now: nat): Op {
    OpHeartbeat(ID, Some(key), history, false, now)
  }

  function Pulse(now: nat): Op {
    OpOutput(ID, now, None)
  }

  /** What a followed pane shows, as far as the two runs look at it. */
  ghost predicate Shows(s: State, key: string, status: Status, lastOutput: nat, clock: Option<nat>, demoted: bool) {
    && ID in s.panes && ID !in s.retired
    && var e := s.panes[ID];
       && e.agentKey == Some(key) && !e.pluginConnected && !e.startupPending
       && (e.status, e.lastOutput, e.workStarted, e.demotedFromWorking) == (status, lastOutput, clock, demoted)
  }

  ghost predicate Stamped(s: State, stamp: Option<nat>, acknowledged: Option<nat>) {
    ID in s.panes && s.panes[ID].historyTimestamp == stamp && s.panes[ID].acknowledged == acknowledged
  }

  lemma OneStep(s: State, op: Op)
    requires Reaches(s, op, ID) && ID !in s.retired
    ensures var t := Step(s, op);
            && ID in t.panes && ID !in t.retired && t.cfg == s.cfg
            && t.panes[ID] == Settled(EffectOf(s, op, ID))
  {
    hide Step, EffectOf, Removes;
    StepReaches(s, op, ID);
    assert !Removes(s, op, ID) by { ReachesKeeps(s, op); }
    StaysLive(s, op, ID);
  }

  lemma ReachesKeeps(s: State, op: Op)
    requires Reaches(s, op, ID)
    ensures !Removes(s, op, ID)
  {
  }

  /** Detected, two pulses, silence: an idle pane whose work clock runs, marked as demoted. */
  function Dimmed(cfg: Config): seq<Op> {
    [Seen(KEY, None, 0), Pulse(1), Pulse(2), Seen(KEY, None, 3 + cfg.idleAfter)]
  }

  lemma RunOfFour(s: State, a: Op, b: Op, c: Op, d: Op)
    ensures Run(s, [a, b, c, d]) == Step(Step(Step(Step(s, a), b), c), d)
  {
    hide Step;
    assert [a, b, c, d] == [a, b, c] + [d] && [a, b, c] == [a, b] + [c] && [a, b] == [a] + [b] && [a] == [] + [a];
    RunSnoc(s, [], a);
    RunSnoc(s, [a], b);
    RunSnoc(s, [a, b], c);
    RunSnoc(s, [a, b, c], d);
  }

  lemma DimmedShows(cfg: Config)
    ensures var s := Run(NewState(cfg), Dimmed(cfg));
            && Shows(s, KEY, Idle, 2, Some(2), true) && Stamped(s, None, None) && s.cfg == cfg
  {
    var s0 := NewState(cfg);
    RunOfFour(s0, Seen(KEY, None, 0), Pulse(1), Pulse(2), Seen(KEY, None, 3 + cfg.idleAfter));
    hide Run;
    Detected(s0, KEY, 0);
    var s1 := Step(s0, Seen(KEY, None, 0));
    Pulsed(s1, KEY, Idle, 0, None, false, 1);
    var s2 := Step(s1, Pulse(1));
    Pulsed(s2, KEY, Thinking, 1, None, false, 2);
    var s3 := Step(s2, Pulse(2));
    Silenced(s3, KEY, 2, Some(2), false, 3 + cfg.idleAfter);
  }

  /** A heartbeat without a record that first sees an agent claims the pane, idle, and keeps the mark of a demotion. */
  lemma Detected(s: State, key: string, now: nat)
    requires ID !in s.retired && IsKnownAgentKey(key) && Found(s, ID).agentKey != Some(key)
    requires !Found(s, ID).pluginConnected && !Found(s, ID).startupPending
    ensures var t, e := Step(s, Seen(key, None, now)), Found(s, ID);
            && Shows(t, key, Idle, e.lastOutput, None, e.demotedFromWorking) && Stamped(t, None, e.acknowledged)
            && t.cfg == s.cfg
  {
    DetectEffect(Found(s, ID), key, now, s.cfg);
    hide Step, HeartbeatEffect, IsKnownAgentKey;
    OneStep(s, Seen(key, None, now));
  }

  lemma DetectEffect(e: Pane, key: string, now: nat, cfg: Config)
    requires IsKnownAgentKey(key) && e.agentKey != Some(key) && !e.pluginConnected
    ensures HeartbeatEffect(e, Some(key), None, false, now, cfg).pane
         == e.(rawFg := Some(key), agentKey := Some(key), status := Idle, workStarted := None, historyTimestamp := None)
  {
    hide TurnTick, IsKnownAgentKey;
    IdleTurn(DetectAgent(TrackForeground(e, Some(key)).pane, key).pane, now, cfg);
  }

  lemma IdleTurn(e: Pane, now: nat, cfg: Config)
    requires e.status == Idle
    ensures TurnTick(e, None, false, now, cfg).pane == e
  {
    hide Notify;
  }

  lemma Pulsed(s: State, key: string, status: Status, lastOutput: nat, clock: Option<nat>, demoted: bool, now: nat)
    requires Shows(s, key, status, lastOutput, clock, demoted)
    ensures var t := Step(s, Pulse(now));
            && Stamped(t, s.panes[ID].historyTimestamp, s.panes[ID].acknowledged) && t.cfg == s.cfg
            && (status == Idle && !demoted ==> Shows(t, key, Thinking, now, clock, false))
            && (status == Idle && demoted ==> Shows(t, key, Working, now, clock, false))
            && (status == Thinking ==> Shows(t, key, Working, now, if clock.Some? then clock else Some(now), demoted))
  {
    hide Step;
    OneStep(s, Pulse(now));
  }

  lemma Silenced(s: State, key: string, lastOutput: nat, clock: Option<nat>, demoted: bool, now: nat)
    requires Shows(s, key, Working, lastOutput, clock, demoted) && IsKnownAgentKey(key)
    requires lastOutput > 0 && now > lastOutput + s.cfg.idleAfter
    ensures var t := Step(s, Seen(key, None, now));
            && Shows(t, key, Idle, lastOutput, clock, true)
            && Stamped(t, s.panes[ID].historyTimestamp, s.panes[ID].acknowledged) && t.cfg == s.cfg
  {
    QuietEffect(s.panes[ID], key, None, now, s.cfg);
    hide Step, HeartbeatEffect, IsKnownAgentKey;
    OneStep(s, Seen(key, None, now));
  }

  /** The mark of a demotion outlives the agent: the first pulse of the next agent shows Working, not Thinking. */
  lemma FirstPulseOfNextAgentWorks(cfg: Config)
    ensures var s := Run(NewState(cfg), Dimmed(cfg));
            var t := Step(s, Seen(OTHER, None, 4 + cfg.idleAfter));
            && Shows(t, OTHER, Idle, 2, None, true)
            && Shows(Step(t, Pulse(5 + cfg.idleAfter)), OTHER, Working, 5 + cfg.idleAfter, None, false)
  {
    hide Run, Step, Dimmed;
    var s := Run(NewState(cfg), Dimmed(cfg));
    DimmedShows(cfg);
    Detected(s, OTHER, 4 + cfg.idleAfter);
    Pulsed(Step(s, Seen(OTHER, None, 4 + cfg.idleAfter)), OTHER, Idle, 2, None, true, 5 + cfg.idleAfter);
  }

  lemma FinishEffect(e: Pane, h: Snapshot, now: nat, cfg: Config)
    requires e.agentKey == Some(KEY) && !e.pluginConnected && !e.startupPending
    requires e.status == Idle && e.acknowledged != Some(h.timestamp) && h.activity == Some(TurnCompleted)
    ensures var p := HeartbeatEffect(e, Some(KEY), Some(h), false, now, cfg).pane;
            && (p.agentKey, p.pluginConnected, p.startupPending, p.lastOutput, p.demotedFromWorking, p.workStarted)
            == (e.agentKey, false, false, e.lastOutput, e.demotedFromWorking, None)
            && p.historyTimestamp == Some(h.timestamp)
            && p.status == (if e.workStarted.Some? then Completed else Idle)
            && p.acknowledged == (if e.workStarted.Some? then e.acknowledged else Some(h.timestamp))
  {
    hide TurnTick;
    var p := AbsorbHistory(TrackForeground(e, Some(KEY)).pane, Some(h)).pane;
    FinishTurn(p, h, now, cfg);
  }

  lemma FinishTurn(e: Pane, h: Snapshot, now: nat, cfg: Config)
    requires e.historyTimestamp == Some(h.timestamp)
    requires e.status == Idle && e.acknowledged != Some(h.timestamp) && h.activity == Some(TurnCompleted)
    ensures TurnTick(e, Some(h), false, now, cfg).pane
         == if e.workStarted.Some? then e.(status := Completed, workStarted := None)
             else e.(acknowledged := Some(h.timestamp))
  {
    hide Notify;
  }

  lemma Finished(s: State, now: nat)
    requires Shows(s, KEY, Idle, 2, Some(2), true) && Stamped(s, None, None)
    ensures var t := Step(s, Seen(KEY, Record(1, TurnCompleted), now));
            Shows(t, KEY, Completed, 2, None, true) && Stamped(t, Some(1), None) && t.cfg == s.cfg
  {
    FinishEffect(s.panes[ID], Record(1, TurnCompleted).value, now, s.cfg);
    hide Step, HeartbeatEffect;
    OneStep(s, Seen(KEY, Record(1, TurnCompleted), now));
  }

  lemma Acknowledged(s: State)
    requires Shows(s, KEY, Completed, 2, None, true) && Stamped(s, Some(1), None)
    ensures var t := Step(s, OpAcknowledge(ID));
            Shows(t, KEY, Idle, 2, None, true) && Stamped(t, Some(1), Some(1)) && t.cfg == s.cfg
  {
    hide Step;
    OneStep(s, OpAcknowledge(ID));
  }

  lemma WorkSeen(s: State, lastOutput: nat, now: nat)
    requires Shows(s, KEY, Working, lastOutput, None, false) && Stamped(s, Some(1), Some(1))
    ensures var t := Step(s, Seen(KEY, Record(2, TurnWorking), now));
            Shows(t, KEY, Working, lastOutput, None, false) && Stamped(t, Some(2), Some(1)) && t.cfg == s.cfg
  {
    hide Step;
    OneStep(s, Seen(KEY, Record(2, TurnWorking), now));
  }

  lemma Lost(s: State, lastOutput: nat, now: nat)
    requires Shows(s, KEY, Idle, lastOutput, None, true) && Stamped(s, Some(2), Some(1))
    ensures var t := Step(s, Seen(KEY, Record(3, TurnCompleted), now));
            Shows(t, KEY, Idle, lastOutput, None, true) && Stamped(t, Some(3), Some(3))
  {
    FinishEffect(s.panes[ID], Record(3, TurnCompleted).value, now, s.cfg);
    hide Step, HeartbeatEffect;
    OneStep(s, Seen(KEY, Record(3, TurnCompleted), now));
  }

  /** The turn is finished and acknowledged, and a pulse shows the pane Working again, without a work clock. */
  function Clockless(cfg: Config): seq<Op> {
    var d := cfg.idleAfter;
    Dimmed(cfg) + [Seen(KEY, Record(1, TurnCompleted), 4 + d)] + [OpAcknowledge(ID)] + [Pulse(5 + d)]
  }

  lemma ClocklessShows(cfg: Config)
    ensures var s := Run(NewState(cfg), Clockless(cfg));
            && Shows(s, KEY, Working, 5 + cfg.idleAfter, None, false) && Stamped(s, Some(1), Some(1)) && s.cfg == cfg
  {
    hide Run, Step, Dimmed;
    var s0, s, d := NewState(cfg), Run(NewState(cfg), Dimmed(cfg)), cfg.idleAfter;
    var finish := Seen(KEY, Record(1, TurnCompleted), 4 + d);
    RunSnoc(s0, Dimmed(cfg), finish);
    RunSnoc(s0, Dimmed(cfg) + [finish], OpAcknowledge(ID));
    RunSnoc(s0, Dimmed(cfg) + [finish] + [OpAcknowledge(ID)], Pulse(5 + d));
    DimmedShows(cfg);
    Finished(s, 4 + d);
    Acknowledged(Step(s, finish));
    Pulsed(Step(Step(s, finish), OpAcknowledge(ID)), KEY, Idle, 2, None, true, 5 + d);
  }

  /**
   A newer turn can be lost: the pane is pinned and Working without a work clock when the log shows the next turn at
   work; one heartbeat past the silence limit finds no record; and the turn's completion is pinned as another pane's.
   */
  lemma NewerTurnCanBeLost(cfg: Config) returns (work: Op, quiet: Op, completion: Op)
    ensures work.OpHeartbeat? && work.history == Record(2, TurnWorking) && work.id == ID && work.fg == Some(KEY)
    ensures completion.OpHeartbeat? && completion.history == Record(3, TurnCompleted) && completion.id == ID
            && completion.fg == Some(KEY)
    ensures var pinned := Run(NewState(cfg), Clockless(cfg));
            && TurnGoesOn(quiet, ID, KEY, 1) && !Removes(Step(pinned, work), quiet, ID)
            && IsPinned(pinned, 1) && IsBusy(Step(pinned, work), 1)
            && IsPinned(Step(Step(Step(pinned, work), quiet), completion), 3)
  {
    hide Run, Step, Clockless, IsPinned, IsBusy, Shows, Stamped;
    var pinned, d := Run(NewState(cfg), Clockless(cfg)), cfg.idleAfter;
    work, quiet := Seen(KEY, Record(2, TurnWorking), 6 + d), Seen(KEY, None, 6 + 2 * d);
    completion := Seen(KEY, Record(3, TurnCompleted), 7 + 2 * d);
    ClocklessShows(cfg);
    ShowsPinned(pinned, Working, 5 + d, None, false, 1);
    WorkSeen(pinned, 5 + d, 6 + d);
    var working := Step(pinned, work);
    ShowsBusy(working, 5 + d);
    StampedIsThere(working, Some(2), Some(1));
    Silenced(working, KEY, 5 + d, None, false, 6 + 2 * d);
    Lost(Step(working, quiet), 5 + d, 7 + 2 * d);
    ShowsPinned(Step(Step(working, quiet), completion), Idle, 5 + d, None, true, 3);
  }

  lemma StampedIsThere(s: State, stamp: Option<nat>, acknowledged: Option<nat>)
    requires Stamped(s, stamp, acknowledged)
    ensures ID in s.panes && s.panes[ID].historyTimestamp == stamp && s.panes[ID].acknowledged == acknowledged
  {
  }

  lemma ShowsPinned(s: State, status: Status, lastOutput: nat, clock: Option<nat>, demoted: bool, t: nat)
    requires Shows(s, KEY, status, lastOutput, clock, demoted) && Stamped(s, Some(t), Some(t))
    requires status != Completed && status != Error
    ensures IsPinned(s, t)
  {
  }

  lemma ShowsBusy(s: State, lastOutput: nat)
    requires Shows(s, KEY, Working, lastOutput, None, false) && Stamped(s, Some(2), Some(1))
    ensures IsBusy(s, 1)
  {
  }

  ghost predicate IsPinned(s: State, t: nat) {
    ID in s.panes && Pinned(s.panes[ID], KEY, t)
  }

  ghost predicate IsBusy(s: State, t: nat) {
    ID in s.panes && Busy(s.panes[ID], KEY, t) && s.panes[ID].workStarted.None?
  }
}
