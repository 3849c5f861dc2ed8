/** What each operation leaves: the pane's record, the alerts it queues, what it announces and what it hands over. */
module ActivityOutcomes {
  import opened Util
  import opened AgentActivity
  import opened ActivityRuns
  import opened ActivityCompletion
  import Wire = LifecycleWire

  // ---------------------------------------------------------------------------------------------
  // Vocabulary
  // ---------------------------------------------------------------------------------------------

  /** The switch is on, and more than the cooldown has passed since the last alert of this kind. */
  predicate GetsThrough(e: Pane, kind: NotifyKind, switch: bool, now: nat, cfg: Config) {
    switch && (kind in e.lastNotified ==> e.lastNotified[kind] + cfg.cooldown < now)
  }

  /** The record with the alert stamped on it, if it gets through. */
  function Stamped(e: Pane, kind: NotifyKind, switch: bool, now: nat, cfg: Config): Pane {
    if GetsThrough(e, kind, switch, now, cfg) then e.(lastNotified := e.lastNotified[kind := now]) else e
  }

  /** The alert, for the turn that began with the work clock, if it gets through and there is a service. */
  function Rung(e: Pane, kind: NotifyKind, switch: bool, now: nat, cfg: Config): seq<Alert> {
    if GetsThrough(e, kind, switch, now, cfg) && cfg.hasService
    then [Alert(e.id, kind, e.sessionId, if e.workStarted.Some? then e.workStarted.value else now, now)]
    else []
  }

  /**
   Pane `id` has the record `p` and is announced if `told`, unless its announcement would repeat the last one; these
   alerts are queued; everything else is as before.
   */
  ghost predicate Leaves(s: State, t: State, id: string, p: Pane, told: bool, alerts: seq<Alert>) {
    var signature := Signature(p.status, p.agentKey, p.rawFg, p.sessionId, p.taskTitle, p.rawPrompt, p.generation);
    && t.panes == s.panes[id := if told then p.(lastEmitted := Some(signature)) else p]
    && t.emitted == s.emitted + (if told && p.lastEmitted != Some(signature) then [Emission(id, signature)] else [])
    && t.queued == s.queued + alerts
    && t.delivered + t.pending == s.delivered + s.pending + alerts
    && (t.retired, t.generations, t.nextGeneration, t.cfg) == (s.retired, s.generations, s.nextGeneration, s.cfg)
  }

  /** The token of a read loop is that of the pane's present registration; callers without one always count. */
  predicate Current(s: State, id: string, generation: Option<nat>) {
    match generation
    case Some(g) => id in s.generations && s.generations[id] == g
    case None => true
  }

  predicate KnownAgent(key: string) {
    key == "claude" || key == "codex" || key == "opencode" || key == "gemini" || key == "qwen" || key == "aider"
    || key == "cursor" || key == "freebuff" || key == "omp"
  }

  lemma KnownAgents(key: string)
    ensures IsKnownAgentKey(key) <==> KnownAgent(key)
  {
  }

  lemma NotifyRings(e: Pane, kind: NotifyKind, now: nat, cfg: Config)
    ensures var switch := match kind case NeedsAttention => cfg.needsAttention case ErrorAlert => cfg.error
                                     case Started => true case CancelledAlert => true;
            Notify(e, kind, now, cfg) == Effect(Stamped(e, kind, switch, now, cfg), false,
                                                Rung(e, kind, switch, now, cfg))
  {
  }

  lemma CommitLeaves(s: State, id: string, f: Effect, deliverFirst: bool)
    ensures Leaves(s, Commit(s, id, f, deliverFirst), id, f.pane, f.changed, f.alerts)
    ensures deliverFirst || (f.changed && f.pane.lastEmitted != Some(SignatureOf(f.pane))) ==>
            Commit(s, id, f, deliverFirst).pending == []
  {
    CommitFacts(s, id, f, deliverFirst);
  }

  /** Inserting a blank record first makes no difference. */
  lemma InsertedLeaves(s: State, t: State, id: string, p: Pane, told: bool, alerts: seq<Alert>)
    requires Leaves(Ensure(s, id), t, id, p, told, alerts)
    ensures Leaves(s, t, id, p, told, alerts)
  {
  }

  // ---------------------------------------------------------------------------------------------
  // Events the agent pushes
  // ---------------------------------------------------------------------------------------------

  /** A known agent key is taken over if the pane has none, a session id always. */
  function Adopted(e: Pane, push: Push): Pane {
    var takes := push.agent.Some? && KnownAgent(push.agent.value) && e.agentKey.None?;
    e.(agentKey := if takes then push.agent else e.agentKey,
       rawFg := if takes && e.rawFg.None? then push.agent else e.rawFg,
       sessionId := if push.sessionId.Some? then push.sessionId else e.sessionId)
  }

  /** The user has acknowledged the turn the pane is on. */
  predicate TurnAcknowledged(e: Pane) {
    e.acknowledged.Some? && e.acknowledged == e.historyTimestamp
  }

  lemma PushLeaves(s: State, id: string, push: Push, g: Option<nat>, now: nat)
    requires id !in s.retired && Current(s, id, g)
    ensures var e, t := Found(s, id), Lifecycle(s, id, push, g, now);
            var f := PushEffect(e, push, now, s.cfg);
            Leaves(s, t, id, f.pane, f.changed, f.alerts) && t.pending == []
    ensures Adopt(Found(s, id), push) == Adopted(Found(s, id), push)
  {
    hide Commit, PushEffect, Leaves, IsKnownAgentKey, KnownAgent;
    var e := Found(s, id);
    var f := PushEffect(e, push, now, s.cfg);
    if push.agent.Some? { KnownAgents(push.agent.value); }
    CommitLeaves(Ensure(s, id), id, f, true);
    InsertedLeaves(s, Lifecycle(s, id, push, g, now), id, f.pane, f.changed, f.alerts);
  }

  /** A pushed `complete` completes the pane and stops its work clock, silently, unless the turn was acknowledged. */
  lemma PushedComplete(s: State, id: string, push: Push, g: Option<nat>, now: nat)
    requires id !in s.retired && Current(s, id, g) && !Found(s, id).pluginConnected && push.kind == Wire.Complete
    ensures var a, t := Adopted(Found(s, id), push), Lifecycle(s, id, push, g, now);
            && t.pending == []
            && if TurnAcknowledged(a) || a.status == Completed then Leaves(s, t, id, a, false, [])
               else Leaves(s, t, id, a.(status := Completed, workStarted := None), true, [])
  {
    PushLeaves(s, id, push, g, now);
    hide Leaves, Lifecycle, Adopt, Adopted, Found;
  }

  /** A pushed `request` makes the pane wait from now on and asks for attention, unless it waits already. */
  lemma PushedRequest(s: State, id: string, push: Push, g: Option<nat>, now: nat)
    requires id !in s.retired && Current(s, id, g) && !Found(s, id).pluginConnected && push.kind == Wire.Request
    ensures var a, t := Adopted(Found(s, id), push), Lifecycle(s, id, push, g, now);
            var w := a.(status := WaitingForInput, waitingSince := Some(now));
            && t.pending == []
            && if TurnAcknowledged(a) || a.status == WaitingForInput then Leaves(s, t, id, a, false, [])
               else Leaves(s, t, id, Stamped(w, NeedsAttention, s.cfg.needsAttention, now, s.cfg), true,
                           Rung(w, NeedsAttention, s.cfg.needsAttention, now, s.cfg))
  {
    PushLeaves(s, id, push, g, now);
    NotifyRings(Adopted(Found(s, id), push).(status := WaitingForInput, waitingSince := Some(now)), NeedsAttention, now,
                s.cfg);
    hide Leaves, Lifecycle, Adopt, Adopted, Found, Notify, Stamped, Rung;
  }

  /** A pushed `error` makes the pane fail and alerts, unless it has failed already. */
  lemma PushedError(s: State, id: string, push: Push, g: Option<nat>, now: nat)
    requires id !in s.retired && Current(s, id, g) && !Found(s, id).pluginConnected && push.kind == Wire.Error
    ensures var a, t := Adopted(Found(s, id), push), Lifecycle(s, id, push, g, now);
            var w := a.(status := Error);
            && t.pending == []
            && if TurnAcknowledged(a) || a.status == Error then Leaves(s, t, id, a, false, [])
               else Leaves(s, t, id, Stamped(w, ErrorAlert, s.cfg.error, now, s.cfg), true,
                           Rung(w, ErrorAlert, s.cfg.error, now, s.cfg))
  {
    PushLeaves(s, id, push, g, now);
    NotifyRings(Adopted(Found(s, id), push).(status := Error), ErrorAlert, now, s.cfg);
    hide Leaves, Lifecycle, Adopt, Adopted, Found, Notify, Stamped, Rung;
  }

  /** A pane whose plugin is connected hears no event; a removed pane or a stale read loop changes nothing at all. */
  lemma PushIgnored(s: State, id: string, push: Push, g: Option<nat>, now: nat)
    ensures var t := Lifecycle(s, id, push, g, now);
            && (id in s.retired || !Current(s, id, g) ==> t == s)
            && (id !in s.retired && Current(s, id, g) && Found(s, id).pluginConnected ==>
                Leaves(s, t, id, Found(s, id), false, []) && t.pending == [])
  {
    if id !in s.retired && Current(s, id, g) {
      PushLeaves(s, id, push, g, now);
      hide Leaves, Lifecycle, Adopt, Adopted, ApplyStatus;
    }
  }

  // ---------------------------------------------------------------------------------------------
  // Heartbeats that see the pane's agent
  // ---------------------------------------------------------------------------------------------

  /** The pane saw its turn start: its work clock runs, or it shows activity. */
  predicate Proven(e: Pane) {
    e.workStarted.Some? || e.status == Working || e.status == Thinking || e.status == WaitingForInput
  }

  /** The snapshot says something new about the session. */
  predicate News(e: Pane, history: Option<Snapshot>) {
    history.Some? && (|| e.sessionId != Some(history.value.sessionId)
                      || e.historyTimestamp != Some(history.value.timestamp)
                      || e.taskTitle != Some(history.value.taskTitle))
  }

  /** What the heartbeat notes before it looks at the turn: the foreground, the confirmed launch, and the snapshot. */
  function Noted(e: Pane, key: string, history: Option<Snapshot>): Pane {
    var q := e.(rawFg := Some(key), startupPending := false,
                startupSince := if e.startupPending then None else e.startupSince);
    if News(e, history)
    then q.(sessionId := Some(history.value.sessionId), taskTitle := Some(history.value.taskTitle),
            rawPrompt := Some(history.value.rawPrompt), historyTimestamp := Some(history.value.timestamp))
    else q
  }

  predicate Noteworthy(e: Pane, key: string, history: Option<Snapshot>) {
    e.rawFg != Some(key) || e.startupPending || News(e, history)
  }

  /** After more silence than the limit, activity falls to Idle, and the pane remembers whether it was Working. */
  function Dimmed(e: Pane, now: nat, cfg: Config): Pane {
    if (e.status == Working || e.status == Thinking) && e.lastOutput > 0 && e.lastOutput + cfg.idleAfter < now
    then e.(demotedFromWorking := e.status == Working, status := Idle) else e
  }

  /** At work, on a clock that runs since it was started, or since now. */
  function AtWork(e: Pane, now: nat): Pane {
    e.(status := Working, workStarted := if e.workStarted.None? then Some(now) else e.workStarted)
  }

  predicate PromptIsNew(e: Pane, tailWaiting: bool) {
    tailWaiting && e.status != WaitingForInput
  }

  /** A prompt in the output makes the pane wait from now on. */
  function Waits(e: Pane, now: nat): Pane {
    e.(status := WaitingForInput, waitingSince := Some(now))
  }

  function Prompted(e: Pane, tailWaiting: bool, now: nat, cfg: Config): Pane {
    if PromptIsNew(e, tailWaiting) then Stamped(Waits(e, now), NeedsAttention, cfg.needsAttention, now, cfg) else e
  }

  function PromptAlert(e: Pane, tailWaiting: bool, now: nat, cfg: Config): seq<Alert> {
    if PromptIsNew(e, tailWaiting) then Rung(Waits(e, now), NeedsAttention, cfg.needsAttention, now, cfg) else []
  }

  /** A heartbeat of a live pane whose agent `key` is in the foreground, as it has been. */
  ghost predicate SeesAgent(s: State, id: string, key: string) {
    && id in s.panes && id !in s.retired && KnownAgent(key)
    && s.panes[id].agentKey == Some(key) && !s.panes[id].pluginConnected
  }

  lemma TickLeaves(s: State, id: string, key: string, history: Option<Snapshot>, tailWaiting: bool, now: nat)
    requires SeesAgent(s, id, key)
    ensures var e, t := s.panes[id], Heartbeat(s, id, Some(key), history, tailWaiting, now);
            var f := TurnTick(Noted(e, key, history), history, tailWaiting, now, s.cfg);
            Leaves(s, t, id, f.pane, Noteworthy(e, key, history) || f.changed, f.alerts)
  {
    hide Commit, TurnTick, Leaves, IsKnownAgentKey, KnownAgent;
    KnownAgents(key);
    var e := s.panes[id];
    var f := HeartbeatEffect(e, Some(key), history, tailWaiting, now, s.cfg);
    CommitLeaves(s, id, f, false);
    var tracked := TrackForeground(e, Some(key)).pane;
    assert AbsorbHistory(DetectAgent(ConfirmLaunch(tracked, key).pane, key).pane, history).pane
        == Noted(e, key, history);
  }

  lemma PromptLeaves(e: Pane, authoritative: Option<TurnStatus>, tailWaiting: bool, now: nat, cfg: Config)
    requires authoritative != Some(TurnCompleted) && authoritative != Some(TurnError)
    requires e.status == WaitingForInput && !tailWaiting ==> authoritative.Some?
    ensures CheckTail(e, authoritative, tailWaiting, now, cfg)
         == Effect(Prompted(e, tailWaiting, now, cfg), PromptIsNew(e, tailWaiting),
                   PromptAlert(e, tailWaiting, now, cfg))
  {
    NotifyRings(Waits(e, now), NeedsAttention, now, cfg);
    hide Notify;
  }

  /** A finished turn that the pane never saw start: its record is pinned, and only a prompt in the output counts. */
  lemma ForeignTick(e: Pane, h: Snapshot, tailWaiting: bool, now: nat, cfg: Config)
    requires !Proven(e) && h.activity.Some? && h.activity != Some(TurnWorking)
    requires e.historyTimestamp == Some(h.timestamp)
    ensures var q := e.(acknowledged := Some(h.timestamp));
            TurnTick(e, Some(h), tailWaiting, now, cfg)
            == Effect(Prompted(q, tailWaiting, now, cfg), PromptIsNew(q, tailWaiting),
                      PromptAlert(q, tailWaiting, now, cfg))
  {
    PromptLeaves(e.(acknowledged := Some(h.timestamp)), None, tailWaiting, now, cfg);
    hide CheckTail, Prompted, PromptAlert;
    assert forall a: seq<Alert> :: [] + a == a;
  }

  lemma SilenceDims(e: Pane, authoritative: Option<TurnStatus>, now: nat, cfg: Config)
    requires authoritative != Some(TurnWorking)
    ensures Silence(e, authoritative, now, cfg) == Effect(Dimmed(e, now, cfg), Dimmed(e, now, cfg) != e, [])
  {
  }

  /** A turn the user has acknowledged: the record is not applied again, and the silence rule stays in force. */
  lemma AcknowledgedTick(e: Pane, h: Snapshot, tailWaiting: bool, now: nat, cfg: Config)
    requires Proven(e) && h.activity.Some? && h.activity != Some(TurnWorking)
    requires e.historyTimestamp == Some(h.timestamp) && e.acknowledged == Some(h.timestamp)
    ensures var q, heeds := Dimmed(e, now, cfg), tailWaiting && h.activity == Some(TurnWaiting);
            TurnTick(e, Some(h), tailWaiting, now, cfg)
            == Effect(Prompted(q, heeds, now, cfg), q != e || PromptIsNew(q, heeds), PromptAlert(q, heeds, now, cfg))
  {
    var q, heeds := Dimmed(e, now, cfg), tailWaiting && h.activity == Some(TurnWaiting);
    SilenceDims(e, h.activity, now, cfg);
    AcknowledgedTail(q, h.activity.value, tailWaiting, now, cfg);
    hide Silence, CheckTail, Dimmed, Prompted, PromptAlert, PromptIsNew, Notify;
    assert forall a: seq<Alert> :: [] + a == a;
  }

  lemma AcknowledgedTail(e: Pane, record: TurnStatus, tailWaiting: bool, now: nat, cfg: Config)
    requires record != TurnWorking
    ensures var heeds := tailWaiting && record == TurnWaiting;
            CheckTail(e, Some(record), tailWaiting, now, cfg)
            == Effect(Prompted(e, heeds, now, cfg), PromptIsNew(e, heeds), PromptAlert(e, heeds, now, cfg))
  {
    if record == TurnWaiting {
      PromptLeaves(e, Some(record), tailWaiting, now, cfg);
    } else {
      assert record.TurnCompleted? || record.TurnError?;
    }
  }

  lemma HeededTick(e: Pane, h: Snapshot, tailWaiting: bool, now: nat, cfg: Config)
    requires Proven(e) && (h.activity == Some(TurnCompleted) || h.activity == Some(TurnError))
    requires e.historyTimestamp == Some(h.timestamp) && e.acknowledged != Some(h.timestamp)
    ensures TurnTick(e, Some(h), tailWaiting, now, cfg) == ApplyStatus(e, h.activity.value, now, cfg)
  {
    hide Notify;
    var f := ApplyStatus(e, h.activity.value, now, cfg);
    assert f.pane.status == Completed || f.pane.status == Error;
    assert Silence(f.pane, h.activity, now, cfg) == Effect(f.pane, false, []);
    assert CheckTail(f.pane, h.activity, tailWaiting, now, cfg) == Effect(f.pane, false, []);
    hide ApplyStatus, Silence, CheckTail;
    assert f.alerts + [] == f.alerts;
  }

  /** What a record of a turn that is over does when the pane does not heed it. */
  ghost predicate NotHeeded(s: State, t: State, id: string, key: string, h: Snapshot, tailWaiting: bool, now: nat)
    requires SeesAgent(s, id, key) && h.activity.Some? && h.activity != Some(TurnWorking)
  {
    var q := Noted(s.panes[id], key, Some(h));
    var told := Noteworthy(s.panes[id], key, Some(h));
    if !Proven(q) then
      var pinned := q.(acknowledged := Some(h.timestamp));
      Leaves(s, t, id, Prompted(pinned, tailWaiting, now, s.cfg), told || PromptIsNew(pinned, tailWaiting),
             PromptAlert(pinned, tailWaiting, now, s.cfg))
    else
      var d, heeds := Dimmed(q, now, s.cfg), tailWaiting && h.activity == Some(TurnWaiting);
      Leaves(s, t, id, Prompted(d, heeds, now, s.cfg), told || d != q || PromptIsNew(d, heeds),
             PromptAlert(d, heeds, now, s.cfg))
  }

  /** The pane heeds a finished turn if it saw the turn start and the user has not acknowledged it. */
  predicate Heeds(e: Pane, h: Snapshot) {
    Proven(e) && e.acknowledged != Some(h.timestamp)
  }

  lemma NotedFacts(e: Pane, key: string, h: Snapshot)
    ensures var q := Noted(e, key, Some(h));
            && q.historyTimestamp == Some(h.timestamp) && q.acknowledged == e.acknowledged
            && q.status == e.status && q.workStarted == e.workStarted && q.sessionId == Some(h.sessionId)
            && q.id == e.id && q.lastNotified == e.lastNotified && q.lastOutput == e.lastOutput
  {
  }

  lemma StampedStatus(e: Pane, kind: NotifyKind, switch: bool, now: nat, cfg: Config)
    ensures Stamped(e, kind, switch, now, cfg).status == e.status
  {
  }

  lemma PromptedStatus(e: Pane, now: nat, cfg: Config)
    ensures Prompted(e, true, now, cfg).status == WaitingForInput
  {
  }

  lemma LeavesStatus(s: State, t: State, id: string, p: Pane, told: bool, alerts: seq<Alert>)
    requires Leaves(s, t, id, p, told, alerts)
    ensures id in t.panes && t.panes[id].status == p.status
  {
  }

  /** Such a record can only dim the pane, or find a prompt. */
  lemma UnheededStatus(s: State, t: State, id: string, key: string, h: Snapshot, tailWaiting: bool, now: nat)
    requires SeesAgent(s, id, key) && h.activity.Some? && h.activity != Some(TurnWorking)
    requires NotHeeded(s, t, id, key, h, tailWaiting, now)
    ensures id in t.panes
    ensures var status := t.panes[id].status;
            status == s.panes[id].status || status == Idle || (tailWaiting && status == WaitingForInput)
  {
    hide Rung, Noteworthy;
  }

  lemma UnheededRecord(s: State, id: string, key: string, h: Snapshot, tailWaiting: bool, now: nat)
    requires SeesAgent(s, id, key) && h.activity.Some? && h.activity != Some(TurnWorking)
    requires !Heeds(s.panes[id], h)
    ensures NotHeeded(s, Heartbeat(s, id, Some(key), Some(h), tailWaiting, now), id, key, h, tailWaiting, now)
  {
    TickLeaves(s, id, key, Some(h), tailWaiting, now);
    NotedFacts(s.panes[id], key, h);
    var q := Noted(s.panes[id], key, Some(h));
    hide Leaves, Heartbeat, Noted, Noteworthy, TurnTick, Prompted, PromptAlert, Dimmed, SeesAgent;
    if Proven(q) {
      AcknowledgedTick(q, h, tailWaiting, now, s.cfg);
    } else {
      ForeignTick(q, h, tailWaiting, now, s.cfg);
    }
  }

  /**
   A record that the turn completed: a pane that saw the turn start and was not acknowledged for it is Completed, its
   clock stops, and nobody is alerted.
   */
  lemma CompletedRecord(s: State, id: string, key: string, h: Snapshot, tailWaiting: bool, now: nat)
    requires SeesAgent(s, id, key) && h.activity == Some(TurnCompleted)
    ensures var e, t := s.panes[id], Heartbeat(s, id, Some(key), Some(h), tailWaiting, now);
            var q, told := Noted(e, key, Some(h)), Noteworthy(e, key, Some(h));
            if !Heeds(e, h) then NotHeeded(s, t, id, key, h, tailWaiting, now)
            else if e.status == Completed then Leaves(s, t, id, q, told, [])
            else Leaves(s, t, id, q.(status := Completed, workStarted := None), true, [])
  {
    var e := s.panes[id];
    if Heeds(e, h) {
      TickLeaves(s, id, key, Some(h), tailWaiting, now);
      NotedFacts(e, key, h);
      hide Leaves, Heartbeat, Noted, Noteworthy, TurnTick, SeesAgent;
      HeededTick(Noted(e, key, Some(h)), h, tailWaiting, now, s.cfg);
    } else {
      UnheededRecord(s, id, key, h, tailWaiting, now);
    }
  }

  /** A record that it failed: such a pane is in Error and alerts, unless the switch or the cooldown forbids it. */
  lemma ErrorRecord(s: State, id: string, key: string, h: Snapshot, tailWaiting: bool, now: nat)
    requires SeesAgent(s, id, key) && h.activity == Some(TurnError)
    ensures var e, t := s.panes[id], Heartbeat(s, id, Some(key), Some(h), tailWaiting, now);
            var q, told := Noted(e, key, Some(h)), Noteworthy(e, key, Some(h));
            var w := q.(status := Error);
            && (if !Heeds(e, h) then NotHeeded(s, t, id, key, h, tailWaiting, now)
                else if e.status == Error then Leaves(s, t, id, q, told, [])
                else Leaves(s, t, id, Stamped(w, ErrorAlert, s.cfg.error, now, s.cfg), true,
                            Rung(w, ErrorAlert, s.cfg.error, now, s.cfg)))
            && (e.status != Error ==> id in t.panes && (t.panes[id].status == Error <==> Heeds(e, h)))
  {
    var e := s.panes[id];
    if Heeds(e, h) {
      TickLeaves(s, id, key, Some(h), tailWaiting, now);
      NotedFacts(e, key, h);
      NotifyRings(Noted(e, key, Some(h)).(status := Error), ErrorAlert, now, s.cfg);
      hide Leaves, Heartbeat, Noted, Noteworthy, TurnTick, SeesAgent, Stamped, Rung, Notify;
      HeededTick(Noted(e, key, Some(h)), h, tailWaiting, now, s.cfg);
      if e.status != Error {
        var w := Noted(e, key, Some(h)).(status := Error);
        StampedStatus(w, ErrorAlert, s.cfg.error, now, s.cfg);
        LeavesStatus(s, Heartbeat(s, id, Some(key), Some(h), tailWaiting, now), id,
                     Stamped(w, ErrorAlert, s.cfg.error, now, s.cfg), true,
                     Rung(w, ErrorAlert, s.cfg.error, now, s.cfg));
      }
    } else {
      UnheededRecord(s, id, key, h, tailWaiting, now);
      UnheededStatus(s, Heartbeat(s, id, Some(key), Some(h), tailWaiting, now), id, key, h, tailWaiting, now);
    }
  }

  lemma WaitingTick(e: Pane, h: Snapshot, tailWaiting: bool, now: nat, cfg: Config)
    requires Proven(e) && h.activity == Some(TurnWaiting)
    requires e.historyTimestamp == Some(h.timestamp) && e.acknowledged != Some(h.timestamp)
    ensures TurnTick(e, Some(h), tailWaiting, now, cfg)
         == Effect(Prompted(e, true, now, cfg), PromptIsNew(e, true), PromptAlert(e, true, now, cfg))
  {
    NotifyRings(Waits(e, now), NeedsAttention, now, cfg);
    hide Notify, Stamped, Rung;
    var f := ApplyStatus(e, TurnWaiting, now, cfg);
    assert f == Effect(Prompted(e, true, now, cfg), PromptIsNew(e, true), PromptAlert(e, true, now, cfg));
    assert f.pane.status == WaitingForInput;
    assert Silence(f.pane, h.activity, now, cfg) == Effect(f.pane, false, []);
    assert CheckTail(f.pane, h.activity, tailWaiting, now, cfg) == Effect(f.pane, false, []);
    hide ApplyStatus, Silence, CheckTail, Prompted, PromptAlert;
    assert f.alerts + [] == f.alerts;
  }

  /** A record that it waits for input: such a pane waits from now on and asks for attention, unless it already does. */
  lemma WaitingRecord(s: State, id: string, key: string, h: Snapshot, tailWaiting: bool, now: nat)
    requires SeesAgent(s, id, key) && h.activity == Some(TurnWaiting)
    ensures var e, t := s.panes[id], Heartbeat(s, id, Some(key), Some(h), tailWaiting, now);
            var q, told := Noted(e, key, Some(h)), Noteworthy(e, key, Some(h));
            && (if !Heeds(e, h) then NotHeeded(s, t, id, key, h, tailWaiting, now)
                else Leaves(s, t, id, Prompted(q, true, now, s.cfg), told || e.status != WaitingForInput,
                            PromptAlert(q, true, now, s.cfg)))
            && (e.status != WaitingForInput && !tailWaiting ==>
                id in t.panes && (t.panes[id].status == WaitingForInput <==> Heeds(e, h)))
  {
    var e := s.panes[id];
    if Heeds(e, h) {
      TickLeaves(s, id, key, Some(h), tailWaiting, now);
      NotedFacts(e, key, h);
      hide Leaves, Heartbeat, Noted, Noteworthy, TurnTick, SeesAgent, Prompted, PromptAlert;
      WaitingTick(Noted(e, key, Some(h)), h, tailWaiting, now, s.cfg);
      var q := Noted(e, key, Some(h));
      PromptedStatus(q, now, s.cfg);
      LeavesStatus(s, Heartbeat(s, id, Some(key), Some(h), tailWaiting, now), id, Prompted(q, true, now, s.cfg),
                   Noteworthy(e, key, Some(h)) || e.status != WaitingForInput, PromptAlert(q, true, now, s.cfg));
    } else {
      UnheededRecord(s, id, key, h, tailWaiting, now);
      UnheededStatus(s, Heartbeat(s, id, Some(key), Some(h), tailWaiting, now), id, key, h, tailWaiting, now);
    }
  }

  lemma WorkApplied(e: Pane, now: nat, cfg: Config)
    ensures var w := if e.status == Working || e.status == WaitingForInput then e else AtWork(e, now);
            ApplyStatus(e, TurnWorking, now, cfg) == Effect(w, w != e, [])
  {
  }

  lemma WorkingTick(e: Pane, h: Snapshot, tailWaiting: bool, now: nat, cfg: Config)
    requires h.activity == Some(TurnWorking)
    ensures var w := if e.status == Working || e.status == WaitingForInput then e else AtWork(e, now);
            TurnTick(e, Some(h), tailWaiting, now, cfg)
            == Effect(Prompted(w, tailWaiting, now, cfg), w != e || PromptIsNew(w, tailWaiting),
                      PromptAlert(w, tailWaiting, now, cfg))
  {
    WorkApplied(e, now, cfg);
    var w := ApplyStatus(e, TurnWorking, now, cfg).pane;
    assert Silence(w, h.activity, now, cfg) == Effect(w, false, []);
    PromptLeaves(w, h.activity, tailWaiting, now, cfg);
    hide ApplyStatus, AtWork, Silence, CheckTail, Prompted, PromptAlert;
    assert forall a: seq<Alert> :: [] + a == a;
  }

  /** A record that it is at work: the pane works, and its clock runs, unless a prompt has it waiting. */
  lemma WorkingRecord(s: State, id: string, key: string, h: Snapshot, tailWaiting: bool, now: nat)
    requires SeesAgent(s, id, key) && h.activity == Some(TurnWorking)
    ensures var e, t := s.panes[id], Heartbeat(s, id, Some(key), Some(h), tailWaiting, now);
            var q, told := Noted(e, key, Some(h)), Noteworthy(e, key, Some(h));
            var begins := e.status != Working && e.status != WaitingForInput;
            var w := if !begins then q else AtWork(q, now);
            Leaves(s, t, id, Prompted(w, tailWaiting, now, s.cfg), told || begins || PromptIsNew(w, tailWaiting),
                   PromptAlert(w, tailWaiting, now, s.cfg))
  {
    var e := s.panes[id];
    TickLeaves(s, id, key, Some(h), tailWaiting, now);
    NotedFacts(e, key, h);
    hide Leaves, Heartbeat, Noted, Noteworthy, TurnTick, SeesAgent, Prompted, PromptAlert;
    WorkingTick(Noted(e, key, Some(h)), h, tailWaiting, now, s.cfg);
  }

  /** The prompt a pane waits at is gone from its output, and there has been output since it began to wait. */
  predicate PromptIsGone(e: Pane, tailWaiting: bool) {
    e.status == WaitingForInput && !tailWaiting && e.waitingSince.Some? && e.lastOutput > e.waitingSince.value
  }

  lemma UnansweredTick(e: Pane, history: Option<Snapshot>, tailWaiting: bool, now: nat, cfg: Config)
    requires (history.None? || history.value.activity.None?) && !PromptIsGone(e, tailWaiting)
    ensures var d := Dimmed(e, now, cfg);
            TurnTick(e, history, tailWaiting, now, cfg)
            == Effect(Prompted(d, tailWaiting, now, cfg), d != e || PromptIsNew(d, tailWaiting),
                      PromptAlert(d, tailWaiting, now, cfg))
  {
    var d := Dimmed(e, now, cfg);
    SilenceDims(e, None, now, cfg);
    QuietTail(e, d, tailWaiting, now, cfg);
    hide Silence, CheckTail, Dimmed, Prompted, PromptAlert, PromptIsNew, PromptIsGone, Notify;
    assert forall a: seq<Alert> :: [] + a == a;
  }

  lemma QuietTail(e: Pane, d: Pane, tailWaiting: bool, now: nat, cfg: Config)
    requires d == Dimmed(e, now, cfg) && !PromptIsGone(e, tailWaiting)
    ensures CheckTail(d, None, tailWaiting, now, cfg)
         == Effect(Prompted(d, tailWaiting, now, cfg), PromptIsNew(d, tailWaiting),
                   PromptAlert(d, tailWaiting, now, cfg))
  {
    hide Notify;
    if d.status == WaitingForInput && !tailWaiting {
      assert d == e;
    } else {
      PromptLeaves(d, None, tailWaiting, now, cfg);
      hide CheckTail;
    }
  }

  lemma UnrecordedTick(e: Pane, history: Option<Snapshot>, tailWaiting: bool, now: nat, cfg: Config)
    requires history.None? || history.value.activity.None?
    ensures var d := Dimmed(e, now, cfg);
            TurnTick(e, history, tailWaiting, now, cfg)
            == if PromptIsGone(e, tailWaiting) then Effect(AtWork(e, now).(waitingSince := None), true, [])
               else Effect(Prompted(d, tailWaiting, now, cfg), d != e || PromptIsNew(d, tailWaiting),
                           PromptAlert(d, tailWaiting, now, cfg))
  {
    if PromptIsGone(e, tailWaiting) {
      AnsweredTail(e, tailWaiting, now, cfg);
      SilenceDims(e, None, now, cfg);
      hide Silence, CheckTail, AtWork;
      assert Dimmed(e, now, cfg) == e;
    } else {
      UnansweredTick(e, history, tailWaiting, now, cfg);
      hide TurnTick, Dimmed, Prompted, PromptAlert;
    }
  }

  lemma AnsweredTail(e: Pane, tailWaiting: bool, now: nat, cfg: Config)
    requires PromptIsGone(e, tailWaiting)
    ensures CheckTail(e, None, tailWaiting, now, cfg) == Effect(AtWork(e, now).(waitingSince := None), true, [])
  {
  }

  /**
   Without a record, silence dims the pane, a prompt in the output makes it wait, and a prompt that is gone after new
   output puts it back to work.
   */
  lemma NoRecord(s: State, id: string, key: string, history: Option<Snapshot>, tailWaiting: bool, now: nat)
    requires SeesAgent(s, id, key) && (history.None? || history.value.activity.None?)
    ensures var e, t := s.panes[id], Heartbeat(s, id, Some(key), history, tailWaiting, now);
            var q, told := Noted(e, key, history), Noteworthy(e, key, history);
            var d := Dimmed(q, now, s.cfg);
            if PromptIsGone(e, tailWaiting) then
              Leaves(s, t, id, AtWork(q, now).(waitingSince := None), true, [])
            else
              Leaves(s, t, id, Prompted(d, tailWaiting, now, s.cfg), told || d != q || PromptIsNew(d, tailWaiting),
                     PromptAlert(d, tailWaiting, now, s.cfg))
  {
    var e := s.panes[id];
    var q := Noted(e, key, history);
    TickLeaves(s, id, key, history, tailWaiting, now);
    assert PromptIsGone(q, tailWaiting) == PromptIsGone(e, tailWaiting) && q.workStarted == e.workStarted;
    hide Leaves, Heartbeat, Noted, Noteworthy, TurnTick, SeesAgent, Prompted, PromptAlert, Dimmed;
    UnrecordedTick(q, history, tailWaiting, now, s.cfg);
  }

  // ---------------------------------------------------------------------------------------------
  // The other heartbeats
  // ---------------------------------------------------------------------------------------------

  /** The pane of an agent seen for the first time, or after another one: nothing of an earlier turn is left. */
  function Detected(e: Pane, key: string, history: Option<Snapshot>): Pane {
    var q := e.(rawFg := Some(key), agentKey := Some(key), status := Idle, workStarted := None,
                historyTimestamp := None);
    match history
    case None => q
    case Some(h) => q.(sessionId := Some(h.sessionId), taskTitle := Some(h.taskTitle), rawPrompt := Some(h.rawPrompt),
                       historyTimestamp := Some(h.timestamp))
  }

  lemma DetectionLeaves(s: State, id: string, key: string, history: Option<Snapshot>, tailWaiting: bool, now: nat)
    requires id !in s.retired && KnownAgent(key)
    requires Found(s, id).agentKey != Some(key) && !Found(s, id).pluginConnected
    ensures var t := Heartbeat(s, id, Some(key), history, tailWaiting, now);
            var f := TurnTick(Detected(Found(s, id), key, history), history, tailWaiting, now, s.cfg);
            Leaves(s, t, id, f.pane, true, f.alerts)
  {
    hide Commit, TurnTick, Leaves, IsKnownAgentKey, KnownAgent;
    KnownAgents(key);
    var e := Found(s, id);
    var f := HeartbeatEffect(e, Some(key), history, tailWaiting, now, s.cfg);
    CommitLeaves(Ensure(s, id), id, f, false);
    InsertedLeaves(s, Heartbeat(s, id, Some(key), history, tailWaiting, now), id, f.pane, f.changed, f.alerts);
    var tracked := TrackForeground(e, Some(key)).pane;
    assert AbsorbHistory(DetectAgent(ConfirmLaunch(tracked, key).pane, key).pane, history).pane
        == Detected(e, key, history);
  }

  /**
   The first heartbeat that sees an agent makes the pane Idle, or Working if the log says the turn is at work, or
   waiting if the output shows a prompt; a record of a turn that is over is pinned.
   */
  lemma DetectedAgent(s: State, id: string, key: string, history: Option<Snapshot>, tailWaiting: bool, now: nat)
    requires id !in s.retired && KnownAgent(key)
    requires Found(s, id).agentKey != Some(key) && !Found(s, id).pluginConnected
    ensures var t, q := Heartbeat(s, id, Some(key), history, tailWaiting, now), Detected(Found(s, id), key, history);
            var record := if history.Some? then history.value.activity else None;
            var p := if record == Some(TurnWorking) then AtWork(q, now)
                     else if record.Some? then q.(acknowledged := Some(history.value.timestamp))
                     else q;
            Leaves(s, t, id, Prompted(p, tailWaiting, now, s.cfg), true, PromptAlert(p, tailWaiting, now, s.cfg))
  {
    DetectionLeaves(s, id, key, history, tailWaiting, now);
    var q := Detected(Found(s, id), key, history);
    var record := if history.Some? then history.value.activity else None;
    DetectedFacts(Found(s, id), key, history, tailWaiting, now, s.cfg);
    hide Leaves, Heartbeat, TurnTick, Prompted, PromptAlert, Detected, Found, Dimmed, Proven, PromptIsGone, AtWork,
      IsKnownAgentKey, KnownAgent;
    if record == Some(TurnWorking) {
      WorkingTick(q, history.value, tailWaiting, now, s.cfg);
    } else if record.Some? {
      ForeignTick(q, history.value, tailWaiting, now, s.cfg);
    } else {
      UnrecordedTick(q, history, tailWaiting, now, s.cfg);
    }
  }

  lemma DetectedFacts(e: Pane, key: string, history: Option<Snapshot>, tailWaiting: bool, now: nat, cfg: Config)
    ensures var q := Detected(e, key, history);
            && q.status == Idle && !Proven(q) && Dimmed(q, now, cfg) == q && !PromptIsGone(q, tailWaiting)
            && (history.Some? ==> q.historyTimestamp == Some(history.value.timestamp))
  {
  }

  /**
   A heartbeat that sees no agent: the pane of a confirmed agent that proved work is Completed, silently, and a launch
   that was not confirmed within five seconds is given up; nothing else changes but the label of the foreground.
   */
  lemma NoAgentSeen(s: State, id: string, fg: Option<string>, history: Option<Snapshot>, tailWaiting: bool, now: nat)
    requires id !in s.retired && !Found(s, id).pluginConnected && (fg.None? || !KnownAgent(fg.value))
    ensures var e, t := Found(s, id), Heartbeat(s, id, fg, history, tailWaiting, now);
            var q, told := e.(rawFg := fg), e.rawFg != fg;
            if e.agentKey.Some? && !e.startupPending && Proven(e) then
              Leaves(s, t, id, q.(status := Completed, agentKey := None, workStarted := None), true, [])
            else if e.startupPending && e.startupSince.Some? && e.startupSince.value + 5000 < now then
              Leaves(s, t, id, q.(startupPending := false, startupSince := None, agentKey := None), true, [])
            else Leaves(s, t, id, q, told, [])
  {
    hide Commit, Leaves, IsKnownAgentKey, KnownAgent;
    if fg.Some? { KnownAgents(fg.value); }
    var e := Found(s, id);
    var f := HeartbeatEffect(e, fg, history, tailWaiting, now, s.cfg);
    CommitLeaves(Ensure(s, id), id, f, false);
    InsertedLeaves(s, Heartbeat(s, id, fg, history, tailWaiting, now), id, f.pane, f.changed, f.alerts);
  }

  /** No heartbeat moves a pane whose plugin is connected, or a removed one. */
  lemma HeartbeatIgnored(s: State, id: string, fg: Option<string>, history: Option<Snapshot>, tailWaiting: bool,
                         now: nat)
    ensures var t := Heartbeat(s, id, fg, history, tailWaiting, now);
            && (id in s.retired ==> t == s)
            && (id !in s.retired && Found(s, id).pluginConnected ==>
                Leaves(s, t, id, Found(s, id), false, []) && t.pending == s.pending)
  {
    if id !in s.retired && Found(s, id).pluginConnected {
      CommitUnchanged(Ensure(s, id), id);
      assert Heartbeat(s, id, fg, history, tailWaiting, now) == Ensure(s, id);
    }
  }

  // ---------------------------------------------------------------------------------------------
  // Output, shell commands, and what the user and the plugins do
  // ---------------------------------------------------------------------------------------------

  /** Output of a pane whose agent is followed moves it from Idle over Thinking to Working; any output is stamped. */
  lemma OutputSeen(s: State, id: string, now: nat, g: Option<nat>)
    ensures var t := Output(s, id, now, g);
            && (!Current(s, id, g) ==> t == s)
            && (Current(s, id, g) ==> t.pending == [])
            && (Current(s, id, g) && id !in s.panes ==> t == s.(pending := [], delivered := s.delivered + s.pending))
            && (Current(s, id, g) && id in s.panes ==>
                  var e := s.panes[id];
                  var q := e.(lastOutput := now);
                  if e.pluginConnected || e.agentKey.None? || e.startupPending then Leaves(s, t, id, q, false, [])
                  else if e.status == Idle && e.demotedFromWorking then
                    Leaves(s, t, id, q.(status := Working, demotedFromWorking := false), true, [])
                  else if e.status == Idle then Leaves(s, t, id, q.(status := Thinking), true, [])
                  else if e.status == Thinking then
                    Leaves(s, t, id, AtWork(q, now), true, [])
                  else Leaves(s, t, id, q, false, []))
  {
    if id in s.panes {
      hide Commit, Leaves;
      CommitLeaves(s, id, OutputEffect(s.panes[id], now), true);
    }
  }

  /**
   The agent's own launch command ends: a failure makes the pane fail and alerts, a success completes it silently, and
   either way the pane has no agent any more. Other commands change nothing.
   */
  lemma ShellCommandEnds(s: State, id: string, launches: set<string>, exitCode: int, now: nat, g: Option<nat>)
    ensures var t := ShellFinished(s, id, launches, exitCode, now, g);
            && (!Current(s, id, g) ==> t == s)
            && (Current(s, id, g) ==> t.pending == [])
            && (Current(s, id, g) && id !in s.panes ==> t == s.(pending := [], delivered := s.delivered + s.pending))
            && (Current(s, id, g) && id in s.panes ==>
                  var e := s.panes[id];
                  if e.pluginConnected || e.agentKey.None? || e.agentKey.value !in launches then
                    Leaves(s, t, id, e, false, [])
                  else if exitCode == 0 then
                    Leaves(s, t, id, e.(status := Completed, agentKey := None, workStarted := None), true, [])
                  else
                    Leaves(s, t, id,
                           Stamped(e, ErrorAlert, s.cfg.error, now, s.cfg)
                           .(status := Error, agentKey := None, workStarted := None),
                           true, Rung(e, ErrorAlert, s.cfg.error, now, s.cfg)))
  {
    if id in s.panes {
      NotifyRings(s.panes[id], ErrorAlert, now, s.cfg);
      hide Commit, Leaves, Notify, Stamped, Rung;
      CommitLeaves(s, id, ShellFinishedEffect(s.panes[id], launches, exitCode, now, s.cfg), true);
    }
  }

  /** Acknowledging pins the turn last read and clears a Completed, waiting or failed pane to Idle. */
  lemma Acknowledged(s: State, id: string)
    ensures id !in s.panes ==> Acknowledge(s, id) == s
    ensures id in s.panes ==>
              var e, t := s.panes[id], Acknowledge(s, id);
              var q := e.(acknowledged := e.historyTimestamp);
              if e.status == Completed || e.status == WaitingForInput || e.status == Error
              then Leaves(s, t, id, q.(status := Idle, workStarted := None), true, [])
              else Leaves(s, t, id, q, false, [])
  {
    if id in s.panes {
      hide Commit, Leaves;
      CommitLeaves(s, id, AcknowledgeEffect(s.panes[id]), false);
    }
  }

  /** A launch claims a pane without an agent or with a finished turn, for that agent, and is always alerted. */
  lemma Launched(s: State, id: string, key: string, now: nat)
    ensures var e, t := Found(s, id), Start(s, id, key, now);
            var q := e.(agentKey := Some(key), startupPending := true, startupSince := Some(now), status := Idle,
                        sessionId := None, workStarted := None, historyTimestamp := None, acknowledged := None);
            && t.pending == []
            && if e.agentKey.None? || e.status == Completed || e.status == Error
               then Leaves(s, t, id, Stamped(q, Started, true, now, s.cfg), false, Rung(q, Started, true, now, s.cfg))
               else Leaves(s, t, id, e, false, [])
  {
    var e, t := Found(s, id), Start(s, id, key, now);
    var f := StartEffect(e, key, now, s.cfg);
    NotifyRings(e.(agentKey := Some(key), startupPending := true, startupSince := Some(now), status := Idle,
                   sessionId := None, workStarted := None, historyTimestamp := None, acknowledged := None),
                Started, now, s.cfg);
    hide Commit, Leaves, Notify, Stamped, Rung;
    CommitLeaves(Ensure(s, id), id, f, true);
    InsertedLeaves(s, t, id, f.pane, f.changed, f.alerts);
  }

  /** Whether cancelling finds an agent that is still alive. */
  predicate Cancellable(e: Pane) {
    e.agentKey.Some? && e.status != Completed && e.status != Error && e.status != Cancelled && e.status != Disconnected
  }

  /** Cancelling a live agent takes it from the pane and is always alerted. */
  lemma CancelledByUser(s: State, id: string, now: nat)
    ensures var t := Cancel(s, id, now);
            && t.pending == []
            && (id !in s.panes ==> t == s.(pending := [], delivered := s.delivered + s.pending))
            && (id in s.panes ==>
                  var e := s.panes[id];
                  if Cancellable(e) then
                    Leaves(s, t, id,
                           Stamped(e, CancelledAlert, true, now, s.cfg)
                           .(status := Cancelled, agentKey := None, workStarted := None),
                           true, Rung(e, CancelledAlert, true, now, s.cfg))
                  else Leaves(s, t, id, e, false, []))
  {
    if id in s.panes {
      NotifyRings(s.panes[id], CancelledAlert, now, s.cfg);
      hide Commit, Leaves, Notify, Stamped, Rung;
      CommitLeaves(s, id, CancelEffect(s.panes[id], now, s.cfg), true);
    }
  }

  /** Forgetting a pane cancels it and drops its record alone; the pane is not marked as removed. */
  lemma Forgotten(s: State, id: string, now: nat)
    ensures var t := Forget(s, id, now);
            t.panes == Cancel(s, id, now).panes - {id} && t == Cancel(s, id, now).(panes := t.panes)
  {
  }

  /** Pruning drops the panes with output whose last output is more than the limit ago, and nothing else. */
  lemma Pruned(s: State, now: nat, maxIdle: nat)
    ensures var t := Prune(s, now, maxIdle);
            && t == s.(panes := t.panes)
            && forall id ::
                 && (id in t.panes <==>
                     id in s.panes && (s.panes[id].lastOutput == 0 || now <= s.panes[id].lastOutput + maxIdle))
                 && (id in t.panes ==> t.panes[id] == s.panes[id])
  {
  }

  /** Registering lifts the mark of a removed pane and keeps its record, or makes a blank one. */
  lemma Registered(s: State, id: string)
    ensures var t := Register(s, id);
            && t == s.(panes := t.panes, retired := s.retired - {id})
            && t.panes == s.panes[id := Found(s, id)]
            && (id !in s.panes ==>
                  var e := t.panes[id];
                  && e.id == id && e.status == Idle && e.generation.None? && e.agentKey.None? && e.rawFg.None?
                  && e.sessionId.None? && e.taskTitle.None? && e.rawPrompt.None? && e.historyTimestamp.None?
                  && e.acknowledged.None? && e.lastOutput == 0 && e.workStarted.None? && !e.demotedFromWorking
                  && e.waitingSince.None? && !e.startupPending && e.startupSince.None? && !e.pluginConnected
                  && e.lastNotified == map[] && e.lastEmitted.None?)
  {
  }

  /**
   A PTY registers its pane under the next token, which is current from then on; what was announced last is forgotten,
   so that the pane is announced anew, but not by this.
   */
  lemma RegisteredWithToken(s: State, id: string)
    ensures var t, g := RegisterWithGeneration(s, id), s.nextGeneration + 1;
            && t.panes == s.panes[id := Found(s, id).(generation := Some(g), lastEmitted := None)]
            && t.generations == s.generations[id := g] && t.nextGeneration == g
            && t.retired == s.retired - {id}
            && t.pending == [] && t.delivered == s.delivered + s.pending
            && (t.emitted, t.queued, t.cfg) == (s.emitted, s.queued, s.cfg)
  {
    assert s.queued + [] == s.queued && s.pending + [] == s.pending;
  }

  /** A read loop whose token is not the current one removes nothing; any other caller drops the pane and marks it. */
  lemma RemovedByToken(s: State, id: string, g: Option<nat>)
    ensures var t := Remove(s, id, g);
            if !Current(s, id, g) then t == s
            else t == s.(panes := s.panes - {id}, retired := s.retired + {id}, generations := s.generations - {id})
  {
  }

  /** Statuses from a plugin are stored and silence the heuristics; connecting or disconnecting one does only that. */
  lemma PluginSpeaks(s: State, id: string, st: Status, connected: bool)
    ensures PluginStatus(s, id, st).pending == [] && SetPlugin(s, id, connected).pending == []
    ensures id in s.panes ==>
              && Leaves(s, PluginStatus(s, id, st), id, s.panes[id].(status := st, pluginConnected := true), false, [])
              && Leaves(s, SetPlugin(s, id, connected), id, s.panes[id].(pluginConnected := connected), false, [])
    ensures id !in s.panes ==>
              && PluginStatus(s, id, st) == s.(pending := [], delivered := s.delivered + s.pending)
              && SetPlugin(s, id, connected) == s.(pending := [], delivered := s.delivered + s.pending)
  {
    if id in s.panes {
      hide Commit, Leaves;
      CommitLeaves(s, id, Unchanged(s.panes[id].(status := st, pluginConnected := true)), true);
      CommitLeaves(s, id, Unchanged(s.panes[id].(pluginConnected := connected)), true);
    }
  }

  /** Heartbeats and acknowledgements hand over the queue exactly when they announce the pane. */
  lemma AnnouncementHandsOver(s: State, op: Op, id: string)
    requires Reaches(s, op, id) && (op.OpHeartbeat? || op.OpAcknowledge?)
    ensures var t, f := Step(s, op), EffectOf(s, op, id);
            && (t.emitted != s.emitted ==> t.pending == [])
            && (t.emitted == s.emitted ==> t.pending == s.pending + f.alerts)
  {
    hide HeartbeatEffect, AcknowledgeEffect;
  }

  // ---------------------------------------------------------------------------------------------
  // The switches
  // ---------------------------------------------------------------------------------------------

  /** The switches set are those given, and nothing else changes. */
  lemma SwitchesSet(s: State, needsAttention: bool, error: bool)
    ensures SetConfig(s, needsAttention, error) == s.(cfg := Config(needsAttention, error, s.cfg.hasService,
        s.cfg.idleAfter, s.cfg.cooldown))
  {
  }
}
