/**
 The tracker object of `agent_activity.rs`. Each method changes the maps and queues as the source does, and is
 proved to compute the operation of the same name on the tracker's state.
 */
module ActivityTracker {
  import opened Util
  import opened AgentActivity
  import Wire = LifecycleWire

  class AgentActivityTracker {
    var panes: map<string, Pane>
    var retiredPanes: set<string>
    var generations: map<string, nat>
    var nextGeneration: nat
    var pendingNotifications: seq<Alert>
    var cfg: Config
    // what the notification service and the status stream have received, and all alerts ever queued
    ghost var delivered: seq<Alert>
    ghost var queued: seq<Alert>
    ghost var emitted: seq<Emission>

    ghost function Value(): State
      reads this
    {
      State(panes, retiredPanes, generations, nextGeneration, pendingNotifications, delivered, queued, emitted, cfg)
    }

    constructor (cfg: Config)
      ensures Value() == NewState(cfg)
    {
      panes, retiredPanes, generations, nextGeneration := map[], {}, map[], 0;
      pendingNotifications, delivered, queued, emitted := [], [], [], [];
      this.cfg := cfg;
    }

    // -- Helpers -----------------------------------------------------------------------------------

    method EntryOrInsert(id: string)
      modifies this`panes
      ensures Value() == Ensure(old(Value()), id) && id in panes
    {
      if id !in panes {
        panes := panes[id := FreshPane(id)];
      }
    }

    method DrainPendingNotifications()
      modifies this`pendingNotifications, this`delivered
      ensures Value() == Deliver(old(Value()))
    {
      if pendingNotifications == [] {
        return;
      }
      delivered := delivered + pendingNotifications;
      pendingNotifications := [];
    }

    /** Queues an alert for the pane record `e`, which the caller stores afterwards. */
    method NotifyLocked(e: Pane, kind: NotifyKind, now: nat) returns (p: Pane, ghost alerts: seq<Alert>)
      modifies this`pendingNotifications, this`queued
      ensures Effect(p, false, alerts) == Notify(e, kind, now, cfg)
      ensures pendingNotifications == old(pendingNotifications) + alerts && queued == old(queued) + alerts
    {
      p, alerts := e, [];
      if !Enabled(cfg, kind) {
        return;
      }
      if kind in e.lastNotified && SatSub(now, e.lastNotified[kind]) <= cfg.cooldown {
        return;
      }
      p := e.(lastNotified := e.lastNotified[kind := now]);
      if !cfg.hasService {
        return;
      }
      var alert := Alert(e.id, kind, e.sessionId, if e.workStarted.Some? then e.workStarted.value else now, now);
      pendingNotifications := pendingNotifications + [alert];
      queued := queued + [alert];
      alerts := [alert];
    }

    method EmitPaneStatus(id: string)
      modifies this
      ensures Value() == EmitStatus(old(Value()), id)
    {
      if id !in panes {
        return;
      }
      var e := panes[id];
      var signature := SignatureOf(e);
      if e.lastEmitted == Some(signature) {
        return;
      }
      panes := panes[id := e.(lastEmitted := Some(signature))];
      DrainPendingNotifications();
      emitted := emitted + [Emission(id, signature)];
    }

    /**
     Stores a pane record whose alerts are already queued, hands the queue over if the operation does so before
     announcing, and announces the status if it changed. `before` is the state when the record was read.
     */
    method Store(id: string, e: Pane, changed: bool, deliverFirst: bool, ghost before: State, ghost alerts: seq<Alert>)
      requires Value() == before.(pending := before.pending + alerts, queued := before.queued + alerts)
      modifies this
      ensures Value() == Commit(before, id, Effect(e, changed, alerts), deliverFirst)
    {
      panes := panes[id := e];
      if deliverFirst {
        DrainPendingNotifications();
      }
      if changed {
        EmitPaneStatus(id);
      }
    }

    // -- Lifecycle ---------------------------------------------------------------------------------

    method AcknowledgeAttention(id: string)
      modifies this
      ensures Value() == Acknowledge(old(Value()), id)
    {
      if id !in panes {
        return;
      }
      var e := panes[id];
      var attention := e.status == Completed || e.status == WaitingForInput || e.status == Error;
      e := e.(acknowledged := e.historyTimestamp);
      if attention {
        e := e.(status := Idle, workStarted := None);
      }
      assert pendingNotifications + [] == pendingNotifications && queued + [] == queued;
      Store(id, e, attention, false, Value(), []);
    }

    method RegisterPane(id: string)
      modifies this
      ensures Value() == Register(old(Value()), id)
    {
      retiredPanes := retiredPanes - {id};
      EntryOrInsert(id);
    }

    method RegisterPaneWithGeneration(id: string) returns (generation: nat)
      modifies this
      ensures Value() == RegisterWithGeneration(old(Value()), id)
      ensures generation == nextGeneration == old(nextGeneration) + 1
    {
      retiredPanes := retiredPanes - {id};
      nextGeneration := nextGeneration + 1;
      generation := nextGeneration;
      generations := generations[id := generation];
      EntryOrInsert(id);
      assert pendingNotifications + [] == pendingNotifications && queued + [] == queued;
      Store(id, panes[id].(generation := Some(generation), lastEmitted := None), false, true, Value(), []);
    }

    method RemovePaneIfGeneration(id: string, generation: Option<nat>) returns (removed: bool)
      modifies this
      ensures Value() == Remove(old(Value()), id, generation)
      ensures removed == GenerationIsCurrent(old(Value()), id, generation)
    {
      if generation.Some? && (id !in generations || generations[id] != generation.value) {
        return false;
      }
      generations := generations - {id};
      retiredPanes := retiredPanes + {id};
      panes := panes - {id};
      return true;
    }

    method SetPluginConnected(id: string, connected: bool)
      modifies this
      ensures Value() == SetPlugin(old(Value()), id, connected)
    {
      if id in panes {
        panes := panes[id := panes[id].(pluginConnected := connected)];
        assert pendingNotifications + [] == pendingNotifications && queued + [] == queued;
      }
      DrainPendingNotifications();
    }

    // -- Push inputs -------------------------------------------------------------------------------

    method OnPluginStatus(id: string, st: Status)
      modifies this
      ensures Value() == PluginStatus(old(Value()), id, st)
    {
      if id in panes {
        panes := panes[id := panes[id].(status := st, pluginConnected := true)];
        assert pendingNotifications + [] == pendingNotifications && queued + [] == queued;
      }
      DrainPendingNotifications();
    }

    method ApplyTurnStatus(entry: Pane, st: TurnStatus, now: nat)
      returns (e: Pane, changed: bool, ghost alerts: seq<Alert>)
      modifies this`pendingNotifications, this`queued
      ensures Effect(e, changed, alerts) == ApplyStatus(entry, st, now, cfg)
      ensures pendingNotifications == old(pendingNotifications) + alerts && queued == old(queued) + alerts
    {
      e, changed, alerts := entry, false, [];
      if e.acknowledged.Some? && e.acknowledged == e.historyTimestamp
          && (st == TurnCompleted || st == TurnWaiting || st == TurnError) {
        return;
      }
      match st
      case TurnWorking =>
        if e.status == Working || e.status == WaitingForInput {
          return;
        }
        e := e.(status := Working);
        if e.workStarted.None? {
          e := e.(workStarted := Some(now));
        }
        changed := true;
      case TurnCompleted =>
        if e.status == Completed {
          return;
        }
        e := e.(status := Completed, workStarted := None);
        changed := true;
      case TurnWaiting =>
        if e.status == WaitingForInput {
          return;
        }
        e := e.(status := WaitingForInput, waitingSince := Some(now));
        e, alerts := NotifyLocked(e, NeedsAttention, now);
        changed := true;
      case TurnError =>
        if e.status == Error {
          return;
        }
        e := e.(status := Error);
        e, alerts := NotifyLocked(e, ErrorAlert, now);
        changed := true;
    }

    method OnAgentLifecycle(id: string, event: Push, generation: Option<nat>, now: nat)
      modifies this
      ensures Value() == Lifecycle(old(Value()), id, event, generation, now)
    {
      hide ApplyStatus, EmitStatus;
      if generation.Some? && (id !in generations || generations[id] != generation.value) {
        return;
      }
      if id in retiredPanes {
        return;
      }
      EntryOrInsert(id);
      var changed := false;
      var e := panes[id];
      ghost var alerts: seq<Alert> := [];
      ghost var before, ensured := e, Value();
      if !e.pluginConnected {
        if event.agent.Some? && IsKnownAgentKey(event.agent.value) && e.agentKey.None? {
          e := e.(agentKey := event.agent);
          if e.rawFg.None? {
            e := e.(rawFg := event.agent);
          }
        }
        if event.sessionId.Some? && e.sessionId != event.sessionId {
          e := e.(sessionId := event.sessionId);
        }
        assert e == Adopt(before, event);
        var st := match event.kind case Complete => TurnCompleted case Request => TurnWaiting case Error => TurnError;
        e, changed, alerts := ApplyTurnStatus(e, st, now);
      }
      assert Effect(e, changed, alerts) == PushEffect(before, event, now, cfg);
      hide PushEffect, Adopt;
      Store(id, e, changed, true, ensured, alerts);
    }

    method OnPtyOutput(id: string, now: nat, generation: Option<nat>)
      modifies this
      ensures Value() == Output(old(Value()), id, now, generation)
    {
      hide Commit, EmitStatus;
      if generation.Some? && (id !in generations || generations[id] != generation.value) {
        return;
      }
      var changed := false;
      if id in panes {
        var e := panes[id].(lastOutput := now);
        if !e.pluginConnected && e.agentKey.Some? && !e.startupPending {
          match e.status {
            case Idle =>
              if e.demotedFromWorking {
                e := e.(demotedFromWorking := false, status := Working);
              } else {
                e := e.(status := Thinking);
              }
              changed := true;
            case Thinking =>
              e := e.(status := Working);
              if e.workStarted.None? {
                e := e.(workStarted := Some(now));
              }
              changed := true;
            case _ =>
          }
        }
        assert pendingNotifications + [] == pendingNotifications && queued + [] == queued;
        Store(id, e, changed, true, Value(), []);
      } else {
        DrainPendingNotifications();
      }
    }

    /** `launches` holds the agent keys that the finished command launches. */
    method OnShellCommandFinished(id: string, launches: set<string>, exitCode: int, now: nat, generation: Option<nat>)
      modifies this
      ensures Value() == ShellFinished(old(Value()), id, launches, exitCode, now, generation)
    {
      hide Commit, EmitStatus, Notify;
      if generation.Some? && (id !in generations || generations[id] != generation.value) {
        return;
      }
      var changed := false;
      if id in panes {
        var e := panes[id];
        ghost var alerts: seq<Alert> := [];
        if !e.pluginConnected && e.agentKey.Some? && e.agentKey.value in launches {
          if exitCode != 0 {
            e, alerts := NotifyLocked(e, ErrorAlert, now);
            e := e.(status := Error);
          } else {
            e := e.(status := Completed);
          }
          e := e.(agentKey := None, workStarted := None);
          changed := true;
        }
        Store(id, e, changed, true, old(Value()), alerts);
      } else {
        DrainPendingNotifications();
      }
    }

    // -- Heartbeat ---------------------------------------------------------------------------------

    method OnHeartbeat(id: string, fg: Option<string>, history: Option<Snapshot>, tailWaiting: bool, now: nat)
      modifies this
      ensures Value() == Heartbeat(old(Value()), id, fg, history, tailWaiting, now)
    {
      hide Commit, EmitStatus, AgentTick, ShellTick, IsKnownAgentKey;
      if id in retiredPanes {
        return;
      }
      EntryOrInsert(id);
      var changed := false;
      var e := panes[id];
      ghost var before, ensured := e, Value();
      if e.pluginConnected {
        CommitUnchanged(Value(), id);
        return;
      }
      if e.rawFg != fg {
        e := e.(rawFg := fg);
        changed := true;
      }
      ghost var alerts: seq<Alert> := [];
      if fg.Some? && IsKnownAgentKey(fg.value) {
        var ticked;
        e, ticked, alerts := HeartbeatOfAgent(e, fg.value, history, tailWaiting, now);
        changed := changed || ticked;
      } else {
        var ticked;
        e, ticked := HeartbeatOfShell(e, now);
        changed := changed || ticked;
      }
      assert Effect(e, changed, alerts) == HeartbeatEffect(before, fg, history, tailWaiting, now, cfg);
      hide HeartbeatEffect;
      Store(id, e, changed, false, ensured, alerts);
    }

    /** The arm of the heartbeat with no agent in the foreground: completion, or release after the startup grace. */
    method HeartbeatOfShell(entry: Pane, now: nat) returns (e: Pane, changed: bool)
      ensures Effect(e, changed, []) == ShellTick(entry, now)
    {
      e, changed := entry, false;
      var provedWork := e.workStarted.Some? || e.status == Working || e.status == Thinking
          || e.status == WaitingForInput;
      if e.agentKey.Some? && !e.startupPending && provedWork {
        e := e.(status := Completed, agentKey := None, workStarted := None);
        changed := true;
      } else if e.startupPending && e.startupSince.Some? && SatSub(now, e.startupSince.value) > STARTUP_GRACE_MS {
        e := e.(startupPending := false, startupSince := None, agentKey := None);
        changed := true;
      }
    }

    /** The arm of the heartbeat for a known agent in the foreground. */
    method HeartbeatOfAgent(entry: Pane, key: string, history: Option<Snapshot>, tailWaiting: bool, now: nat)
      returns (e: Pane, changed: bool, ghost alerts: seq<Alert>)
      modifies this`pendingNotifications, this`queued
      ensures Effect(e, changed, alerts) == AgentTick(entry, key, history, tailWaiting, now, cfg)
      ensures pendingNotifications == old(pendingNotifications) + alerts && queued == old(queued) + alerts
    {
      hide TurnTick;
      e, changed := entry, false;
      if e.startupPending && e.agentKey == Some(key) {
        e := e.(startupPending := false, startupSince := None);
        changed := true;
      }
      if e.agentKey != Some(key) {
        e := e.(agentKey := Some(key), status := Idle, workStarted := None, historyTimestamp := None);
        changed := true;
      }
      if history.Some? {
        var h := history.value;
        if e.sessionId != Some(h.sessionId) || e.historyTimestamp != Some(h.timestamp)
            || e.taskTitle != Some(h.taskTitle) {
          e := e.(sessionId := Some(h.sessionId), taskTitle := Some(h.taskTitle), rawPrompt := Some(h.rawPrompt),
                  historyTimestamp := Some(h.timestamp));
          changed := true;
        }
      }
      var turned;
      e, turned, alerts := HeartbeatOfTurn(e, history, tailWaiting, now);
      changed := changed || turned;
    }

    /** The rest of that arm: the session log, silence, and the prompt in the output tail. */
    method HeartbeatOfTurn(entry: Pane, history: Option<Snapshot>, tailWaiting: bool, now: nat)
      returns (e: Pane, changed: bool, ghost alerts: seq<Alert>)
      modifies this`pendingNotifications, this`queued
      ensures Effect(e, changed, alerts) == TurnTick(entry, history, tailWaiting, now, cfg)
      ensures pendingNotifications == old(pendingNotifications) + alerts && queued == old(queued) + alerts
    {
      hide ApplyStatus, Notify, Silence, CheckTail;
      e, changed, alerts := entry, false, [];
      var provesTurn := e.workStarted.Some? || e.status == Working || e.status == Thinking
          || e.status == WaitingForInput;
      var authoritative := if history.Some? then history.value.activity else None;
      if (authoritative == Some(TurnCompleted) || authoritative == Some(TurnWaiting)
          || authoritative == Some(TurnError)) && !provesTurn {
        if e.historyTimestamp.Some? {
          e := e.(acknowledged := e.historyTimestamp);
        }
        authoritative := None;
      }
      assert authoritative == Authoritative(entry, history) && e == PinForeign(entry, history);
      hide Authoritative, PinForeign;
      if authoritative.Some? {
        e, changed, alerts := ApplyTurnStatus(e, authoritative.value, now);
      }
      ghost var applied := ApplyAuthoritative(PinForeign(entry, history), authoritative, now, cfg);
      assert Effect(e, changed, alerts) == applied;
      hide ApplyAuthoritative;
      var silenced;
      e, silenced := SilenceRule(e, authoritative, now);
      var checked;
      ghost var more;
      e, checked, more := TailRule(e, authoritative, tailWaiting, now);
      changed := changed || silenced || checked;
      alerts := alerts + more;
    }

    /** Silence only dims the badge, and never against an authoritative working record. */
    method SilenceRule(entry: Pane, authoritative: Option<TurnStatus>, now: nat) returns (e: Pane, changed: bool)
      ensures Effect(e, changed, []) == Silence(entry, authoritative, now, cfg)
    {
      e, changed := entry, false;
      if (e.status == Working || e.status == Thinking) && authoritative != Some(TurnWorking)
         && e.lastOutput > 0 && SatSub(now, e.lastOutput) > cfg.idleAfter {
        e := e.(demotedFromWorking := e.status == Working);
        e := e.(status := Idle);
        changed := true;
      }
    }

    method TailRule(entry: Pane, authoritative: Option<TurnStatus>, tailWaiting: bool, now: nat)
      returns (e: Pane, changed: bool, ghost alerts: seq<Alert>)
      modifies this`pendingNotifications, this`queued
      ensures Effect(e, changed, alerts) == CheckTail(entry, authoritative, tailWaiting, now, cfg)
      ensures pendingNotifications == old(pendingNotifications) + alerts && queued == old(queued) + alerts
    {
      hide Notify;
      e, changed, alerts := entry, false, [];
      if authoritative != Some(TurnCompleted) && authoritative != Some(TurnError) && e.status != WaitingForInput
          && tailWaiting {
        e := e.(status := WaitingForInput);
        e := e.(waitingSince := Some(now));
        changed := true;
        e, alerts := NotifyLocked(e, NeedsAttention, now);
      } else if e.status == WaitingForInput && !tailWaiting && authoritative.None?
                && e.waitingSince.Some? && e.lastOutput > e.waitingSince.value {
        e := e.(status := Working);
        e := e.(waitingSince := None);
        if e.workStarted.None? {
          e := e.(workStarted := Some(now));
        }
        changed := true;
      }
    }

    // -- Launch, cancellation and eviction ---------------------------------------------------------

    method NotifyAgentStarted(id: string, key: string, now: nat)
      modifies this
      ensures Value() == Start(old(Value()), id, key, now)
    {
      hide Commit, Notify;
      EntryOrInsert(id);
      ghost var ensured := Value();
      var e := panes[id];
      ghost var alerts: seq<Alert> := [];
      if e.agentKey.None? || e.status == Completed || e.status == Error {
        e := e.(agentKey := Some(key), startupPending := true, startupSince := Some(now));
        e := e.(status := Idle, sessionId := None, workStarted := None, historyTimestamp := None, acknowledged := None);
        e, alerts := NotifyLocked(e, Started, now);
      }
      Store(id, e, false, true, ensured, alerts);
    }

    method CancelPane(id: string, now: nat)
      modifies this
      ensures Value() == Cancel(old(Value()), id, now)
    {
      hide Commit, EmitStatus, Notify;
      var changed := false;
      if id in panes {
        var e := panes[id];
        ghost var alerts: seq<Alert> := [];
        if e.agentKey.Some? && e.status != Completed && e.status != Error && e.status != Cancelled
            && e.status != Disconnected {
          e, alerts := NotifyLocked(e, CancelledAlert, now);
          e := e.(status := Cancelled, agentKey := None, workStarted := None);
          changed := true;
        }
        Store(id, e, changed, true, old(Value()), alerts);
      } else {
        DrainPendingNotifications();
      }
    }

    method ForgetPane(id: string, now: nat)
      modifies this
      ensures Value() == Forget(old(Value()), id, now)
    {
      CancelPane(id, now);
      panes := panes - {id};
    }

    method PruneStalePanes(now: nat, maxIdle: nat) returns (stale: set<string>)
      modifies this
      ensures Value() == Prune(old(Value()), now, maxIdle)
      ensures stale == old(panes).Keys - panes.Keys
    {
      var cutoff := SatSub(now, maxIdle);
      stale := set id | id in panes && 0 < panes[id].lastOutput < cutoff;
      panes := panes - stale;
    }

    method SetNotifyConfig(needsAttention: bool, error: bool)
      modifies this
      ensures Value() == SetConfig(old(Value()), needsAttention, error)
    {
      cfg := cfg.(needsAttention := needsAttention, error := error);
    }
  }
}
