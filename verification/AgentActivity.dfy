/**
 The agent activity tracker of `agent_activity.rs`: what each operation does to the record of one pane, and to
 the tracker that owns the records. Clocks are parameters; the status stream and the notification service are logs.
 */
module AgentActivity {
  import opened Util
  import Wire = LifecycleWire

  datatype Status = Idle | Thinking | Working | WaitingForInput | Completed | Error | Cancelled | Disconnected

  /** What a session log, or the agent itself, says about its turn. */
  datatype TurnStatus = TurnWorking | TurnCompleted | TurnWaiting | TurnError

  datatype NotifyKind = Started | NeedsAttention | ErrorAlert | CancelledAlert

  datatype Snapshot = Snapshot(taskTitle: string, sessionId: string, timestamp: nat, rawPrompt: string,
                               activity: Option<TurnStatus>)

  /** A lifecycle event pushed by the agent; only the fields the tracker reads. */
  datatype Push = Push(kind: Wire.Kind, agent: Option<string>, sessionId: Option<string>)

  /** What makes two `agent:status` payloads the same. */
  datatype Signature = Signature(
    status: Status,
    agentKey: Option<string>,
    rawFg: Option<string>,
    sessionId: Option<string>,
    taskTitle: Option<string>,
    rawPrompt: Option<string>,
    generation: Option<nat>
  )

  datatype Pane = Pane(
    id: string,
    generation: Option<nat>,
    status: Status,
    agentKey: Option<string>,
    rawFg: Option<string>,
    sessionId: Option<string>,
    taskTitle: Option<string>,
    rawPrompt: Option<string>,
    historyTimestamp: Option<nat>,
    acknowledged: Option<nat>,
    lastOutput: nat,
    workStarted: Option<nat>,
    demotedFromWorking: bool,
    waitingSince: Option<nat>,
    startupPending: bool,
    startupSince: Option<nat>,
    pluginConnected: bool,
    lastNotified: map<NotifyKind, nat>,
    lastEmitted: Option<Signature>)

  datatype Alert = Alert(paneId: string, kind: NotifyKind, sessionId: Option<string>, turn: nat, at: nat)

  datatype Config = Config(needsAttention: bool, error: bool, hasService: bool, idleAfter: nat, cooldown: nat)

  const STARTUP_GRACE_MS: nat := 5000

  const KNOWN_AGENT_KEYS: set<string> :=
    {"claude", "codex", "opencode", "gemini", "qwen", "aider", "cursor", "freebuff", "omp"}

  predicate IsKnownAgentKey(key: string) {
    key in KNOWN_AGENT_KEYS
  }

  function FreshPane(id: string): Pane {
    Pane(id, None, Idle, None, None, None, None, None, None, None, 0, None, false, None, false, None, false, map[],
        None)
  }

  function SignatureOf(e: Pane): Signature {
    Signature(e.status, e.agentKey, e.rawFg, e.sessionId, e.taskTitle, e.rawPrompt, e.generation)
  }

  function Enabled(cfg: Config, kind: NotifyKind): bool {
    match kind
    case Started | CancelledAlert => true
    case NeedsAttention => cfg.needsAttention
    case ErrorAlert => cfg.error
  }

  predicate IsActive(st: Status) {
    st == Working || st == Thinking || st == WaitingForInput
  }

  // ---------------------------------------------------------------------------------------------
  // Effects on one pane
  // ---------------------------------------------------------------------------------------------

  /** The pane after an operation, whether its status is to be announced, and the alerts it queued. */
  datatype Effect = Effect(pane: Pane, changed: bool, alerts: seq<Alert>)

  function Unchanged(e: Pane): Effect {
    Effect(e, false, [])
  }

  predicate CooldownOver(e: Pane, kind: NotifyKind, now: nat, cfg: Config) {
    kind !in e.lastNotified || SatSub(now, e.lastNotified[kind]) > cfg.cooldown
  }

  /** Queues an alert unless its kind is switched off or still cooling down. */
  function Notify(e: Pane, kind: NotifyKind, now: nat, cfg: Config): (n: Effect)
    ensures n.pane == e.(lastNotified := n.pane.lastNotified) && !n.changed
  {
    if !Enabled(cfg, kind) || !CooldownOver(e, kind, now, cfg) then Unchanged(e)
    else
      var turn := if e.workStarted.Some? then e.workStarted.value else now;
      Effect(e.(lastNotified := e.lastNotified[kind := now]), false,
             if cfg.hasService then [Alert(e.id, kind, e.sessionId, turn, now)] else [])
  }

  function StartWork(e: Pane, now: nat): Pane {
    if e.workStarted.None? then e.(workStarted := Some(now)) else e
  }

  /** Applies an authoritative turn status; an acknowledged turn is not applied again. */
  function ApplyStatus(e: Pane, st: TurnStatus, now: nat, cfg: Config): Effect {
    if e.acknowledged.Some? && e.acknowledged == e.historyTimestamp && st != TurnWorking then Unchanged(e)
    else
      match st
      case TurnWorking =>
        if e.status == Working || e.status == WaitingForInput then Unchanged(e)
        else Effect(StartWork(e.(status := Working), now), true, [])
      case TurnCompleted =>
        if e.status == Completed then Unchanged(e)
        else Effect(e.(status := Completed, workStarted := None), true, [])
      case TurnWaiting =>
        if e.status == WaitingForInput then Unchanged(e)
        else
          var n := Notify(e.(status := WaitingForInput, waitingSince := Some(now)), NeedsAttention, now, cfg);
          Effect(n.pane, true, n.alerts)
      case TurnError =>
        if e.status == Error then Unchanged(e)
        else
          var n := Notify(e.(status := Error), ErrorAlert, now, cfg);
          Effect(n.pane, true, n.alerts)
  }

  function TurnOf(kind: Wire.Kind): TurnStatus {
    match kind
    case Complete => TurnCompleted
    case Request => TurnWaiting
    case Error => TurnError
  }

  /** Takes over the agent key and session id an event carries. */
  function Adopt(e: Pane, push: Push): Pane {
    var keyed :=
      if push.agent.Some? && IsKnownAgentKey(push.agent.value) && e.agentKey.None?
      then e.(agentKey := push.agent, rawFg := if e.rawFg.None? then push.agent else e.rawFg)
      else e;
    if push.sessionId.Some? then keyed.(sessionId := push.sessionId) else keyed
  }

  function PushEffect(e: Pane, push: Push, now: nat, cfg: Config): Effect {
    if e.pluginConnected then Unchanged(e)
    else ApplyStatus(Adopt(e, push), TurnOf(push.kind), now, cfg)
  }

  function OutputEffect(e: Pane, now: nat): Effect {
    var p := e.(lastOutput := now);
    if e.pluginConnected || e.agentKey.None? || e.startupPending then Unchanged(p)
    else if e.status == Idle then
      if e.demotedFromWorking then Effect(p.(demotedFromWorking := false, status := Working), true, [])
      else Effect(p.(status := Thinking), true, [])
    else if e.status == Thinking then Effect(StartWork(p.(status := Working), now), true, [])
    else Unchanged(p)
  }

  /** `launches` holds the agent keys the finished command launches. */
  function ShellFinishedEffect(e: Pane, launches: set<string>, exitCode: int, now: nat, cfg: Config): Effect {
    if e.pluginConnected || e.agentKey.None? || e.agentKey.value !in launches then Unchanged(e)
    else if exitCode != 0 then
      var n := Notify(e, ErrorAlert, now, cfg);
      Effect(n.pane.(status := Error, agentKey := None, workStarted := None), true, n.alerts)
    else Effect(e.(status := Completed, agentKey := None, workStarted := None), true, [])
  }

  function AcknowledgeEffect(e: Pane): Effect {
    var attention := e.status == Completed || e.status == WaitingForInput || e.status == Error;
    var p := e.(acknowledged := e.historyTimestamp);
    if attention then Effect(p.(status := Idle, workStarted := None), true, []) else Unchanged(p)
  }

  function StartEffect(e: Pane, key: string, now: nat, cfg: Config): Effect {
    if e.agentKey.None? || e.status == Completed || e.status == Error then
      var n := Notify(e.(agentKey := Some(key), startupPending := true, startupSince := Some(now), status := Idle,
                         sessionId := None, workStarted := None, historyTimestamp := None, acknowledged := None),
                      Started, now, cfg);
      Effect(n.pane, false, n.alerts)
    else Unchanged(e)
  }

  function CancelEffect(e: Pane, now: nat, cfg: Config): Effect {
    if e.agentKey.Some? && e.status != Completed && e.status != Error && e.status != Cancelled
        && e.status != Disconnected then
      var n := Notify(e, CancelledAlert, now, cfg);
      Effect(n.pane.(status := Cancelled, agentKey := None, workStarted := None), true, n.alerts)
    else Unchanged(e)
  }

  // -- Heartbeat ---------------------------------------------------------------------------------

  function TrackForeground(e: Pane, fg: Option<string>): Effect {
    if e.rawFg != fg then Effect(e.(rawFg := fg), true, []) else Unchanged(e)
  }

  /** The heartbeat sees the launched agent in the foreground. */
  function ConfirmLaunch(e: Pane, key: string): Effect {
    if e.startupPending && e.agentKey == Some(key) then
      Effect(e.(startupPending := false, startupSince := None), true, [])
    else Unchanged(e)
  }

  /** First detection of an agent, or of another one. */
  function DetectAgent(e: Pane, key: string): Effect {
    if e.agentKey != Some(key) then
      Effect(e.(agentKey := Some(key), status := Idle, workStarted := None, historyTimestamp := None), true, [])
    else Unchanged(e)
  }

  function AbsorbHistory(e: Pane, history: Option<Snapshot>): Effect {
    match history
    case None => Unchanged(e)
    case Some(h) =>
      if e.sessionId != Some(h.sessionId) || e.historyTimestamp != Some(h.timestamp)
          || e.taskTitle != Some(h.taskTitle) then
        Effect(e.(sessionId := Some(h.sessionId), taskTitle := Some(h.taskTitle), rawPrompt := Some(h.rawPrompt),
                  historyTimestamp := Some(h.timestamp)), true, [])
      else Unchanged(e)
  }

  predicate ProvesTurn(e: Pane) {
    e.workStarted.Some? || IsActive(e.status)
  }

  function ActivityOf(history: Option<Snapshot>): Option<TurnStatus> {
    match history case None => None case Some(h) => h.activity
  }

  predicate Foreign(e: Pane, activity: Option<TurnStatus>) {
    activity.Some? && activity.value != TurnWorking && !ProvesTurn(e)
  }

  /** The activity the heartbeat acts on: a finished turn the pane never saw start is not its own. */
  function Authoritative(e: Pane, history: Option<Snapshot>): Option<TurnStatus> {
    if Foreign(e, ActivityOf(history)) then None else ActivityOf(history)
  }

  /** A foreign turn is pinned as acknowledged. */
  function PinForeign(e: Pane, history: Option<Snapshot>): Pane {
    if Foreign(e, ActivityOf(history)) && e.historyTimestamp.Some? then e.(acknowledged := e.historyTimestamp) else e
  }

  function ApplyAuthoritative(e: Pane, authoritative: Option<TurnStatus>, now: nat, cfg: Config): Effect {
    match authoritative case None => Unchanged(e) case Some(st) => ApplyStatus(e, st, now, cfg)
  }

  function Silence(e: Pane, authoritative: Option<TurnStatus>, now: nat, cfg: Config): Effect {
    if (e.status == Working || e.status == Thinking) && authoritative != Some(TurnWorking)
       && e.lastOutput > 0 && SatSub(now, e.lastOutput) > cfg.idleAfter
    then Effect(e.(demotedFromWorking := e.status == Working, status := Idle), true, [])
    else Unchanged(e)
  }

  /** The output tail shows a prompt, or no longer does. */
  function CheckTail(e: Pane, authoritative: Option<TurnStatus>, tailWaiting: bool, now: nat, cfg: Config): Effect {
    if authoritative != Some(TurnCompleted) && authoritative != Some(TurnError) && e.status != WaitingForInput
        && tailWaiting then
      var n := Notify(e.(status := WaitingForInput, waitingSince := Some(now)), NeedsAttention, now, cfg);
      Effect(n.pane, true, n.alerts)
    else if e.status == WaitingForInput && !tailWaiting && authoritative.None?
            && e.waitingSince.Some? && e.lastOutput > e.waitingSince.value then
      Effect(StartWork(e.(status := Working, waitingSince := None), now), true, [])
    else Unchanged(e)
  }

  /** What follows the agent's detection: its session log, silence, and the prompt in its output. */
  function TurnTick(e: Pane, history: Option<Snapshot>, tailWaiting: bool, now: nat, cfg: Config): Effect {
    var authoritative := Authoritative(e, history);
    var applied := ApplyAuthoritative(PinForeign(e, history), authoritative, now, cfg);
    var silenced := Silence(applied.pane, authoritative, now, cfg);
    var checked := CheckTail(silenced.pane, authoritative, tailWaiting, now, cfg);
    Effect(checked.pane, applied.changed || silenced.changed || checked.changed, applied.alerts + checked.alerts)
  }

  function AgentTick(e: Pane, key: string, history: Option<Snapshot>, tailWaiting: bool, now: nat,
      cfg: Config): Effect {
    var confirmed := ConfirmLaunch(e, key);
    var detected := DetectAgent(confirmed.pane, key);
    var absorbed := AbsorbHistory(detected.pane, history);
    var turn := TurnTick(absorbed.pane, history, tailWaiting, now, cfg);
    Effect(turn.pane, confirmed.changed || detected.changed || absorbed.changed || turn.changed, turn.alerts)
  }

  predicate GraceOver(e: Pane, now: nat) {
    e.startupPending && e.startupSince.Some? && SatSub(now, e.startupSince.value) > STARTUP_GRACE_MS
  }

  /** No agent in the foreground. */
  function ShellTick(e: Pane, now: nat): Effect {
    if e.agentKey.Some? && !e.startupPending && ProvesTurn(e) then
      Effect(e.(status := Completed, agentKey := None, workStarted := None), true, [])
    else if GraceOver(e, now) then
      Effect(e.(startupPending := false, startupSince := None, agentKey := None), true, [])
    else Unchanged(e)
  }

  /** The foreground label, if it names a known agent. */
  function AgentIn(fg: Option<string>): Option<string> {
    if fg.Some? && IsKnownAgentKey(fg.value) then fg else None
  }

  function HeartbeatEffect(e: Pane, fg: Option<string>, history: Option<Snapshot>, tailWaiting: bool, now: nat,
      cfg: Config)
    : Effect
  {
    if e.pluginConnected then Unchanged(e)
    else
      var tracked := TrackForeground(e, fg);
      var tick := match AgentIn(fg)
                  case Some(key) => AgentTick(tracked.pane, key, history, tailWaiting, now, cfg)
                  case None => ShellTick(tracked.pane, now);
      Effect(tick.pane, tracked.changed || tick.changed, tick.alerts)
  }

  // ---------------------------------------------------------------------------------------------
  // The tracker
  // ---------------------------------------------------------------------------------------------

  datatype Emission = Emission(paneId: string, signature: Signature)

  /** `queued` logs every alert ever queued, `delivered` the ones handed to the notification service. */
  datatype State = State(
    panes: map<string, Pane>,
    retired: set<string>,
    generations: map<string, nat>,
    nextGeneration: nat,
    pending: seq<Alert>,
    delivered: seq<Alert>,
    queued: seq<Alert>,
    emitted: seq<Emission>,
    cfg: Config)

  function NewState(cfg: Config): State {
    State(map[], {}, map[], 0, [], [], [], [], cfg)
  }

  function Deliver(s: State): State {
    s.(pending := [], delivered := s.delivered + s.pending)
  }

  /** Announces the pane's status unless the last announcement was the same. */
  function EmitStatus(s: State, id: string): State {
    if id !in s.panes then s
    else
      var e := s.panes[id];
      if e.lastEmitted == Some(SignatureOf(e)) then s
      else
        var d := Deliver(s.(panes := s.panes[id := e.(lastEmitted := Some(SignatureOf(e)))]));
        d.(emitted := d.emitted + [Emission(id, SignatureOf(e))])
  }

  /** Stores an effect; `deliverFirst` says whether the operation hands over queued alerts before announcing. */
  function Commit(s: State, id: string, f: Effect, deliverFirst: bool): State {
    var stored := s.(panes := s.panes[id := f.pane], pending := s.pending + f.alerts, queued := s.queued + f.alerts);
    var d := if deliverFirst then Deliver(stored) else stored;
    if f.changed then EmitStatus(d, id) else d
  }

  lemma CommitUnchanged(s: State, id: string)
    requires id in s.panes
    ensures Commit(s, id, Unchanged(s.panes[id]), false) == s
  {
    assert s.panes[id := s.panes[id]] == s.panes;
    assert s.pending + [] == s.pending && s.queued + [] == s.queued;
  }

  predicate GenerationIsCurrent(s: State, id: string, generation: Option<nat>) {
    generation.None? || (id in s.generations && s.generations[id] == generation.value)
  }

  function Ensure(s: State, id: string): State {
    if id in s.panes then s else s.(panes := s.panes[id := FreshPane(id)])
  }

  function Output(s: State, id: string, now: nat, generation: Option<nat>): State {
    if !GenerationIsCurrent(s, id, generation) then s
    else if id !in s.panes then Deliver(s)
    else Commit(s, id, OutputEffect(s.panes[id], now), true)
  }

  function Lifecycle(s: State, id: string, push: Push, generation: Option<nat>, now: nat): State {
    if !GenerationIsCurrent(s, id, generation) || id in s.retired then s
    else
      var t := Ensure(s, id);
      Commit(t, id, PushEffect(t.panes[id], push, now, t.cfg), true)
  }

  function ShellFinished(s: State, id: string, launches: set<string>, exitCode: int, now: nat,
      generation: Option<nat>): State {
    if !GenerationIsCurrent(s, id, generation) then s
    else if id !in s.panes then Deliver(s)
    else Commit(s, id, ShellFinishedEffect(s.panes[id], launches, exitCode, now, s.cfg), true)
  }

  function Heartbeat(s: State, id: string, fg: Option<string>, history: Option<Snapshot>, tailWaiting: bool,
      now: nat): State {
    if id in s.retired then s
    else
      var t := Ensure(s, id);
      Commit(t, id, HeartbeatEffect(t.panes[id], fg, history, tailWaiting, now, t.cfg), false)
  }

  function Acknowledge(s: State, id: string): State {
    if id !in s.panes then s else Commit(s, id, AcknowledgeEffect(s.panes[id]), false)
  }

  function Register(s: State, id: string): State {
    Ensure(s.(retired := s.retired - {id}), id)
  }

  function RegisterWithGeneration(s: State, id: string): State {
    var g := s.nextGeneration + 1;
    var t := Register(s.(nextGeneration := g, generations := s.generations[id := g]), id);
    Commit(t, id, Unchanged(t.panes[id].(generation := Some(g), lastEmitted := None)), true)
  }

  function Remove(s: State, id: string, generation: Option<nat>): State {
    if !GenerationIsCurrent(s, id, generation) then s
    else s.(generations := s.generations - {id}, retired := s.retired + {id}, panes := s.panes - {id})
  }

  function SetPlugin(s: State, id: string, connected: bool): State {
    if id !in s.panes then Deliver(s)
    else Commit(s, id, Unchanged(s.panes[id].(pluginConnected := connected)), true)
  }

  function PluginStatus(s: State, id: string, st: Status): State {
    if id !in s.panes then Deliver(s)
    else Commit(s, id, Unchanged(s.panes[id].(status := st, pluginConnected := true)), true)
  }

  function Start(s: State, id: string, key: string, now: nat): State {
    var t := Ensure(s, id);
    Commit(t, id, StartEffect(t.panes[id], key, now, t.cfg), true)
  }

  function Cancel(s: State, id: string, now: nat): State {
    if id !in s.panes then Deliver(s) else Commit(s, id, CancelEffect(s.panes[id], now, s.cfg), true)
  }

  function Forget(s: State, id: string, now: nat): State {
    var t := Cancel(s, id, now);
    t.(panes := t.panes - {id})
  }

  predicate IsStale(e: Pane, now: nat, maxIdle: nat) {
    0 < e.lastOutput < SatSub(now, maxIdle)
  }

  function Prune(s: State, now: nat, maxIdle: nat): State {
    s.(panes := map id | id in s.panes && !IsStale(s.panes[id], now, maxIdle) :: s.panes[id])
  }

  function SetConfig(s: State, needsAttention: bool, error: bool): State {
    s.(cfg := s.cfg.(needsAttention := needsAttention, error := error))
  }
}
