/** Runs of the activity tracker: sequences of operations, and how each one reaches the record of one pane. */
module ActivityRuns {
  import opened Util
  import opened AgentActivity

  datatype Op =
    | OpOutput(id: string, now: nat, generation: Option<nat>)
    | OpLifecycle(id: string, push: Push, generation: Option<nat>, now: nat)
    | OpShellFinished(id: string, launches: set<string>, exitCode: int, now: nat, generation: Option<nat>)
    | OpHeartbeat(id: string, fg: Option<string>, history: Option<Snapshot>, tailWaiting: bool, now: nat)
    | OpAcknowledge(id: string)
    | OpRegister(id: string)
    | OpRegisterWithGeneration(id: string)
    | OpRemove(id: string, generation: Option<nat>)
    | OpSetPlugin(id: string, connected: bool)
    | OpPluginStatus(id: string, st: Status)
    | OpStart(id: string, key: string, now: nat)
    | OpCancel(id: string, now: nat)
    | OpForget(id: string, now: nat)
    | OpPrune(now: nat, maxIdle: nat)
    | OpSetConfig(needsAttention: bool, error: bool)

  function Step(s: State, op: Op): State {
    match op
    case OpOutput(id, now, g) => Output(s, id, now, g)
    case OpLifecycle(id, push, g, now) => Lifecycle(s, id, push, g, now)
    case OpShellFinished(id, launches, exitCode, now, g) => ShellFinished(s, id, launches, exitCode, now, g)
    case OpHeartbeat(id, fg, history, tailWaiting, now) => Heartbeat(s, id, fg, history, tailWaiting, now)
    case OpAcknowledge(id) => Acknowledge(s, id)
    case OpRegister(id) => Register(s, id)
    case OpRegisterWithGeneration(id) => RegisterWithGeneration(s, id)
    case OpRemove(id, g) => Remove(s, id, g)
    case OpSetPlugin(id, connected) => SetPlugin(s, id, connected)
    case OpPluginStatus(id, st) => PluginStatus(s, id, st)
    case OpStart(id, key, now) => Start(s, id, key, now)
    case OpCancel(id, now) => Cancel(s, id, now)
    case OpForget(id, now) => Forget(s, id, now)
    case OpPrune(now, maxIdle) => Prune(s, now, maxIdle)
    case OpSetConfig(needsAttention, error) => SetConfig(s, needsAttention, error)
  }

  function Run(s: State, ops: seq<Op>): State {
    if ops == [] then s else Step(Run(s, ops[..|ops| - 1]), ops[|ops| - 1])
  }

  lemma RunSnoc(s: State, ops: seq<Op>, op: Op)
    ensures Run(s, ops + [op]) == Step(Run(s, ops), op)
  {
    assert (ops + [op])[..|ops|] == ops;
  }

  lemma {:induction false} RunConcat(s: State, a: seq<Op>, b: seq<Op>)
    ensures Run(s, a + b) == Run(Run(s, a), b)
    decreases |b|
  {
    hide Step;
    if b == [] {
      assert a + b == a;
    } else {
      var n := |b| - 1;
      assert (a + b)[..|a + b| - 1] == a + b[..n] && (a + b)[|a + b| - 1] == b[n];
      RunConcat(s, a, b[..n]);
    }
  }

  // ---------------------------------------------------------------------------------------------
  // How an operation reaches a pane
  // ---------------------------------------------------------------------------------------------

  function PaneOf(s: State, id: string): Option<Pane> {
    if id in s.panes then Some(s.panes[id]) else None
  }

  /** The record an operation finds, or would insert. */
  function Found(s: State, id: string): Pane {
    if id in s.panes then s.panes[id] else FreshPane(id)
  }

  /** The operation updates the record of pane `id` and leaves it in place. */
  predicate Reaches(s: State, op: Op, id: string) {
    match op
    case OpOutput(i, _, g) => i == id && id in s.panes && GenerationIsCurrent(s, id, g)
    case OpLifecycle(i, _, g, _) => i == id && id !in s.retired && GenerationIsCurrent(s, id, g)
    case OpShellFinished(i, _, _, _, g) => i == id && id in s.panes && GenerationIsCurrent(s, id, g)
    case OpHeartbeat(i, _, _, _, _) => i == id && id !in s.retired
    case OpRegister(i) => i == id
    case OpRegisterWithGeneration(i) => i == id
    case OpStart(i, _, _) => i == id
    case OpAcknowledge(i) => i == id && id in s.panes
    case OpSetPlugin(i, _) => i == id && id in s.panes
    case OpPluginStatus(i, _) => i == id && id in s.panes
    case OpCancel(i, _) => i == id && id in s.panes
    case _ => false
  }

  predicate Removes(s: State, op: Op, id: string) {
    match op
    case OpRemove(i, g) => i == id && GenerationIsCurrent(s, id, g)
    case OpForget(i, _) => i == id
    case OpPrune(now, maxIdle) => id in s.panes && IsStale(s.panes[id], now, maxIdle)
    case _ => false
  }

  function EffectOf(s: State, op: Op, id: string): Effect
    requires Reaches(s, op, id)
  {
    var e := Found(s, id);
    match op
    case OpOutput(_, now, _) => OutputEffect(e, now)
    case OpLifecycle(_, push, _, now) => PushEffect(e, push, now, s.cfg)
    case OpShellFinished(_, launches, exitCode, now, _) => ShellFinishedEffect(e, launches, exitCode, now, s.cfg)
    case OpHeartbeat(_, fg, history, tailWaiting, now) => HeartbeatEffect(e, fg, history, tailWaiting, now, s.cfg)
    case OpAcknowledge(_) => AcknowledgeEffect(e)
    case OpRegister(_) => Unchanged(e)
    case OpRegisterWithGeneration(_) => Unchanged(e.(generation := Some(s.nextGeneration + 1), lastEmitted := None))
    case OpSetPlugin(_, connected) => Unchanged(e.(pluginConnected := connected))
    case OpPluginStatus(_, st) => Unchanged(e.(status := st, pluginConnected := true))
    case OpStart(_, key, now) => StartEffect(e, key, now, s.cfg)
    case OpCancel(_, now) => CancelEffect(e, now, s.cfg)
  }

  /** The record once the effect is stored and announced. */
  function Settled(f: Effect): Pane {
    if f.changed then f.pane.(lastEmitted := Some(SignatureOf(f.pane))) else f.pane
  }

  function Announced(f: Effect, id: string): seq<Emission> {
    if f.changed && f.pane.lastEmitted != Some(SignatureOf(f.pane)) then [Emission(id, SignatureOf(f.pane))] else []
  }

  lemma CommitFacts(s: State, id: string, f: Effect, deliverFirst: bool)
    ensures var c := Commit(s, id, f, deliverFirst);
            && c.panes == s.panes[id := Settled(f)]
            && c.queued == s.queued + f.alerts
            && c.emitted == s.emitted + Announced(f, id)
            && c.delivered + c.pending == s.delivered + s.pending + f.alerts
            && (c.retired, c.generations, c.nextGeneration, c.cfg)
               == (s.retired, s.generations, s.nextGeneration, s.cfg)
  {
    var c := Commit(s, id, f, deliverFirst);
    assert c.delivered + c.pending == s.delivered + s.pending + f.alerts;
    assert f.changed && f.pane.lastEmitted == Some(SignatureOf(f.pane)) ==> Settled(f) == f.pane;
  }

  /** An operation that reaches a pane settles its effect there and touches no other pane. */
  lemma StepReaches(s: State, op: Op, id: string)
    requires Reaches(s, op, id)
    ensures var t, f := Step(s, op), EffectOf(s, op, id);
            && t.panes == s.panes[id := Settled(f)]
            && t.queued == s.queued + f.alerts
            && t.emitted == s.emitted + Announced(f, id)
            && t.delivered + t.pending == s.delivered + s.pending + f.alerts
            && t.cfg == s.cfg
  {
    hide Commit, Settled, Announced, OutputEffect, PushEffect, ShellFinishedEffect, HeartbeatEffect, AcknowledgeEffect,
      StartEffect, CancelEffect;
    var f := EffectOf(s, op, id);
    var u := if op.OpRegister? || op.OpRegisterWithGeneration? || op.OpLifecycle? || op.OpHeartbeat? || op.OpStart?
             then Ensure(s, id) else s;
    assert u.panes[id] == Found(s, id) && u.panes[id := Settled(f)] == s.panes[id := Settled(f)];
    match op {
      case OpRegister(_) =>
        RegisterFacts(s, id);
      case OpRegisterWithGeneration(_) =>
        var g := s.nextGeneration + 1;
        var r := Register(s.(nextGeneration := g, generations := s.generations[id := g]), id);
        assert r.panes == u.panes;
        CommitFacts(r, id, f, true);
      case OpHeartbeat(_, _, _, _, _) => CommitFacts(u, id, f, false);
      case OpAcknowledge(_) => CommitFacts(u, id, f, false);
      case _ => CommitFacts(u, id, f, true);
    }
  }

  lemma RegisterFacts(s: State, id: string)
    ensures var t, f := Register(s, id), Unchanged(Found(s, id));
            && t.panes == s.panes[id := Settled(f)] && t.queued == s.queued + f.alerts
            && t.emitted == s.emitted + Announced(f, id)
            && t.delivered + t.pending == s.delivered + s.pending + f.alerts && t.cfg == s.cfg
  {
    assert id in s.panes ==> s.panes[id := s.panes[id]] == s.panes;
  }

  /** The pane an operation names, if it names one. */
  function Named(op: Op): Option<string> {
    match op
    case OpPrune(_, _) => None
    case OpSetConfig(_, _) => None
    case _ => Some(op.id)
  }

  /** An operation that neither reaches nor removes a pane leaves its record alone. */
  lemma StepPasses(s: State, op: Op, id: string)
    requires !Reaches(s, op, id) && !Removes(s, op, id)
    ensures PaneOf(Step(s, op), id) == PaneOf(s, id)
  {
    hide Commit, OutputEffect, PushEffect, ShellFinishedEffect, HeartbeatEffect, AcknowledgeEffect, StartEffect,
        CancelEffect;
    if Named(op).Some? && Reaches(s, op, op.id) {
      StepReaches(s, op, op.id);
    } else if op.OpForget? && op.id in s.panes {
      CommitFacts(s, op.id, CancelEffect(s.panes[op.id], op.now, s.cfg), true);
    }
  }

  lemma StepRemoves(s: State, op: Op, id: string)
    requires Removes(s, op, id)
    ensures id !in Step(s, op).panes
  {
  }

  /** Every record is stored under its own pane id. */
  ghost predicate WellKeyed(s: State) {
    forall id :: id in s.panes ==> s.panes[id].id == id
  }

  /** No operation of the run removes the pane. */
  ghost predicate Survives(s: State, ops: seq<Op>, id: string) {
    forall n :: 0 <= n < |ops| ==> !RemovedAt(s, ops, n, id)
  }

  predicate RemovedAt(s: State, ops: seq<Op>, n: nat, id: string)
    requires n < |ops|
  {
    Removes(Run(s, ops[..n]), ops[n], id)
  }

  lemma SurvivesInit(s: State, ops: seq<Op>, id: string)
    requires ops != [] && Survives(s, ops, id)
    ensures Survives(s, ops[..|ops| - 1], id)
    ensures !Removes(Run(s, ops[..|ops| - 1]), ops[|ops| - 1], id)
  {
    hide Removes, Run;
    var init := ops[..|ops| - 1];
    assert !RemovedAt(s, ops, |init|, id);
    forall n | 0 <= n < |init| ensures !RemovedAt(s, init, n, id) {
      assert init[..n] == ops[..n] && !RemovedAt(s, ops, n, id);
    }
  }
}
