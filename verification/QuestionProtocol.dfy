/**
 Questions the orchestrator asks the user, and the cancellation of the streams they belong to. Four separately locked
 collections are shared by any number of threads; every step below is what one thread does from one lock acquisition to
 the next. `ask` alone keeps locks across steps: it holds the tombstones while it takes the ownership index.
 */
module QuestionProtocol {
  import opened Util

  type Id = string

  datatype Message = Answer(text: string) | RequestCancelled | RequestFinished

  datatype Outcome = Reply(message: Message) | Refused | NotShown | TimedOut | Closed

  /** How far a call of `ask_user_with_context` has got. */
  datatype Phase =
    | Checked                       // holds the tombstones
    | Owning                        // holds the tombstones and the ownership index
    | Registered
    | Attributed(session: Option<string>)
    | Waiting
    | Disowning(outcome: Outcome)   // about to leave the ownership index
    | Removing(outcome: Outcome)    // about to leave the pending map
    | Done(outcome: Outcome)

  datatype Ask = Ask(stream: Option<Id>, phase: Phase)

  datatype SweepPhase = AtContext | AtQuestions | Sending(todo: seq<Id>) | Finished

  datatype SweepKind = Cancelling | Clearing

  /**
   A call of `cancel_request`, or of one of the two functions that clear contexts; `rest` are streams still to clear.
   */
  datatype Sweep = Sweep(kind: SweepKind, stream: Id, phase: SweepPhase, found: bool, rest: seq<Id>)

  datatype State = State(
    cancelled: set<Id>,
    context: map<Id, string>,
    questions: map<Id, seq<Id>>,
    pending: set<Id>,
    inbox: map<Id, seq<Message>>,
    asks: map<Id, Ask>,
    sweeps: map<nat, Sweep>,
    tombstonesHeldBy: Option<Id>,
    indexHeldBy: Option<Id>
  )

  const Start := State({}, map[], map[], {}, map[], map[], map[], None, None)

  // ---------------------------------------------------------------------------------------------
  // Steps; a step whose lock is taken, or whose thread is elsewhere, changes nothing
  // ---------------------------------------------------------------------------------------------

  datatype Op =
    | OpAsk(q: Id, stream: Option<Id>)
    | OpOwn(q: Id)
    | OpRegister(q: Id)
    | OpReadContext(q: Id)
    | OpEmit(q: Id, shown: bool)
    | OpReceive(q: Id)
    | OpTimeout(q: Id)
    | OpDisown(q: Id)
    | OpRemove(q: Id)
    | OpAnswer(q: Id, text: string)
    | OpCancel(task: nat, s: Id)
    | OpClear(task: nat, s: Id)
    | OpClearAll(task: nat, order: seq<Id>)
    | OpAdvance(task: nat)
    | OpFinish(s: Id)
    | OpSetContext(s: Id, session: string)

  predicate InPhase(st: State, q: Id, phase: Phase) {
    q in st.asks && st.asks[q].phase == phase
  }

  function Move(st: State, q: Id, phase: Phase): State
    requires q in st.asks
  {
    st.(asks := st.asks[q := st.asks[q].(phase := phase)])
  }

  /** Question ids are unique, so a call whose id was used before is not a step. */
  function BeginAsk(st: State, q: Id, stream: Option<Id>): State {
    if q in st.asks || st.tombstonesHeldBy.Some? then st
    else if stream.Some? && stream.value in st.cancelled then
      st.(asks := st.asks[q := Ask(stream, Done(Refused))], inbox := st.inbox[q := []])
    else
      st.(asks := st.asks[q := Ask(stream, Checked)], inbox := st.inbox[q := []], tombstonesHeldBy := Some(q))
  }

  function Own(st: State, q: Id): State {
    if InPhase(st, q, Checked) && st.indexHeldBy.None? then Move(st, q, Owning).(indexHeldBy := Some(q)) else st
  }

  function IdsOf(questions: map<Id, seq<Id>>, s: Id): seq<Id> {
    if s in questions then questions[s] else []
  }

  /** Insert the sender, record the stream's ownership, release the three locks. */
  function Register(st: State, q: Id): State {
    if !InPhase(st, q, Owning) then st
    else
      var owned := match st.asks[q].stream
                   case Some(s) => st.questions[s := IdsOf(st.questions, s) + [q]]
                   case None => st.questions;
      Move(st, q, Registered).(questions := owned, pending := st.pending + {q}, tombstonesHeldBy := None,
          indexHeldBy := None)
  }

  function ReadContext(st: State, q: Id): State {
    if !InPhase(st, q, Registered) then st
    else
      var session := match st.asks[q].stream
                     case Some(s) => if s in st.context then Some(st.context[s]) else None
                     case None => None;
      Move(st, q, Attributed(session))
  }

  function Emit(st: State, q: Id, shown: bool): State {
    if !(q in st.asks && st.asks[q].phase.Attributed?) then st
    else Move(st, q, if shown then Waiting else Disowning(NotShown))
  }

  /** A buffered message wins; without one, the call wakes only when its sender is gone. */
  function Receive(st: State, q: Id): State {
    if !InPhase(st, q, Waiting) || q !in st.inbox then st
    else if st.inbox[q] != [] then
      Move(st, q, Disowning(Reply(st.inbox[q][0]))).(inbox := st.inbox[q := st.inbox[q][1..]])
    else if q !in st.pending then Move(st, q, Disowning(Closed))
    else st
  }

  function Timeout(st: State, q: Id): State {
    if InPhase(st, q, Waiting) && q in st.inbox && st.inbox[q] == [] && q in st.pending
    then Move(st, q, Disowning(TimedOut))
    else st
  }

  function Without(ids: seq<Id>, q: Id): (r: seq<Id>)
    ensures forall x :: x in r <==> x in ids && x != q
  {
    if ids == [] then []
    else if ids[0] == q then Without(ids[1..], q)
    else [ids[0]] + Without(ids[1..], q)
  }

  function LeaveIndex(st: State, s: Id, q: Id): State
    requires s in st.questions
  {
    var kept := Without(st.questions[s], q);
    st.(questions := if kept == [] then st.questions - {s} else st.questions[s := kept])
  }

  function Disown(st: State, q: Id): State {
    if !(q in st.asks && st.asks[q].phase.Disowning?) then st
    else
      var moved := Move(st, q, Removing(st.asks[q].phase.outcome));
      match st.asks[q].stream
      case None => moved
      case Some(s) =>
        if st.indexHeldBy.Some? then st
        else if s !in st.questions then moved
        else LeaveIndex(moved, s, q)
  }

  function Remove(st: State, q: Id): State {
    if !(q in st.asks && st.asks[q].phase.Removing?) then st
    else Move(st, q, Done(st.asks[q].phase.outcome)).(pending := st.pending - {q})
  }

  /** Take the sender out of the pending map and send on it, under that one lock. */
  function Send(st: State, q: Id, message: Message): State {
    if q in st.pending && q in st.inbox
        then st.(pending := st.pending - {q}, inbox := st.inbox[q := st.inbox[q] + [message]])
    else st
  }

  function BeginCancel(st: State, task: nat, s: Id): State {
    if task in st.sweeps || st.tombstonesHeldBy.Some? then st
    else st.(cancelled := st.cancelled + {s}, sweeps := st.sweeps[task := Sweep(Cancelling, s, AtContext, false, [])])
  }

  function BeginClear(st: State, task: nat, s: Id, rest: seq<Id>): State {
    if task in st.sweeps then st
    else st.(sweeps := st.sweeps[task := Sweep(Clearing, s, AtContext, false, rest)])
  }

  /** The keys are copied in the map's own order, which is any order. */
  function BeginClearAll(st: State, task: nat, order: seq<Id>): State {
    if order == [] || (set s | s in order) != st.context.Keys || |order| != |st.context| then st
    else BeginClear(st, task, order[0], order[1..])
  }

  function MessageOf(kind: SweepKind): Message {
    match kind
    case Cancelling => RequestCancelled
    case Clearing => RequestFinished
  }

  function Shorter(w: Sweep): Sweep
    requires w.phase.Sending? && w.phase.todo != []
  {
    w.(phase := Sending(w.phase.todo[1..]))
  }

  function TakeIndex(st: State, task: nat, found: bool): State
    requires task in st.sweeps
  {
    var w := st.sweeps[task];
    st.(questions := st.questions - {w.stream},
        sweeps := st.sweeps[task := w.(phase := Sending(IdsOf(st.questions, w.stream)), found := found)])
  }

  function Advance(st: State, task: nat): State {
    if task !in st.sweeps then st
    else
      var w := st.sweeps[task];
      match w.phase
      case AtContext =>
        var next := w.(phase := AtQuestions, found := w.stream in st.context);
        st.(sweeps := st.sweeps[task := next],
            context := if w.kind == Clearing then st.context - {w.stream} else st.context)
      case AtQuestions =>
        if st.indexHeldBy.Some? then st
        else TakeIndex(st, task, w.found || IdsOf(st.questions, w.stream) != [])
      case Sending(todo) =>
        if todo != [] then
          Send(st, todo[0], MessageOf(w.kind)).(sweeps := st.sweeps[task := Shorter(w)])
        else if w.rest != [] then
          st.(sweeps := st.sweeps[task := w.(stream := w.rest[0], phase := AtContext, rest := w.rest[1..])])
        else st.(sweeps := st.sweeps[task := w.(phase := Finished)])
      case Finished => st
  }

  function Finish(st: State, s: Id): State {
    if st.tombstonesHeldBy.Some? then st else st.(cancelled := st.cancelled - {s})
  }

  function Step(st: State, op: Op): State {
    match op
    case OpAsk(q, stream) => BeginAsk(st, q, stream)
    case OpOwn(q) => Own(st, q)
    case OpRegister(q) => Register(st, q)
    case OpReadContext(q) => ReadContext(st, q)
    case OpEmit(q, shown) => Emit(st, q, shown)
    case OpReceive(q) => Receive(st, q)
    case OpTimeout(q) => Timeout(st, q)
    case OpDisown(q) => Disown(st, q)
    case OpRemove(q) => Remove(st, q)
    case OpAnswer(q, text) => Send(st, q, Answer(text))
    case OpCancel(task, s) => BeginCancel(st, task, s)
    case OpClear(task, s) => BeginClear(st, task, s, [])
    case OpClearAll(task, order) => BeginClearAll(st, task, order)
    case OpAdvance(task) => Advance(st, task)
    case OpFinish(s) => Finish(st, s)
    case OpSetContext(s, session) => st.(context := st.context[s := session])
  }

  function Run(st: State, ops: seq<Op>): State {
    if ops == [] then st else Step(Run(st, ops[..|ops| - 1]), ops[|ops| - 1])
  }

  lemma RunSnoc(st: State, ops: seq<Op>, op: Op)
    ensures Run(st, ops + [op]) == Step(Run(st, ops), op)
  {
    assert (ops + [op])[..|ops|] == ops;
  }

  lemma {:induction false} RunConcat(st: State, a: seq<Op>, b: seq<Op>)
    ensures Run(st, a + b) == Run(Run(st, a), b)
    decreases |b|
  {
    hide Step;
    if b == [] {
      assert a + b == a;
    } else {
      assert (a + b)[..|a + b| - 1] == a + b[..|b| - 1];
      RunConcat(st, a, b[..|b| - 1]);
    }
  }

  // ---------------------------------------------------------------------------------------------
  // What every reachable state keeps
  // ---------------------------------------------------------------------------------------------

  predicate HoldsTombstones(phase: Phase) {
    phase == Checked || phase == Owning
  }

  /** The locks are held exactly by the calls whose phase says so. */
  ghost predicate LocksMatch(st: State) {
    && (forall q :: q in st.asks ==> (HoldsTombstones(st.asks[q].phase) <==> st.tombstonesHeldBy == Some(q)))
    && (forall q :: q in st.asks ==> (st.asks[q].phase == Owning <==> st.indexHeldBy == Some(q)))
    && (st.tombstonesHeldBy.Some? ==> st.tombstonesHeldBy.value in st.asks)
    && (st.indexHeldBy.Some? ==> st.indexHeldBy.value in st.asks)
  }

  /** While a call holds the tombstones its stream is not among them. */
  ghost predicate CheckedStaysLive(st: State) {
    forall q :: q in st.asks && HoldsTombstones(st.asks[q].phase) && st.asks[q].stream.Some?
      ==> st.asks[q].stream.value !in st.cancelled
  }

  /** Before it is registered a question has no sender; it gets at most one message, and then has no sender either. */
  ghost predicate OneMessage(st: State) {
    && st.inbox.Keys == st.asks.Keys && st.pending <= st.asks.Keys
    && (forall q :: q in st.asks && q in st.pending ==>
       st.inbox[q] == [] && !HoldsTombstones(st.asks[q].phase) && !st.asks[q].phase.Done?)
    && (forall q :: q in st.asks ==> |st.inbox[q]| <= 1 && (HoldsTombstones(st.asks[q].phase) ==> st.inbox[q] == []))
  }

  predicate Listening(phase: Phase) {
    phase == Registered || phase.Attributed? || phase == Waiting
  }

  predicate TodoHas(w: Sweep, q: Id) {
    w.phase.Sending? && q in w.phase.todo
  }

  /** A sweep that has taken this question and not yet sent to it. */
  ghost predicate Taken(st: State, s: Id, q: Id) {
    exists task :: task in st.sweeps && st.sweeps[task].stream == s && TodoHas(st.sweeps[task], q)
  }

  /** A question with a live sender is still in its stream's index, or in the hands of a sweep of that stream. */
  ghost predicate Accounted(st: State) {
    forall q :: q in st.asks && q in st.pending && Listening(st.asks[q].phase) && st.asks[q].stream.Some?
      ==> var s := st.asks[q].stream.value; (s in st.questions && q in st.questions[s]) || Taken(st, s, q)
  }

  /** A cancel of the stream that has not yet taken its questions. */
  predicate Coming(w: Sweep, s: Id) {
    w.kind == Cancelling && w.stream == s && (w.phase == AtContext || w.phase == AtQuestions)
  }

  /** A tombstoned stream has questions in the index only until its cancel takes them. */
  ghost predicate TombstonesSweep(st: State) {
    forall s :: s in st.cancelled && s in st.questions ==> CancelComing(st, s)
  }

  ghost predicate CancelComing(st: State, s: Id) {
    exists task :: task in st.sweeps && Coming(st.sweeps[task], s)
  }

  /** Index and sweeps hold questions only under their own stream. */
  ghost predicate OwnStream(st: State) {
    && (forall s, q :: s in st.questions && q in st.questions[s] ==> q in st.asks && st.asks[q].stream == Some(s))
    && (forall task, q :: task in st.sweeps && TodoHas(st.sweeps[task], q) ==>
       q in st.asks && st.asks[q].stream == Some(st.sweeps[task].stream))
  }

  /** What concerns the threads that ask. */
  ghost predicate Threads(st: State) {
    LocksMatch(st) && CheckedStaysLive(st) && OneMessage(st)
  }

  /** What concerns the index and the sweeps. */
  ghost predicate Ownership(st: State) {
    Accounted(st) && TombstonesSweep(st) && OwnStream(st)
  }

  ghost predicate Good(st: State) {
    Threads(st) && Ownership(st)
  }

  // Small changes that keep every invariant; the steps are made of them.

  predicate Quiet(st: State, q: Id, phase: Phase) {
    && q in st.asks && !HoldsTombstones(st.asks[q].phase) && !HoldsTombstones(phase)
    && (Listening(phase) ==> Listening(st.asks[q].phase)) && (phase.Done? ==> q !in st.pending)
  }

  lemma QuietMoveThreads(st: State, q: Id, phase: Phase)
    requires Threads(st) && Quiet(st, q, phase)
    ensures Threads(Move(st, q, phase))
  {
  }

  lemma QuietMoveOwnership(st: State, q: Id, phase: Phase)
    requires Good(st) && Quiet(st, q, phase)
    ensures Ownership(Move(st, q, phase))
  {
    hide LocksMatch, CheckedStaysLive;
  }

  lemma InboxChangeThreads(st: State, q: Id, messages: seq<Message>)
    requires Threads(st) && q in st.inbox && q in st.asks && |messages| <= 1
             && (messages != [] ==> q !in st.pending && !HoldsTombstones(st.asks[q].phase))
    ensures Threads(st.(inbox := st.inbox[q := messages]))
  {
  }

  lemma InboxChangeOwnership(st: State, q: Id, messages: seq<Message>)
    requires Good(st) && q in st.inbox && q in st.asks && |messages| <= 1
             && (messages != [] ==> q !in st.pending && !HoldsTombstones(st.asks[q].phase))
    ensures Ownership(st.(inbox := st.inbox[q := messages]))
  {
    hide LocksMatch, CheckedStaysLive;
  }

  lemma LosesSenderThreads(st: State, q: Id)
    requires Threads(st)
    ensures Threads(st.(pending := st.pending - {q}))
  {
  }

  lemma LosesSenderOwnership(st: State, q: Id)
    requires Good(st)
    ensures Ownership(st.(pending := st.pending - {q}))
  {
    hide LocksMatch, CheckedStaysLive;
  }

  lemma LeavesIndexThreads(st: State, s: Id, q: Id)
    requires Threads(st) && s in st.questions && q in st.asks && !Listening(st.asks[q].phase)
    ensures Threads(LeaveIndex(st, s, q))
  {
  }

  lemma LeavesIndexOwnership(st: State, s: Id, q: Id)
    requires Good(st) && s in st.questions && q in st.asks && !Listening(st.asks[q].phase)
    ensures Ownership(LeaveIndex(st, s, q))
  {
    hide LocksMatch, CheckedStaysLive;
    var kept, t := Without(st.questions[s], q), LeaveIndex(st, s, q);
    assert forall x :: x in st.questions[s] && x != q ==> x in kept;
    SweepsGrow(st, t);
  }

  lemma NewSweepThreads(st: State, task: nat, w: Sweep)
    requires Threads(st) && task !in st.sweeps && !w.phase.Sending?
    ensures Threads(st.(sweeps := st.sweeps[task := w]))
  {
  }

  lemma NewSweepOwnership(st: State, task: nat, w: Sweep)
    requires Good(st) && task !in st.sweeps && !w.phase.Sending?
    ensures Ownership(st.(sweeps := st.sweeps[task := w]))
  {
    hide LocksMatch, CheckedStaysLive;
    SweepsGrow(st, st.(sweeps := st.sweeps[task := w]));
  }

  lemma SweepsGrow(st: State, t: State)
    requires forall task :: task in st.sweeps ==> task in t.sweeps && t.sweeps[task] == st.sweeps[task]
    ensures forall s, q :: Taken(st, s, q) ==> Taken(t, s, q)
    ensures forall s :: CancelComing(st, s) ==> CancelComing(t, s)
  {
    forall s, q | Taken(st, s, q) ensures Taken(t, s, q) {
      var task :| task in st.sweeps && st.sweeps[task].stream == s && TodoHas(st.sweeps[task], q);
      assert task in t.sweeps && TodoHas(t.sweeps[task], q);
    }
    forall s | CancelComing(st, s) ensures CancelComing(t, s) {
      var task :| task in st.sweeps && Coming(st.sweeps[task], s);
      assert task in t.sweeps && Coming(t.sweeps[task], s);
    }
  }

  lemma ReplaceSweepThreads(st: State, task: nat, w: Sweep)
    requires Threads(st) && task in st.sweeps && !w.phase.Sending?
             && (st.sweeps[task].phase.Sending? ==> st.sweeps[task].phase.todo == [])
             && (forall s :: Coming(st.sweeps[task], s) ==> Coming(w, s))
    ensures Threads(st.(sweeps := st.sweeps[task := w]))
  {
  }

  lemma ReplaceSweepOwnership(st: State, task: nat, w: Sweep)
    requires Good(st) && task in st.sweeps && !w.phase.Sending?
             && (st.sweeps[task].phase.Sending? ==> st.sweeps[task].phase.todo == [])
             && (forall s :: Coming(st.sweeps[task], s) ==> Coming(w, s))
    ensures Ownership(st.(sweeps := st.sweeps[task := w]))
  {
    hide LocksMatch, CheckedStaysLive;
    SweepReplaced(st, st.(sweeps := st.sweeps[task := w]), task);
  }

  lemma SweepReplaced(st: State, t: State, task: nat)
    requires task in st.sweeps && t.sweeps.Keys == st.sweeps.Keys
    requires forall k :: k in st.sweeps && k != task ==> t.sweeps[k] == st.sweeps[k]
    ensures forall s, q :: Taken(st, s, q) && !TodoHas(st.sweeps[task], q) ==> Taken(t, s, q)
    ensures forall s, q :: Taken(st, s, q) && TodoHas(t.sweeps[task], q) && t.sweeps[task].stream == s ==>
            Taken(t, s, q)
    ensures forall s :: CancelComing(st, s) && (Coming(st.sweeps[task], s) ==> Coming(t.sweeps[task], s)) ==>
            CancelComing(t, s)
  {
    forall s, q | Taken(st, s, q) && !TodoHas(st.sweeps[task], q) ensures Taken(t, s, q) {
      var k :| k in st.sweeps && st.sweeps[k].stream == s && TodoHas(st.sweeps[k], q);
      assert k in t.sweeps && TodoHas(t.sweeps[k], q);
    }
    forall s | CancelComing(st, s) && (Coming(st.sweeps[task], s) ==> Coming(t.sweeps[task], s))
      ensures CancelComing(t, s)
    {
      var k :| k in st.sweeps && Coming(st.sweeps[k], s);
      assert k in t.sweeps && Coming(t.sweeps[k], s);
    }
  }

  lemma ShrinkTodoThreads(st: State, task: nat)
    requires Threads(st) && task in st.sweeps && st.sweeps[task].phase.Sending? && st.sweeps[task].phase.todo != []
             && st.sweeps[task].phase.todo[0] !in st.pending
    ensures Threads(st.(sweeps := st.sweeps[task := Shorter(st.sweeps[task])]))
  {
  }

  lemma ShrinkTodoOwnership(st: State, task: nat)
    requires Good(st) && task in st.sweeps && st.sweeps[task].phase.Sending? && st.sweeps[task].phase.todo != []
             && st.sweeps[task].phase.todo[0] !in st.pending
    ensures Ownership(st.(sweeps := st.sweeps[task := Shorter(st.sweeps[task])]))
  {
    hide LocksMatch, CheckedStaysLive;
    var t := st.(sweeps := st.sweeps[task := Shorter(st.sweeps[task])]);
    var todo := st.sweeps[task].phase.todo;
    SweepReplaced(st, t, task);
    assert forall x :: x in todo ==> x == todo[0] || x in todo[1..];
    assert forall x :: x in todo[1..] ==> x in todo;
  }

  lemma TakeAllThreads(st: State, task: nat, found: bool)
    requires Threads(st) && task in st.sweeps && st.sweeps[task].phase == AtQuestions
    ensures Threads(TakeIndex(st, task, found))
  {
  }

  lemma TakeAllOwnership(st: State, task: nat, found: bool)
    requires Good(st) && task in st.sweeps && st.sweeps[task].phase == AtQuestions
    ensures Ownership(TakeIndex(st, task, found))
  {
    hide LocksMatch, CheckedStaysLive;
    var t, s := TakeIndex(st, task, found), st.sweeps[task].stream;
    SweepReplaced(st, t, task);
    forall q | q in IdsOf(st.questions, s) ensures Taken(t, s, q) {
      assert TodoHas(t.sweeps[task], q);
    }
  }

  // The steps

  lemma InboxFacts(st: State, q: Id)
    requires Threads(st)
    ensures st.inbox.Keys == st.asks.Keys && st.pending <= st.asks.Keys
    ensures q in st.pending ==> st.inbox[q] == [] && !HoldsTombstones(st.asks[q].phase)
    ensures q in st.asks && st.inbox[q] != [] ==> q !in st.pending && |st.inbox[q]| == 1
  {
  }

  lemma RefusedThreads(st: State, q: Id, stream: Option<Id>)
    requires Threads(st) && q !in st.asks
    ensures Threads(st.(asks := st.asks[q := Ask(stream, Done(Refused))], inbox := st.inbox[q := []]))
  {
  }

  lemma CheckedThreads(st: State, q: Id, stream: Option<Id>)
    requires Threads(st) && q !in st.asks && st.tombstonesHeldBy.None?
    requires stream.Some? ==> stream.value !in st.cancelled
    ensures Threads(st.(asks := st.asks[q := Ask(stream, Checked)], inbox := st.inbox[q := []],
            tombstonesHeldBy := Some(q)))
  {
    var t := st.(asks := st.asks[q := Ask(stream, Checked)], inbox := st.inbox[q := []], tombstonesHeldBy := Some(q));
    assert LocksMatch(t) by { hide OneMessage, CheckedStaysLive; }
    assert OneMessage(t) by { hide LocksMatch, CheckedStaysLive; }
    hide LocksMatch, OneMessage;
  }

  lemma BeginAskThreads(st: State, q: Id, stream: Option<Id>)
    requires Threads(st)
    ensures Threads(BeginAsk(st, q, stream))
  {
    hide Threads;
    if q !in st.asks && st.tombstonesHeldBy.None? {
      if stream.Some? && stream.value in st.cancelled {
        RefusedThreads(st, q, stream);
      } else {
        CheckedThreads(st, q, stream);
      }
    }
  }

  /** A call that is not listening yet changes nothing about the index and the sweeps. */
  lemma AskEntersOwnership(st: State, q: Id, ask: Ask, holder: Option<Id>)
    requires Ownership(st) && q !in st.asks && !Listening(ask.phase)
    ensures Ownership(st.(asks := st.asks[q := ask], inbox := st.inbox[q := []], tombstonesHeldBy := holder))
  {
    hide Taken, CancelComing;
    SweepsGrow(st, st.(asks := st.asks[q := ask], inbox := st.inbox[q := []], tombstonesHeldBy := holder));
  }

  lemma BeginAskOwnership(st: State, q: Id, stream: Option<Id>)
    requires Good(st)
    ensures Ownership(BeginAsk(st, q, stream))
  {
    hide Ownership, Threads;
    if q !in st.asks && st.tombstonesHeldBy.None? {
      if stream.Some? && stream.value in st.cancelled {
        AskEntersOwnership(st, q, Ask(stream, Done(Refused)), None);
      } else {
        AskEntersOwnership(st, q, Ask(stream, Checked), Some(q));
      }
    }
  }

  lemma OwnThreads(st: State, q: Id)
    requires Threads(st)
    ensures Threads(Own(st, q))
  {
  }

  lemma OwnOwnership(st: State, q: Id)
    requires Good(st)
    ensures Ownership(Own(st, q))
  {
    hide LocksMatch, CheckedStaysLive;
  }

  lemma RegisterThreads(st: State, q: Id)
    requires Threads(st)
    ensures Threads(Register(st, q))
  {
  }

  lemma IndexGrows(st: State, s: Id, q: Id)
    requires Ownership(st) && q in st.asks && st.asks[q].stream == Some(s) && s !in st.cancelled
    ensures Ownership(st.(questions := st.questions[s := IdsOf(st.questions, s) + [q]]))
  {
    hide Taken, CancelComing;
    SweepsGrow(st, st.(questions := st.questions[s := IdsOf(st.questions, s) + [q]]));
  }

  /** A question in its stream's index gets its sender. */
  lemma Published(st: State, q: Id)
    requires Ownership(st) && q in st.asks
    requires st.asks[q].stream.Some? ==> var s := st.asks[q].stream.value; s in st.questions && q in st.questions[s]
    ensures Ownership(Move(st, q, Registered).(pending := st.pending + {q}, tombstonesHeldBy := None,
            indexHeldBy := None))
  {
    hide Taken, CancelComing;
    SweepsGrow(st, Move(st, q, Registered).(pending := st.pending + {q}, tombstonesHeldBy := None,
        indexHeldBy := None));
  }

  lemma RegisterOwnership(st: State, q: Id)
    requires Good(st)
    ensures Ownership(Register(st, q))
  {
    hide LocksMatch, OneMessage, Ownership;
    if InPhase(st, q, Owning) {
      var stream := st.asks[q].stream;
      if stream.Some? {
        IndexGrows(st, stream.value, q);
        Published(st.(questions := st.questions[stream.value := IdsOf(st.questions, stream.value) + [q]]), q);
      } else {
        Published(st, q);
      }
    }
  }

  lemma CancelStarts(st: State, task: nat, s: Id)
    requires Good(st)
    ensures Good(BeginCancel(st, task, s))
  {
    var t, w := BeginCancel(st, task, s), Sweep(Cancelling, s, AtContext, false, []);
    if task !in st.sweeps && st.tombstonesHeldBy.None? {
      var u := st.(sweeps := st.sweeps[task := w]);
      NewSweepThreads(st, task, w);
      NewSweepOwnership(st, task, w);
      assert Coming(t.sweeps[task], s) && CancelComing(t, s);
      Buried(u, s);
    }
  }

  /** Burying a stream nobody has checked, with a cancel of it under way. */
  lemma Buried(st: State, s: Id)
    requires Good(st) && st.tombstonesHeldBy.None? && CancelComing(st, s)
    ensures Good(st.(cancelled := st.cancelled + {s}))
  {
    hide Taken, CancelComing;
    var t := st.(cancelled := st.cancelled + {s});
    SweepsGrow(st, t);
  }

  lemma Unburied(st: State, s: Id)
    requires Good(st)
    ensures Good(st.(cancelled := st.cancelled - {s}))
  {
    hide Taken, CancelComing;
    var t := st.(cancelled := st.cancelled - {s});
    SweepsGrow(st, t);
  }

  lemma ContextIsFree(st: State, context: map<Id, string>)
    requires Good(st)
    ensures Good(st.(context := context))
  {
    hide Taken, CancelComing;
    SweepsGrow(st, st.(context := context));
  }

  lemma Quieten(st: State, q: Id, phase: Phase)
    requires Good(st) && Quiet(st, q, phase)
    ensures Good(Move(st, q, phase))
  {
    hide Threads, Ownership, Quiet;
    QuietMoveThreads(st, q, phase);
    QuietMoveOwnership(st, q, phase);
  }

  lemma CallMoves(st: State, op: Op)
    requires Good(st)
    ensures op.OpReadContext? || op.OpEmit? || op.OpTimeout? ==> Good(Step(st, op))
  {
    hide Good;
    match op {
      case OpReadContext(q) =>
        if InPhase(st, q, Registered) { Quieten(st, q, ReadContext(st, q).asks[q].phase); }
      case OpEmit(q, shown) =>
        if q in st.asks && st.asks[q].phase.Attributed? { Quieten(st, q, Emit(st, q, shown).asks[q].phase); }
      case OpTimeout(q) =>
        if Timeout(st, q) != st { Quieten(st, q, Disowning(TimedOut)); }
      case _ =>
    }
  }

  lemma ReceiveKeeps(st: State, q: Id)
    requires Good(st)
    ensures Good(Receive(st, q))
  {
    InboxFacts(st, q);
    hide Threads, Ownership;
    if InPhase(st, q, Waiting) {
      if st.inbox[q] != [] {
        var m := Disowning(Reply(st.inbox[q][0]));
        var u := Move(st, q, m);
        Quieten(st, q, m);
        InboxChangeThreads(u, q, st.inbox[q][1..]);
        InboxChangeOwnership(u, q, st.inbox[q][1..]);
      } else if q !in st.pending {
        Quieten(st, q, Disowning(Closed));
      }
    }
  }

  lemma DisownKeeps(st: State, q: Id)
    requires Good(st)
    ensures Good(Disown(st, q))
  {
    hide Threads, Ownership;
    if q in st.asks && st.asks[q].phase.Disowning? {
      var phase := Removing(st.asks[q].phase.outcome);
      Quieten(st, q, phase);
      var u, stream := Move(st, q, phase), st.asks[q].stream;
      if stream.Some? && st.indexHeldBy.None? && stream.value in st.questions {
        LeavesIndexThreads(u, stream.value, q);
        LeavesIndexOwnership(u, stream.value, q);
      }
    }
  }

  lemma RemoveKeeps(st: State, q: Id)
    requires Good(st)
    ensures Good(Remove(st, q))
  {
    hide Threads, Ownership;
    if q in st.asks && st.asks[q].phase.Removing? {
      LosesSenderThreads(st, q);
      LosesSenderOwnership(st, q);
      Quieten(st.(pending := st.pending - {q}), q, Done(st.asks[q].phase.outcome));
    }
  }

  lemma SendKeeps(st: State, q: Id, message: Message)
    requires Good(st)
    ensures Good(Send(st, q, message)) && q !in Send(st, q, message).pending
  {
    InboxFacts(st, q);
    hide Threads, Ownership;
    if q in st.pending && q in st.inbox {
      var u := st.(pending := st.pending - {q});
      LosesSenderThreads(st, q);
      LosesSenderOwnership(st, q);
      assert u.inbox[q] + [message] == [message];
      InboxChangeThreads(u, q, [message]);
      InboxChangeOwnership(u, q, [message]);
    }
  }

  lemma ClearStarts(st: State, task: nat, s: Id, rest: seq<Id>)
    requires Good(st)
    ensures Good(BeginClear(st, task, s, rest))
  {
    hide Threads, Ownership;
    if task !in st.sweeps {
      var w := Sweep(Clearing, s, AtContext, false, rest);
      NewSweepThreads(st, task, w);
      NewSweepOwnership(st, task, w);
    }
  }

  lemma AdvanceKeeps(st: State, task: nat)
    requires Good(st)
    ensures Good(Advance(st, task))
  {
    hide Threads, Ownership;
    if task in st.sweeps {
      var w := st.sweeps[task];
      match w.phase {
        case AtContext =>
          var next := w.(phase := AtQuestions, found := w.stream in st.context);
          ReplaceSweepThreads(st, task, next);
          ReplaceSweepOwnership(st, task, next);
          ContextIsFree(st.(sweeps := st.sweeps[task := next]), Advance(st, task).context);
        case AtQuestions =>
          if st.indexHeldBy.None? {
            var found := w.found || IdsOf(st.questions, w.stream) != [];
            TakeAllThreads(st, task, found);
            TakeAllOwnership(st, task, found);
          }
        case Sending(todo) =>
          if todo != [] {
            var u := Send(st, todo[0], MessageOf(w.kind));
            SendKeeps(st, todo[0], MessageOf(w.kind));
            ShrinkTodoThreads(u, task);
            ShrinkTodoOwnership(u, task);
          } else {
            var next := if w.rest != [] then w.(stream := w.rest[0], phase := AtContext, rest := w.rest[1..])
                else w.(phase := Finished);
            ReplaceSweepThreads(st, task, next);
            ReplaceSweepOwnership(st, task, next);
          }
        case Finished =>
      }
    }
  }

  lemma StepKeeps(st: State, op: Op)
    requires Good(st)
    ensures Good(Step(st, op))
  {
    hide Threads, Ownership, BeginAsk, Own, Register, ReadContext, Emit, Receive, Timeout, Disown, Remove, Send,
        BeginCancel, BeginClear, Advance, Finish;
    match op {
      case OpAsk(q, stream) => BeginAskThreads(st, q, stream); BeginAskOwnership(st, q, stream);
      case OpOwn(q) => OwnThreads(st, q); OwnOwnership(st, q);
      case OpRegister(q) => RegisterThreads(st, q); RegisterOwnership(st, q);
      case OpReceive(q) => ReceiveKeeps(st, q);
      case OpDisown(q) => DisownKeeps(st, q);
      case OpRemove(q) => RemoveKeeps(st, q);
      case OpAnswer(q, text) => SendKeeps(st, q, Answer(text));
      case OpCancel(task, s) => CancelStarts(st, task, s);
      case OpClear(task, s) => ClearStarts(st, task, s, []);
      case OpClearAll(task, order) => if order != [] { ClearStarts(st, task, order[0], order[1..]); }
      case OpAdvance(task) => AdvanceKeeps(st, task);
      case OpFinish(s) => FinishKeeps(st, s);
      case OpSetContext(s, session) => ContextIsFree(st, st.context[s := session]);
      case _ => CallMoves(st, op);
    }
  }

  lemma FinishKeeps(st: State, s: Id)
    requires Good(st)
    ensures Good(Finish(st, s))
  {
    Unburied(st, s);
  }

  lemma {:induction false} AlwaysGood(ops: seq<Op>)
    ensures Good(Run(Start, ops))
    decreases |ops|
  {
    if ops != [] {
      AlwaysGood(ops[..|ops| - 1]);
      StepKeeps(Run(Start, ops[..|ops| - 1]), ops[|ops| - 1]);
    }
  }
}
