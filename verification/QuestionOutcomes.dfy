/** What the steps of the question protocol achieve: calls that go on, streams that start again, contexts that clear. */
module QuestionOutcomes {
  import opened Util
  import opened QuestionProtocol
  import opened QuestionCancellation

  // ---------------------------------------------------------------------------------------------
  // Every call can go on
  // ---------------------------------------------------------------------------------------------

  /** The session a question is shown for: that of its stream's context at the time it is read. */
  function SessionFor(st: State, stream: Option<Id>): Option<string> {
    match stream
    case Some(s) => if s in st.context then Some(st.context[s]) else None
    case None => None
  }

  /** The step that takes a call on, whatever it was about; `shown` says whether the question can be shown. */
  function NextOp(st: State, q: Id, shown: bool): Op
    requires q in st.asks
  {
    match st.asks[q].phase
    case Checked => OpOwn(q)
    case Owning => OpRegister(q)
    case Registered => OpReadContext(q)
    case Attributed(_) => OpEmit(q, shown)
    case Waiting => if q in st.inbox && st.inbox[q] == [] && q in st.pending then OpTimeout(q) else OpReceive(q)
    case Disowning(_) => OpDisown(q)
    case Removing(_) => OpRemove(q)
    case Done(_) => OpRemove(q)
  }

  /** The phase that step leads to. */
  function NextPhase(st: State, q: Id, shown: bool): Phase
    requires q in st.asks
  {
    var a := st.asks[q];
    match a.phase
    case Checked => Owning
    case Owning => Registered
    case Registered => Attributed(SessionFor(st, a.stream))
    case Attributed(_) => if shown then Waiting else Disowning(NotShown)
    case Waiting =>
      if q in st.inbox && st.inbox[q] != [] then Disowning(Reply(st.inbox[q][0]))
      else if q in st.pending then Disowning(TimedOut)
      else Disowning(Closed)
    case Disowning(outcome) => Removing(outcome)
    case Removing(outcome) => Done(outcome)
    case Done(outcome) => Done(outcome)
  }

  /** The locks are free, or held by this call alone. */
  predicate MayLock(st: State, q: Id) {
    && (st.tombstonesHeldBy.None? || st.tombstonesHeldBy == Some(q))
    && (st.indexHeldBy.None? || st.indexHeldBy == Some(q))
  }

  /** With the locks free, the next step of a call always moves it one phase on; none is ever stuck. */
  lemma CallAdvances(st: State, q: Id, shown: bool)
    requires Good(st) && q in st.asks && MayLock(st, q)
    ensures var t := Step(st, NextOp(st, q, shown));
            && q in t.asks && t.asks[q].stream == st.asks[q].stream && t.asks[q].phase == NextPhase(st, q, shown)
            && MayLock(t, q)
            && (t.tombstonesHeldBy == Some(q) <==> t.asks[q].phase == Owning)
  {
    InboxFacts(st, q);
    LocksAre(st, q);
    hide Good, Receive, Timeout, Disown, SessionFor;
    match st.asks[q].phase {
      case Waiting => WaitingAdvances(st, q, shown);
      case Disowning(_) => DisowningAdvances(st, q);
      case Registered => ShowingAdvances(st, q, shown);
      case Attributed(_) => ShowingAdvances(st, q, shown);
      case _ => hide ReadContext, Emit;
    }
  }

  lemma ShowingAdvances(st: State, q: Id, shown: bool)
    requires q in st.asks && (st.asks[q].phase == Registered || st.asks[q].phase.Attributed?)
    ensures var t := Step(st, NextOp(st, q, shown));
            && q in t.asks && t.asks[q] == Ask(st.asks[q].stream, NextPhase(st, q, shown))
            && t.tombstonesHeldBy == st.tombstonesHeldBy && t.indexHeldBy == st.indexHeldBy
  {
  }

  lemma WaitingAdvances(st: State, q: Id, shown: bool)
    requires q in st.asks && st.asks[q].phase == Waiting && q in st.inbox
    requires q in st.pending ==> st.inbox[q] == []
    ensures var t := Step(st, NextOp(st, q, shown));
            && q in t.asks && t.asks[q] == Ask(st.asks[q].stream, NextPhase(st, q, shown))
            && t.tombstonesHeldBy == st.tombstonesHeldBy && t.indexHeldBy == st.indexHeldBy
  {
  }

  lemma DisowningAdvances(st: State, q: Id)
    requires q in st.asks && st.asks[q].phase.Disowning? && st.indexHeldBy.None?
    ensures var t := Disown(st, q);
            && q in t.asks && t.asks[q] == Ask(st.asks[q].stream, Removing(st.asks[q].phase.outcome))
            && t.tombstonesHeldBy == st.tombstonesHeldBy && t.indexHeldBy == st.indexHeldBy
            && t.pending == st.pending
            && (match st.asks[q].stream
                case None => t.questions == st.questions
                case Some(s) =>
                  && t.questions.Keys <= st.questions.Keys
                  && (forall x :: x in IdsOf(t.questions, s) <==> x in IdsOf(st.questions, s) && x != q)
                  && (forall r :: r in st.questions && r != s ==>
                        r in t.questions && t.questions[r] == st.questions[r]))
  {
    hide Without;
  }

  lemma LocksAre(st: State, q: Id)
    requires Threads(st) && q in st.asks
    ensures st.tombstonesHeldBy == Some(q) <==> st.asks[q].phase == Checked || st.asks[q].phase == Owning
    ensures st.indexHeldBy == Some(q) <==> st.asks[q].phase == Owning
  {
    hide CheckedStaysLive, OneMessage;
  }

  /** Registering gives a question its sender and puts it at the end of its stream's index. */
  lemma RegisteredIsAnswerable(st: State, q: Id)
    requires q in st.asks && st.asks[q].phase == Owning
    ensures var t := Step(st, OpRegister(q));
            && t.pending == st.pending + {q}
            && t.tombstonesHeldBy.None? && t.indexHeldBy.None?
            && (match st.asks[q].stream
                case Some(s) => t.questions == st.questions[s := IdsOf(st.questions, s) + [q]]
                case None => t.questions == st.questions)
  {
  }

  /** A call that ends leaves neither a sender nor an entry in its stream's index behind. */
  lemma EndedLeavesNothing(st: State, q: Id, s: Id)
    requires q in st.asks && st.asks[q].stream == Some(s) && st.asks[q].phase.Disowning? && st.indexHeldBy.None?
    ensures var t := Step(Step(st, OpDisown(q)), OpRemove(q));
            && q in t.asks && t.asks[q].phase == Done(st.asks[q].phase.outcome)
            && t.pending == st.pending - {q}
            && (forall x :: x in IdsOf(t.questions, s) <==> x in IdsOf(st.questions, s) && x != q)
            && (forall r :: r in st.questions && r != s ==> r in t.questions && t.questions[r] == st.questions[r])
  {
    DisowningAdvances(st, q);
    hide Disown, IdsOf;
  }

  /** How far a call is from its end. */
  function StepsLeft(phase: Phase): nat {
    match phase
    case Checked => 7
    case Owning => 6
    case Registered => 5
    case Attributed(_) => 4
    case Waiting => 3
    case Disowning(_) => 2
    case Removing(_) => 1
    case Done(_) => 0
  }

  lemma {:induction false} FreeCallCanEnd(st: State, q: Id) returns (ops: seq<Op>)
    requires Good(st) && q in st.asks && MayLock(st, q)
    ensures var t := Run(st, ops); q in t.asks && t.asks[q].phase.Done?
    decreases StepsLeft(st.asks[q].phase)
  {
    hide Good, Step;
    if st.asks[q].phase.Done? {
      ops := [];
    } else {
      var op := NextOp(st, q, true);
      CallAdvances(st, q, true);
      StepKeeps(st, op);
      Decreases(st, q);
      var more := FreeCallCanEnd(Step(st, op), q);
      ops := [op] + more;
      RunConcat(st, [op], more);
      RunSnoc(st, [], op);
      assert [] + [op] == [op] && Run(st, []) == st;
    }
  }

  lemma Decreases(st: State, q: Id)
    requires q in st.asks && !st.asks[q].phase.Done?
    ensures StepsLeft(NextPhase(st, q, true)) < StepsLeft(st.asks[q].phase)
  {
  }

  /** Every call of every reachable state can run to its end, whoever holds the locks now. */
  lemma CallCanEnd(before: seq<Op>, q: Id) returns (ops: seq<Op>)
    requires q in Run(Start, before).asks
    ensures var t := Run(Run(Start, before), ops); q in t.asks && t.asks[q].phase.Done?
  {
    var st := Run(Start, before);
    AlwaysGood(before);
    hide Run, Good;
    var first := ReleaseLocks(st, q);
    var more := FreeCallCanEnd(Run(st, first), q);
    ops := first + more;
    RunConcat(st, first, more);
  }

  lemma ReleaseLocks(st: State, q: Id) returns (ops: seq<Op>)
    requires Good(st) && q in st.asks
    ensures var t := Run(st, ops); Good(t) && q in t.asks && MayLock(t, q)
  {
    hide Good, Step;
    ops := [];
    HolderIsOne(st);
    if st.tombstonesHeldBy.Some? && st.tombstonesHeldBy != Some(q) {
      var p := st.tombstonesHeldBy.value;
      var owned := if st.asks[p].phase == Checked then [OpOwn(p)] else [];
      var mid := if st.asks[p].phase == Checked then Step(st, OpOwn(p)) else st;
      RunSnoc(st, [], OpOwn(p));
      assert [] + [OpOwn(p)] == [OpOwn(p)] && Run(st, []) == st;
      StepKeeps(st, OpOwn(p));
      if st.asks[p].phase == Checked { CallAdvances(st, p, true); AsksStay(st, OpOwn(p), q); }
      ops := owned + [OpRegister(p)];
      RunSnoc(st, owned, OpRegister(p));
      StepKeeps(mid, OpRegister(p));
      CallAdvances(mid, p, true);
      AsksStay(mid, OpRegister(p), q);
      HolderIsOne(Step(mid, OpRegister(p)));
    }
  }

  lemma HolderIsOne(st: State)
    requires Good(st)
    ensures st.indexHeldBy.Some? ==> st.indexHeldBy == st.tombstonesHeldBy
    ensures st.tombstonesHeldBy.Some? ==>
              var p := st.tombstonesHeldBy.value;
              && p in st.asks && (st.asks[p].phase == Checked || st.asks[p].phase == Owning) && MayLock(st, p)
  {
    hide Ownership, OneMessage, CheckedStaysLive;
    if st.indexHeldBy.Some? {
      assert st.indexHeldBy.value in st.asks;
    }
  }

  lemma AsksStay(st: State, op: Op, q: Id)
    requires q in st.asks
    ensures q in Step(st, op).asks
  {
    CallStep(st, op, q);
    hide Step;
  }

  /** Taking a question off an index keeps the others in their order. */
  lemma {:induction false} WithoutFilters(a: seq<Id>, b: seq<Id>, q: Id)
    ensures Without(a + b, q) == Without(a, q) + Without(b, q)
    ensures forall x :: Without([x], q) == if x == q then [] else [x]
    decreases |a|
  {
    forall x: Id ensures Without([x], q) == if x == q then [] else [x] {
      assert [x][1..] == [];
    }
    if a == [] {
      assert a + b == b;
    } else {
      assert (a + b)[1..] == a[1..] + b;
      WithoutFilters(a[1..], b, q);
    }
  }

  // ---------------------------------------------------------------------------------------------
  // A finished stream asks again
  // ---------------------------------------------------------------------------------------------

  lemma LiveStep(st: State, op: Op, s: Id)
    requires s !in st.cancelled && (op.OpCancel? ==> op.s != s)
    ensures s !in Step(st, op).cancelled
  {
    CallsLeaveSweeps(st, op);
    if op.OpAdvance? { AdvanceSweeps(st, op.task); }
    hide BeginAsk, Own, Register, ReadContext, Emit, Receive, Timeout, Disown, Remove, Send, Advance;
  }

  lemma {:induction false} LiveRun(st: State, ops: seq<Op>, s: Id)
    requires s !in st.cancelled && forall op :: op in ops ==> (op.OpCancel? ==> op.s != s)
    ensures s !in Run(st, ops).cancelled
    decreases |ops|
  {
    hide Step;
    if ops != [] {
      LiveRun(st, ops[..|ops| - 1], s);
      LiveStep(Run(st, ops[..|ops| - 1]), ops[|ops| - 1], s);
    }
  }

  /**
   Finishing a stream lifts its tombstone and changes nothing else; from then on, until it is cancelled again, a new
   question of it is let in, and with the locks free it is registered two steps later.
   */
  lemma FinishedStreamAsksAgain(before: seq<Op>, s: Id, ops: seq<Op>, q: Id)
    requires Run(Start, before).tombstonesHeldBy.None?
    requires forall op :: op in ops ==> (op.OpCancel? ==> op.s != s)
    requires var u := Run(Step(Run(Start, before), OpFinish(s)), ops); u.tombstonesHeldBy.None? && q !in u.asks
    ensures var st := Run(Start, before);
            Step(st, OpFinish(s)) == st.(cancelled := st.cancelled - {s})
    ensures var u := Run(Step(Run(Start, before), OpFinish(s)), ops);
            var asked := Step(u, OpAsk(q, Some(s)));
            var registered := Step(Step(asked, OpOwn(q)), OpRegister(q));
            && s !in u.cancelled
            && q in asked.asks && asked.asks[q] == Ask(Some(s), Checked)
            && q in registered.asks && registered.asks[q] == Ask(Some(s), Registered) && q in registered.pending
            && q in IdsOf(registered.questions, s)
  {
    var st := Run(Start, before);
    FinishLifts(st, s);
    hide Step, SessionFor, IdsOf;
    var finished := Step(st, OpFinish(s));
    LiveRun(finished, ops, s);
    FinishedIsReached(before, s, ops);
    var all := before + [OpFinish(s)] + ops;
    AlwaysGood(all);
    hide Run, Good;
    AsksAnew(Run(finished, ops), s, q);
  }

  lemma FinishLifts(st: State, s: Id)
    requires st.tombstonesHeldBy.None?
    ensures Step(st, OpFinish(s)) == st.(cancelled := st.cancelled - {s})
  {
  }

  lemma AsksAnew(u: State, s: Id, q: Id)
    requires Good(u) && u.tombstonesHeldBy.None? && q !in u.asks && s !in u.cancelled
    ensures var asked := Step(u, OpAsk(q, Some(s)));
            var registered := Step(Step(asked, OpOwn(q)), OpRegister(q));
            && q in asked.asks && asked.asks[q] == Ask(Some(s), Checked)
            && q in registered.asks && registered.asks[q] == Ask(Some(s), Registered) && q in registered.pending
            && q in IdsOf(registered.questions, s)
  {
    HolderIsOne(u);
    hide Good;
  }

  lemma FinishedIsReached(before: seq<Op>, s: Id, ops: seq<Op>)
    ensures Run(Start, before + [OpFinish(s)] + ops) == Run(Step(Run(Start, before), OpFinish(s)), ops)
  {
    RunSnoc(Start, before, OpFinish(s));
    RunConcat(Start, before + [OpFinish(s)], ops);
  }

  // ---------------------------------------------------------------------------------------------
  // Contexts
  // ---------------------------------------------------------------------------------------------

  /** The step of a sweep that clears the context of its stream. */
  predicate ClearsContext(st: State, op: Op, s: Id) {
    && op.OpAdvance? && op.task in st.sweeps
    && st.sweeps[op.task].kind == Clearing && st.sweeps[op.task].phase == AtContext && st.sweeps[op.task].stream == s
  }

  /** The context of a stream is the session set last, until a clear of that stream takes it away. */
  lemma ContextStep(st: State, op: Op, s: Id)
    ensures var before, after := SessionFor(st, Some(s)), SessionFor(Step(st, op), Some(s));
            after == if op.OpSetContext? && op.s == s then Some(op.session)
                     else if ClearsContext(st, op, s) then None
                     else before
  {
    hide BeginAsk, LeaveIndex, Without;
    if op.OpAdvance? {
      hide Send;
      AdvanceContext(st, op.task);
    } else if !op.OpSetContext? {
      CallsLeaveContext(st, op);
      hide Own, Register, ReadContext, Emit, Receive, Timeout, Disown, Remove, Send;
    }
  }

  lemma AdvanceContext(st: State, task: nat)
    ensures Advance(st, task).context
         == if task in st.sweeps && st.sweeps[task].kind == Clearing && st.sweeps[task].phase == AtContext
            then st.context - {st.sweeps[task].stream} else st.context
  {
  }

  lemma CallsLeaveContext(st: State, op: Op)
    requires !op.OpAdvance? && !op.OpSetContext?
    ensures Step(st, op).context == st.context
  {
    hide Without, IdsOf;
    if op.OpDisown? {
      hide BeginAsk, Own, Register, ReadContext, Emit, Receive, Timeout, Remove, Send, BeginCancel, BeginClear, Finish;
    } else if op.OpReceive? || op.OpTimeout? || op.OpRegister? {
      hide BeginAsk, Own, ReadContext, Emit, Disown, Remove, Send, BeginCancel, BeginClear, Finish;
    } else {
      hide Register, Receive, Timeout, Disown;
    }
  }

  /**
   What a sweep does step by step: it looks for a context, takes the stream's whole index away, and reports in the end
   whether it found either; a question still to come is the next of those it took.
   */
  lemma SweepFinds(st: State, task: nat)
    requires task in st.sweeps
    ensures var w, t := st.sweeps[task], Step(st, OpAdvance(task));
            && task in t.sweeps
            && var v := t.sweeps[task];
               match w.phase
               case AtContext => v == w.(phase := AtQuestions, found := w.stream in st.context)
               case AtQuestions =>
                 if st.indexHeldBy.Some? then t == st
                 else
                   && v == w.(phase := Sending(IdsOf(st.questions, w.stream)),
                              found := w.found || IdsOf(st.questions, w.stream) != [])
                   && t.questions == st.questions - {w.stream}
               case Sending(todo) =>
                 if todo != [] then v == w.(phase := Sending(todo[1..]))
                 else if w.rest != [] then v == w.(stream := w.rest[0], phase := AtContext, rest := w.rest[1..])
                 else v == w.(phase := Finished)
               case Finished => t == st
  {
    var w := st.sweeps[task];
    hide Send, IdsOf, TakeIndex;
    match w.phase {
      case AtQuestions => IndexTaken(st, task, w.found || IdsOf(st.questions, w.stream) != []);
      case _ =>
    }
  }

  lemma IndexTaken(st: State, task: nat, found: bool)
    requires task in st.sweeps
    ensures var w, t := st.sweeps[task], TakeIndex(st, task, found);
            && task in t.sweeps
            && t.sweeps[task] == w.(phase := Sending(IdsOf(st.questions, w.stream)), found := found)
            && t.questions == st.questions - {w.stream}
  {
  }

  /** The clear has still to come to this stream. */
  predicate ToCome(w: Sweep, s: Id) {
    (w.stream == s && w.phase == AtContext) || s in w.rest
  }

  ghost predicate Clears(st: State, task: nat, s: Id) {
    && task in st.sweeps && st.sweeps[task].kind == Clearing
    && (s in st.context ==> st.sweeps[task].phase != Finished && ToCome(st.sweeps[task], s))
  }

  lemma ClearingStep(st: State, op: Op, task: nat, s: Id)
    requires Clears(st, task, s) && (op.OpSetContext? ==> op.s != s)
    ensures Clears(Step(st, op), task, s)
  {
    ContextStep(st, op, s);
    SweepAfter(st, op, task);
    hide Step;
  }

  lemma SweepAfter(st: State, op: Op, task: nat)
    requires task in st.sweeps
    ensures task in Step(st, op).sweeps
    ensures var w, v := st.sweeps[task], Step(st, op).sweeps[task];
            && v.kind == w.kind
            && (if op != OpAdvance(task) then v == w
                else if w.phase == AtContext then v.stream == w.stream && v.rest == w.rest && v.phase == AtQuestions
                else if w.phase == Sending([]) && w.rest != [] then
                  v.stream == w.rest[0] && v.rest == w.rest[1..] && v.phase == AtContext
                else
                  && v.stream == w.stream && v.rest == w.rest
                  && (v.phase == Finished ==> w.rest == [] || w.phase == Finished))
  {
    if op == OpAdvance(task) {
      SweepFinds(st, task);
      hide Step, IdsOf;
    } else if op.OpAdvance? {
      AdvanceOne(st, op.task);
      hide Advance;
    } else {
      SweepsStay(st, op, task);
      hide Step;
    }
  }

  lemma SweepsStay(st: State, op: Op, task: nat)
    requires task in st.sweeps && !op.OpAdvance?
    ensures task in Step(st, op).sweeps && Step(st, op).sweeps[task] == st.sweeps[task]
  {
    if CallOf(op) || op.OpAnswer? {
      CallsLeaveSweeps(st, op);
      hide Step;
    }
  }

  lemma {:induction false} ClearingRun(st: State, ops: seq<Op>, task: nat, s: Id)
    requires Clears(st, task, s) && forall op :: op in ops ==> (op.OpSetContext? ==> op.s != s)
    ensures Clears(Run(st, ops), task, s)
    decreases |ops|
  {
    hide Step, Clears;
    if ops != [] {
      ClearingRun(st, ops[..|ops| - 1], task, s);
      ClearingStep(Run(st, ops[..|ops| - 1]), ops[|ops| - 1], task, s);
    }
  }

  /**
   Clearing all contexts reaches every one there was: once the task is finished, no stream that had a context when it
   began has one, unless it was set again meanwhile.
   */
  lemma ClearAllReaches(st: State, task: nat, order: seq<Id>, ops: seq<Op>, s: Id)
    requires task !in st.sweeps && order != []
    requires (set x | x in order) == st.context.Keys && |order| == |st.context|
    requires forall op :: op in ops ==> (op.OpSetContext? ==> op.s != s)
    ensures var t := Run(Step(st, OpClearAll(task, order)), ops);
            task in t.sweeps && (t.sweeps[task].phase == Finished ==> s !in t.context)
  {
    var begun := Step(st, OpClearAll(task, order));
    assert order == [order[0]] + order[1..];
    assert s in st.context.Keys ==> s in (set x | x in order);
    assert Clears(begun, task, s);
    ClearingRun(begun, ops, task, s);
  }
}
