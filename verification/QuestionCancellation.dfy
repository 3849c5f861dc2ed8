/** What the question protocol promises over every interleaving of its steps. */
module QuestionCancellation {
  import opened Util
  import opened QuestionProtocol

  /** A cancel or clear that is working on this stream. */
  ghost predicate MidFlight(st: State, s: Id) {
    exists task :: task in st.sweeps && OnStream(st.sweeps[task], s)
  }

  predicate OnStream(w: Sweep, s: Id) {
    w.stream == s && w.phase != Finished
  }

  /**
   Cancellation leaves nobody blocked: whatever the interleaving, once a stream is tombstoned and no cancel or clear is
   working on it, each of its questions that still listens has a message to read or has lost its sender.
   */
  lemma CancellationLeavesNobodyBlocked(ops: seq<Op>, s: Id, q: Id)
    requires var st := Run(Start, ops);
             && s in st.cancelled && !MidFlight(st, s)
             && q in st.asks && st.asks[q].stream == Some(s) && Listening(st.asks[q].phase)
    ensures var st := Run(Start, ops); q in st.inbox && (st.inbox[q] != [] || q !in st.pending)
  {
    var st := Run(Start, ops);
    AlwaysGood(ops);
    InboxFacts(st, q);
    hide Run, Threads, MidFlight, Taken, CancelComing;
    WorkingIsMidFlight(st, s, q);
  }

  lemma WorkingIsMidFlight(st: State, s: Id, q: Id)
    ensures Taken(st, s, q) || CancelComing(st, s) ==> MidFlight(st, s)
  {
    if Taken(st, s, q) {
      var task :| task in st.sweeps && st.sweeps[task].stream == s && TodoHas(st.sweeps[task], q);
      assert OnStream(st.sweeps[task], s);
    } else if CancelComing(st, s) {
      var task :| task in st.sweeps && Coming(st.sweeps[task], s);
      assert OnStream(st.sweeps[task], s);
    }
  }

  /** So a call blocked on a cancelled stream wakes as soon as it runs. */
  lemma CancelledCallWakes(ops: seq<Op>, s: Id, q: Id)
    requires var st := Run(Start, ops);
             && s in st.cancelled && !MidFlight(st, s)
             && q in st.asks && st.asks[q].stream == Some(s) && st.asks[q].phase == Waiting
    ensures var st := Run(Start, ops);
            Step(st, OpReceive(q)).asks[q].phase.Disowning?
  {
    CancellationLeavesNobodyBlocked(ops, s, q);
    hide Run;
  }

  /** No deadlock on the two locks that are held across steps: whoever holds one can take its next step. */
  lemma LockHolderMoves(ops: seq<Op>)
    ensures var st := Run(Start, ops);
            st.tombstonesHeldBy.Some? || st.indexHeldBy.Some? ==>
              && st.tombstonesHeldBy.Some?
              && var q := st.tombstonesHeldBy.value;
                 Step(st, OpOwn(q)) != st || Step(st, OpRegister(q)).tombstonesHeldBy.None?
  {
    var st := Run(Start, ops);
    AlwaysGood(ops);
    hide Run, Ownership, OneMessage, CheckedStaysLive;
    if st.tombstonesHeldBy.Some? {
      var q := st.tombstonesHeldBy.value;
      assert q in st.asks && HoldsTombstones(st.asks[q].phase);
      if st.asks[q].phase == Checked {
        assert st.indexHeldBy != Some(q);
        assert st.indexHeldBy.Some? ==> HoldsTombstones(st.asks[st.indexHeldBy.value].phase);
        assert Step(st, OpOwn(q)).indexHeldBy == Some(q);
      }
    }
  }

  // ---------------------------------------------------------------------------------------------
  // What one step does to one question
  // ---------------------------------------------------------------------------------------------

  /** All the protocol keeps about one question, apart from the index. */
  datatype View = View(ask: Option<Ask>, inbox: Option<seq<Message>>, pending: bool)

  function ViewOf(st: State, q: Id): View {
    View(if q in st.asks then Some(st.asks[q]) else None, if q in st.inbox then Some(st.inbox[q]) else None,
        q in st.pending)
  }

  /** A sweep of this kind is about to send to the question. */
  ghost predicate Swept(st: State, q: Id, kind: SweepKind) {
    exists task :: task in st.sweeps && st.sweeps[task].kind == kind && TodoHas(st.sweeps[task], q)
  }

  predicate Entered(st: State, v: View, w: View) {
    && v.ask.None? && w.ask.Some? && w.inbox == Some([]) && w.pending == v.pending
    && ((w.ask.value.phase == Checked && (w.ask.value.stream.Some? ==> w.ask.value.stream.value !in st.cancelled))
        || (w.ask.value.phase == Done(Refused) && w.ask.value.stream.Some? && w.ask.value.stream.value in st.cancelled))
  }

  predicate Walked(v: View, w: View) {
    && v.ask.Some? && w.ask.Some? && w.ask.value.stream == v.ask.value.stream
    && var phase, next := v.ask.value.phase, w.ask.value.phase;
       || (phase == Checked && next == Owning && w.inbox == v.inbox && w.pending == v.pending)
       || (phase == Owning && next == Registered && w.inbox == v.inbox && w.pending)
       || (phase == Registered && next.Attributed? && w.inbox == v.inbox && w.pending == v.pending)
       || (phase.Attributed? && (next == Waiting || next == Disowning(NotShown)) && w.inbox == v.inbox
          && w.pending == v.pending)
       || (phase == Waiting && v.inbox.Some? && v.inbox.value != [] && next == Disowning(Reply(v.inbox.value[0]))
           && w.inbox == Some(v.inbox.value[1..]) && w.pending == v.pending)
       || (phase == Waiting && v.inbox == Some([]) && next == Disowning(if v.pending then TimedOut else Closed)
           && w.inbox == v.inbox && w.pending == v.pending)
       || (phase.Disowning? && next == Removing(phase.outcome) && w.inbox == v.inbox && w.pending == v.pending)
       || (phase.Removing? && next == Done(phase.outcome) && w.inbox == v.inbox && !w.pending)
  }

  ghost predicate Messaged(st: State, q: Id, v: View, w: View) {
    && v.pending && !w.pending && w.ask == v.ask && v.inbox.Some? && w.inbox.Some?
    && exists m :: w.inbox.value == v.inbox.value + [m] && MayBeSent(st, q, m)
  }

  ghost predicate MayBeSent(st: State, q: Id, m: Message) {
    m.Answer? || (m == RequestCancelled && Swept(st, q, Cancelling)) || (m == RequestFinished && Swept(st, q, Clearing))
  }

  /** A question enters, walks one phase on, gets one message, or is not touched. */
  ghost predicate MayBecome(st: State, q: Id, v: View, w: View) {
    w == v || Entered(st, v, w) || Walked(v, w) || Messaged(st, q, v, w)
  }

  lemma CallStep(st: State, op: Op, q: Id)
    ensures MayBecome(st, q, ViewOf(st, q), ViewOf(Step(st, op), q))
  {
    hide Messaged, Entered, Walked, BeginAsk, Own, Register, ReadContext, Emit, Receive, Timeout, Disown, Remove,
        Send, Advance;
    match op {
      case OpAnswer(other, text) => SendStep(st, other, Answer(text), q);
      case OpAdvance(task) => AdvanceStep(st, task, q);
      case _ => if CallOf(op) { OwnStep(st, op, q); }
    }
  }

  predicate CallOf(op: Op) {
    op.OpAsk? || op.OpOwn? || op.OpRegister? || op.OpReadContext? || op.OpEmit? || op.OpReceive? || op.OpTimeout?
        || op.OpDisown? || op.OpRemove?
  }

  lemma OwnStep(st: State, op: Op, q: Id)
    requires CallOf(op)
    ensures var v, w := ViewOf(st, q), ViewOf(Step(st, op), q);
            w == v || Entered(st, v, w) || Walked(v, w)
  {
    if op.q == q {
      match op {
        case OpAsk(_, stream) =>
          hide Walked;
          assert BeginAsk(st, q, stream) == st || Entered(st, ViewOf(st, q), ViewOf(BeginAsk(st, q, stream), q));
        case _ => OwnWalk(st, op);
      }
    } else {
      OthersStay(st, op, q);
    }
  }

  lemma OwnWalk(st: State, op: Op)
    requires CallOf(op) && !op.OpAsk?
    ensures var v, w := ViewOf(st, op.q), ViewOf(Step(st, op), op.q); w == v || Walked(v, w)
  {
    hide Without;
    var q := op.q;
    if q in st.asks {
      match op {
        case OpDisown(_) => DisownWalk(st, q);
        case OpReceive(_) => ReceiveWalk(st, q);
        case _ => hide Disown, Receive;
      }
    }
  }

  lemma DisownWalk(st: State, q: Id)
    requires q in st.asks
    ensures var v, w := ViewOf(st, q), ViewOf(Disown(st, q), q); w == v || Walked(v, w)
  {
    hide Without;
  }

  lemma ReceiveWalk(st: State, q: Id)
    requires q in st.asks
    ensures var v, w := ViewOf(st, q), ViewOf(Receive(st, q), q); w == v || Walked(v, w)
  {
  }

  lemma OthersStay(st: State, op: Op, q: Id)
    requires CallOf(op) && op.q != q
    ensures ViewOf(Step(st, op), q) == ViewOf(st, q)
  {
    hide BeginAsk, Own, Register, ReadContext, Emit, Receive, Timeout, Disown, Remove, LeaveIndex, ViewOf;
    match op {
      case OpAsk(p, stream) => OtherAsk(st, p, stream, q);
      case OpRegister(p) => OtherRegister(st, p, q);
      case OpReceive(p) => OtherReceive(st, p, q);
      case OpDisown(p) => OtherDisown(st, p, q);
      case _ => OtherMoves(st, op, q);
    }
  }

  lemma OtherAsk(st: State, p: Id, stream: Option<Id>, q: Id)
    requires p != q
    ensures ViewOf(BeginAsk(st, p, stream), q) == ViewOf(st, q)
  {
    hide ViewOf;
    EntersBeside(st, p, Ask(stream, Done(Refused)), st.tombstonesHeldBy, q);
    EntersBeside(st, p, Ask(stream, Checked), Some(p), q);
  }

  lemma EntersBeside(st: State, p: Id, ask: Ask, holder: Option<Id>, q: Id)
    requires p != q
    ensures ViewOf(st.(asks := st.asks[p := ask], inbox := st.inbox[p := []], tombstonesHeldBy := holder), q)
         == ViewOf(st, q)
  {
  }

  lemma OtherRegister(st: State, p: Id, q: Id)
    requires p != q
    ensures ViewOf(Register(st, p), q) == ViewOf(st, q)
  {
  }

  lemma OtherReceive(st: State, p: Id, q: Id)
    requires p != q
    ensures ViewOf(Receive(st, p), q) == ViewOf(st, q)
  {
  }

  lemma OtherDisown(st: State, p: Id, q: Id)
    requires p != q
    ensures ViewOf(Disown(st, p), q) == ViewOf(st, q)
  {
    hide Without;
  }

  lemma OtherMoves(st: State, op: Op, q: Id)
    requires CallOf(op) && op.q != q
    requires op.OpOwn? || op.OpReadContext? || op.OpEmit? || op.OpTimeout? || op.OpRemove?
    ensures ViewOf(Step(st, op), q) == ViewOf(st, q)
  {
  }

  lemma SendStep(st: State, other: Id, m: Message, q: Id)
    requires MayBeSent(st, other, m)
    ensures MayBecome(st, q, ViewOf(st, q), ViewOf(Send(st, other, m), q))
  {
    hide Entered, Walked, MayBeSent;
    if other == q && q in st.pending && q in st.inbox {
      assert ViewOf(Send(st, q, m), q).inbox.value == st.inbox[q] + [m];
    }
  }

  lemma AdvanceStep(st: State, task: nat, q: Id)
    ensures MayBecome(st, q, ViewOf(st, q), ViewOf(Advance(st, task), q))
  {
    hide Entered, Walked, Messaged, Send;
    if task in st.sweeps && st.sweeps[task].phase.Sending? && st.sweeps[task].phase.todo != [] {
      var w := st.sweeps[task];
      var other := w.phase.todo[0];
      assert TodoHas(w, other) && Swept(st, other, w.kind);
      SendStep(st, other, MessageOf(w.kind), q);
    }
  }

  // ---------------------------------------------------------------------------------------------
  // Which message a call returns
  // ---------------------------------------------------------------------------------------------

  predicate Leaving(phase: Phase, outcome: Outcome) {
    phase == Disowning(outcome) || phase == Removing(outcome) || phase == Done(outcome)
  }

  lemma LeavingStep(st: State, op: Op, q: Id, outcome: Outcome)
    requires q in st.asks && Leaving(st.asks[q].phase, outcome)
    ensures q in Step(st, op).asks && Leaving(Step(st, op).asks[q].phase, outcome)
  {
    CallStep(st, op, q);
    hide Step;
  }

  lemma {:induction false} LeavingRun(st: State, ops: seq<Op>, q: Id, outcome: Outcome)
    requires q in st.asks && Leaving(st.asks[q].phase, outcome)
    ensures q in Run(st, ops).asks && Leaving(Run(st, ops).asks[q].phase, outcome)
    decreases |ops|
  {
    hide Leaving, Step;
    if ops != [] {
      LeavingRun(st, ops[..|ops| - 1], q, outcome);
      LeavingStep(Run(st, ops[..|ops| - 1]), ops[|ops| - 1], q, outcome);
    }
  }

  /** What the step of the run that tries to show the question says, if the run has one. */
  function ShownIn(st: State, ops: seq<Op>, q: Id): Option<bool> {
    if ops == [] then None
    else
      var init, op := ops[..|ops| - 1], ops[|ops| - 1];
      var earlier, before := ShownIn(st, init, q), Run(st, init);
      if earlier.Some? then earlier
      else if op.OpEmit? && op.q == q && q in before.asks && before.asks[q].phase.Attributed? then Some(op.shown)
      else None
  }

  predicate Unshown(phase: Phase) {
    phase == Registered || phase.Attributed?
  }

  predicate HoldsMessage(st: State, q: Id, m: Message) {
    q in st.inbox && st.inbox[q] == [m] && q !in st.pending
  }

  /** A call that had the message before its question was shown, by what the run says of showing it. */
  predicate FollowsView(v: View, m: Message, shown: Option<bool>) {
    && v.ask.Some?
    && match shown
       case None => Unshown(v.ask.value.phase) && v.inbox == Some([m]) && !v.pending
       case Some(true) =>
         (v.ask.value.phase == Waiting && v.inbox == Some([m]) && !v.pending) || Leaving(v.ask.value.phase, Reply(m))
       case Some(false) => Leaving(v.ask.value.phase, NotShown)
  }

  predicate Follows(st: State, q: Id, m: Message, shown: Option<bool>) {
    FollowsView(ViewOf(st, q), m, shown)
  }

  lemma ShowingStep(st: State, op: Op, q: Id)
    requires q in st.asks && st.asks[q].phase.Attributed?
    ensures q in Step(st, op).asks
    ensures Step(st, op).asks[q].phase
         == if !op.OpEmit? || op.q != q then st.asks[q].phase else if op.shown then Waiting else Disowning(NotShown)
  {
    CallStep(st, op, q);
    if CallOf(op) && op.q != q {
      OthersStay(st, op, q);
    } else if !CallOf(op) {
      hide Own, Register, ReadContext, Emit, Receive, Timeout, Disown, Remove, Send, Advance, BeginAsk;
      AsksStay(st, op);
    }
  }

  lemma AsksStay(st: State, op: Op)
    requires !CallOf(op)
    ensures Step(st, op).asks == st.asks
  {
    if op.OpAdvance? { AdvanceOne(st, op.task); }
    if op.OpAnswer? { SendLeavesSweeps(st, op.q, Answer(op.text)); }
    hide Advance, Send, BeginAsk, Own, Register, ReadContext, Emit, Receive, Timeout, Disown, Remove;
  }

  lemma ViewFollows(v: View, w: View, m: Message, shown: Option<bool>)
    requires FollowsView(v, m, shown) && Walked(v, w)
    ensures var now := if shown.Some? || !v.ask.value.phase.Attributed? then shown
                       else Some(w.ask.value.phase == Waiting);
            FollowsView(w, m, now)
  {
  }

  lemma FollowsStep(st: State, op: Op, q: Id, m: Message, shown: Option<bool>)
    requires Follows(st, q, m, shown) && q in st.asks
    ensures var now := if shown.Some? then shown
                       else if op.OpEmit? && op.q == q && st.asks[q].phase.Attributed? then Some(op.shown) else None;
            Follows(Step(st, op), q, m, now)
  {
    var v, w := ViewOf(st, q), ViewOf(Step(st, op), q);
    CallStep(st, op, q);
    if st.asks[q].phase.Attributed? { ShowingStep(st, op, q); }
    hide Step;
    NotMessaged(st, q, v, w, m, shown);
    hide MayBecome, Messaged, Entered;
    if Walked(v, w) {
      ViewFollows(v, w, m, shown);
      WalkMoves(v, w);
      hide Walked, FollowsView;
    }
  }

  lemma NotMessaged(st: State, q: Id, v: View, w: View, m: Message, shown: Option<bool>)
    requires FollowsView(v, m, shown) && MayBecome(st, q, v, w)
    requires v.ask.value.phase == Waiting || Unshown(v.ask.value.phase) ==> !v.pending
    ensures w == v || Walked(v, w) || (shown.Some? && FollowsView(w, m, shown))
  {
    hide Walked, MayBeSent;
  }

  lemma WalkMoves(v: View, w: View)
    requires Walked(v, w)
    ensures w.ask.value.phase != v.ask.value.phase || v.ask.value.phase.Attributed? || v.ask.value.phase == Waiting
  {
  }

  lemma {:induction false} FollowsRun(st: State, ops: seq<Op>, q: Id, m: Message)
    requires Follows(st, q, m, None)
    ensures Follows(Run(st, ops), q, m, ShownIn(st, ops, q))
    decreases |ops|
  {
    hide Follows, Step;
    if ops != [] {
      FollowsRun(st, ops[..|ops| - 1], q, m);
      FollowsIsAsked(Run(st, ops[..|ops| - 1]), q, m, ShownIn(st, ops[..|ops| - 1], q));
      FollowsStep(Run(st, ops[..|ops| - 1]), ops[|ops| - 1], q, m, ShownIn(st, ops[..|ops| - 1], q));
    }
  }

  lemma FollowsIsAsked(st: State, q: Id, m: Message, shown: Option<bool>)
    requires Follows(st, q, m, shown)
    ensures q in st.asks
  {
  }

  /**
   An accepted answer (or cancellation notice) is what the call returns exactly when the call waits for it, or has still
   to show its question and the step that tries to does. A call already on its way out drops it, although the sender was
   told it was accepted.
   */
  lemma AcceptedMessageIsReturnedIff(before: seq<Op>, q: Id, m: Message, after: seq<Op>)
    requires q in Run(Start, before).pending
    requires var u := Run(Send(Run(Start, before), q, m), after); q in u.asks && u.asks[q].phase.Done?
    ensures var st := Run(Start, before);
            var u := Run(Send(st, q, m), after);
            && q in st.asks
            && (u.asks[q].phase.outcome == Reply(m) <==>
                  || st.asks[q].phase == Waiting
                  || (Unshown(st.asks[q].phase) && ShownIn(Send(st, q, m), after, q) == Some(true)))
  {
    AlwaysGood(before);
    PendingOutcome(before, q);
    hide Run, Good, Send, Threads, RepliedIsUnpended, ShownIn, Unshown;
    MessageIsReturned(Run(Start, before), q, m, after);
  }

  lemma MessageIsReturned(st: State, q: Id, m: Message, after: seq<Op>)
    requires Threads(st) && RepliedIsUnpended(st, q) && q in st.pending
    ensures q in st.asks && q in Run(Send(st, q, m), after).asks
    ensures var phase := Run(Send(st, q, m), after).asks[q].phase;
            phase.Done? ==> (phase.outcome == Reply(m) <==>
                               || st.asks[q].phase == Waiting
                               || (Unshown(st.asks[q].phase) && ShownIn(Send(st, q, m), after, q) == Some(true)))
  {
    InboxFacts(st, q);
    hide Run, Threads, ShownIn;
    var t := Send(st, q, m);
    assert st.inbox[q] == [] && HoldsMessage(t, q, m);
    if st.asks[q].phase == Waiting {
      WaitingRun(t, after, q, m);
    } else if Unshown(st.asks[q].phase) {
      FollowsRun(t, after, q, m);
    } else {
      LeavingRun(t, after, q, st.asks[q].phase.outcome);
    }
  }

  /** A call that waits with the message in its channel leaves with it. */
  predicate Bound(st: State, q: Id, m: Message) {
    q in st.asks && ((st.asks[q].phase == Waiting && HoldsMessage(st, q, m)) || Leaving(st.asks[q].phase, Reply(m)))
  }

  lemma BoundStep(st: State, op: Op, q: Id, m: Message)
    requires Bound(st, q, m)
    ensures Bound(Step(st, op), q, m)
  {
    CallStep(st, op, q);
    hide Step;
  }

  lemma {:induction false} WaitingRun(st: State, ops: seq<Op>, q: Id, m: Message)
    requires Bound(st, q, m)
    ensures Bound(Run(st, ops), q, m)
    decreases |ops|
  {
    hide Bound, Step;
    if ops != [] {
      WaitingRun(st, ops[..|ops| - 1], q, m);
      BoundStep(Run(st, ops[..|ops| - 1]), ops[|ops| - 1], q, m);
    }
  }

  /** A run that drops an accepted answer: the call timed out, and has not yet left the pending map. */
  lemma LateAnswerIsDropped(q: Id, text: string, after: seq<Op>)
    ensures var st := Run(Start, TimesOut(q));
            && q in st.pending && InPhase(st, q, Disowning(TimedOut))
            && var u := Run(Step(st, OpAnswer(q, text)), after);
               q in u.asks && Leaving(u.asks[q].phase, TimedOut)
  {
    var st := Run(Start, TimesOut(q));
    TimesOutRun(q);
    hide Run, TimesOut;
    LeavingStep(st, OpAnswer(q, text), q, TimedOut);
    LeavingRun(Step(st, OpAnswer(q, text)), after, q, TimedOut);
  }

  function TimesOut(q: Id): seq<Op> {
    [] + [OpAsk(q, None)] + [OpOwn(q)] + [OpRegister(q)] + [OpReadContext(q)] + [OpEmit(q, true)] + [OpTimeout(q)]
  }

  lemma TimesOutRun(q: Id)
    ensures var st := Run(Start, TimesOut(q)); q in st.pending && InPhase(st, q, Disowning(TimedOut))
  {
    var ops: seq<Op> := [] + [OpAsk(q, None)] + [OpOwn(q)] + [OpRegister(q)];
    RunSnoc(Start, [], OpAsk(q, None));
    RunSnoc(Start, [] + [OpAsk(q, None)], OpOwn(q));
    RunSnoc(Start, [] + [OpAsk(q, None)] + [OpOwn(q)], OpRegister(q));
    RunSnoc(Start, ops, OpReadContext(q));
    RunSnoc(Start, ops + [OpReadContext(q)], OpEmit(q, true));
    RunSnoc(Start, ops + [OpReadContext(q)] + [OpEmit(q, true)], OpTimeout(q));
    assert Run(Start, []) == Start;
    assert TimesOut(q) == ops + [OpReadContext(q)] + [OpEmit(q, true)] + [OpTimeout(q)];
    hide Run, BeginAsk, Own, Register, ReadContext, Emit, Timeout;
    assert Run(Start, TimesOut(q)) == TimedOutState(q);
    TimedOutStateIs(q);
  }

  lemma TimedOutStateIs(q: Id)
    ensures q in TimedOutState(q).pending && InPhase(TimedOutState(q), q, Disowning(TimedOut))
  {
  }

  function TimedOutState(q: Id): State {
    Timeout(Emit(ReadContext(Register(Own(BeginAsk(Start, q, None), q), q), q), q, true), q)
  }

  /** A call that leaves with a message left no sender behind. */
  ghost predicate RepliedIsUnpended(st: State, q: Id) {
    q in st.pending ==> q in st.asks && forall m :: !Leaving(st.asks[q].phase, Reply(m))
  }

  lemma RepliedStep(st: State, op: Op, q: Id)
    requires Threads(st) && RepliedIsUnpended(st, q)
    ensures RepliedIsUnpended(Step(st, op), q)
  {
    InboxFacts(st, q);
    CallStep(st, op, q);
    hide Threads, Step;
  }

  lemma {:induction false} PendingOutcome(ops: seq<Op>, q: Id)
    ensures RepliedIsUnpended(Run(Start, ops), q)
    decreases |ops|
  {
    hide RepliedIsUnpended, Step, Threads, Ownership;
    if ops == [] {
      NothingAsked(q, None);
    } else {
      PendingOutcome(ops[..|ops| - 1], q);
      AlwaysGood(ops[..|ops| - 1]);
      RepliedStep(Run(Start, ops[..|ops| - 1]), ops[|ops| - 1], q);
    }
  }

  // ---------------------------------------------------------------------------------------------
  // Streams do not disturb each other
  // ---------------------------------------------------------------------------------------------

  /** No cancel of `stream` has begun, and none of its questions (of no stream's, for None) shows signs of one. */
  ghost predicate Uncancelled(st: State, stream: Option<Id>) {
    && (stream.Some? ==> stream.value !in st.cancelled)
    && (forall task :: task in st.sweeps && st.sweeps[task].kind == Cancelling
          ==> st.sweeps[task].rest == [] && stream != Some(st.sweeps[task].stream))
    && (forall q :: q in st.asks && st.asks[q].stream == stream ==> NotCancelled(ViewOf(st, q)))
  }

  predicate NotCancelled(v: View) {
    v.ask.Some? ==>
      && v.inbox.Some? && RequestCancelled !in v.inbox.value
      && !Leaving(v.ask.value.phase, Refused) && !Leaving(v.ask.value.phase, Reply(RequestCancelled))
  }

  lemma UncancelledSweeps(st: State, op: Op, stream: Option<Id>)
    requires Uncancelled(st, stream) && (op.OpCancel? ==> stream != Some(op.s))
    ensures var t := Step(st, op);
            && (stream.Some? ==> stream.value !in t.cancelled)
            && (forall task :: task in t.sweeps && t.sweeps[task].kind == Cancelling
                  ==> t.sweeps[task].rest == [] && stream != Some(t.sweeps[task].stream))
  {
    hide NotCancelled;
    CallsLeaveSweeps(st, op);
    if CallOf(op) || op.OpAnswer? {
      hide Step;
    } else if op.OpAdvance? {
      AdvanceSweeps(st, op.task);
      hide Advance;
    } else {
      hide Own, Register, ReadContext, Emit, Receive, Timeout, Disown, Remove, Send, Advance, BeginAsk;
    }
  }

  /** A sweep keeps its kind, and changes stream only while it has streams left. */
  lemma AdvanceSweeps(st: State, task: nat)
    ensures var t := Advance(st, task);
            && t.cancelled == st.cancelled && t.sweeps.Keys == st.sweeps.Keys
            && (forall k :: k in st.sweeps ==> t.sweeps[k].kind == st.sweeps[k].kind)
            && (forall k :: k in st.sweeps && st.sweeps[k].rest == [] ==>
               t.sweeps[k].rest == [] && t.sweeps[k].stream == st.sweeps[k].stream)
  {
    AdvanceOne(st, task);
    hide Advance;
  }

  lemma AdvanceOne(st: State, task: nat)
    ensures Advance(st, task).cancelled == st.cancelled && Advance(st, task).asks == st.asks
    ensures task !in st.sweeps ==> Advance(st, task) == st
    ensures task in st.sweeps ==>
              && task in Advance(st, task).sweeps
              && var w, next := st.sweeps[task], Advance(st, task).sweeps[task];
                 && Advance(st, task).sweeps == st.sweeps[task := next]
                 && next.kind == w.kind && (w.rest == [] ==> next.rest == [] && next.stream == w.stream)
  {
    if task in st.sweeps && st.sweeps[task].phase.Sending? && st.sweeps[task].phase.todo != [] {
      SendLeavesSweeps(st, st.sweeps[task].phase.todo[0], MessageOf(st.sweeps[task].kind));
    }
    hide Send;
  }

  lemma SendLeavesSweeps(st: State, q: Id, m: Message)
    ensures Send(st, q, m).sweeps == st.sweeps && Send(st, q, m).cancelled == st.cancelled
            && Send(st, q, m).asks == st.asks
  {
  }

  lemma CallsLeaveSweeps(st: State, op: Op)
    ensures (CallOf(op) || op.OpAnswer?) ==> Step(st, op).sweeps == st.sweeps && Step(st, op).cancelled == st.cancelled
  {
  }

  lemma UncancelledStep(st: State, op: Op, stream: Option<Id>)
    requires Ownership(st) && Uncancelled(st, stream) && (op.OpCancel? ==> stream != Some(op.s))
    ensures Uncancelled(Step(st, op), stream)
  {
    UncancelledSweeps(st, op, stream);
    var t := Step(st, op);
    hide Step, Ownership, NotCancelled;
    forall q | q in t.asks && t.asks[q].stream == stream ensures NotCancelled(ViewOf(t, q)) {
      CallStep(st, op, q);
      NotSweptByCancel(st, stream, q);
      ViewUncancelled(st, q, stream, ViewOf(st, q), ViewOf(t, q));
    }
  }

  lemma ViewUncancelled(st: State, q: Id, stream: Option<Id>, v: View, w: View)
    requires MayBecome(st, q, v, w) && w.ask.Some? && w.ask.value.stream == stream
    requires stream.Some? ==> stream.value !in st.cancelled
    requires v.ask.Some? && v.ask.value.stream == stream ==> NotCancelled(v) && !Swept(st, q, Cancelling)
    ensures NotCancelled(w)
  {
    hide Swept;
    if v.ask.Some? && v.inbox.Some? && w.inbox.Some? && Walked(v, w) {
      assert forall m :: m in w.inbox.value ==> m in v.inbox.value;
    } else {
      hide Walked;
    }
  }

  lemma NotSweptByCancel(st: State, stream: Option<Id>, q: Id)
    requires Ownership(st) && Uncancelled(st, stream)
    ensures q in st.asks && st.asks[q].stream == stream ==> !Swept(st, q, Cancelling)
  {
    hide Accounted, TombstonesSweep, NotCancelled;
  }

  lemma NothingAsked(q: Id, stream: Option<Id>)
    ensures RepliedIsUnpended(Start, q) && Uncancelled(Start, stream)
  {
  }

  /** A question is cancelled only when its own stream is: cancelling other streams cannot refuse it or wake it. */
  lemma {:induction false} OnlyOwnStreamCancels(ops: seq<Op>, stream: Option<Id>)
    requires forall op :: op in ops && op.OpCancel? ==> stream != Some(op.s)
    ensures Uncancelled(Run(Start, ops), stream)
    decreases |ops|
  {
    hide Uncancelled, Step, Threads, Ownership;
    if ops == [] {
      NothingAsked("", stream);
    } else {
      OnlyOwnStreamCancels(ops[..|ops| - 1], stream);
      AlwaysGood(ops[..|ops| - 1]);
      assert ops[|ops| - 1] in ops;
      UncancelledStep(Run(Start, ops[..|ops| - 1]), ops[|ops| - 1], stream);
    }
  }

  /** While a stream is tombstoned every new question of it is refused. */
  lemma {:induction false} TombstoneRefuses(before: seq<Op>, ops: seq<Op>, s: Id, q: Id)
    requires s in Run(Start, before).cancelled && q !in Run(Start, before).asks
    requires OpFinish(s) !in ops
    ensures var u := Run(Run(Start, before), ops);
            s in u.cancelled && (q in u.asks && u.asks[q].stream == Some(s) ==> u.asks[q].phase == Done(Refused))
    decreases |ops|
  {
    hide Step;
    if ops != [] {
      TombstoneRefuses(before, ops[..|ops| - 1], s, q);
      RefusalStep(Run(Run(Start, before), ops[..|ops| - 1]), ops[|ops| - 1], s, q);
    }
  }

  lemma TombstoneStays(st: State, op: Op, s: Id)
    requires s in st.cancelled && op != OpFinish(s)
    ensures s in Step(st, op).cancelled
  {
    CallsLeaveSweeps(st, op);
    if op.OpAdvance? { AdvanceSweeps(st, op.task); }
    hide BeginAsk, Own, Register, ReadContext, Emit, Receive, Timeout, Disown, Remove, Send, Advance;
  }

  lemma RefusalStep(st: State, op: Op, s: Id, q: Id)
    requires s in st.cancelled && op != OpFinish(s)
    requires q in st.asks && st.asks[q].stream == Some(s) ==> st.asks[q].phase == Done(Refused)
    ensures var u := Step(st, op);
            s in u.cancelled && (q in u.asks && u.asks[q].stream == Some(s) ==> u.asks[q].phase == Done(Refused))
  {
    TombstoneStays(st, op, s);
    CallStep(st, op, q);
    hide Step;
  }
}
