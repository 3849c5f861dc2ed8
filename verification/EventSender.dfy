/**
 The four collections as the object that owns them, and its methods as one thread runs them with nobody in between:
 each leaves the state that its steps in `QuestionProtocol`, taken in a row, lead to.
 */
module EventSender {
  import opened Util
  import opened QuestionProtocol

  /** Send one message to every listed question that still has a sender. */
  function SendAll(st: State, ids: seq<Id>, message: Message): State
    decreases |ids|
  {
    if ids == [] then st else SendAll(Send(st, ids[0], message), ids[1..], message)
  }

  /** Each listed question with a sender gets the message once and loses the sender; nothing else changes. */
  lemma {:induction false} SendAllReaches(st: State, ids: seq<Id>, message: Message)
    requires st.pending <= st.inbox.Keys
    ensures var t := SendAll(st, ids, message);
            && (forall q :: q in t.pending <==> q in st.pending && q !in ids)
            && t.inbox.Keys == st.inbox.Keys
            && (forall q :: q in st.inbox ==>
               t.inbox[q] == if q in ids && q in st.pending then st.inbox[q] + [message] else st.inbox[q])
            && t == st.(pending := t.pending, inbox := t.inbox)
    decreases |ids|
  {
    if ids != [] {
      var u, t := Send(st, ids[0], message), SendAll(st, ids, message);
      SendAllReaches(u, ids[1..], message);
      SendReaches(st, ids[0], message);
      hide Send, SendAll;
      assert ids == [ids[0]] + ids[1..];
      forall q ensures q in t.pending <==> q in st.pending && q !in ids {
        assert q in ids <==> q == ids[0] || q in ids[1..];
      }
      forall q | q in st.inbox
        ensures t.inbox[q] == if q in ids && q in st.pending then st.inbox[q] + [message] else st.inbox[q]
      {
        assert q in ids <==> q == ids[0] || q in ids[1..];
      }
    }
  }

  lemma SendReaches(st: State, id: Id, message: Message)
    requires st.pending <= st.inbox.Keys
    ensures var u := Send(st, id, message);
            && (forall q :: q in u.pending <==> q in st.pending && q != id)
            && u.inbox.Keys == st.inbox.Keys
            && (forall q :: q in st.inbox ==>
               u.inbox[q] == if q == id && q in st.pending then st.inbox[q] + [message] else st.inbox[q])
            && u == st.(pending := u.pending, inbox := u.inbox)
  {
  }

  class TauriEventSender {
    var cancelledRequests: set<Id>
    var requestContext: map<Id, string>
    var requestQuestions: map<Id, seq<Id>>
    var pendingQuestions: set<Id>
    ghost var inbox: map<Id, seq<Message>>

    /** The collections as a protocol state; the threads are not the object's. */
    ghost function Shared(): State
      reads this
    {
      State(cancelledRequests, requestContext, requestQuestions, pendingQuestions, inbox, map[], map[], None, None)
    }

    ghost predicate Valid()
      reads this
    {
      pendingQuestions <= inbox.Keys
    }

    constructor ()
      ensures Valid() && Shared() == Start
    {
      cancelledRequests, requestContext, requestQuestions, pendingQuestions, inbox := {}, map[], map[], {}, map[];
    }

    /** Take the sender and send on it. */
    method Deliver(q: Id, message: Message) returns (sent: bool)
      requires Valid()
      modifies `pendingQuestions, `inbox
      ensures Valid() && sent == (q in old(pendingQuestions)) && Shared() == Send(old(Shared()), q, message)
    {
      sent := q in pendingQuestions;
      if sent {
        pendingQuestions := pendingQuestions - {q};
        inbox := inbox[q := inbox[q] + [message]];
      }
    }

    method DeliverAll(ids: seq<Id>, message: Message)
      requires Valid()
      modifies `pendingQuestions, `inbox
      ensures Valid() && Shared() == SendAll(old(Shared()), ids, message)
    {
      var i := 0;
      while i < |ids|
        invariant 0 <= i <= |ids| && Valid()
        invariant SendAll(Shared(), ids[i..], message) == SendAll(old(Shared()), ids, message)
      {
        var _ := Deliver(ids[i], message);
        i := i + 1;
      }
    }

    /** The tombstone, the ownership index, then a message to each question that was in it. */
    method CancelRequest(s: Id) returns (found: bool)
      requires Valid()
      modifies this
      ensures Valid()
      ensures Shared() == var st := old(Shared());
                          SendAll(st.(cancelled := st.cancelled + {s}, questions := st.questions - {s}),
                              IdsOf(st.questions, s), RequestCancelled)
      ensures found <==> s in old(requestContext) || IdsOf(old(requestQuestions), s) != []
    {
      cancelledRequests := cancelledRequests + {s};
      var hadContext := s in requestContext;
      var ids := if s in requestQuestions then requestQuestions[s] else [];
      requestQuestions := requestQuestions - {s};
      DeliverAll(ids, RequestCancelled);
      found := hadContext || ids != [];
    }

    method ClearRequestContextFor(s: Id)
      requires Valid()
      modifies this
      ensures Valid()
      ensures Shared() == var st := old(Shared());
                          SendAll(st.(context := st.context - {s}, questions := st.questions - {s}),
                              IdsOf(st.questions, s), RequestFinished)
    {
      requestContext := requestContext - {s};
      var ids := if s in requestQuestions then requestQuestions[s] else [];
      requestQuestions := requestQuestions - {s};
      DeliverAll(ids, RequestFinished);
    }

    /** Out of the ownership index, then out of the pending map. */
    method RemovePendingQuestion(q: Id, stream: Option<Id>)
      requires Valid()
      modifies `requestQuestions, `pendingQuestions
      ensures Valid()
      ensures Shared() == var st := old(Shared());
                          var left := if stream.Some? && stream.value in st.questions
                                      then LeaveIndex(st, stream.value, q) else st;
                          left.(pending := st.pending - {q})
      ensures stream.Some? ==> q !in IdsOf(requestQuestions, stream.value)
      ensures forall s :: s in requestQuestions <==>
                && s in old(requestQuestions)
                && (Some(s) == stream ==> exists x :: x in old(requestQuestions)[s] && x != q)
      ensures forall s :: s in requestQuestions ==>
                requestQuestions[s] == if Some(s) == stream then Without(old(requestQuestions)[s], q)
                                       else old(requestQuestions)[s]
    {
      if stream.Some? && stream.value in requestQuestions {
        var kept := Without(requestQuestions[stream.value], q);
        assert kept == [] || (kept[0] in requestQuestions[stream.value] && kept[0] != q);
        if kept == [] {
          requestQuestions := requestQuestions - {stream.value};
        } else {
          requestQuestions := requestQuestions[stream.value := kept];
        }
      }
      pendingQuestions := pendingQuestions - {q};
    }

    method FinishRequest(s: Id)
      requires Valid()
      modifies `cancelledRequests
      ensures Valid() && cancelledRequests == old(cancelledRequests) - {s}
      ensures Shared() == Finish(old(Shared()), s)
    {
      cancelledRequests := cancelledRequests - {s};
    }
  }

  // ---------------------------------------------------------------------------------------------
  // A method is the run of its steps
  // ---------------------------------------------------------------------------------------------

  function Repeated(op: Op, n: nat): seq<Op> {
    seq(n, _ => op)
  }

  lemma RunOne(st: State, op: Op, n: nat)
    ensures Run(st, Repeated(op, n + 1)) == Run(Step(st, op), Repeated(op, n))
  {
    hide Step;
    assert Repeated(op, n + 1) == [op] + Repeated(op, n);
    RunConcat(st, [op], Repeated(op, n));
    assert Run(st, [op]) == Step(Run(st, [op][..0]), op);
  }

  /** A sweep alone, from the moment it holds its questions. */
  lemma {:induction false} SendingAlone(st: State, task: nat)
    requires task in st.sweeps && st.sweeps[task].phase.Sending? && st.sweeps[task].rest == []
    ensures var w := st.sweeps[task];
            Run(st, Repeated(OpAdvance(task), |w.phase.todo| + 1))
            == SendAll(st, w.phase.todo, MessageOf(w.kind)).(sweeps := st.sweeps[task := w.(phase := Finished)])
    decreases |st.sweeps[task].phase.todo|
  {
    hide Send, Run;
    var w := st.sweeps[task];
    var todo := w.phase.todo;
    RunOne(st, OpAdvance(task), |todo|);
    if todo == [] {
      RunNone(Advance(st, task), OpAdvance(task));
    } else {
      var m := MessageOf(w.kind);
      var sent := Send(st, todo[0], m);
      var t := Advance(st, task);
      assert t == sent.(sweeps := st.sweeps[task := Shorter(w)]);
      SendingAlone(t, task);
      SendAllFrame(sent, t.sweeps, todo[1..], m);
      assert t.sweeps[task := w.(phase := Finished)] == st.sweeps[task := w.(phase := Finished)];
    }
  }

  lemma RunNone(st: State, op: Op)
    ensures Run(st, Repeated(op, 0)) == st
  {
  }

  /** Sending does not look at the sweeps. */
  lemma {:induction false} SendAllFrame(st: State, sweeps: map<nat, Sweep>, ids: seq<Id>, m: Message)
    ensures SendAll(st.(sweeps := sweeps), ids, m) == SendAll(st, ids, m).(sweeps := sweeps)
    decreases |ids|
  {
    if ids != [] {
      assert Send(st.(sweeps := sweeps), ids[0], m) == Send(st, ids[0], m).(sweeps := sweeps);
      SendAllFrame(Send(st, ids[0], m), sweeps, ids[1..], m);
    }
  }

  /** Cancel's steps in a row leave what the method leaves. */
  lemma CancelIsItsSteps(st: State, task: nat, s: Id)
    requires task !in st.sweeps && st.tombstonesHeldBy.None? && st.indexHeldBy.None?
    ensures var ids := IdsOf(st.questions, s);
            Run(Step(st, OpCancel(task, s)), Repeated(OpAdvance(task), |ids| + 3))
            == SendAll(st.(cancelled := st.cancelled + {s}, questions := st.questions - {s}), ids, RequestCancelled)
               .(sweeps := st.sweeps[task := Sweep(Cancelling, s, Finished, s in st.context || ids != [], [])])
  {
    hide Run, Send, SendAll;
    var ids := IdsOf(st.questions, s);
    var a := BeginCancel(st, task, s);
    var b := Advance(a, task);
    var c := Advance(b, task);
    RunOne(a, OpAdvance(task), |ids| + 2);
    RunOne(b, OpAdvance(task), |ids| + 1);
    SendingAlone(c, task);
    var base := st.(cancelled := st.cancelled + {s}, questions := st.questions - {s});
    var w := Sweep(Cancelling, s, Sending(ids), s in st.context || ids != [], []);
    assert c == base.(sweeps := c.sweeps) && c.sweeps[task] == w;
    SendAllFrame(base, c.sweeps, ids, RequestCancelled);
    assert c.sweeps[task := w.(phase := Finished)] == st.sweeps[task := w.(phase := Finished)];
  }

  lemma ClearIsItsSteps(st: State, task: nat, s: Id)
    requires task !in st.sweeps && st.indexHeldBy.None?
    ensures var ids := IdsOf(st.questions, s);
            Run(Step(st, OpClear(task, s)), Repeated(OpAdvance(task), |ids| + 3))
            == SendAll(st.(context := st.context - {s}, questions := st.questions - {s}), ids, RequestFinished)
               .(sweeps := st.sweeps[task := Sweep(Clearing, s, Finished, s in st.context || ids != [], [])])
  {
    hide Run, Send, SendAll;
    var ids := IdsOf(st.questions, s);
    var a := BeginClear(st, task, s, []);
    var b := Advance(a, task);
    var c := Advance(b, task);
    RunOne(a, OpAdvance(task), |ids| + 2);
    RunOne(b, OpAdvance(task), |ids| + 1);
    SendingAlone(c, task);
    var base := st.(context := st.context - {s}, questions := st.questions - {s});
    var w := Sweep(Clearing, s, Sending(ids), s in st.context || ids != [], []);
    assert c == base.(sweeps := c.sweeps) && c.sweeps[task] == w;
    SendAllFrame(base, c.sweeps, ids, RequestFinished);
    assert c.sweeps[task := w.(phase := Finished)] == st.sweeps[task := w.(phase := Finished)];
  }
}
