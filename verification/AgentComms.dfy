/** The two maps as the object that owns them, and its handlers as one thread runs them with nobody in between. */
module AgentComms {
  import opened Util
  import opened SessionRegistry

  class Registry {
    var sessions: map<Sid, Session>
    var pendingInput: map<string, Sid>
    ghost var events: seq<Event>

    ghost predicate Valid()
      reads this
    {
      Unique(sessions)
    }

    constructor ()
      ensures Valid() && sessions == map[] && pendingInput == map[] && events == []
    {
      sessions, pendingInput, events := map[], map[], [];
    }

    /** The ids of the sessions under one identity, each once, in some order. */
    method FindMatching(id: Session) returns (ids: seq<Sid>)
      ensures forall sid :: sid in ids <==> sid in Matching(sessions, id)
      ensures forall i, j :: 0 <= i < j < |ids| ==> ids[i] != ids[j]
    {
      ids := [];
      var todo := sessions.Keys;
      while todo != {}
        invariant todo <= sessions.Keys
        invariant forall sid :: sid in ids <==> sid in sessions && sid !in todo && sessions[sid] == id
        invariant forall i, j :: 0 <= i < j < |ids| ==> ids[i] != ids[j]
        decreases |todo|
      {
        var sid :| sid in todo;
        if sessions[sid] == id { ids := ids + [sid]; }
        todo := todo - {sid};
      }
    }

    method EmitDisconnected(ids: seq<Sid>, id: Session)
      modifies `events
      ensures events == old(events) + Goodbyes(ids, id)
    {
      var i := 0;
      while i < |ids|
        invariant 0 <= i <= |ids| && events == old(events) + Goodbyes(ids[..i], id)
      {
        assert ids[..i + 1] == ids[..i] + [ids[i]];
        events := events + [Disconnected(ids[i], id)];
        i := i + 1;
      }
      assert ids[..i] == ids;
    }

    /** A reconnect takes the place of the session under its identity; that session's inputs go, and it is announced. */
    method HandleInitialize(sid: Sid, id: Session) returns (ghost evicted: seq<Sid>)
      requires Valid() && sid !in sessions
      modifies this
      ensures Valid()
      ensures |evicted| <= 1 && forall gone :: gone in evicted <==> gone in old(sessions) && old(sessions)[gone] == id
      ensures forall x :: x in sessions <==> x == sid || (x in old(sessions) && x !in evicted)
      ensures forall x :: x in sessions ==> sessions[x] == if x == sid then id else old(sessions)[x]
      ensures forall rid :: rid in pendingInput <==> rid in old(pendingInput) && old(pendingInput)[rid] !in evicted
      ensures forall rid :: rid in pendingInput ==> pendingInput[rid] == old(pendingInput)[rid]
      ensures events == old(events) + (if evicted == [] then [] else [Disconnected(evicted[0], id)])
                        + [Connected(sid, id)]
    {
      var ids := FindMatching(id);
      evicted := ids;
      AtMostOne(sessions, id, ids);
      sessions := (sessions - (set gone | gone in ids))[sid := id];
      if ids != [] {
        pendingInput := map rid | rid in pendingInput && pendingInput[rid] !in ids :: pendingInput[rid];
        EmitDisconnected(ids, id);
      }
      assert Goodbyes(ids, id) == if ids == [] then [] else [Disconnected(ids[0], id)];
      events := events + [Connected(sid, id)];
    }

    /** The end of a connection removes the session it registered last, if nobody has yet. */
    method CleanupConnection(registered: Option<Sid>)
      requires Valid()
      modifies this
      ensures Valid()
      ensures registered.None? || registered.value !in old(sessions) ==> unchanged(this)
      ensures registered.Some? && registered.value in old(sessions) ==>
                var sid := registered.value;
                && sessions == old(sessions) - {sid}
                && (forall rid :: rid in pendingInput <==> rid in old(pendingInput) && old(pendingInput)[rid] != sid)
                && (forall rid :: rid in pendingInput ==> pendingInput[rid] == old(pendingInput)[rid])
                && events == old(events) + [Disconnected(sid, old(sessions)[sid])]
    {
      if registered.None? || registered.value !in sessions { return; }
      var sid := registered.value;
      var id := sessions[sid];
      sessions := sessions - {sid};
      pendingInput := map rid | rid in pendingInput && pendingInput[rid] != sid :: pendingInput[rid];
      events := events + [Disconnected(sid, id)];
    }

    /** One session of the agent is removed, silently and with its pending inputs left behind. */
    method DisconnectAgent(agent: string) returns (found: bool)
      requires Valid()
      modifies `sessions
      ensures Valid()
      ensures found <==> exists sid :: sid in old(sessions) && old(sessions)[sid].agent == agent
      ensures !found ==> sessions == old(sessions)
      ensures found ==>
                exists sid ::
                  && sid in old(sessions) && old(sessions)[sid].agent == agent
                  && sessions == old(sessions) - {sid}
    {
      found := false;
      var todo := sessions.Keys;
      while todo != {}
        invariant todo <= sessions.Keys && sessions == old(sessions)
        invariant forall sid :: sid in sessions && sid !in todo ==> sessions[sid].agent != agent
        decreases |todo|
      {
        var sid :| sid in todo;
        if sessions[sid].agent == agent {
          sessions := sessions - {sid};
          return true;
        }
        todo := todo - {sid};
      }
    }

    method Shutdown()
      requires Valid()
      modifies `sessions, `pendingInput
      ensures Valid() && sessions == map[] && pendingInput == map[]
    {
      sessions := map[];
      pendingInput := map[];
    }
  }

  lemma AtMostOne(sessions: map<Sid, Session>, id: Session, ids: seq<Sid>)
    requires Unique(sessions) && forall sid :: sid in ids ==> sid in Matching(sessions, id)
    requires forall i, j :: 0 <= i < j < |ids| ==> ids[i] != ids[j]
    ensures |ids| <= 1
  {
    if |ids| >= 2 { Alike(sessions, id, ids); }
  }

  lemma Alike(sessions: map<Sid, Session>, id: Session, ids: seq<Sid>)
    requires Unique(sessions) && forall sid :: sid in ids ==> sid in Matching(sessions, id)
    requires |ids| >= 2
    ensures ids[0] == ids[1]
  {
    assert ids[0] in ids && ids[1] in ids;
  }

  function Goodbyes(ids: seq<Sid>, id: Session): seq<Event> {
    seq(|ids|, i requires 0 <= i < |ids| => Disconnected(ids[i], id))
  }

  // ---------------------------------------------------------------------------------------------
  // A handler is the run of its steps
  // ---------------------------------------------------------------------------------------------

  /**
   The steps of an `initialize` in a row: the reconnect, the pruning, the one announcement there can be, the
   greeting.
   */
  lemma InitializeIsItsSteps(s: State, c: nat, sid: Sid, id: Session, lost: Sid)
    requires Unique(s.sessions) && c in s.connections && s.connections[c].phase == Reading && sid !in s.identity
             && !s.shuttingDown
    requires lost in s.sessions && s.sessions[lost] == id
    ensures var t := Greet(Announce(PruneEvicted(Initialize(s, c, sid, id), c), c, lost), c);
            && t.sessions == (s.sessions - {lost})[sid := id]
            && (forall rid :: rid in t.pending <==> rid in s.pending && s.pending[rid] != lost)
            && (forall rid :: rid in t.pending ==> t.pending[rid] == s.pending[rid])
            && t.events == s.events + [Disconnected(lost, id)] + [Connected(sid, id)]
            && t.connections[c] == Connection(Some(sid), Reading)
  {
    var a := Initialize(s, c, sid, id);
    assert lost in Matching(s.sessions, id);
    assert Matching(s.sessions, id).Keys == {lost};
    var b := PruneEvicted(a, c);
    assert b.connections[c].phase.gone - {lost} == map[];
  }

  /** An initialize that evicts nobody has no pending inputs to prune and nobody to announce. */
  lemma FirstInitializeIsItsSteps(s: State, c: nat, sid: Sid, id: Session)
    requires c in s.connections && s.connections[c].phase == Reading && sid !in s.identity && !s.shuttingDown
    requires Matching(s.sessions, id) == map[]
    ensures var t := Greet(Initialize(s, c, sid, id), c);
            && t.sessions == s.sessions[sid := id] && t.pending == s.pending
            && t.events == s.events + [Connected(sid, id)]
            && t.connections[c] == Connection(Some(sid), Reading)
  {
    assert s.sessions - {} == s.sessions;
  }

  lemma CloseIsItsSteps(s: State, c: nat, sid: Sid)
    requires c in s.connections && s.connections[c] == Connection(Some(sid), Reading) && !s.shuttingDown
    requires sid in s.sessions && sid in s.identity && s.identity[sid] == s.sessions[sid]
    ensures var t := AnnounceClosed(PruneClosed(Close(s, c), c), c);
            && t.sessions == s.sessions - {sid}
            && (forall rid :: rid in t.pending <==> rid in s.pending && s.pending[rid] != sid)
            && (forall rid :: rid in t.pending ==> t.pending[rid] == s.pending[rid])
            && t.events == s.events + [Disconnected(sid, s.sessions[sid])]
            && t.connections[c].phase == Closed
  {
  }
}
