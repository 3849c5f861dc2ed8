/**
 The sessions of connected agents and their pending input requests, in two separately locked maps shared by the
 connection threads. Every step below is what one thread does from one lock acquisition to the next; only shutdown keeps
 a lock across steps. Session ids are drawn at random and never repeat.
 */
module SessionRegistry {
  import opened Util

  type Sid = string

  datatype Session = Session(plugin: string, agent: string)

  datatype Event = Connected(sid: Sid, session: Session) | Disconnected(sid: Sid, session: Session)

  datatype Phase =
    | Reading
    | Evicted(sid: Sid, gone: map<Sid, Session>)      // the new session is in, the old ones are out
    | Announcing(sid: Sid, gone: map<Sid, Session>)   // their pending inputs are gone, they are not announced
    | Greeting(sid: Sid)
    | Removed(sid: Sid)                              // closing: out of the map
    | Pruned(sid: Sid)                               // closing: pending inputs gone, not announced
    | Closed

  /** A connection thread: the session it registered last, and how far it has got. */
  datatype Connection = Connection(registered: Option<Sid>, phase: Phase)

  datatype State = State(
    sessions: map<Sid, Session>,
    pending: map<string, Sid>,
    connections: map<nat, Connection>,
    identity: map<Sid, Session>,
    events: seq<Event>,
    shuttingDown: bool
  )

  const Start := State(map[], map[], map[], map[], [], false)

  datatype Op =
    | OpConnect(c: nat)
    | OpInitialize(c: nat, sid: Sid, plugin: string, agent: string)
    | OpPruneEvicted(c: nat)
    | OpAnnounce(c: nat, sid: Sid)
    | OpGreet(c: nat)
    | OpClose(c: nat)
    | OpPruneClosed(c: nat)
    | OpAnnounceClosed(c: nat)
    | OpDisconnectAgent(sid: Sid)
    | OpShutdown
    | OpFinishShutdown
    | OpRequestInput(rid: string, sid: Sid)
    | OpEndInput(rid: string)

  function At(s: State, c: nat, phase: Phase): State
    requires c in s.connections
  {
    s.(connections := s.connections[c := s.connections[c].(phase := phase)])
  }

  /** The sessions under one stable identity. */
  function Matching(sessions: map<Sid, Session>, id: Session): map<Sid, Session> {
    map sid | sid in sessions && sessions[sid] == id :: sessions[sid]
  }

  /** Pending inputs not owned by these sessions. */
  function Retained(pending: map<string, Sid>, gone: set<Sid>): map<string, Sid> {
    map rid | rid in pending && pending[rid] !in gone :: pending[rid]
  }

  /** Evict the sessions with the same identity and insert the new one, under one lock. */
  function Initialize(s: State, c: nat, sid: Sid, id: Session): State {
    if !(c in s.connections && s.connections[c].phase == Reading) || sid in s.identity || s.shuttingDown then s
    else
      var gone := Matching(s.sessions, id);
      At(s, c, if gone != map[] then Evicted(sid, gone) else Greeting(sid))
      .(sessions := (s.sessions - gone.Keys)[sid := id], identity := s.identity[sid := id])
  }

  function PruneEvicted(s: State, c: nat): State {
    if !(c in s.connections && s.connections[c].phase.Evicted?) then s
    else
      var phase := s.connections[c].phase;
      At(s, c, Announcing(phase.sid, phase.gone)).(pending := Retained(s.pending, phase.gone.Keys))
  }

  /** The evicted sessions are announced one by one, in any order. */
  function Announce(s: State, c: nat, sid: Sid): State {
    if !(c in s.connections && s.connections[c].phase.Announcing? && sid in s.connections[c].phase.gone) then s
    else
      var phase := s.connections[c].phase;
      var rest := phase.gone - {sid};
      At(s, c, if rest != map[] then Announcing(phase.sid, rest) else Greeting(phase.sid))
      .(events := s.events + [Disconnected(sid, phase.gone[sid])])
  }

  function Greet(s: State, c: nat): State {
    if !(c in s.connections && s.connections[c].phase.Greeting? && s.connections[c].phase.sid in s.identity) then s
    else
      var sid := s.connections[c].phase.sid;
      s.(connections := s.connections[c := Connection(Some(sid), Reading)],
          events := s.events + [Connected(sid, s.identity[sid])])
  }

  /** Remove the session the connection registered last, if it is still there. */
  function Close(s: State, c: nat): State {
    if !(c in s.connections && s.connections[c].phase == Reading) then s
    else
      match s.connections[c].registered
      case None => At(s, c, Closed)
      case Some(sid) =>
        if s.shuttingDown then s
        else if sid in s.sessions then At(s, c, Removed(sid)).(sessions := s.sessions - {sid})
        else At(s, c, Closed)
  }

  function PruneClosed(s: State, c: nat): State {
    if !(c in s.connections && s.connections[c].phase.Removed?) then s
    else
      var sid := s.connections[c].phase.sid;
      At(s, c, Pruned(sid)).(pending := Retained(s.pending, {sid}))
  }

  function AnnounceClosed(s: State, c: nat): State {
    if !(c in s.connections && s.connections[c].phase.Pruned? && s.connections[c].phase.sid in s.identity) then s
    else
      var sid := s.connections[c].phase.sid;
      At(s, c, Closed).(events := s.events + [Disconnected(sid, s.identity[sid])])
  }

  function Step(s: State, op: Op): State {
    match op
    case OpConnect(c) =>
      if c in s.connections then s else s.(connections := s.connections[c := Connection(None, Reading)])
    case OpInitialize(c, sid, plugin, agent) => Initialize(s, c, sid, Session(plugin, agent))
    case OpPruneEvicted(c) => PruneEvicted(s, c)
    case OpAnnounce(c, sid) => Announce(s, c, sid)
    case OpGreet(c) => Greet(s, c)
    case OpClose(c) => Close(s, c)
    case OpPruneClosed(c) => PruneClosed(s, c)
    case OpAnnounceClosed(c) => AnnounceClosed(s, c)
    case OpDisconnectAgent(sid) => if s.shuttingDown then s else s.(sessions := s.sessions - {sid})
    case OpShutdown => if s.shuttingDown then s else s.(sessions := map[], shuttingDown := true)
    case OpFinishShutdown => if s.shuttingDown then s.(pending := map[], shuttingDown := false) else s
    case OpRequestInput(rid, sid) => if rid in s.pending then s else s.(pending := s.pending[rid := sid])
    case OpEndInput(rid) => s.(pending := s.pending - {rid})
  }

  function Run(s: State, ops: seq<Op>): State {
    if ops == [] then s else Step(Run(s, ops[..|ops| - 1]), ops[|ops| - 1])
  }

  // ---------------------------------------------------------------------------------------------
  // What every reachable state keeps
  // ---------------------------------------------------------------------------------------------

  /** No two sessions share a plugin and an agent id. */
  ghost predicate Unique(sessions: map<Sid, Session>) {
    forall a, b :: a in sessions && b in sessions && sessions[a] == sessions[b] ==> a == b
  }

  /** The connection took the session out of the map and has not announced it. */
  predicate Owes(k: Connection, sid: Sid) {
    match k.phase
    case Evicted(_, gone) => sid in gone
    case Announcing(_, gone) => sid in gone
    case Removed(r) => r == sid
    case Pruned(r) => r == sid
    case _ => false
  }

  /** How often the session was announced as disconnected. */
  function Announced(events: seq<Event>, sid: Sid): nat {
    if events == [] then 0
    else
      var last := events[|events| - 1];
      Announced(events[..|events| - 1], sid) + if last.Disconnected? && last.sid == sid then 1 else 0
  }

  lemma AnnouncedSnoc(events: seq<Event>, e: Event, sid: Sid)
    ensures Announced(events + [e], sid) == Announced(events, sid) + if e.Disconnected? && e.sid == sid then 1 else 0
  {
    assert (events + [e])[..|events|] == events;
  }

  /** A session is in the map, or owed by one connection, or announced once, or none of these. */
  ghost predicate OnePlace(s: State, sid: Sid) {
    && (sid in s.sessions ==> sid in s.identity && s.sessions[sid] == s.identity[sid] && Announced(s.events, sid) == 0)
    && (forall c :: c in s.connections && Owes(s.connections[c], sid) ==>
          sid in s.identity && sid !in s.sessions && Announced(s.events, sid) == 0)
    && (forall c, d ::
          c in s.connections && d in s.connections && Owes(s.connections[c], sid) && Owes(s.connections[d], sid)
          ==> c == d)
    && Announced(s.events, sid) <= 1
    && (Announced(s.events, sid) > 0 ==> sid in s.identity)
  }

  lemma UniqueStep(s: State, op: Op)
    requires Unique(s.sessions)
    ensures Unique(Step(s, op).sessions)
  {
  }

  lemma InitializeInOnePlace(s: State, c: nat, drawn: Sid, id: Session, sid: Sid)
    requires OnePlace(s, sid)
    ensures OnePlace(Initialize(s, c, drawn, id), sid)
  {
    hide Announced;
  }

  lemma CloseInOnePlace(s: State, c: nat, sid: Sid)
    requires OnePlace(s, sid)
    ensures OnePlace(Close(s, c), sid)
  {
    hide Announced;
  }

  lemma PruneInOnePlace(s: State, c: nat, sid: Sid)
    requires OnePlace(s, sid)
    ensures OnePlace(PruneEvicted(s, c), sid) && OnePlace(PruneClosed(s, c), sid)
  {
    hide Announced, Retained;
  }

  lemma AnnounceInOnePlace(s: State, c: nat, gone: Sid, sid: Sid)
    requires OnePlace(s, sid)
    ensures OnePlace(Announce(s, c, gone), sid)
  {
    hide Announced;
    if Announce(s, c, gone) != s {
      AnnouncedSnoc(s.events, Disconnected(gone, s.connections[c].phase.gone[gone]), sid);
    }
  }

  lemma GreetInOnePlace(s: State, c: nat, sid: Sid)
    requires OnePlace(s, sid)
    ensures OnePlace(Greet(s, c), sid)
  {
    hide Announced;
    if Greet(s, c) != s {
      AnnouncedSnoc(s.events, Connected(s.connections[c].phase.sid, s.identity[s.connections[c].phase.sid]), sid);
    }
  }

  lemma AnnounceClosedInOnePlace(s: State, c: nat, sid: Sid)
    requires OnePlace(s, sid)
    ensures OnePlace(AnnounceClosed(s, c), sid)
  {
    hide Announced;
    if AnnounceClosed(s, c) != s {
      AnnouncedSnoc(s.events, Disconnected(s.connections[c].phase.sid, s.identity[s.connections[c].phase.sid]), sid);
    }
  }

  lemma OnePlaceStep(s: State, op: Op, sid: Sid)
    requires OnePlace(s, sid)
    ensures OnePlace(Step(s, op), sid)
  {
    hide Announced, Initialize, Close, PruneEvicted, PruneClosed, Announce, Greet, AnnounceClosed;
    match op {
      case OpInitialize(c, n, plugin, agent) =>
        hide OnePlace; InitializeInOnePlace(s, c, n, Session(plugin, agent), sid);
      case OpClose(c) => hide OnePlace; CloseInOnePlace(s, c, sid);
      case OpPruneEvicted(c) => hide OnePlace; PruneInOnePlace(s, c, sid);
      case OpPruneClosed(c) => hide OnePlace; PruneInOnePlace(s, c, sid);
      case OpAnnounce(c, gone) => hide OnePlace; AnnounceInOnePlace(s, c, gone, sid);
      case OpGreet(c) => hide OnePlace; GreetInOnePlace(s, c, sid);
      case OpAnnounceClosed(c) => hide OnePlace; AnnounceClosedInOnePlace(s, c, sid);
      case _ =>
    }
  }

  lemma {:induction false} AlwaysInOnePlace(ops: seq<Op>, sid: Sid)
    ensures OnePlace(Run(Start, ops), sid)
    decreases |ops|
  {
    hide Step, OnePlace;
    if ops == [] {
      NothingYet(sid);
    } else {
      AlwaysInOnePlace(ops[..|ops| - 1], sid);
      OnePlaceStep(Run(Start, ops[..|ops| - 1]), ops[|ops| - 1], sid);
    }
  }

  lemma NothingYet(sid: Sid)
    ensures OnePlace(Start, sid)
  {
  }

  // ---------------------------------------------------------------------------------------------
  // The promises
  // ---------------------------------------------------------------------------------------------

  /** In every reachable state no two sessions share a plugin and an agent id. */
  lemma {:induction false} IdentitiesAreUnique(ops: seq<Op>)
    ensures Unique(Run(Start, ops).sessions)
    decreases |ops|
  {
    hide Step;
    if ops != [] {
      IdentitiesAreUnique(ops[..|ops| - 1]);
      UniqueStep(Run(Start, ops[..|ops| - 1]), ops[|ops| - 1]);
    }
  }

  /** A session is announced as disconnected at most once, and never while it is in the map. */
  lemma DisconnectedAtMostOnce(ops: seq<Op>, sid: Sid)
    ensures var s := Run(Start, ops);
            Announced(s.events, sid) <= (if sid in s.sessions then 0 else 1)
  {
    AlwaysInOnePlace(ops, sid);
    hide Run;
  }

  /** A session that left the map never comes back. */
  ghost predicate GoneForGood(s: State, sid: Sid) {
    sid in s.identity && sid !in s.sessions
  }

  lemma GoneStep(s: State, op: Op, sid: Sid)
    requires GoneForGood(s, sid)
    ensures GoneForGood(Step(s, op), sid)
  {
  }

  lemma {:induction false} GoneRun(s: State, ops: seq<Op>, sid: Sid)
    requires GoneForGood(s, sid)
    ensures GoneForGood(Run(s, ops), sid)
    decreases |ops|
  {
    hide Step, GoneForGood;
    if ops != [] {
      GoneRun(s, ops[..|ops| - 1], sid);
      GoneStep(Run(s, ops[..|ops| - 1]), ops[|ops| - 1], sid);
    }
  }

  /**
   Once a reconnect superseded a session, the late close of its connection, whatever happens in between, changes no
   session and no pending input and announces nothing.
   */
  lemma LateCloseIsInert(before: seq<Op>, c: nat, sid: Sid, plugin: string, agent: string, stale: nat, after: seq<Op>)
    requires var s := Run(Start, before);
             && s.connections.Keys >= {c, stale} && c != stale && s.connections[c].phase == Reading
                && sid !in s.identity && !s.shuttingDown
             && s.connections[stale].registered.Some?
             && s.connections[stale].registered.value in s.sessions
             && s.sessions[s.connections[stale].registered.value] == Session(plugin, agent)
    requires var t := Run(Step(Run(Start, before), OpInitialize(c, sid, plugin, agent)), after);
             && stale in t.connections && !t.shuttingDown
             && t.connections[stale] == Connection(Run(Start, before).connections[stale].registered, Reading)
    ensures var t := Run(Step(Run(Start, before), OpInitialize(c, sid, plugin, agent)), after);
            Step(t, OpClose(stale)) == At(t, stale, Closed)
  {
    var s := Run(Start, before);
    var lost := s.connections[stale].registered.value;
    AlwaysInOnePlace(before, lost);
    hide Run, Announced;
    var u := Initialize(s, c, sid, Session(plugin, agent));
    assert lost in Matching(s.sessions, Session(plugin, agent));
    assert GoneForGood(u, lost);
    GoneRun(u, after, lost);
  }

  /** The reconnect itself leaves the new session alone under the identity. */
  lemma ReconnectSupersedes(s: State, c: nat, sid: Sid, plugin: string, agent: string)
    requires c in s.connections && s.connections[c].phase == Reading && sid !in s.identity && !s.shuttingDown
    ensures var t := Step(s, OpInitialize(c, sid, plugin, agent));
            && sid in t.sessions && t.sessions[sid] == Session(plugin, agent)
            && (forall other :: other in t.sessions && t.sessions[other] == Session(plugin, agent) ==> other == sid)
            && (forall other :: other in s.sessions && s.sessions[other] != Session(plugin, agent) ==>
               other == sid || (other in t.sessions && t.sessions[other] == s.sessions[other]))
  {
  }

  /**
   A connection that initializes a second time forgets its first session: closing can only reach the second. The first
   stays behind in the map exactly when it has another identity.
   */
  lemma SecondInitialize(s: State, c: nat, first: Sid, sid: Sid, id: Session)
    requires c in s.connections && s.connections[c] == Connection(Some(first), Reading) && sid !in s.identity
             && !s.shuttingDown
    requires first in s.sessions && first in s.identity && OnePlace(s, sid) && Unique(s.sessions)
    ensures var t := Initialize(s, c, sid, id);
            && (first in t.sessions <==> s.sessions[first] != id)
            && (s.sessions[first] != id && Matching(s.sessions, id) == map[] ==>
                  var u := Close(Greet(t, c), c); first in u.sessions && sid !in u.sessions)
  {
  }

  /** Reconnects and closes, complete or under way, never touch the pending inputs of a session that is in the map. */
  lemma LiveInputsStay(ops: seq<Op>, op: Op, rid: string)
    requires var s := Run(Start, ops); rid in s.pending && s.pending[rid] in s.sessions
    requires !op.OpEndInput? && !op.OpFinishShutdown?
    ensures var s := Run(Start, ops); rid in Step(s, op).pending && Step(s, op).pending[rid] == s.pending[rid]
  {
    var s := Run(Start, ops);
    AlwaysInOnePlace(ops, s.pending[rid]);
    hide Run, Announced;
  }

  // ---------------------------------------------------------------------------------------------
  // Every session is accounted for
  // ---------------------------------------------------------------------------------------------

  /** The session is in the map, or some connection will announce it, or it was announced. */
  ghost predicate Kept(s: State, sid: Sid) {
    || sid in s.sessions
    || (exists c :: c in s.connections && Owes(s.connections[c], sid))
    || Announced(s.events, sid) > 0
  }

  predicate LosesSessions(op: Op) {
    op.OpDisconnectAgent? || op.OpShutdown?
  }

  predicate MidFlight(k: Connection) {
    k.phase.Evicted? || k.phase.Announcing? || k.phase.Removed? || k.phase.Pruned?
  }

  lemma OwerStays(s: State, t: State, sid: Sid)
    requires forall c :: c in s.connections ==>
             c in t.connections && (Owes(s.connections[c], sid) ==> Owes(t.connections[c], sid))
    requires (sid in s.sessions ==> sid in t.sessions) && Announced(s.events, sid) <= Announced(t.events, sid)
    ensures Kept(s, sid) ==> Kept(t, sid)
  {
    hide Announced, Owes;
    if exists c :: c in s.connections && Owes(s.connections[c], sid) {
      var c :| c in s.connections && Owes(s.connections[c], sid);
      assert Owes(t.connections[c], sid);
    }
  }

  lemma InitializeKeeps(s: State, c: nat, drawn: Sid, id: Session, sid: Sid)
    requires sid in s.identity ==> Kept(s, sid)
    ensures sid in Initialize(s, c, drawn, id).identity ==> Kept(Initialize(s, c, drawn, id), sid)
  {
    hide Announced;
    var t := Initialize(s, c, drawn, id);
    if t != s {
      if sid in Matching(s.sessions, id) {
        assert Owes(t.connections[c], sid);
      } else if Kept(s, sid) {
        OwerStays(s, t, sid);
      }
    }
  }

  lemma AnnounceKeeps(s: State, c: nat, gone: Sid, sid: Sid)
    requires Kept(s, sid)
    ensures Kept(Announce(s, c, gone), sid)
  {
    hide Announced;
    var t := Announce(s, c, gone);
    if t != s {
      AnnouncedSnoc(s.events, Disconnected(gone, s.connections[c].phase.gone[gone]), sid);
      var phase := s.connections[c].phase;
      assert sid in phase.gone && sid != gone ==> sid in phase.gone - {gone};
      if sid != gone { OwerStays(s, t, sid); }
    }
  }

  lemma CloseKeeps(s: State, c: nat, sid: Sid)
    requires Kept(s, sid)
    ensures Kept(Close(s, c), sid)
  {
    hide Announced;
    var t := Close(s, c);
    if sid in s.sessions && sid !in t.sessions {
      assert Owes(t.connections[c], sid);
    } else {
      OwerStays(s, t, sid);
    }
  }

  lemma PruneKeeps(s: State, c: nat, sid: Sid)
    requires Kept(s, sid)
    ensures Kept(PruneEvicted(s, c), sid) && Kept(PruneClosed(s, c), sid)
  {
    hide Announced, Retained;
    OwerStays(s, PruneEvicted(s, c), sid);
    OwerStays(s, PruneClosed(s, c), sid);
  }

  lemma GreetKeeps(s: State, c: nat, sid: Sid)
    requires Kept(s, sid)
    ensures Kept(Greet(s, c), sid)
  {
    hide Announced;
    var t := Greet(s, c);
    if t != s {
      AnnouncedSnoc(s.events, Connected(s.connections[c].phase.sid, s.identity[s.connections[c].phase.sid]), sid);
    }
    OwerStays(s, t, sid);
  }

  lemma AnnounceClosedKeeps(s: State, c: nat, sid: Sid)
    requires Kept(s, sid)
    ensures Kept(AnnounceClosed(s, c), sid)
  {
    hide Announced;
    var t := AnnounceClosed(s, c);
    if t != s {
      AnnouncedSnoc(s.events, Disconnected(s.connections[c].phase.sid, s.identity[s.connections[c].phase.sid]), sid);
      if s.connections[c].phase.sid != sid { OwerStays(s, t, sid); }
    }
  }

  lemma KeptStep(s: State, op: Op, sid: Sid)
    requires (sid in s.identity ==> Kept(s, sid)) && !LosesSessions(op)
    ensures sid in Step(s, op).identity ==> Kept(Step(s, op), sid)
  {
    hide Announced, Initialize, Close, PruneEvicted, PruneClosed, Announce, Greet, AnnounceClosed, Kept;
    IdentityGrows(s, op);
    if op.OpInitialize? {
      InitializeKeeps(s, op.c, op.sid, Session(op.plugin, op.agent), sid);
    } else if sid in s.identity {
      match op {
        case OpClose(c) => CloseKeeps(s, c, sid);
        case OpPruneEvicted(c) => PruneKeeps(s, c, sid);
        case OpPruneClosed(c) => PruneKeeps(s, c, sid);
        case OpAnnounce(c, gone) => AnnounceKeeps(s, c, gone, sid);
        case OpGreet(c) => GreetKeeps(s, c, sid);
        case OpAnnounceClosed(c) => AnnounceClosedKeeps(s, c, sid);
        case _ => OwerStays(s, Step(s, op), sid);
      }
    }
  }

  lemma IdentityGrows(s: State, op: Op)
    ensures op.OpInitialize? ==>
              || Step(s, op).identity == s.identity
              || Step(s, op).identity == s.identity[op.sid := Session(op.plugin, op.agent)]
    ensures !op.OpInitialize? ==> Step(s, op).identity == s.identity
  {
    hide Announced, Retained, Matching;
  }

  /**
   Every session that was ever opened is accounted for: when no connection is in the middle of an eviction or a close,
   it is either in the map or was announced as disconnected once. Only `disconnect_agent` and shutdown drop sessions
   without a word.
   */
  lemma {:induction false} SessionsAreAccountedFor(ops: seq<Op>, sid: Sid)
    requires forall op :: op in ops ==> !LosesSessions(op)
    ensures var s := Run(Start, ops); sid in s.identity ==> Kept(s, sid)
    decreases |ops|
  {
    hide Step, Kept, LosesSessions;
    if ops != [] {
      SessionsAreAccountedFor(ops[..|ops| - 1], sid);
      assert ops[|ops| - 1] in ops;
      KeptStep(Run(Start, ops[..|ops| - 1]), ops[|ops| - 1], sid);
    }
  }

  lemma QuietSessionsAreHereOrAnnounced(ops: seq<Op>, sid: Sid)
    requires forall op :: op in ops ==> !LosesSessions(op)
    requires var s := Run(Start, ops); sid in s.identity && forall c :: c in s.connections ==>
             !MidFlight(s.connections[c])
    ensures var s := Run(Start, ops); sid in s.sessions <==> Announced(s.events, sid) == 0
    ensures Announced(Run(Start, ops).events, sid) <= 1
  {
    SessionsAreAccountedFor(ops, sid);
    AlwaysInOnePlace(ops, sid);
    hide Run, Announced;
  }

  // ---------------------------------------------------------------------------------------------
  // Inputs and names
  // ---------------------------------------------------------------------------------------------

  /** The connection took the session out of the map and has not pruned its pending inputs. */
  predicate Unpruned(k: Connection, sid: Sid) {
    match k.phase
    case Evicted(_, gone) => sid in gone
    case Removed(r) => r == sid
    case _ => false
  }

  predicate HasInput(s: State, sid: Sid) {
    exists rid :: rid in s.pending && s.pending[rid] == sid
  }

  ghost predicate BeingPruned(s: State, sid: Sid) {
    exists c :: c in s.connections && Unpruned(s.connections[c], sid)
  }

  ghost predicate InputsOwned(s: State, sid: Sid) {
    HasInput(s, sid) ==> sid in s.sessions || BeingPruned(s, sid)
  }

  /** An input is asked of a session that is there. */
  predicate AsksPresent(s: State, op: Op) {
    op.OpRequestInput? ==> op.sid in s.sessions
  }

  lemma PrunerStays(s: State, t: State, sid: Sid)
    requires forall c :: c in s.connections ==>
             c in t.connections && (Unpruned(s.connections[c], sid) ==> Unpruned(t.connections[c], sid))
    requires sid in s.sessions ==> sid in t.sessions || BeingPruned(t, sid)
    requires HasInput(t, sid) ==> HasInput(s, sid) || sid in t.sessions
    ensures InputsOwned(s, sid) ==> InputsOwned(t, sid)
  {
    hide Unpruned, HasInput;
    if BeingPruned(s, sid) {
      var c :| c in s.connections && Unpruned(s.connections[c], sid);
      assert Unpruned(t.connections[c], sid);
    }
  }

  lemma PrunedHasNone(s: State, c: nat, sid: Sid)
    requires c in s.connections && Unpruned(s.connections[c], sid)
    ensures !HasInput(if s.connections[c].phase.Evicted? then PruneEvicted(s, c) else PruneClosed(s, c), sid)
  {
  }

  lemma PruneOwned(s: State, c: nat, sid: Sid)
    requires InputsOwned(s, sid)
    ensures InputsOwned(PruneEvicted(s, c), sid) && InputsOwned(PruneClosed(s, c), sid)
  {
    if c in s.connections && Unpruned(s.connections[c], sid) {
      PrunedHasNone(s, c, sid);
      hide HasInput, BeingPruned, Retained;
    } else {
      PruneSubset(s, c, sid);
      hide Retained, HasInput, InputsOwned, BeingPruned;
      PrunerStays(s, PruneEvicted(s, c), sid);
      PrunerStays(s, PruneClosed(s, c), sid);
    }
  }

  lemma PruneSubset(s: State, c: nat, sid: Sid)
    ensures HasInput(PruneEvicted(s, c), sid) ==> HasInput(s, sid)
    ensures HasInput(PruneClosed(s, c), sid) ==> HasInput(s, sid)
  {
  }

  lemma LeavingOwned(s: State, op: Op, sid: Sid)
    requires InputsOwned(s, sid) && (op.OpInitialize? || op.OpClose?)
    ensures InputsOwned(Step(s, op), sid)
  {
    var t := Step(s, op);
    assert t.pending == s.pending;
    if sid in s.sessions && sid !in t.sessions {
      assert Unpruned(t.connections[op.c], sid);
    }
    PrunerStays(s, t, sid);
  }

  lemma OwnedStep(s: State, op: Op, sid: Sid)
    requires InputsOwned(s, sid) && !LosesSessions(op) && AsksPresent(s, op)
    ensures InputsOwned(Step(s, op), sid)
  {
    hide Initialize, Close, PruneEvicted, PruneClosed, InputsOwned, BeingPruned;
    match op {
      case OpInitialize(_, _, _, _) => LeavingOwned(s, op, sid);
      case OpClose(_) => LeavingOwned(s, op, sid);
      case OpPruneEvicted(c) => PruneOwned(s, c, sid);
      case OpPruneClosed(c) => PruneOwned(s, c, sid);
      case _ => PrunerStays(s, Step(s, op), sid);
    }
  }

  lemma {:induction false} OwnedRun(ops: seq<Op>, sid: Sid)
    requires forall op :: op in ops ==> !LosesSessions(op)
    requires forall n :: 0 <= n < |ops| ==> AsksPresent(Run(Start, ops[..n]), ops[n])
    ensures InputsOwned(Run(Start, ops), sid)
    decreases |ops|
  {
    hide Step, LosesSessions, AsksPresent;
    if ops != [] {
      var init := ops[..|ops| - 1];
      forall n | 0 <= n < |init| ensures AsksPresent(Run(Start, init[..n]), init[n]) {
        assert init[..n] == ops[..n] && init[n] == ops[n];
      }
      OwnedRun(init, sid);
      assert ops[|ops| - 1] in ops && ops[..|init|] == init;
      OwnedStep(Run(Start, init), ops[|ops| - 1], sid);
    }
  }

  /**
   Pending inputs die with their session: once no connection is in the middle of an eviction or a close, none is left of
   a session that is not in the map. Only `disconnect_agent` leaves some behind.
   */
  lemma InputsDieWithTheirSession(ops: seq<Op>, rid: string)
    requires forall op :: op in ops ==> !LosesSessions(op)
    requires forall n :: 0 <= n < |ops| ==> AsksPresent(Run(Start, ops[..n]), ops[n])
    requires forall c :: c in Run(Start, ops).connections ==> !MidFlight(Run(Start, ops).connections[c])
    ensures var s := Run(Start, ops); rid in s.pending ==> s.pending[rid] in s.sessions
  {
    var s := Run(Start, ops);
    if rid in s.pending {
      OwnedRun(ops, s.pending[rid]);
      hide Run;
      assert HasInput(s, s.pending[rid]);
    }
  }

  /** What the connections are about to announce, and what was announced, is said under the session's own identity. */
  ghost predicate TrueNames(s: State) {
    && (forall sid :: sid in s.sessions ==> Named(s, sid, s.sessions[sid]))
    && (forall c :: c in s.connections ==> GoneNamed(s, s.connections[c].phase))
    && (forall i :: 0 <= i < |s.events| ==> Named(s, s.events[i].sid, s.events[i].session))
  }

  predicate Named(s: State, sid: Sid, session: Session) {
    sid in s.identity && s.identity[sid] == session
  }

  ghost predicate GoneNamed(s: State, phase: Phase) {
    phase.Evicted? || phase.Announcing? ==> forall sid :: sid in phase.gone ==> Named(s, sid, phase.gone[sid])
  }

  lemma InitializeNames(s: State, c: nat, sid: Sid, id: Session)
    requires TrueNames(s)
    ensures TrueNames(Initialize(s, c, sid, id))
  {
  }

  lemma AnnounceNames(s: State, c: nat, sid: Sid)
    requires TrueNames(s)
    ensures TrueNames(Announce(s, c, sid))
  {
  }

  lemma CloseNames(s: State, c: nat)
    requires TrueNames(s)
    ensures TrueNames(Close(s, c))
  {
  }

  lemma PruneNames(s: State, c: nat)
    requires TrueNames(s)
    ensures TrueNames(PruneEvicted(s, c)) && TrueNames(PruneClosed(s, c))
  {
    hide Retained;
  }

  lemma GreetNames(s: State, c: nat)
    requires TrueNames(s)
    ensures TrueNames(Greet(s, c)) && TrueNames(AnnounceClosed(s, c))
  {
  }

  lemma TrueNamesStep(s: State, op: Op)
    requires TrueNames(s)
    ensures TrueNames(Step(s, op))
  {
    hide Retained, Initialize, Announce, Greet, AnnounceClosed, Close, PruneEvicted, PruneClosed;
    match op {
      case OpInitialize(c, sid, plugin, agent) => hide TrueNames; InitializeNames(s, c, sid, Session(plugin, agent));
      case OpAnnounce(c, sid) => hide TrueNames; AnnounceNames(s, c, sid);
      case OpGreet(c) => hide TrueNames; GreetNames(s, c);
      case OpAnnounceClosed(c) => hide TrueNames; GreetNames(s, c);
      case OpClose(c) => hide TrueNames; CloseNames(s, c);
      case OpPruneEvicted(c) => hide TrueNames; PruneNames(s, c);
      case OpPruneClosed(c) => hide TrueNames; PruneNames(s, c);
      case _ =>
    }
  }

  /** Over every run, each announcement names the plugin and the agent its session was opened for. */
  lemma {:induction false} AnnouncementsNameTheSession(ops: seq<Op>)
    ensures TrueNames(Run(Start, ops))
    decreases |ops|
  {
    hide Step, TrueNames;
    if ops == [] {
      assert TrueNames(Start) by { NoNames(); }
    } else {
      AnnouncementsNameTheSession(ops[..|ops| - 1]);
      TrueNamesStep(Run(Start, ops[..|ops| - 1]), ops[|ops| - 1]);
    }
  }

  lemma NoNames()
    ensures TrueNames(Start)
  {
  }

  /** While a shutdown holds the sessions nobody gets in. */
  lemma ShuttingDownStep(s: State, op: Op)
    requires s.shuttingDown && s.sessions == map[] && op != OpFinishShutdown
    ensures Step(s, op).shuttingDown && Step(s, op).sessions == map[]
  {
    hide Retained;
  }

  lemma {:induction false} ShuttingDownRun(s: State, ops: seq<Op>)
    requires s.shuttingDown && s.sessions == map[] && OpFinishShutdown !in ops
    ensures Run(s, ops).shuttingDown && Run(s, ops).sessions == map[]
    decreases |ops|
  {
    hide Step;
    if ops != [] {
      ShuttingDownRun(s, ops[..|ops| - 1]);
      ShuttingDownStep(Run(s, ops[..|ops| - 1]), ops[|ops| - 1]);
    }
  }

  /** Whatever happens during a shutdown, it leaves neither sessions nor pending inputs. */
  lemma ShutdownEmpties(s: State, ops: seq<Op>)
    requires !s.shuttingDown && OpFinishShutdown !in ops
    ensures Step(s, OpShutdown) == s.(sessions := map[], shuttingDown := true)
    ensures var t := Run(Step(s, OpShutdown), ops);
            Step(t, OpFinishShutdown) == t.(sessions := map[], pending := map[], shuttingDown := false)
  {
    ShuttingDownRun(Step(s, OpShutdown), ops);
    hide Run;
  }
}
