/** What holds of a panel over every run of commands and native callbacks. */
module BrowserRuns {
  import opened Util
  import opened BrowserNavigation

  // ---------------------------------------------------------------------------------------------
  // Runs
  // ---------------------------------------------------------------------------------------------

  datatype Op =
    | OpOpen(id: string, url: string)
    | OpClose
    | OpNavigate(url: string)
    | OpBack
    | OpForward
    | OpReload
    | OpSave
    | OpRestore(k: nat)
    | OpEnd(generation: nat, loading: Loading)
    | OpObserve(url: string)
    | OpLoad(url: string, phase: LoadPhase)
    | OpLoadCurrent(url: string, committed: string, phase: LoadPhase)
    | OpSetUrl(url: string)
    | OpSetTitle(title: string)

  /** The panel, if it is open, and the snapshots taken of it; only a snapshot can be restored. */
  datatype State = State(panel: Option<Panel>, saved: seq<Panel>)

  const Fresh := State(None, [])

  function LoadOf(lib: UrlLib, p: Panel, url: string, phase: LoadPhase): Panel {
    match lib.normalize(url)
    case None => p
    case Some(normalized) => LoadPanel(lib, p, normalized, phase).0
  }

  /** What an operation other than opening, closing and restoring makes of an open panel. */
  function PanelStep(lib: UrlLib, p: Panel, op: Op): Panel {
    match op
    case OpNavigate(url) => (match lib.normalize(url) case None => p case Some(target) => NavigatePanel(p, target))
    case OpBack => (match BackPanel(p) case None => p case Some(q) => q)
    case OpForward => (match ForwardPanel(p) case None => p case Some(q) => q)
    case OpReload => ReloadPanel(p)
    case OpEnd(generation, loading) => EndPanel(p, generation, loading)
    case OpObserve(url) => (match lib.normalize(url) case None => p case Some(target) => ObservePanel(lib, p, target).0)
    case OpLoad(url, phase) => LoadOf(lib, p, url, phase)
    case OpLoadCurrent(url, committed, phase) =>
      if lib.normalize(url).Some? && lib.normalize(committed).Some?
         && UrlsEquivalent(lib, lib.normalize(url).value, lib.normalize(committed).value)
      then LoadOf(lib, p, lib.normalize(url).value, phase)
      else p
    case OpSetUrl(url) => SetUrlPanel(lib, p, url).0
    case OpSetTitle(title) => p.(title := title)
    case _ => p
  }

  function Step(lib: UrlLib, s: State, op: Op): State {
    match op
    case OpOpen(id, url) =>
      if s.panel.None? && lib.normalize(url).Some? then s.(panel := Some(NewPanel(id, lib.normalize(url).value))) else s
    case OpClose => s.(panel := None)
    case OpSave => if s.panel.Some? then s.(saved := s.saved + [s.panel.value]) else s
    case OpRestore(k) => if k < |s.saved| then s.(panel := Some(s.saved[k])) else s
    case _ => if s.panel.Some? then s.(panel := Some(PanelStep(lib, s.panel.value, op))) else s
  }

  function Run(lib: UrlLib, s: State, ops: seq<Op>): State {
    if ops == [] then s else Step(lib, Run(lib, s, ops[..|ops| - 1]), ops[|ops| - 1])
  }

  function PanelRun(lib: UrlLib, p: Panel, ops: seq<Op>): Panel {
    if ops == [] then p else PanelStep(lib, PanelRun(lib, p, ops[..|ops| - 1]), ops[|ops| - 1])
  }

  // ---------------------------------------------------------------------------------------------
  // What every reachable panel keeps
  // ---------------------------------------------------------------------------------------------

  ghost predicate Bounded(p: Panel) {
    |p.history.back| + |p.history.forward| <= p.history.maxEntries
  }

  /**
   A pending navigation belongs to the panel's generation, knows only its target until it starts, and shows it after.
   */
  ghost predicate Correlated(lib: UrlLib, p: Panel) {
    p.pending.Some? ==>
      var pending := p.pending.value;
      && pending.generation == p.generation
      && pending.observed != [] && pending.observed[0] == pending.target
      && (!pending.started ==> pending.observed == [pending.target])
      && (pending.started ==> UrlsEquivalent(lib, p.current, pending.target))
  }

  ghost predicate Good(lib: UrlLib, p: Panel) {
    Bounded(p) && Correlated(lib, p)
  }

  lemma ObserveKeeps(lib: UrlLib, p: Panel, url: string)
    requires Good(lib, p)
    ensures Good(lib, ObservePanel(lib, p, url).0)
  {
    hide UrlsEquivalent;
    UrlsEquivalence(lib);
    if p.pending.Some? && !p.pending.value.started && UrlsEquivalent(lib, p.pending.value.target, url) {
      assert UrlsEquivalent(lib, p.pending.value.observed[0], url);
    }
  }

  lemma ObservedUnstarted(lib: UrlLib, pending: Pending, url: string)
    requires pending.observed == [pending.target]
    ensures Observed(lib, pending, url) <==> UrlsEquivalent(lib, pending.target, url)
  {
    if UrlsEquivalent(lib, pending.target, url) {
      assert UrlsEquivalent(lib, pending.observed[0], url);
    }
  }

  lemma LoadKeeps(lib: UrlLib, p: Panel, url: string, phase: LoadPhase)
    requires Good(lib, p)
    ensures Good(lib, LoadPanel(lib, p, url, phase).0)
  {
    hide UrlsEquivalent, Observed;
    UrlsEquivalence(lib);
    if p.pending.Some? && !p.pending.value.started {
      ObservedUnstarted(lib, p.pending.value, url);
    }
  }

  lemma SetUrlKeeps(lib: UrlLib, p: Panel, url: string)
    requires Good(lib, p)
    ensures Good(lib, SetUrlPanel(lib, p, url).0)
  {
    hide UrlsEquivalent, ObservePanel, LoadPanel;
    var q := DropUnacked(lib, p, url);
    assert Good(lib, q);
    hide Good;
    if lib.normalize(url).Some? {
      ObserveKeeps(lib, q, lib.normalize(url).value);
      LoadKeeps(lib, ObservePanel(lib, q, lib.normalize(url).value).0, lib.normalize(url).value, Finished);
    }
  }

  lemma PanelKeeps(lib: UrlLib, p: Panel, op: Op)
    requires Good(lib, p)
    ensures Good(lib, PanelStep(lib, p, op))
  {
    hide UrlsEquivalent, ObservePanel, LoadPanel, SetUrlPanel;
    match op {
      case OpObserve(url) => if lib.normalize(url).Some? { ObserveKeeps(lib, p, lib.normalize(url).value); }
      case OpLoad(url, phase) => if lib.normalize(url).Some? { LoadKeeps(lib, p, lib.normalize(url).value, phase); }
      case OpLoadCurrent(url, _, phase) =>
        if lib.normalize(url).Some? && lib.normalize(lib.normalize(url).value).Some? {
          LoadKeeps(lib, p, lib.normalize(lib.normalize(url).value).value, phase);
        }
      case OpSetUrl(url) => SetUrlKeeps(lib, p, url);
      case _ =>
    }
  }

  lemma LimitStays(lib: UrlLib, p: Panel, op: Op)
    ensures PanelStep(lib, p, op).history.maxEntries == p.history.maxEntries
  {
    hide UrlsEquivalent, Observed;
  }

  /**
   In every reachable state, of the panel and of every snapshot of it: the stacks together hold at most fifty entries,
   and pending navigations are correlated.
   */
  lemma {:induction false} AlwaysGood(lib: UrlLib, ops: seq<Op>)
    ensures var s := Run(lib, Fresh, ops);
            && (s.panel.Some? ==> Good(lib, s.panel.value) && s.panel.value.history.maxEntries == 50)
            && (forall k :: 0 <= k < |s.saved| ==> Good(lib, s.saved[k]) && s.saved[k].history.maxEntries == 50)
    decreases |ops|
  {
    hide PanelStep, Good;
    if ops != [] {
      var s, op := Run(lib, Fresh, ops[..|ops| - 1]), ops[|ops| - 1];
      AlwaysGood(lib, ops[..|ops| - 1]);
      if s.panel.Some? {
        PanelKeeps(lib, s.panel.value, op);
        LimitStays(lib, s.panel.value, op);
      }
      if op.OpOpen? && lib.normalize(op.url).Some? { NewIsGood(lib, op.id, lib.normalize(op.url).value); }
    }
  }

  lemma NewIsGood(lib: UrlLib, id: string, url: string)
    ensures Good(lib, NewPanel(id, url))
  {
  }

  // ---------------------------------------------------------------------------------------------
  // The history is a zipper
  // ---------------------------------------------------------------------------------------------

  function Reverse(s: seq<string>): seq<string> {
    if s == [] then [] else Reverse(s[1..]) + [s[0]]
  }

  lemma {:induction false} ReverseSnoc(s: seq<string>, last: string)
    ensures Reverse(s + [last]) == [last] + Reverse(s)
  {
    if s == [] {
      assert Reverse([last]) == Reverse([last][1..]) + [last];
    } else {
      assert (s + [last])[1..] == s[1..] + [last];
      ReverseSnoc(s[1..], last);
    }
  }

  /** All the URLs of the panel, oldest first. */
  function Line(p: Panel): seq<string> {
    p.history.back + [p.current] + Reverse(p.history.forward)
  }

  /** Back moves one place left on the line, which stays as it is; nothing is trimmed. */
  lemma BackMoves(p: Panel)
    requires Bounded(p) && p.history.back != []
    ensures BackPanel(p).Some?
    ensures var q := BackPanel(p).value;
            && Line(q) == Line(p) && |q.history.back| == |p.history.back| - 1
            && |q.history.forward| == |p.history.forward| + 1 && Bounded(q)
            && q.history.maxEntries == p.history.maxEntries
  {
    var q := BackPanel(p).value;
    ReverseSnoc(p.history.forward, p.current);
    assert p.history.back == q.history.back + [q.current];
  }

  lemma ForwardMoves(p: Panel)
    requires Bounded(p) && p.history.forward != []
    ensures ForwardPanel(p).Some?
    ensures var q := ForwardPanel(p).value;
            && Line(q) == Line(p) && |q.history.back| == |p.history.back| + 1
            && |q.history.forward| == |p.history.forward| - 1 && Bounded(q)
            && q.history.maxEntries == p.history.maxEntries
  {
    var q := ForwardPanel(p).value;
    ReverseSnoc(q.history.forward, q.current);
    assert p.history.forward == q.history.forward + [q.current];
    assert q.history.back == p.history.back + [p.current];
  }

  function Times(op: Op, n: nat): seq<Op> {
    seq(n, _ => op)
  }

  lemma {:induction false} BackTimes(lib: UrlLib, p: Panel, k: nat)
    requires Bounded(p) && k <= |p.history.back|
    ensures var q := PanelRun(lib, p, Times(OpBack, k));
            && Line(q) == Line(p) && |q.history.back| == |p.history.back| - k
               && |q.history.forward| == |p.history.forward| + k
            && Bounded(q) && q.history.maxEntries == p.history.maxEntries
  {
    hide Line, BackPanel;
    if k > 0 {
      assert Times(OpBack, k)[..k - 1] == Times(OpBack, k - 1);
      BackTimes(lib, p, k - 1);
      BackMoves(PanelRun(lib, p, Times(OpBack, k - 1)));
    }
  }

  lemma {:induction false} ForwardTimes(lib: UrlLib, p: Panel, k: nat)
    requires Bounded(p) && k <= |p.history.forward|
    ensures var q := PanelRun(lib, p, Times(OpForward, k));
            && Line(q) == Line(p) && |q.history.back| == |p.history.back| + k
               && |q.history.forward| == |p.history.forward| - k
            && Bounded(q) && q.history.maxEntries == p.history.maxEntries
  {
    hide Line, ForwardPanel;
    if k > 0 {
      assert Times(OpForward, k)[..k - 1] == Times(OpForward, k - 1);
      ForwardTimes(lib, p, k - 1);
      ForwardMoves(PanelRun(lib, p, Times(OpForward, k - 1)));
    }
  }

  lemma {:induction false} ReverseLength(s: seq<string>)
    ensures |Reverse(s)| == |s|
  {
    if s != [] { ReverseLength(s[1..]); }
  }

  lemma {:induction false} ReverseInjective(s: seq<string>, t: seq<string>)
    requires Reverse(s) == Reverse(t)
    ensures s == t
    decreases |s|
  {
    ReverseLength(s);
    ReverseLength(t);
    if s != [] {
      ReverseLength(s[1..]);
      assert Reverse(s[1..]) == Reverse(s)[..|s| - 1] && Reverse(t[1..]) == Reverse(t)[..|t| - 1];
      assert Reverse(s)[|s| - 1] == s[0] && Reverse(t)[|t| - 1] == t[0];
      ReverseInjective(s[1..], t[1..]);
    }
  }

  /** The line and the place on it determine the URL and both stacks. */
  lemma LineDetermines(p: Panel, q: Panel)
    requires Line(p) == Line(q) && |p.history.back| == |q.history.back| && p.history.maxEntries == q.history.maxEntries
    ensures p.current == q.current && p.history == q.history
  {
    var n, l := |p.history.back|, Line(p);
    assert p.history.back == l[..n] && q.history.back == l[..n];
    assert p.current == l[n] && q.current == l[n];
    assert Reverse(p.history.forward) == l[n + 1..] && Reverse(q.history.forward) == l[n + 1..];
    ReverseInjective(p.history.forward, q.history.forward);
  }

  /** From any reachable panel, k steps back and k forward restore the URL and both stacks, for every k there is. */
  lemma BackAndForth(lib: UrlLib, ops: seq<Op>, k: nat)
    requires var s := Run(lib, Fresh, ops); s.panel.Some? && k <= |s.panel.value.history.back|
    ensures var p := Run(lib, Fresh, ops).panel.value;
            var q := PanelRun(lib, PanelRun(lib, p, Times(OpBack, k)), Times(OpForward, k));
            q.current == p.current && q.history == p.history
  {
    AlwaysGood(lib, ops);
    hide Run, PanelRun, Line, Correlated;
    var p := Run(lib, Fresh, ops).panel.value;
    BackTimes(lib, p, k);
    var b := PanelRun(lib, p, Times(OpBack, k));
    ForwardTimes(lib, b, k);
    LineDetermines(PanelRun(lib, b, Times(OpForward, k)), p);
  }
}
