/** What the toolbar of a panel is told, and whether it shows the truth. */
module BrowserEvents {
  import opened Util
  import opened BrowserNavigation
  import opened BrowserRuns

  // ---------------------------------------------------------------------------------------------
  // Equivalence of URLs
  // ---------------------------------------------------------------------------------------------

  /** The same letter, in either case for A to Z. */
  predicate SameLetter(a: char, b: char) {
    || a == b
    || ('A' <= a <= 'Z' && b as int == a as int + 32)
    || ('A' <= b <= 'Z' && a as int == b as int + 32)
  }

  predicate SameLetters(a: string, b: string) {
    |a| == |b| && forall i :: 0 <= i < |a| ==> SameLetter(a[i], b[i])
  }

  lemma LowerForgetsCase(a: string, b: string)
    ensures Lower(a) == Lower(b) <==> SameLetters(a, b)
  {
    if Lower(a) == Lower(b) {
      assert |Lower(a)| == |a| && |Lower(b)| == |b|;
      forall i | 0 <= i < |a| ensures SameLetter(a[i], b[i]) {
        assert Lower(a)[i] == Lower(b)[i];
      }
    }
  }

  /** The port a URL means: the one it names, or the usual one of its scheme. */
  function PortMeant(parts: Parts): Option<nat> {
    if parts.port.Some? then parts.port
    else if parts.scheme == "http" || parts.scheme == "ws" then Some(80)
    else if parts.scheme == "https" || parts.scheme == "wss" then Some(443)
    else if parts.scheme == "ftp" then Some(21)
    else None
  }

  /** A missing path is the root. */
  function PathMeant(parts: Parts): string {
    if parts.path == "" then "/" else parts.path
  }

  /**
   Two URLs that parse are equivalent exactly when they differ at most in the case of the scheme, in naming the usual
   port or not, and in writing the root path or not. Others are equivalent to themselves alone.
   */
  lemma EquivalentUrls(lib: UrlLib, a: string, b: string)
    ensures lib.parse(a).None? || lib.parse(b).None? ==> (UrlsEquivalent(lib, a, b) <==> a == b)
    ensures lib.parse(a).Some? && lib.parse(b).Some? ==>
              (UrlsEquivalent(lib, a, b) <==>
               var p, q := lib.parse(a).value, lib.parse(b).value;
               && SameLetters(p.scheme, q.scheme) && p.host == q.host && PortMeant(p) == PortMeant(q)
               && p.username == q.username && p.password == q.password
               && PathMeant(p) == PathMeant(q) && p.query == q.query && p.fragment == q.fragment)
  {
    if lib.parse(a).Some? && lib.parse(b).Some? {
      LowerForgetsCase(lib.parse(a).value.scheme, lib.parse(b).value.scheme);
      hide Lower, SameLetters;
    }
  }

  // ---------------------------------------------------------------------------------------------
  // Events
  // ---------------------------------------------------------------------------------------------

  /** The events an operation on an open panel emits. */
  function EventsOf(lib: UrlLib, p: Panel, op: Op): seq<Event> {
    match op
    case OpNavigate(url) => if lib.normalize(url).Some? then [Status(PanelStep(lib, p, op), Loading)] else []
    case OpBack => if BackPanel(p).Some? then [Status(PanelStep(lib, p, op), Loading)] else []
    case OpForward => if ForwardPanel(p).Some? then [Status(PanelStep(lib, p, op), Loading)] else []
    case OpReload => [Status(PanelStep(lib, p, op), Loading)]
    case OpEnd(generation, loading) =>
      if generation == p.generation then [Status(PanelStep(lib, p, op), loading)] else []
    case OpSetTitle(title) => [TitleChange(p.id, title)]
    case OpSetUrl(url) => SetUrlPanel(lib, p, url).1
    case _ =>
      match Loaded(lib, p, op)
      case Some((q, url, phase)) => LoadPanel(lib, q, url, phase).1
      case None => []
  }

  /** The panel, the URL and the phase with which an operation applies a page load, if it applies one. */
  function Loaded(lib: UrlLib, p: Panel, op: Op): Option<(Panel, string, LoadPhase)> {
    match op
    case OpLoad(url, phase) =>
      if lib.normalize(url).Some? then Some((p, lib.normalize(url).value, phase)) else None
    case OpLoadCurrent(url, committed, phase) =>
      if lib.normalize(url).Some? && lib.normalize(committed).Some?
         && UrlsEquivalent(lib, lib.normalize(url).value, lib.normalize(committed).value)
         && lib.normalize(lib.normalize(url).value).Some?
      then Some((p, lib.normalize(lib.normalize(url).value).value, phase)) else None
    case OpSetUrl(url) =>
      if lib.normalize(url).None? then None
      else
        var normalized := lib.normalize(url).value;
        Some((ObservePanel(lib, DropUnacked(lib, p, url), normalized).0, normalized, Finished))
    case _ => None
  }

  /** A page load is all such an operation does. */
  lemma LoadedStep(lib: UrlLib, p: Panel, op: Op)
    requires Loaded(lib, p, op).Some?
    ensures var (q, url, phase) := Loaded(lib, p, op).value;
            && PanelStep(lib, p, op) == LoadPanel(lib, q, url, phase).0
            && EventsOf(lib, p, op) == LoadPanel(lib, q, url, phase).1
            && (q.id, q.current, q.history, q.loading) == (p.id, p.current, p.history, p.loading)
  {
    hide UrlsEquivalent, Observed, LoadPanel;
  }

  lemma LoadKeepsStatus(lib: UrlLib, p: Panel, url: string, phase: LoadPhase)
    ensures var (q, events, _) := LoadPanel(lib, p, url, phase);
            && q.id == p.id
            && (events == [] ==> q == p)
            && (events != [] ==> events[|events| - 1] == Status(q, q.loading))
            && (|events| <= 2)
            && (|events| == 2 ==> events[0] == UrlChange(p.id, url) && q.current == url)
  {
    hide UrlsEquivalent, Observed, PushBack;
  }

  /** What the toolbar shows. */
  datatype Toolbar = Toolbar(url: string, loading: Loading, canGoBack: bool, canGoForward: bool)

  function TrueToolbar(p: Panel): Toolbar {
    Toolbar(p.current, p.loading, BackPanel(p).Some?, ForwardPanel(p).Some?)
  }

  function Hear(bar: Toolbar, events: seq<Event>): Toolbar {
    if events == [] then bar
    else
      var before := Hear(bar, events[..|events| - 1]);
      match events[|events| - 1]
      case UrlChange(_, url) => before.(url := url)
      case TitleChange(_, _) => before
      case StatusChange(_, status, back, forward, _) =>
        before.(loading := status, canGoBack := back, canGoForward := forward)
  }

  /** A command that succeeds puts its own target in the toolbar. */
  predicate Commands(lib: UrlLib, p: Panel, op: Op) {
    || (op.OpNavigate? && lib.normalize(op.url).Some?) || (op.OpBack? && BackPanel(p).Some?)
    || (op.OpForward? && ForwardPanel(p).Some?) || op.OpReload?
  }

  function ToolbarStep(lib: UrlLib, p: Panel, op: Op, bar: Toolbar): Toolbar {
    var heard := Hear(bar, EventsOf(lib, p, op));
    if Commands(lib, p, op) then heard.(url := PanelStep(lib, p, op).current) else heard
  }

  /** The toolbar after a run, when it showed the truth before. */
  function ToolbarAfter(lib: UrlLib, p: Panel, ops: seq<Op>): Toolbar {
    if ops == [] then TrueToolbar(p)
    else
      var init, op := ops[..|ops| - 1], ops[|ops| - 1];
      ToolbarStep(lib, PanelRun(lib, p, init), op, ToolbarAfter(lib, p, init))
  }

  lemma HearOne(bar: Toolbar, e: Event)
    ensures Hear(bar, [e])
         == match e
            case UrlChange(_, url) => bar.(url := url)
            case TitleChange(_, _) => bar
            case StatusChange(_, status, back, forward, _) =>
              bar.(loading := status, canGoBack := back, canGoForward := forward)
  {
    assert [e][..0] == [];
  }

  lemma HearTwo(bar: Toolbar, events: seq<Event>)
    requires |events| == 2
    ensures Hear(bar, events) == Hear(Hear(bar, [events[0]]), [events[1]])
  {
    HearOne(Hear(bar, [events[0]]), events[1]);
    assert events[..1] == [events[0]];
  }

  /** Every status an operation tells is that of the panel it leaves, in all its parts. */
  lemma StatusIsTrue(lib: UrlLib, p: Panel, op: Op)
    ensures var q := PanelStep(lib, p, op);
            && q.id == p.id
            && forall i :: 0 <= i < |EventsOf(lib, p, op)| && EventsOf(lib, p, op)[i].StatusChange? ==>
                 EventsOf(lib, p, op)[i]
                 == StatusChange(p.id, q.loading, BackPanel(q).Some?, ForwardPanel(q).Some?, q.generation)
  {
    if Loaded(lib, p, op).Some? {
      LoadedStep(lib, p, op);
      var (r, url, phase) := Loaded(lib, p, op).value;
      LoadKeepsStatus(lib, r, url, phase);
      hide PanelStep, EventsOf, Loaded, LoadPanel;
    } else {
      hide UrlsEquivalent, Observed, LoadPanel, Loaded;
    }
  }

  lemma LoadIsHeard(lib: UrlLib, p: Panel, url: string, phase: LoadPhase, bar: Toolbar)
    requires (bar.loading, bar.canGoBack, bar.canGoForward) == (p.loading, BackPanel(p).Some?, ForwardPanel(p).Some?)
    ensures var (q, events, _) := LoadPanel(lib, p, url, phase);
            var heard := Hear(bar, events);
            && (heard.loading, heard.canGoBack, heard.canGoForward)
               == (q.loading, BackPanel(q).Some?, ForwardPanel(q).Some?)
            && heard.url == if |events| == 2 then url else bar.url
  {
    var (q, events, _) := LoadPanel(lib, p, url, phase);
    LoadKeepsStatus(lib, p, url, phase);
    hide LoadPanel;
    if |events| == 1 {
      assert events == [events[0]];
      HearOne(bar, events[0]);
    } else if |events| == 2 {
      HearTwo(bar, events);
      HearOne(bar, events[0]);
      HearOne(Hear(bar, [events[0]]), events[1]);
    }
  }

  /** The pending navigation has started. */
  predicate HasStarted(p: Panel) {
    p.pending.Some? && p.pending.value.started
  }

  /** The page load that finishes a started navigation under another URL than the one shown; it announces no URL. */
  predicate SilentRedirect(lib: UrlLib, p: Panel, op: Op) {
    match Loaded(lib, p, op)
    case None => false
    case Some((q, url, phase)) =>
      phase == Finished && HasStarted(q) && Observed(lib, q.pending.value, url) && !UrlsEquivalent(lib, q.current, url)
  }

  ghost predicate ShowsStatus(bar: Toolbar, p: Panel) {
    (bar.loading, bar.canGoBack, bar.canGoForward) == (p.loading, BackPanel(p).Some?, ForwardPanel(p).Some?)
  }

  lemma UrlOfLoad(lib: UrlLib, p: Panel, url: string, phase: LoadPhase)
    ensures var (q, events, _) := LoadPanel(lib, p, url, phase);
            && (|events| == 2 ==> q.current == url)
            && (|events| < 2 ==>
                  || UrlsEquivalent(lib, p.current, q.current)
                  || (phase == Finished && HasStarted(p) && Observed(lib, p.pending.value, url) && q.current == url))
            && (phase == Finished && HasStarted(p) && Observed(lib, p.pending.value, url) ==>
                |events| == 1 && q.current == url)
  {
    UrlsEquivalence(lib);
    hide UrlsEquivalent, Observed, PushBack, Records;
  }

  lemma ToolbarKeeps(lib: UrlLib, p: Panel, op: Op, bar: Toolbar)
    requires ShowsStatus(bar, p)
    ensures var q, after := PanelStep(lib, p, op), ToolbarStep(lib, p, op, bar);
            && ShowsStatus(after, q)
            && (UrlsEquivalent(lib, bar.url, p.current) ==>
                (UrlsEquivalent(lib, after.url, q.current) <==> !SilentRedirect(lib, p, op)))
  {
    UrlsEquivalence(lib);
    hide UrlsEquivalent;
    if Loaded(lib, p, op).Some? {
      LoadedStep(lib, p, op);
      var (r, url, phase) := Loaded(lib, p, op).value;
      LoadIsHeard(lib, r, url, phase, bar);
      UrlOfLoad(lib, r, url, phase);
      LoadedIsNoCommand(lib, p, op);
      hide PanelStep, EventsOf, Loaded, LoadPanel, Hear, Commands, Observed;
    } else {
      OtherIsHeard(lib, p, op, bar);
      hide ToolbarStep, PanelStep;
    }
  }

  lemma LoadedIsNoCommand(lib: UrlLib, p: Panel, op: Op)
    requires Loaded(lib, p, op).Some?
    ensures !Commands(lib, p, op)
  {
  }

  lemma OtherIsHeard(lib: UrlLib, p: Panel, op: Op, bar: Toolbar)
    requires Loaded(lib, p, op).None? && ShowsStatus(bar, p)
    ensures var q, after := PanelStep(lib, p, op), ToolbarStep(lib, p, op, bar);
            && ShowsStatus(after, q) && !SilentRedirect(lib, p, op)
            && (after.url == q.current || (after.url == bar.url && q.current == p.current))
  {
    hide UrlsEquivalent, Observed, LoadPanel, Hear, EventsOf, PanelStep, Status, BackPanel, ForwardPanel, Commands;
    var q, events := PanelStep(lib, p, op), EventsOf(lib, p, op);
    OtherEvents(lib, p, op);
    if p.history == q.history { SameWays(p, q); }
    if |events| == 1 {
      assert events == [events[0]];
      HearOne(bar, events[0]);
      if !events[0].TitleChange? { HearStatus(bar, q); }
    } else {
      HearNothing(bar, events);
    }
  }

  lemma SameWays(p: Panel, q: Panel)
    requires p.history == q.history
    ensures (BackPanel(q).Some? <==> BackPanel(p).Some?) && (ForwardPanel(q).Some? <==> ForwardPanel(p).Some?)
  {
  }

  lemma HearStatus(bar: Toolbar, q: Panel)
    ensures Hear(bar, [Status(q, q.loading)])
         == Toolbar(bar.url, q.loading, BackPanel(q).Some?, ForwardPanel(q).Some?)
  {
    HearOne(bar, Status(q, q.loading));
  }

  lemma HearNothing(bar: Toolbar, events: seq<Event>)
    requires events == []
    ensures Hear(bar, events) == bar
  {
  }

  lemma OtherEvents(lib: UrlLib, p: Panel, op: Op)
    requires Loaded(lib, p, op).None?
    ensures |EventsOf(lib, p, op)| <= 1
    ensures var q, events := PanelStep(lib, p, op), EventsOf(lib, p, op);
            && (events == [] ==> q.loading == p.loading && q.history == p.history && q.current == p.current)
            && (events != [] && events[0].TitleChange? ==>
                q.loading == p.loading && q.history == p.history && q.current == p.current)
            && (events != [] && !events[0].TitleChange? ==> events[0] == Status(q, q.loading))
            && (!Commands(lib, p, op) ==> q.current == p.current)
  {
    hide UrlsEquivalent, Observed;
  }

  /**
   Over every run of commands and callbacks the toolbar shows the panel's loading state and which ways are open. It also
   shows the panel's URL, up to equivalence, until a started navigation finishes under another URL, which tells nothing:
   then it goes on showing the old one.
   */
  lemma {:induction false} ToolbarAgrees(lib: UrlLib, p: Panel, ops: seq<Op>)
    ensures var q, bar := PanelRun(lib, p, ops), ToolbarAfter(lib, p, ops);
            && bar.loading == q.loading
            && (bar.canGoBack <==> BackPanel(q).Some?) && (bar.canGoForward <==> ForwardPanel(q).Some?)
    ensures (forall n :: 0 <= n < |ops| ==> !SilentRedirect(lib, PanelRun(lib, p, ops[..n]), ops[n])) ==>
            UrlsEquivalent(lib, ToolbarAfter(lib, p, ops).url, PanelRun(lib, p, ops).current)
    decreases |ops|
  {
    hide PanelStep, ToolbarStep, SilentRedirect, UrlsEquivalent;
    if ops == [] {
      UrlsEquivalence(lib);
    } else {
      var init, op := ops[..|ops| - 1], ops[|ops| - 1];
      ToolbarAgrees(lib, p, init);
      ToolbarKeeps(lib, PanelRun(lib, p, init), op, ToolbarAfter(lib, p, init));
      if forall n :: 0 <= n < |ops| ==> !SilentRedirect(lib, PanelRun(lib, p, ops[..n]), ops[n]) {
        forall n | 0 <= n < |init| ensures !SilentRedirect(lib, PanelRun(lib, p, init[..n]), init[n]) {
          assert init[..n] == ops[..n] && init[n] == ops[n];
        }
        assert ops[..|init|] == init;
        assert !SilentRedirect(lib, PanelRun(lib, p, init), op);
      }
    }
  }

  /** Exactly such a finish makes a toolbar that showed the URL show another one. */
  lemma SilentRedirectIsMissed(lib: UrlLib, p: Panel, op: Op, bar: Toolbar)
    requires ShowsStatus(bar, p) && UrlsEquivalent(lib, bar.url, p.current)
    ensures UrlsEquivalent(lib, ToolbarStep(lib, p, op, bar).url, PanelStep(lib, p, op).current)
       <==> !SilentRedirect(lib, p, op)
  {
    hide UrlsEquivalent, PanelStep, ToolbarStep, SilentRedirect;
    ToolbarKeeps(lib, p, op, bar);
  }

  /** Such a run: a navigation to `a` starts, is redirected to `b`, and finishes there; the toolbar still shows `a`. */
  lemma RedirectIsMissed(lib: UrlLib, p: Panel, a: string, b: string)
    requires Good(lib, p)
    requires lib.normalize(a) == Some(a) && lib.normalize(b) == Some(b) && !UrlsEquivalent(lib, a, b)
    ensures var ops := [] + [OpNavigate(a)] + [OpLoad(a, Started)] + [OpObserve(b)] + [OpLoad(b, Finished)];
            PanelRun(lib, p, ops).current == b && ToolbarAfter(lib, p, ops).url == a
  {
    var o1: seq<Op> := [] + [OpNavigate(a)];
    var o2: seq<Op> := o1 + [OpLoad(a, Started)];
    var o3: seq<Op> := o2 + [OpObserve(b)];
    assert o1[..0] == [] && o2[..1] == o1 && o3[..2] == o2 && (o3 + [OpLoad(b, Finished)])[..3] == o3;
    var p1 := PanelStep(lib, p, OpNavigate(a));
    var p2 := PanelStep(lib, p1, OpLoad(a, Started));
    PanelKeeps(lib, p, OpNavigate(a));
    PanelKeeps(lib, p1, OpLoad(a, Started));
    PanelKeeps(lib, p2, OpObserve(b));
    RedirectPanels(lib, p, a, b);
    var bar1 := ToolbarStep(lib, p, OpNavigate(a), TrueToolbar(p));
    ToolbarStarts(lib, p, a);
    hide PanelStep, ToolbarStep, UrlsEquivalent, Good;
    assert PanelRun(lib, p, []) == p && PanelRun(lib, p, o1) == p1 && PanelRun(lib, p, o2) == p2;
    assert ToolbarAfter(lib, p, []) == TrueToolbar(p) && ToolbarAfter(lib, p, o1) == bar1;
    ToolbarLoads(lib, p1, a, Started, bar1);
    var bar2 := ToolbarAfter(lib, p, o2);
    ToolbarObserves(lib, p2, b, bar2);
    ToolbarLoads(lib, PanelRun(lib, p, o3), b, Finished, ToolbarAfter(lib, p, o3));
  }

  lemma RedirectPanels(lib: UrlLib, p: Panel, a: string, b: string)
    requires Good(lib, p)
    requires lib.normalize(a) == Some(a) && lib.normalize(b) == Some(b) && !UrlsEquivalent(lib, a, b)
    ensures var p1 := PanelStep(lib, p, OpNavigate(a));
            var p2 := PanelStep(lib, p1, OpLoad(a, Started));
            var p3 := PanelStep(lib, p2, OpObserve(b));
            && p3.pending.Some? && p3.pending.value.started && Observed(lib, p3.pending.value, b)
            && PanelStep(lib, p3, OpLoad(b, Finished)).current == b
  {
    UrlsEquivalence(lib);
    hide UrlsEquivalent, LoadPanel, ObservePanel, Observed;
    var p1 := PanelStep(lib, p, OpNavigate(a));
    var p2 := PanelStep(lib, p1, OpLoad(a, Started));
    ObservedUnstarted(lib, p1.pending.value, a);
    PanelKeeps(lib, p, OpNavigate(a));
    PanelKeeps(lib, p1, OpLoad(a, Started));
    PanelKeeps(lib, p2, OpObserve(b));
    LoadLeaves(lib, p1, a, Started);
    RequestSeen(lib, p2, b);
    LoadLeaves(lib, PanelStep(lib, p2, OpObserve(b)), b, Finished);
  }

  lemma ToolbarStarts(lib: UrlLib, p: Panel, a: string)
    requires lib.normalize(a) == Some(a)
    ensures var bar := ToolbarStep(lib, p, OpNavigate(a), TrueToolbar(p));
            bar.url == a && ShowsStatus(bar, PanelStep(lib, p, OpNavigate(a)))
  {
    ToolbarKeeps(lib, p, OpNavigate(a), TrueToolbar(p));
    hide UrlsEquivalent;
  }

  lemma ToolbarLoads(lib: UrlLib, p: Panel, url: string, phase: LoadPhase, bar: Toolbar)
    requires lib.normalize(url) == Some(url) && ShowsStatus(bar, p)
    ensures var after := ToolbarStep(lib, p, OpLoad(url, phase), bar);
            && ShowsStatus(after, PanelStep(lib, p, OpLoad(url, phase)))
            && (after.url == url || after.url == bar.url)
            && (phase == Finished && HasStarted(p) && Observed(lib, p.pending.value, url) ==> after.url == bar.url)
  {
    LoadIsHeard(lib, p, url, phase, bar);
    UrlOfLoad(lib, p, url, phase);
    hide UrlsEquivalent, LoadPanel, Hear, Observed;
  }

  lemma ToolbarObserves(lib: UrlLib, p: Panel, url: string, bar: Toolbar)
    requires ShowsStatus(bar, p)
    ensures ToolbarStep(lib, p, OpObserve(url), bar) == bar
    ensures ShowsStatus(bar, PanelStep(lib, p, OpObserve(url)))
  {
    hide UrlsEquivalent, Observed;
  }

  // ---------------------------------------------------------------------------------------------
  // What commands and callbacks leave
  // ---------------------------------------------------------------------------------------------

  /** The panel waits for the callbacks of a new generation of `target`, with no title, and shows that it loads. */
  ghost predicate Awaits(p: Panel, q: Panel, target: string, previous: string, recorded: bool) {
    && q.current == target && q.title == "" && q.loading == Loading && q.generation == p.generation + 1
    && q.pending == Some(Pending(target, p.generation + 1, [target], false, previous, recorded))
  }

  /** Each command that succeeds leads to its target; moves through the history count as recorded from the start. */
  lemma CommandsAwait(lib: UrlLib, p: Panel, op: Op)
    requires Commands(lib, p, op)
    ensures var q := PanelStep(lib, p, op);
            match op
            case OpNavigate(url) =>
              && Awaits(p, q, lib.normalize(url).value, p.current, false)
              && q.history == p.history.(forward := [])
            case OpReload => Awaits(p, q, p.current, p.current, false) && q.history == p.history
            case OpBack => p.history.back != [] && Awaits(p, q, p.history.back[|p.history.back| - 1], q.current, true)
            case OpForward =>
              p.history.forward != [] && Awaits(p, q, p.history.forward[|p.history.forward| - 1], q.current, true)
  {
  }

  /** A panel is opened on its URL, which it loads as its first generation, with room for fifty entries of history. */
  lemma OpenedPanel(id: string, url: string)
    ensures NewPanel(id, url)
         == Panel(id, url, "", History([], [], 50), Loading, Some(Pending(url, 1, [url], false, "", false)), 1)
  {
  }

  /**
   A request seen while a navigation is pending admits its URL if that navigation has started, as a redirect, and
   changes nothing before; seen while none is, it begins a navigation of its own.
   */
  lemma RequestSeen(lib: UrlLib, p: Panel, url: string)
    requires Correlated(lib, p)
    ensures var (q, answer) := ObservePanel(lib, p, url);
            match p.pending
            case None =>
              && answer == Some(p.generation + 1)
              && q == p.(generation := p.generation + 1,
                         pending := Some(Pending(url, p.generation + 1, [url], false, p.current, false)))
            case Some(before) =>
              && q.pending.Some? && q == p.(pending := q.pending)
              && q.pending.value == before.(observed := q.pending.value.observed)
              && (forall v :: Observed(lib, q.pending.value, v) <==>
                   Observed(lib, before, v) || (before.started && UrlsEquivalent(lib, url, v)))
              && answer == if Observed(lib, q.pending.value, url) then Some(p.generation) else None
  {
    UrlsEquivalence(lib);
    hide UrlsEquivalent;
    if p.pending.Some? {
      var before, after := p.pending.value, ObservePanel(lib, p, url).0.pending.value;
      if !before.started { ObservedUnstarted(lib, before, url); }
      forall v ensures Observed(lib, after, v) <==>
                         Observed(lib, before, v) || (before.started && UrlsEquivalent(lib, url, v)) {
        ObservedGrows(lib, before, url, v);
        ObservedRespects(lib, before, url, v);
      }
    }
  }

  lemma ObservedGrows(lib: UrlLib, pending: Pending, url: string, v: string)
    ensures Observed(lib, pending.(observed := pending.observed + [url]), v)
       <==> Observed(lib, pending, v) || UrlsEquivalent(lib, url, v)
  {
    hide UrlsEquivalent;
    var more := pending.observed + [url];
    assert more[|more| - 1] == url;
    if Observed(lib, pending, v) {
      var i :| 0 <= i < |pending.observed| && UrlsEquivalent(lib, pending.observed[i], v);
      assert more[i] == pending.observed[i];
    }
  }

  lemma ObservedRespects(lib: UrlLib, pending: Pending, url: string, v: string)
    ensures Observed(lib, pending, url) && UrlsEquivalent(lib, url, v) ==> Observed(lib, pending, v)
  {
    UrlsEquivalence(lib);
    hide UrlsEquivalent;
    if Observed(lib, pending, url) && UrlsEquivalent(lib, url, v) {
      var i :| 0 <= i < |pending.observed| && UrlsEquivalent(lib, pending.observed[i], url);
      assert UrlsEquivalent(lib, pending.observed[i], v);
    }
  }

  /**
   A page load counts for the pending navigation if its URL was observed, and answers with its generation; then a start
   shows the URL as loading, but not a second one under another URL than the target, and a finish ends the navigation
   under it. Neither touches title or generation.
   */
  lemma LoadLeaves(lib: UrlLib, p: Panel, url: string, phase: LoadPhase)
    requires Correlated(lib, p)
    ensures var (q, events, answer) := LoadPanel(lib, p, url, phase);
            if p.pending.None? || !Observed(lib, p.pending.value, url) then q == p && events == [] && answer == None
            else
              var before := p.pending.value;
              && answer == Some(p.generation) && q.title == p.title && q.generation == p.generation
              && (if phase == Finished then q.current == url && q.loading == Idle && q.pending == None
                  else if before.started && !UrlsEquivalent(lib, before.target, url) then q == p && events == []
                  else q.current == url && q.loading == Loading
                       && q.pending == Some(before.(started := true, recorded := q.pending.value.recorded)))
  {
    hide UrlsEquivalent, Observed, PushBack;
  }

  /** The history with one more page behind, nothing ahead, and the oldest entry gone if there is no room for it. */
  function Recorded(h: History, url: string): History {
    History(if |h.back| < h.maxEntries then h.back + [url] else (h.back + [url])[|h.back| + 1 - h.maxEntries..], [],
            h.maxEntries)
  }

  /** Whether a page leaves an entry when another one takes its place. */
  predicate LeavesEntry(lib: UrlLib, left: string, url: string) {
    left != "" && !UrlsEquivalent(lib, left, url)
  }

  /**
   A completed URL reported without callbacks. If it is what the pending navigation waits for, it finishes that
   navigation, with the entry it owes unless it has started; any other one finishes a generation of its own that leaves
   the URL shown before.
   */
  lemma UrlReported(lib: UrlLib, p: Panel, url: string)
    requires Good(lib, p) && lib.normalize(url).Some? && UrlsEquivalent(lib, lib.normalize(url).value, url)
    ensures var q, shown := SetUrlPanel(lib, p, url).0, lib.normalize(url).value;
            && q.current == shown && q.loading == Idle && q.pending.None? && q.title == p.title
            && if p.pending.Some? && UrlsEquivalent(lib, p.pending.value.target, url) then
                 var before := p.pending.value;
                 && q.generation == p.generation
                 && q.history == if !before.started && !before.recorded && LeavesEntry(lib, before.previous, shown)
                                 then Recorded(p.history, before.previous) else p.history
               else
                 && q.generation == p.generation + 1
                 && q.history == if LeavesEntry(lib, p.current, shown) then Recorded(p.history, p.current)
                                 else p.history
  {
    UrlsEquivalence(lib);
    var shown := lib.normalize(url).value;
    var d := DropUnacked(lib, p, url);
    assert UrlsEquivalent(lib, shown, shown);
    hide UrlsEquivalent;
    assert Good(lib, d);
    ObserveKeeps(lib, d, shown);
    RequestSeen(lib, d, shown);
    var o := ObservePanel(lib, d, shown).0;
    if d.pending.Some? {
      TargetSeen(lib, d, shown);
    } else {
      assert UrlsEquivalent(lib, o.pending.value.observed[0], shown);
    }
    assert Observed(lib, o.pending.value, shown);
    LoadLeaves(lib, o, shown, Finished);
    RecordedIs(p.history, p.current);
    if p.pending.Some? { RecordedIs(p.history, p.pending.value.previous); }
    hide Observed, PushBack, Recorded, Good;
  }

  lemma TargetSeen(lib: UrlLib, p: Panel, url: string)
    requires Correlated(lib, p) && p.pending.Some? && UrlsEquivalent(lib, p.pending.value.target, url)
    ensures ObservePanel(lib, p, url) == (p, Some(p.generation)) && Observed(lib, p.pending.value, url)
  {
    hide UrlsEquivalent;
    assert UrlsEquivalent(lib, p.pending.value.observed[0], url);
  }

  lemma RecordedIs(h: History, url: string)
    ensures PushBack(h, url) == Recorded(h, url)
  {
  }

  /** A report that is no web URL drops the pending navigation unless it is what that one waits for. */
  lemma OtherReported(lib: UrlLib, p: Panel, url: string)
    requires lib.normalize(url).None?
    ensures SetUrlPanel(lib, p, url)
         == (if p.pending.Some? && UrlsEquivalent(lib, p.pending.value.target, url) then p else p.(pending := None), [])
  {
  }
}
