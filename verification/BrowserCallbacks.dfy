/** Which native callbacks count: correlation of page loads with navigations, and what they do to the history. */
module BrowserCallbacks {
  import opened Util
  import opened BrowserNavigation
  import opened BrowserRuns

  // ---------------------------------------------------------------------------------------------
  // Callbacks for other URLs
  // ---------------------------------------------------------------------------------------------

  /** Not a web URL, or not equivalent to the target. */
  predicate ForeignUrl(lib: UrlLib, target: string, url: string) {
    lib.normalize(url).Some? ==> !UrlsEquivalent(lib, target, lib.normalize(url).value)
  }

  /** A native callback that belongs to some other navigation. */
  predicate ForeignCallback(lib: UrlLib, target: string, op: Op) {
    match op
    case OpObserve(url) => ForeignUrl(lib, target, url)
    case OpLoad(url, _) => ForeignUrl(lib, target, url)
    case OpLoadCurrent(url, _, _) => lib.normalize(url).Some? ==> ForeignUrl(lib, target, lib.normalize(url).value)
    case _ => false
  }

  predicate Unstarted(p: Panel) {
    p.pending.Some? && !p.pending.value.started
  }

  lemma ForeignStep(lib: UrlLib, p: Panel, op: Op)
    requires Correlated(lib, p) && Unstarted(p) && ForeignCallback(lib, p.pending.value.target, op)
    ensures PanelStep(lib, p, op) == p
  {
    hide UrlsEquivalent;
    match op {
      case OpObserve(url) =>
        if lib.normalize(url).Some? { ObservedUnstarted(lib, p.pending.value, lib.normalize(url).value); }
      case OpLoad(url, _) =>
        if lib.normalize(url).Some? { ObservedUnstarted(lib, p.pending.value, lib.normalize(url).value); }
      case OpLoadCurrent(url, _, _) =>
        if lib.normalize(url).Some? && lib.normalize(lib.normalize(url).value).Some? {
          ObservedUnstarted(lib, p.pending.value, lib.normalize(lib.normalize(url).value).value);
        }
    }
  }

  /**
   Until a navigation starts, any run of callbacks for URLs not equivalent to its target leaves the panel as it is.
   */
  lemma {:induction false} ForeignCallbacksAreInert(lib: UrlLib, p: Panel, ops: seq<Op>)
    requires Good(lib, p) && Unstarted(p)
    requires forall op :: op in ops ==> ForeignCallback(lib, p.pending.value.target, op)
    ensures PanelRun(lib, p, ops) == p
    decreases |ops|
  {
    hide PanelStep, ForeignCallback, Unstarted;
    if ops != [] {
      ForeignCallbacksAreInert(lib, p, ops[..|ops| - 1]);
      assert ops[|ops| - 1] in ops;
      ForeignStep(lib, p, ops[|ops| - 1]);
    }
  }

  // ---------------------------------------------------------------------------------------------
  // One history entry per generation
  // ---------------------------------------------------------------------------------------------

  /** The URL a page load of `url` pushes on the history, if it pushes one. */
  function PushedByLoad(lib: UrlLib, p: Panel, url: string, phase: LoadPhase): Option<string> {
    if p.pending.None? || !Observed(lib, p.pending.value, url) then None
    else
      var pending := p.pending.value;
      if phase == Started && pending.started && !UrlsEquivalent(lib, pending.target, url) then None
      else if phase == Finished && pending.started then None
      else if Records(lib, pending, url) then Some(pending.previous)
      else None
  }

  function PushedByUrl(lib: UrlLib, p: Panel, url: string, phase: LoadPhase): Option<string> {
    if lib.normalize(url).None? then None else PushedByLoad(lib, p, lib.normalize(url).value, phase)
  }

  function Pushed(lib: UrlLib, p: Panel, op: Op): Option<string> {
    match op
    case OpLoad(url, phase) => PushedByUrl(lib, p, url, phase)
    case OpLoadCurrent(url, committed, phase) =>
      if lib.normalize(url).Some? && lib.normalize(committed).Some?
         && UrlsEquivalent(lib, lib.normalize(url).value, lib.normalize(committed).value)
      then PushedByUrl(lib, p, lib.normalize(url).value, phase)
      else None
    case OpSetUrl(url) =>
      if lib.normalize(url).None? then None
      else
        var normalized := lib.normalize(url).value;
        PushedByLoad(lib, ObservePanel(lib, DropUnacked(lib, p, url), normalized).0, normalized, Finished)
    case _ => None
  }

  /** A callback changes the history only by the entry it pushes. */
  lemma HistoryChanges(lib: UrlLib, p: Panel, op: Op)
    requires !op.OpNavigate? && !op.OpBack? && !op.OpForward?
    ensures PanelStep(lib, p, op).history
            == match Pushed(lib, p, op) case Some(url) => PushBack(p.history, url) case None => p.history
  {
    hide UrlsEquivalent, Observed, PushBack;
  }

  /** The generation and URL of every entry pushed along a run. */
  function PushLog(lib: UrlLib, p: Panel, ops: seq<Op>): seq<(nat, string)> {
    if ops == [] then []
    else
      var init, op := ops[..|ops| - 1], ops[|ops| - 1];
      var q := PanelRun(lib, p, init);
      match Pushed(lib, q, op)
      case None => PushLog(lib, p, init)
      case Some(url) => PushLog(lib, p, init) + [(PanelStep(lib, q, op).generation, url)]
  }

  ghost predicate Increasing(log: seq<(nat, string)>) {
    forall i, j :: 0 <= i < j < |log| ==> log[i].0 < log[j].0
  }

  /** The present generation has pushed nothing, or will push nothing more. */
  ghost predicate LogFits(p: Panel, log: seq<(nat, string)>) {
    forall i :: 0 <= i < |log| ==> log[i].0 <= p.generation
                                   && (log[i].0 == p.generation ==> p.pending.None? || p.pending.value.recorded)
  }

  lemma GenerationStep(lib: UrlLib, p: Panel, op: Op)
    requires Good(lib, p)
    ensures var q := PanelStep(lib, p, op);
            && p.generation <= q.generation
            && (q.generation == p.generation ==> (p.pending.None? ==> q.pending.None?)
                                                 && (p.pending.Some? && p.pending.value.recorded ==>
                                                    q.pending.None? || q.pending.value.recorded))
  {
    hide UrlsEquivalent, Observed;
  }

  lemma PushStep(lib: UrlLib, p: Panel, op: Op)
    requires Good(lib, p) && Pushed(lib, p, op).Some?
    ensures var q := PanelStep(lib, p, op);
            && (q.generation == p.generation ==> p.pending.Some? && !p.pending.value.recorded)
            && (q.pending.None? || q.pending.value.recorded)
  {
    hide UrlsEquivalent, Observed;
  }

  lemma {:induction false} PanelRunKeeps(lib: UrlLib, p: Panel, ops: seq<Op>)
    requires Good(lib, p)
    ensures Good(lib, PanelRun(lib, p, ops))
    decreases |ops|
  {
    hide PanelStep, Good;
    if ops != [] {
      PanelRunKeeps(lib, p, ops[..|ops| - 1]);
      PanelKeeps(lib, PanelRun(lib, p, ops[..|ops| - 1]), ops[|ops| - 1]);
    }
  }

  /** Along any run without a restore, the entries pushed come from different generations, in increasing order. */
  lemma {:induction false} OneEntryPerGeneration(lib: UrlLib, p: Panel, ops: seq<Op>)
    requires Good(lib, p)
    ensures Increasing(PushLog(lib, p, ops)) && LogFits(PanelRun(lib, p, ops), PushLog(lib, p, ops))
    decreases |ops|
  {
    hide PanelStep, Good, Pushed;
    if ops != [] {
      var init, op := ops[..|ops| - 1], ops[|ops| - 1];
      var q := PanelRun(lib, p, init);
      OneEntryPerGeneration(lib, p, init);
      PanelRunKeeps(lib, p, init);
      GenerationStep(lib, q, op);
      if Pushed(lib, q, op).Some? { PushStep(lib, q, op); }
    }
  }

  /**
   A generation that was superseded never becomes current again without a restore, so its load results are dropped.
   */
  lemma {:induction false} SupersededIsInert(lib: UrlLib, p: Panel, ops: seq<Op>, generation: nat, loading: Loading)
    requires Good(lib, p) && generation < p.generation
    ensures var q := PanelRun(lib, p, ops);
            && p.generation <= q.generation
            && PanelStep(lib, q, OpEnd(generation, loading)) == q
    decreases |ops|
  {
    if ops != [] {
      SupersededIsInert(lib, p, ops[..|ops| - 1], generation, loading);
      PanelRunKeeps(lib, p, ops[..|ops| - 1]);
      GenerationStep(lib, PanelRun(lib, p, ops[..|ops| - 1]), ops[|ops| - 1]);
    }
  }

  // ---------------------------------------------------------------------------------------------
  // Failed and completed navigations
  // ---------------------------------------------------------------------------------------------

  /** What may happen to a navigation that never commits: requests seen, foreign callbacks, stale results, titles. */
  predicate Noise(lib: UrlLib, target: string, generation: nat, op: Op) {
    op.OpObserve? || op.OpSetTitle? || (op.OpEnd? && op.generation != generation) || ForeignCallback(lib, target, op)
  }

  lemma NoiseStep(lib: UrlLib, p: Panel, op: Op)
    requires Good(lib, p) && Unstarted(p) && Noise(lib, p.pending.value.target, p.generation, op)
    ensures PanelStep(lib, p, op) == p.(title := PanelStep(lib, p, op).title)
  {
    hide UrlsEquivalent;
    if ForeignCallback(lib, p.pending.value.target, op) {
      ForeignStep(lib, p, op);
    } else if op.OpObserve? && lib.normalize(op.url).Some? {
      ObservedUnstarted(lib, p.pending.value, lib.normalize(op.url).value);
    }
  }

  lemma {:induction false} NoiseRun(lib: UrlLib, p: Panel, ops: seq<Op>)
    requires Good(lib, p) && Unstarted(p)
    requires forall op :: op in ops ==> Noise(lib, p.pending.value.target, p.generation, op)
    ensures PanelRun(lib, p, ops) == p.(title := PanelRun(lib, p, ops).title)
    decreases |ops|
  {
    hide PanelStep, Noise;
    if ops != [] {
      NoiseRun(lib, p, ops[..|ops| - 1]);
      PanelRunKeeps(lib, p, ops[..|ops| - 1]);
      assert ops[|ops| - 1] in ops;
      NoiseStep(lib, PanelRun(lib, p, ops[..|ops| - 1]), ops[|ops| - 1]);
    }
  }

  /**
   A navigation that fails before it commits, however it began and whatever callbacks came meanwhile, leaves the history
   and the URL as they were when it began to wait.
   */
  lemma FailureKeepsHistory(lib: UrlLib, p: Panel, noise: seq<Op>)
    requires Good(lib, p) && Unstarted(p)
    requires forall op :: op in noise ==> Noise(lib, p.pending.value.target, p.generation, op)
    ensures var r := PanelStep(lib, PanelRun(lib, p, noise), OpEnd(p.generation, Failed));
            && r.history == p.history && r.current == p.current
            && r.loading == Failed && r.pending.None? && r.generation == p.generation
  {
    hide Noise, PanelRun;
    NoiseRun(lib, p, noise);
  }

  /** So a failed command navigation costs the forward history, and no more. */
  lemma FailedNavigation(lib: UrlLib, p: Panel, url: string, noise: seq<Op>)
    requires Good(lib, p) && lib.normalize(url).Some?
    requires forall op :: op in noise ==> Noise(lib, lib.normalize(url).value, p.generation + 1, op)
    ensures var q := PanelRun(lib, NavigatePanel(p, lib.normalize(url).value), noise);
            var r := PanelStep(lib, q, OpEnd(p.generation + 1, Failed));
            && r.history == ClearForward(p.history) && r.current == lib.normalize(url).value
            && r.loading == Failed && r.pending.None? && r.generation == p.generation + 1
  {
    hide Noise, PanelRun;
    NavigateIsGood(lib, p, lib.normalize(url).value);
    FailureKeepsHistory(lib, NavigatePanel(p, lib.normalize(url).value), noise);
  }

  lemma NavigateIsGood(lib: UrlLib, p: Panel, target: string)
    requires Good(lib, p)
    ensures Good(lib, NavigatePanel(p, target))
  {
  }

  /** The navigation leaves a page that belongs on the history: one with a URL, not equivalent to the target. */
  predicate Leaves(lib: UrlLib, p: Panel, target: string) {
    p.current != "" && !UrlsEquivalent(lib, p.current, target)
  }

  /** The history a navigation from `p` has once it committed, or before. */
  function HistoryAfter(lib: UrlLib, p: Panel, target: string, committed: bool): History {
    var cleared := ClearForward(p.history);
    if committed && Leaves(lib, p, target) then PushBack(cleared, p.current) else cleared
  }

  /** While its generation is pending, a navigation from `p` to `target` has recorded exactly what its start commits. */
  ghost predicate Transit(lib: UrlLib, p: Panel, target: string, q: Panel) {
    && p.generation < q.generation
    && (q.generation == p.generation + 1 && q.pending.Some? ==>
          var pending := q.pending.value;
          && pending.target == target && pending.previous == p.current
          && pending.recorded == (pending.started && Leaves(lib, p, target))
          && q.history == HistoryAfter(lib, p, target, pending.started))
  }

  /** A committing URL: the target's while the navigation has not started, and one that records nothing after. */
  lemma CommitOfTransit(lib: UrlLib, p: Panel, target: string, q: Panel, url: string)
    requires Correlated(lib, q) && Transit(lib, p, target, q) && q.generation == p.generation + 1
    requires q.pending.Some? && Observed(lib, q.pending.value, url)
    ensures var pending := q.pending.value;
            && (!pending.started ==> UrlsEquivalent(lib, target, url)
                                     && (Records(lib, pending, url) <==> Leaves(lib, p, target)))
            && (pending.started && UrlsEquivalent(lib, target, url) ==> !Records(lib, pending, url))
  {
    hide UrlsEquivalent, Observed, PushBack;
    UrlsEquivalence(lib);
    if !q.pending.value.started { ObservedUnstarted(lib, q.pending.value, url); }
  }

  lemma TransitLoad(lib: UrlLib, p: Panel, target: string, q: Panel, url: string, phase: LoadPhase)
    requires Correlated(lib, q) && Transit(lib, p, target, q)
    ensures Transit(lib, p, target, LoadPanel(lib, q, url, phase).0)
  {
    hide UrlsEquivalent, Observed, PushBack, Records, Leaves, Correlated;
    if q.generation == p.generation + 1 && q.pending.Some? && Observed(lib, q.pending.value, url) {
      CommitOfTransit(lib, p, target, q, url);
    }
  }

  lemma TransitStep(lib: UrlLib, p: Panel, target: string, q: Panel, op: Op)
    requires Good(lib, q) && Transit(lib, p, target, q)
    ensures Transit(lib, p, target, PanelStep(lib, q, op))
  {
    hide UrlsEquivalent, Observed, LoadPanel, HistoryAfter;
    match op {
      case OpLoad(url, phase) =>
        if lib.normalize(url).Some? { TransitLoad(lib, p, target, q, lib.normalize(url).value, phase); }
      case OpLoadCurrent(url, _, phase) =>
        if lib.normalize(url).Some? && lib.normalize(lib.normalize(url).value).Some? {
          TransitLoad(lib, p, target, q, lib.normalize(lib.normalize(url).value).value, phase);
        }
      case OpSetUrl(url) =>
        var d := DropUnacked(lib, q, url);
        if lib.normalize(url).Some? {
          ObserveKeeps(lib, d, lib.normalize(url).value);
          TransitLoad(lib, p, target, ObservePanel(lib, d, lib.normalize(url).value).0, lib.normalize(url).value,
                      Finished);
        }
      case _ =>
    }
  }

  lemma {:induction false} TransitRun(lib: UrlLib, p: Panel, target: string, course: seq<Op>)
    requires Good(lib, p)
    ensures var q := PanelRun(lib, NavigatePanel(p, target), course); Good(lib, q) && Transit(lib, p, target, q)
    decreases |course|
  {
    NavigateIsGood(lib, p, target);
    PanelRunKeeps(lib, NavigatePanel(p, target), course);
    if course != [] {
      hide PanelStep, Good, Transit;
      TransitRun(lib, p, target, course[..|course| - 1]);
      TransitStep(lib, p, target, PanelRun(lib, NavigatePanel(p, target), course[..|course| - 1]),
                  course[|course| - 1]);
    }
  }

  /**
   A command navigation that finishes, after any course of operations that left it pending: starts of its own URL,
   redirects, requests, foreign callbacks, titles, refused commands. It shows the URL it finished with and put the page
   it left on the back stack, unless that page has no URL or one equivalent to the target.
   */
  lemma FinishedNavigation(lib: UrlLib, p: Panel, url: string, course: seq<Op>, final: string)
    requires Good(lib, p) && lib.normalize(url).Some? && lib.normalize(final).Some?
    requires var q := PanelRun(lib, NavigatePanel(p, lib.normalize(url).value), course);
             && q.generation == p.generation + 1 && q.pending.Some?
             && Observed(lib, q.pending.value, lib.normalize(final).value)
    ensures var q := PanelRun(lib, NavigatePanel(p, lib.normalize(url).value), course);
            var f := PanelStep(lib, q, OpLoad(final, Finished));
            && f.current == lib.normalize(final).value && f.loading == Idle && f.pending.None?
            && f.generation == p.generation + 1
            && f.history == HistoryAfter(lib, p, lib.normalize(url).value, true)
  {
    hide PanelRun, UrlsEquivalent, Observed, PushBack, Records, Leaves, Good;
    var target := lib.normalize(url).value;
    var q := PanelRun(lib, NavigatePanel(p, target), course);
    TransitRun(lib, p, target, course);
    CorrelatedOfGood(lib, q);
    CommitOfTransit(lib, p, target, q, lib.normalize(final).value);
  }

  lemma CorrelatedOfGood(lib: UrlLib, p: Panel)
    requires Good(lib, p)
    ensures Correlated(lib, p)
  {
  }

  /** Neither a command that supersedes generation `g` nor a callback that ends it. */
  predicate Meanwhile(op: Op, g: nat) {
    match op
    case OpNavigate(_) => false
    case OpBack => false
    case OpForward => false
    case OpReload => false
    case OpSetUrl(_) => false
    case OpEnd(n, _) => n != g
    case OpLoad(_, phase) => phase == Started
    case OpLoadCurrent(_, _, phase) => phase == Started
    case _ => true
  }

  lemma MeanwhileStep(lib: UrlLib, p: Panel, op: Op)
    requires p.pending.Some? && Meanwhile(op, p.generation)
    ensures var q := PanelStep(lib, p, op); q.pending.Some? && q.generation == p.generation
  {
    hide UrlsEquivalent, Observed;
  }

  /**
   A navigation stays pending through any requests seen, starts of whatever URLs, stale results and titles, and may
   finish with any URL equivalent to its target.
   */
  lemma {:induction false} StaysPending(lib: UrlLib, p: Panel, target: string, course: seq<Op>)
    requires Good(lib, p) && forall op :: op in course ==> Meanwhile(op, p.generation + 1)
    ensures var q := PanelRun(lib, NavigatePanel(p, target), course);
            && q.generation == p.generation + 1 && q.pending.Some?
            && forall url :: UrlsEquivalent(lib, target, url) ==> Observed(lib, q.pending.value, url)
    decreases |course|
  {
    hide PanelStep, Meanwhile, UrlsEquivalent, Observed;
    var q := PanelRun(lib, NavigatePanel(p, target), course);
    if course != [] {
      var init, op := course[..|course| - 1], course[|course| - 1];
      assert forall o :: o in init ==> o in course;
      StaysPending(lib, p, target, init);
      assert op in course;
      MeanwhileStep(lib, PanelRun(lib, NavigatePanel(p, target), init), op);
    }
    TransitRun(lib, p, target, course);
    hide PanelRun;
    forall url | UrlsEquivalent(lib, target, url) ensures Observed(lib, q.pending.value, url) {
      TargetIsObserved(lib, q, url);
    }
  }

  lemma TargetIsObserved(lib: UrlLib, p: Panel, url: string)
    requires Correlated(lib, p) && p.pending.Some? && UrlsEquivalent(lib, p.pending.value.target, url)
    ensures Observed(lib, p.pending.value, url)
  {
    hide UrlsEquivalent;
    assert UrlsEquivalent(lib, p.pending.value.observed[0], url);
  }

  /**
   Back undoes a command navigation that finished, after any course of operations that left it pending: the URL and the
   back stack are those before it, less the oldest entry if the stack was full, and the page left is the only one ahead.
   */
  lemma BackUndoesNavigation(lib: UrlLib, p: Panel, url: string, course: seq<Op>, final: string)
    requires Good(lib, p) && p.history.maxEntries > 0 && lib.normalize(url).Some? && lib.normalize(final).Some?
    requires Leaves(lib, p, lib.normalize(url).value)
    requires var q := PanelRun(lib, NavigatePanel(p, lib.normalize(url).value), course);
             && q.generation == p.generation + 1 && q.pending.Some?
             && Observed(lib, q.pending.value, lib.normalize(final).value)
    ensures var q := PanelRun(lib, NavigatePanel(p, lib.normalize(url).value), course);
            var b := BackPanel(PanelStep(lib, q, OpLoad(final, Finished)));
            && b.Some? && b.value.current == p.current
            && b.value.history.forward == [lib.normalize(final).value]
            && b.value.history.back == if |p.history.back| < p.history.maxEntries then p.history.back
               else p.history.back[1..]
  {
    FinishedNavigation(lib, p, url, course, final);
    hide PanelRun, Leaves, Observed, PanelStep;
    var f := PanelStep(lib, PanelRun(lib, NavigatePanel(p, lib.normalize(url).value), course), OpLoad(final, Finished));
    var kept := if |p.history.back| < p.history.maxEntries then p.history.back else p.history.back[1..];
    assert f.history.back == kept + [p.current];
  }
}
