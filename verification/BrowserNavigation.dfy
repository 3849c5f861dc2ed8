/** Embedded browser panels: a bounded back and forward history, and navigations correlated with native callbacks. */
module BrowserNavigation {
  import opened Util

  // ---------------------------------------------------------------------------------------------
  // URLs
  // ---------------------------------------------------------------------------------------------

  /** The components of a parsed URL that are compared; `port` is the explicit one. */
  datatype Parts = Parts(
    scheme: string,
    host: Option<string>,
    port: Option<nat>,
    username: string,
    password: Option<string>,
    path: string,
    query: Option<string>,
    fragment: Option<string>
  )

  /** The URL parser, and the rule that turns an address bar entry into a web URL; None is a refusal. */
  datatype UrlLib = UrlLib(parse: string -> Option<Parts>, normalize: string -> Option<string>)

  function KnownPort(scheme: string): Option<nat> {
    if scheme == "http" || scheme == "ws" then Some(80)
    else if scheme == "https" || scheme == "wss" then Some(443)
    else if scheme == "ftp" then Some(21)
    else None
  }

  function PortOrKnown(parts: Parts): Option<nat> {
    if parts.port.Some? then parts.port else KnownPort(parts.scheme)
  }

  function LowerChar(c: char): char {
    if 'A' <= c <= 'Z' then c - 'A' + 'a' else c
  }

  function Lower(s: string): string {
    seq(|s|, i requires 0 <= i < |s| => LowerChar(s[i]))
  }

  predicate SamePath(a: string, b: string) {
    (a == "" && b == "/") || (a == "/" && b == "") || a == b
  }

  predicate SameParts(a: Parts, b: Parts) {
    && Lower(a.scheme) == Lower(b.scheme)
    && a.host == b.host
    && PortOrKnown(a) == PortOrKnown(b)
    && a.username == b.username
    && a.password == b.password
    && a.query == b.query
    && a.fragment == b.fragment
    && SamePath(a.path, b.path)
  }

  /** Equal as URLs when both parse, equal as strings otherwise. */
  predicate UrlsEquivalent(lib: UrlLib, a: string, b: string) {
    if lib.parse(a).Some? && lib.parse(b).Some? then SameParts(lib.parse(a).value, lib.parse(b).value) else a == b
  }

  /** Whatever the parser, equivalence of URLs is an equivalence relation. */
  lemma UrlsEquivalence(lib: UrlLib)
    ensures forall a :: UrlsEquivalent(lib, a, a)
    ensures forall a, b :: UrlsEquivalent(lib, a, b) <==> UrlsEquivalent(lib, b, a)
    ensures forall a, b, c :: UrlsEquivalent(lib, a, b) && UrlsEquivalent(lib, b, c) ==> UrlsEquivalent(lib, a, c)
  {
    hide Lower, PortOrKnown;
  }

  // ---------------------------------------------------------------------------------------------
  // History
  // ---------------------------------------------------------------------------------------------

  const DEFAULT_ENTRIES: nat := 50

  /** Both stacks keep their most recent entry last. */
  datatype History = History(back: seq<string>, forward: seq<string>, maxEntries: nat)

  function Trim(stack: seq<string>, limit: nat): seq<string> {
    if |stack| > limit then stack[|stack| - limit..] else stack
  }

  function NewHistory(maxEntries: nat): History {
    History([], [], maxEntries)
  }

  function PushBack(h: History, url: string): History {
    h.(back := Trim(h.back + [url], h.maxEntries), forward := [])
  }

  function ClearForward(h: History): History {
    h.(forward := [])
  }

  /** The target popped from the back stack, and the history with the current URL on the forward stack. */
  function HistoryBack(h: History, current: string): Option<(string, History)> {
    if h.back == [] then None
    else Some((h.back[|h.back| - 1],
               h.(back := h.back[..|h.back| - 1], forward := Trim(h.forward + [current], h.maxEntries))))
  }

  function HistoryForward(h: History, current: string): Option<(string, History)> {
    if h.forward == [] then None
    else Some((h.forward[|h.forward| - 1],
               h.(forward := h.forward[..|h.forward| - 1], back := Trim(h.back + [current], h.maxEntries))))
  }

  // ---------------------------------------------------------------------------------------------
  // Panels
  // ---------------------------------------------------------------------------------------------

  datatype Loading = Idle | Loading | Failed

  datatype LoadPhase = Started | Finished

  datatype Pending = Pending(
    target: string,
    generation: nat,
    observed: seq<string>,
    started: bool,
    previous: string,
    recorded: bool
  )

  datatype Panel = Panel(
    id: string,
    current: string,
    title: string,
    history: History,
    loading: Loading,
    pending: Option<Pending>,
    generation: nat
  )

  datatype Event =
    | UrlChange(id: string, url: string)
    | TitleChange(id: string, title: string)
    | StatusChange(id: string, status: Loading, canGoBack: bool, canGoForward: bool, generation: nat)

  function NewPanel(id: string, url: string): Panel {
    Panel(id, url, "", NewHistory(DEFAULT_ENTRIES), Loading, Some(Pending(url, 1, [url], false, "", false)), 1)
  }

  function Status(p: Panel, status: Loading): Event {
    StatusChange(p.id, status, p.history.back != [], p.history.forward != [], p.generation)
  }

  /** A new generation awaits the native callbacks of `target`. */
  function Begin(p: Panel, target: string): Panel {
    p.(generation := p.generation + 1,
       pending := Some(Pending(target, p.generation + 1, [target], false, p.current, false)))
  }

  function NavigatePanel(p: Panel, target: string): Panel {
    Begin(p.(history := ClearForward(p.history)), target).(current := target, loading := Loading, title := "")
  }

  /** A move through the history; its generation records nothing when it commits. */
  function MoveTo(p: Panel, target: string, history: History): Panel {
    var q := Begin(p.(history := history, current := target, loading := Loading, title := ""), target);
    q.(pending := Some(q.pending.value.(recorded := true)))
  }

  function BackPanel(p: Panel): Option<Panel> {
    match HistoryBack(p.history, p.current)
    case Some((target, history)) => Some(MoveTo(p, target, history))
    case None => None
  }

  function ForwardPanel(p: Panel): Option<Panel> {
    match HistoryForward(p.history, p.current)
    case Some((target, history)) => Some(MoveTo(p, target, history))
    case None => None
  }

  function ReloadPanel(p: Panel): Panel {
    Begin(p.(loading := Loading, title := ""), p.current)
  }

  function EndPanel(p: Panel, generation: nat, loading: Loading): Panel {
    if generation != p.generation then p else p.(loading := loading, pending := None)
  }

  predicate Observed(lib: UrlLib, pending: Pending, url: string) {
    exists i :: 0 <= i < |pending.observed| && UrlsEquivalent(lib, pending.observed[i], url)
  }

  /** A native request for a normalized URL, before its page load callbacks. */
  function ObservePanel(lib: UrlLib, p: Panel, url: string): (Panel, Option<nat>) {
    if p.pending.Some? then
      var pending := p.pending.value;
      if Observed(lib, pending, url) then (p, Some(pending.generation))
      else if !pending.started && !UrlsEquivalent(lib, pending.target, url) then (p, None)
      else (p.(pending := Some(pending.(observed := pending.observed + [url]))), Some(pending.generation))
    else (Begin(p, url), Some(p.generation + 1))
  }

  /** A commit of `url` records the URL the navigation left, once per generation. */
  predicate Records(lib: UrlLib, pending: Pending, url: string) {
    !pending.recorded && pending.previous != "" && !UrlsEquivalent(lib, pending.previous, url)
  }

  function StartedPanel(lib: UrlLib, p: Panel, url: string): (Panel, seq<Event>)
    requires p.pending.Some?
  {
    var pending := p.pending.value;
    if pending.started && !UrlsEquivalent(lib, pending.target, url) then (p, [])
    else
      var records := Records(lib, pending, url);
      var q := p.(pending := Some(pending.(started := true, recorded := pending.recorded || records)),
                  history := if records then PushBack(p.history, pending.previous) else p.history,
                  current := url, loading := Loading);
      (q, (if UrlsEquivalent(lib, p.current, url) then [] else [UrlChange(p.id, url)]) + [Status(q, Loading)])
  }

  function FinishedPanel(lib: UrlLib, p: Panel, url: string): (Panel, seq<Event>)
    requires p.pending.Some?
  {
    var pending := p.pending.value;
    var records := !pending.started && Records(lib, pending, url);
    var q := p.(pending := None,
                history := if records then PushBack(p.history, pending.previous) else p.history,
                current := url, loading := Idle);
    var moved := !UrlsEquivalent(lib, p.current, url) && !pending.started;
    (q, (if moved then [UrlChange(p.id, url)] else []) + [Status(q, Idle)])
  }

  /** A page load callback counts only for a URL observed in the pending generation. */
  function LoadPanel(lib: UrlLib, p: Panel, url: string, phase: LoadPhase): (Panel, seq<Event>, Option<nat>) {
    if p.pending.None? || !Observed(lib, p.pending.value, url) then (p, [], None)
    else
      var (q, events) := if phase == Started then StartedPanel(lib, p, url) else FinishedPanel(lib, p, url);
      (q, events, Some(p.pending.value.generation))
  }

  /** `set_url`, first half: a pending navigation to another URL is dropped. */
  function DropUnacked(lib: UrlLib, p: Panel, url: string): Panel {
    if p.pending.Some? && UrlsEquivalent(lib, p.pending.value.target, url) then p else p.(pending := None)
  }

  function SetUrlPanel(lib: UrlLib, p: Panel, url: string): (Panel, seq<Event>) {
    var q := DropUnacked(lib, p, url);
    match lib.normalize(url)
    case None => (q, [])
    case Some(normalized) =>
      var (r, events, _) := LoadPanel(lib, ObservePanel(lib, q, normalized).0, normalized, Finished);
      (r, events)
  }
}
