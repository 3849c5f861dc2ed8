/** The manager of browser panels; each method leaves the panel, the events and the result its panel function gives. */
module BrowserManagement {
  import opened Util
  import opened BrowserNavigation

  datatype BrowserError =
    | PanelNotFound(id: string)
    | PanelAlreadyExists(id: string)
    | InvalidUrl
    | NoBackHistory(id: string)
    | NoForwardHistory(id: string)

  datatype Result<+T> = Ok(value: T) | Err(error: BrowserError)

  class BrowserManager {
    const lib: UrlLib
    var panels: map<string, Panel>
    ghost var events: seq<Event>

    constructor (lib: UrlLib)
      ensures this.lib == lib && panels == map[] && events == []
    {
      this.lib := lib;
      panels, events := map[], [];
    }

    /** One panel changed and these events were emitted; nothing else happened. */
    twostate predicate Became(id: string, p: Panel, added: seq<Event>)
      reads this
    {
      panels == old(panels)[id := p] && events == old(events) + added
    }

    method OpenBrowser(id: string, url: string) returns (r: Result<()>)
      modifies `panels
      ensures r == if lib.normalize(url).None? then Err(InvalidUrl)
                   else if id in old(panels) then Err(PanelAlreadyExists(id)) else Ok(())
      ensures panels == if r.Ok? then old(panels)[id := NewPanel(id, lib.normalize(url).value)] else old(panels)
    {
      match lib.normalize(url) {
        case None => r := Err(InvalidUrl);
        case Some(normalized) =>
          if id in panels { return Err(PanelAlreadyExists(id)); }
          panels := panels[id := NewPanel(id, normalized)];
          r := Ok(());
      }
    }

    method CloseBrowser(id: string) returns (r: Result<()>)
      modifies `panels
      ensures r == if id in old(panels) then Ok(()) else Err(PanelNotFound(id))
      ensures panels == old(panels) - {id}
    {
      r := if id in panels then Ok(()) else Err(PanelNotFound(id));
      panels := panels - {id};
    }

    method Navigate(id: string, url: string) returns (r: Result<()>)
      modifies this
      ensures r == if lib.normalize(url).None? then Err(InvalidUrl)
                   else if id !in old(panels) then Err(PanelNotFound(id)) else Ok(())
      ensures r.Err? ==> unchanged(this)
      ensures r.Ok? ==>
                var p := NavigatePanel(old(panels)[id], lib.normalize(url).value);
                Became(id, p, [Status(p, Loading)])
    {
      match lib.normalize(url) {
        case None => r := Err(InvalidUrl);
        case Some(normalized) =>
          if id !in panels { return Err(PanelNotFound(id)); }
          var p := panels[id];
          p := p.(history := ClearForward(p.history));
          p := Begin(p, normalized);
          p := p.(current := normalized, loading := Loading, title := "");
          panels := panels[id := p];
          events := events + [Status(p, Loading)];
          r := Ok(());
      }
    }

    method GoBack(id: string) returns (r: Result<string>)
      modifies this
      ensures id !in old(panels) ==> r == Err(PanelNotFound(id))
      ensures id in old(panels) ==>
                match BackPanel(old(panels)[id])
                case None => r == Err(NoBackHistory(id))
                case Some(p) => r == Ok(p.current) && Became(id, p, [Status(p, Loading)])
      ensures r.Err? ==> unchanged(this)
    {
      if id !in panels { return Err(PanelNotFound(id)); }
      var p := panels[id];
      match HistoryBack(p.history, p.current) {
        case None => r := Err(NoBackHistory(id));
        case Some((target, history)) =>
          p := MoveTo(p, target, history);
          panels := panels[id := p];
          events := events + [Status(p, Loading)];
          r := Ok(target);
      }
    }

    method GoForward(id: string) returns (r: Result<string>)
      modifies this
      ensures id !in old(panels) ==> r == Err(PanelNotFound(id))
      ensures id in old(panels) ==>
                match ForwardPanel(old(panels)[id])
                case None => r == Err(NoForwardHistory(id))
                case Some(p) => r == Ok(p.current) && Became(id, p, [Status(p, Loading)])
      ensures r.Err? ==> unchanged(this)
    {
      if id !in panels { return Err(PanelNotFound(id)); }
      var p := panels[id];
      match HistoryForward(p.history, p.current) {
        case None => r := Err(NoForwardHistory(id));
        case Some((target, history)) =>
          p := MoveTo(p, target, history);
          panels := panels[id := p];
          events := events + [Status(p, Loading)];
          r := Ok(target);
      }
    }

    method Reload(id: string) returns (r: Result<()>)
      modifies this
      ensures r == if id in old(panels) then Ok(()) else Err(PanelNotFound(id))
      ensures r.Err? ==> unchanged(this)
      ensures r.Ok? ==> var p := ReloadPanel(old(panels)[id]); Became(id, p, [Status(p, Loading)])
    {
      if id !in panels { return Err(PanelNotFound(id)); }
      var p := panels[id];
      p := p.(loading := Loading, title := "");
      p := Begin(p, p.current);
      panels := panels[id := p];
      events := events + [Status(p, Loading)];
      r := Ok(());
    }

    /** Finished for `Idle`, failed for `Failed`; both drop callbacks of another generation. */
    method EndLoad(id: string, generation: nat, loading: Loading) returns (r: Result<()>)
      modifies this
      ensures r == if id in old(panels) then Ok(()) else Err(PanelNotFound(id))
      ensures r.Err? || generation != old(panels)[id].generation ==> unchanged(this)
      ensures r.Ok? && generation == old(panels)[id].generation ==>
                var p := EndPanel(old(panels)[id], generation, loading); Became(id, p, [Status(p, loading)])
    {
      if id !in panels { return Err(PanelNotFound(id)); }
      var p := panels[id];
      r := Ok(());
      if generation == p.generation {
        p := p.(loading := loading, pending := None);
        panels := panels[id := p];
        events := events + [Status(p, loading)];
      }
    }

    method SetLoaded(id: string, generation: nat) returns (r: Result<()>)
      modifies this
      ensures r == if id in old(panels) then Ok(()) else Err(PanelNotFound(id))
      ensures r.Err? || generation != old(panels)[id].generation ==> unchanged(this)
      ensures r.Ok? && generation == old(panels)[id].generation ==>
                var p := EndPanel(old(panels)[id], generation, Idle); Became(id, p, [Status(p, Idle)])
    {
      r := EndLoad(id, generation, Idle);
    }

    method SetLoadFailed(id: string, generation: nat) returns (r: Result<()>)
      modifies this
      ensures r == if id in old(panels) then Ok(()) else Err(PanelNotFound(id))
      ensures r.Err? || generation != old(panels)[id].generation ==> unchanged(this)
      ensures r.Ok? && generation == old(panels)[id].generation ==>
                var p := EndPanel(old(panels)[id], generation, Failed); Became(id, p, [Status(p, Failed)])
    {
      r := EndLoad(id, generation, Failed);
    }

    /** The first observed URL equivalent to `url`, by a scan of the list. */
    method FindObserved(pending: Pending, url: string) returns (found: bool)
      ensures found <==> Observed(lib, pending, url)
    {
      var i := 0;
      while i < |pending.observed|
        invariant 0 <= i <= |pending.observed|
        invariant forall j :: 0 <= j < i ==> !UrlsEquivalent(lib, pending.observed[j], url)
      {
        if UrlsEquivalent(lib, pending.observed[i], url) { return true; }
        i := i + 1;
      }
      found := false;
    }

    method ObserveNavigation(id: string, url: string) returns (r: Result<Option<nat>>)
      modifies `panels
      ensures lib.normalize(url).None? ==> r == Ok(None) && panels == old(panels)
      ensures lib.normalize(url).Some? && id !in old(panels) ==> r == Err(PanelNotFound(id)) && panels == old(panels)
      ensures lib.normalize(url).Some? && id in old(panels) ==>
                var (p, seen) := ObservePanel(lib, old(panels)[id], lib.normalize(url).value);
                r == Ok(seen) && panels == old(panels)[id := p]
    {
      match lib.normalize(url) {
        case None => r := Ok(None);
        case Some(normalized) =>
          if id !in panels { return Err(PanelNotFound(id)); }
          var p := panels[id];
          if p.pending.Some? {
            var pending := p.pending.value;
            r := Ok(Some(pending.generation));
            var found := FindObserved(pending, normalized);
            if !found {
              if !pending.started && !UrlsEquivalent(lib, pending.target, normalized) { return Ok(None); }
              panels := panels[id := p.(pending := Some(pending.(observed := pending.observed + [normalized])))];
            }
          } else {
            panels := panels[id := Begin(p, normalized)];
            r := Ok(Some(p.generation + 1));
          }
      }
    }

    method ApplyPageLoad(id: string, url: string, phase: LoadPhase) returns (r: Result<Option<nat>>)
      modifies this
      ensures lib.normalize(url).None? ==> r == Ok(None) && unchanged(this)
      ensures lib.normalize(url).Some? && id !in old(panels) ==> r == Err(PanelNotFound(id)) && unchanged(this)
      ensures lib.normalize(url).Some? && id in old(panels) ==>
                var (p, added, generation) := LoadPanel(lib, old(panels)[id], lib.normalize(url).value, phase);
                r == Ok(generation) && Became(id, p, added)
    {
      match lib.normalize(url) {
        case None => r := Ok(None);
        case Some(normalized) =>
          if id !in panels { return Err(PanelNotFound(id)); }
          var p := panels[id];
          r := Ok(None);
          if p.pending.None? { return; }
          var pending := p.pending.value;
          var found := FindObserved(pending, normalized);
          if !found { return; }
          r := Ok(Some(pending.generation));
          var changed := !UrlsEquivalent(lib, p.current, normalized);
          if phase == Started {
            if pending.started && !UrlsEquivalent(lib, pending.target, normalized) { return; }
            var wasStarted := pending.started;
            pending := pending.(started := true);
            if !pending.recorded && pending.previous != "" && !UrlsEquivalent(lib, pending.previous, normalized) {
              p := p.(history := PushBack(p.history, pending.previous));
              pending := pending.(recorded := true);
            }
            p := p.(pending := Some(pending), current := normalized, loading := Loading);
            panels := panels[id := p];
            if changed { events := events + [UrlChange(panels[id].id, normalized)]; }
            events := events + [Status(p, Loading)];
          } else {
            if !pending.started && !pending.recorded && pending.previous != ""
                && !UrlsEquivalent(lib, pending.previous, normalized) {
              p := p.(history := PushBack(p.history, pending.previous));
            }
            p := p.(pending := None, current := normalized, loading := Idle);
            panels := panels[id := p];
            if changed && !pending.started { events := events + [UrlChange(panels[id].id, normalized)]; }
            events := events + [Status(p, Idle)];
          }
      }
    }

    /** A callback for another URL than the committed one is dropped. */
    method ApplyPageLoadForCurrentUrl(id: string, callback: string, committed: string, phase: LoadPhase)
      returns (r: Result<Option<nat>>)
      modifies this
      ensures lib.normalize(callback).None? || lib.normalize(committed).None? ==>
              r == Err(InvalidUrl) && unchanged(this)
      ensures lib.normalize(callback).Some? && lib.normalize(committed).Some? ==>
                var url := lib.normalize(callback).value;
                if !UrlsEquivalent(lib, url, lib.normalize(committed).value) || lib.normalize(url).None?
                then r == Ok(None) && unchanged(this)
                else if id !in old(panels) then r == Err(PanelNotFound(id)) && unchanged(this)
                else
                  var (p, added, generation) := LoadPanel(lib, old(panels)[id], lib.normalize(url).value, phase);
                  r == Ok(generation) && Became(id, p, added)
    {
      var a, b := lib.normalize(callback), lib.normalize(committed);
      if a.None? || b.None? { return Err(InvalidUrl); }
      if !UrlsEquivalent(lib, a.value, b.value) { return Ok(None); }
      r := ApplyPageLoad(id, a.value, phase);
    }

    method SetUrl(id: string, url: string) returns (r: Result<()>)
      modifies this
      ensures r == if id in old(panels) then Ok(()) else Err(PanelNotFound(id))
      ensures r.Err? ==> unchanged(this)
      ensures r.Ok? ==> var (p, added) := SetUrlPanel(lib, old(panels)[id], url); Became(id, p, added)
    {
      if id !in panels { return Err(PanelNotFound(id)); }
      var p := panels[id];
      if !(p.pending.Some? && UrlsEquivalent(lib, p.pending.value.target, url)) {
        panels := panels[id := p.(pending := None)];
      }
      var _ := ObserveNavigation(id, url);
      var _ := ApplyPageLoad(id, url, Finished);
      r := Ok(());
    }

    method SetTitle(id: string, title: string) returns (r: Result<()>)
      modifies this
      ensures r == if id in old(panels) then Ok(()) else Err(PanelNotFound(id))
      ensures r.Err? ==> unchanged(this)
      ensures r.Ok? ==> Became(id, old(panels)[id].(title := title), [TitleChange(id, title)])
    {
      if id !in panels { return Err(PanelNotFound(id)); }
      panels := panels[id := panels[id].(title := title)];
      events := events + [TitleChange(id, title)];
      r := Ok(());
    }

    /** Put a saved panel back and tell the frontend what it shows. */
    method RestorePanel(p: Panel)
      modifies this
      ensures Became(p.id, p, [UrlChange(p.id, p.current), TitleChange(p.id, p.title), Status(p, p.loading)])
    {
      panels := panels[p.id := p];
      events := events + [UrlChange(p.id, p.current), TitleChange(p.id, p.title)];
      events := events + [Status(p, p.loading)];
    }

    method Shutdown()
      modifies `panels
      ensures panels == map[]
    {
      panels := map[];
    }
  }
}
