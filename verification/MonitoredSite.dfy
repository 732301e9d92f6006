/** The monitoring control and scheduling services of one site, against SiteMonitoring. */
module MonitoredSite {
  import opened Contracts
  import opened Scheduling
  import opened SiteMonitoring

  class Services {
    var on: bool
    var watermark: Time
    var audit: seq<Change>
    var windows: map<Time, Id>
    var runs: map<RunKey, ScheduledRow>
    var nextId: Id

    ghost function Contents(): Site
      reads this
    {
      Site(on, watermark, audit, windows, runs, nextId)
    }

    constructor (created: Time)
      ensures Contents() == Run(created, [], 0)
    {
      on, watermark, audit := false, created, [];
      windows, runs, nextId := map[], map[], 0;
    }

    method SetMonitoringState(enabled: bool, updatedAt: Time) returns (state: bool, since: Time)
      modifies this
      ensures Contents() == SetMonitoring(old(Contents()), enabled, updatedAt)
      ensures state == enabled && since == watermark
    {
      var original := on;
      if original == enabled {
        return original, watermark;
      }
      on, watermark := enabled, updatedAt;
      audit := audit + [Change(original, enabled)];
      return enabled, updatedAt;
    }

    method WindowId(w: WindowBounds) returns (id: Id)
      modifies this
      ensures Contents() == WithWindow(old(Contents()), w.start)
      ensures w.start in windows && id == windows[w.start]
    {
      var candidate := nextId;
      nextId := nextId + 1;
      if w.start !in windows {
        windows := windows[w.start := candidate];
        return candidate;
      }
      return windows[w.start];
    }

    method RunId(key: RunKey, scheduledFor: Time) returns (id: Id)
      modifies this
      ensures Contents() == WithRun(old(Contents()), key, scheduledFor)
      ensures key in runs && id == runs[key].id
    {
      var candidate := nextId;
      nextId := nextId + 1;
      if key !in runs {
        runs := runs[key := ScheduledRow(candidate, scheduledFor)];
        return candidate;
      }
      return runs[key].id;
    }

    method MaterializeSite(w: WindowBounds, now: Time, urls: seq<Id>, scenarios: seq<Id>, breakerOpen: bool, stagger: nat)
      returns (plan: Option<seq<Planned>>)
      modifies this
      ensures Contents() == Materialized(old(Contents()), w, urls, scenarios, breakerOpen)
      ensures !Admitted(old(Contents()), w) ==> plan == Some([])
      ensures Admitted(old(Contents()), w) && breakerOpen ==> plan == None
      ensures Admitted(old(Contents()), w) && !breakerOpen ==>
        && w.start in windows
        && (forall k :: k in Keys(windows[w.start], urls, scenarios) ==> k in runs)
        && plan == Some(Plan(Contents(), Keys(windows[w.start], urls, scenarios), w, now, stagger))
        && PlansEveryPair(Contents(), w, urls, scenarios, plan.value, now, stagger)
    {
      if !on {
        return Some([]);
      }
      if !(w.start > watermark) {
        return Some([]);
      }
      var window := WindowId(w);
      if breakerOpen {
        return None;
      }
      ghost var begun := Contents();
      var planned: seq<Planned> := [];
      ghost var done: seq<RunKey> := [];
      assert WithRuns(begun, done, w.start) == begun && Keys(window, urls[..0], scenarios) == [];
      for u := 0 to |urls|
        invariant done == Keys(window, urls[..u], scenarios)
        invariant Progressed(begun, done, planned, w, now, stagger)
      {
        hide Progressed, Keys;
        planned := MaterializeUrl(begun, done, planned, window, urls[u], scenarios, w, now, stagger);
        done := done + Row(window, urls[u], scenarios);
        NextUrl(window, urls, u, scenarios);
      }
      assert urls[..|urls|] == urls;
      WithRunsAdds(begun, done, w.start);
      PlanIsEveryPair(Contents(), w, urls, scenarios, now, stagger);
      return Some(planned);
    }

    /** One URL with every scenario; the ordinal runs on from the URLs before. */
    method MaterializeUrl(ghost begun: Site, ghost done: seq<RunKey>, plannedBefore: seq<Planned>,
                          window: Id, url: Id, scenarios: seq<Id>, w: WindowBounds, now: Time, stagger: nat)
      returns (planned: seq<Planned>)
      requires Progressed(begun, done, plannedBefore, w, now, stagger)
      modifies this
      ensures Progressed(begun, done + Row(window, url, scenarios), planned, w, now, stagger)
    {
      planned := plannedBefore;
      var ordinal := |plannedBefore|;
      ghost var sofar := done;
      ghost var row := Row(window, url, scenarios);
      for c := 0 to |scenarios|
        invariant sofar == done + row[..c]
        invariant Progressed(begun, sofar, planned, w, now, stagger) && ordinal == |planned|
      {
        var key := RunKey(window, url, scenarios[c]);
        ghost var before, last := Contents(), planned;
        var id := RunId(key, w.start);
        planned := planned + [Planned(id, ScheduledAt(w, now, ordinal, stagger))];
        Advance(begun, before, Contents(), sofar, key, last, id, w, now, stagger);
        hide WithRun, WithRuns, Plan, ScheduledAt;
        assert row[..c + 1] == row[..c] + [key];
        assert done + row[..c] + [key] == done + (row[..c] + [key]);
        sofar := sofar + [key];
        ordinal := ordinal + 1;
      }
      assert row[..|scenarios|] == row;
    }

    /** The keys done so far have their rows, and the list so far is their plan. */
    ghost predicate Progressed(begun: Site, done: seq<RunKey>, planned: seq<Planned>, w: WindowBounds, now: Time, stagger: nat)
      reads this
    {
      && Contents() == WithRuns(begun, done, w.start)
      && (forall k :: k in done ==> k in runs)
      && planned == Plan(Contents(), done, w, now, stagger)
    }
  }

  lemma NextUrl(window: Id, urls: seq<Id>, u: nat, scenarios: seq<Id>)
    requires u < |urls|
    ensures Keys(window, urls[..u + 1], scenarios) == Keys(window, urls[..u], scenarios) + Row(window, urls[u], scenarios)
  {
    assert urls[..u + 1][..u] == urls[..u];
  }

  lemma Advance(begun: Site, s: Site, t: Site, done: seq<RunKey>, key: RunKey, planned: seq<Planned>, id: Id,
                w: WindowBounds, now: Time, stagger: nat)
    requires s == WithRuns(begun, done, w.start) && t == WithRun(s, key, w.start) && id == t.runs[key].id
    requires forall k :: k in done ==> k in s.runs
    requires planned == Plan(s, done, w, now, stagger)
    ensures t == WithRuns(begun, done + [key], w.start)
    ensures forall k :: k in done + [key] ==> k in t.runs
    ensures planned + [Planned(id, ScheduledAt(w, now, |done|, stagger))] == Plan(t, done + [key], w, now, stagger)
  {
    assert (done + [key])[..|done|] == done;
    hide ScheduledAt;
  }
}
