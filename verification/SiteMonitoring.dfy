/** A site's monitoring switch and the windows and runs its scheduler has materialized, as values. */
module SiteMonitoring {
  import opened Contracts
  import opened Scheduling

  datatype Change = Change(before: bool, after: bool)

  datatype RunKey = RunKey(window: Id, url: Id, scenario: Id)

  datatype ScheduledRow = ScheduledRow(id: Id, scheduledFor: Time)

  /** `nextId` is above every identifier drawn so far. */
  datatype Site = Site(
    on: bool, watermark: Time, audit: seq<Change>,
    windows: map<Time, Id>, runs: map<RunKey, ScheduledRow>, nextId: Id)

  // ---------------------------------------------------------------- the switch

  function SetMonitoring(s: Site, enabled: bool, at: Time): Site {
    if s.on == enabled then s
    else s.(on := enabled, watermark := at, audit := s.audit + [Change(s.on, enabled)])
  }

  // ---------------------------------------------------------------- materialization

  /** Insert, or keep the row already there. */
  function WithWindow(s: Site, start: Time): Site {
    if start in s.windows then s.(nextId := s.nextId + 1)
    else s.(windows := s.windows[start := s.nextId], nextId := s.nextId + 1)
  }

  function WithRun(s: Site, key: RunKey, start: Time): Site {
    if key in s.runs then s.(nextId := s.nextId + 1)
    else s.(runs := s.runs[key := ScheduledRow(s.nextId, start)], nextId := s.nextId + 1)
  }

  function Row(window: Id, url: Id, scenarios: seq<Id>): seq<RunKey> {
    seq(|scenarios|, j requires 0 <= j < |scenarios| => RunKey(window, url, scenarios[j]))
  }

  /** Every URL with every scenario, URLs outermost. */
  function Keys(window: Id, urls: seq<Id>, scenarios: seq<Id>): seq<RunKey> {
    if urls == [] then []
    else Keys(window, urls[..|urls| - 1], scenarios) + Row(window, urls[|urls| - 1], scenarios)
  }

  function WithRuns(s: Site, keys: seq<RunKey>, start: Time): Site {
    if keys == [] then s else WithRun(WithRuns(s, keys[..|keys| - 1], start), keys[|keys| - 1], start)
  }

  /** Staggered from the window start, never before now nor within the last second of the window. */
  function ScheduledAt(w: WindowBounds, now: Time, ordinal: int, stagger: int): Time {
    var desired := w.start + ordinal * stagger * SECOND;
    var latest := w.end - SECOND;
    var due := if desired >= now then desired else now;
    if due <= latest then due else latest
  }

  datatype Planned = Planned(run: Id, at: Time)

  function Plan(s: Site, keys: seq<RunKey>, w: WindowBounds, now: Time, stagger: int): seq<Planned>
    requires forall k :: k in keys ==> k in s.runs
  {
    seq(|keys|, i requires 0 <= i < |keys| => Planned(s.runs[keys[i]].id, ScheduledAt(w, now, i, stagger)))
  }

  predicate Admitted(s: Site, w: WindowBounds) {
    s.on && AfterWatermark(w, s.watermark)
  }

  /** The state after one pass; the breaker is read once the window row exists. */
  function Materialized(s: Site, w: WindowBounds, urls: seq<Id>, scenarios: seq<Id>, breakerOpen: bool): Site {
    if !Admitted(s, w) then s
    else
      var begun := WithWindow(s, w.start);
      if breakerOpen then begun
      else WithRuns(begun, Keys(begun.windows[w.start], urls, scenarios), w.start)
  }

  // ---------------------------------------------------------------- the passes compose

  predicate Extends(s: Site, t: Site) {
    && (forall k :: k in s.runs ==> k in t.runs && t.runs[k] == s.runs[k])
    && (forall w :: w in s.windows ==> w in t.windows && t.windows[w] == s.windows[w])
    && t.on == s.on && t.watermark == s.watermark && t.audit == s.audit
    && t.nextId >= s.nextId
  }

  lemma {:induction false} WithRunsAdds(s: Site, keys: seq<RunKey>, start: Time)
    ensures var t := WithRuns(s, keys, start);
      && Extends(s, t) && t.windows == s.windows
      && (forall k :: k in t.runs <==> k in s.runs || k in keys)
      && (forall k :: k in t.runs && k !in s.runs ==> t.runs[k].scheduledFor == start && t.runs[k].id >= s.nextId)
  {
    if keys != [] {
      WithRunsAdds(s, keys[..|keys| - 1], start);
      assert keys == keys[..|keys| - 1] + [keys[|keys| - 1]];
    }
  }

  /** Each identifier is used once, by one window or one run. */
  predicate DistinctIds(s: Site) {
    && (forall k :: k in s.runs ==> s.runs[k].id < s.nextId)
    && (forall w :: w in s.windows ==> s.windows[w] < s.nextId)
    && (forall j, k :: j in s.runs && k in s.runs && s.runs[j].id == s.runs[k].id ==> j == k)
    && (forall v, w :: v in s.windows && w in s.windows && s.windows[v] == s.windows[w] ==> v == w)
  }

  lemma {:induction false} WithRunsDistinct(s: Site, keys: seq<RunKey>, start: Time)
    requires DistinctIds(s)
    ensures DistinctIds(WithRuns(s, keys, start))
  {
    if keys != [] {
      WithRunsDistinct(s, keys[..|keys| - 1], start);
    }
  }

  lemma {:induction false} WithRunsAgain(s: Site, keys: seq<RunKey>, start: Time)
    requires forall k :: k in keys ==> k in s.runs
    ensures WithRuns(s, keys, start).(nextId := s.nextId) == s
  {
    if keys != [] {
      WithRunsAgain(s, keys[..|keys| - 1], start);
      assert keys[|keys| - 1] in keys;
    }
  }

  /**
    A repeated pass over the same window changes no row and hands out the same runs in the same order,
    so the jobs it enqueues carry the keys of the first pass.
  */
  lemma PassAgainAddsNothing(s: Site, w: WindowBounds, urls: seq<Id>, scenarios: seq<Id>)
    requires Admitted(s, w)
    ensures var once := Materialized(s, w, urls, scenarios, false);
      var twice := Materialized(once, w, urls, scenarios, false);
      && w.start in once.windows && Extends(s, once)
      && twice.(nextId := once.nextId) == once
      && (forall k :: k in Keys(once.windows[w.start], urls, scenarios) ==> k in once.runs && twice.runs[k] == once.runs[k])
  {
    var begun := WithWindow(s, w.start);
    var keys := Keys(begun.windows[w.start], urls, scenarios);
    WithRunsAdds(begun, keys, w.start);
    var once := Materialized(s, w, urls, scenarios, false);
    var again := WithWindow(once, w.start);
    WithRunsAgain(again, keys, w.start);
  }

  /** Each planned instant lies in the window, at least a second before its end, in the order of the list. */
  lemma StaggerStaysInside(w: WindowBounds, now: Time, i: nat, j: nat, stagger: nat)
    requires w.start + SECOND <= w.end && i <= j
    ensures w.start <= ScheduledAt(w, now, i, stagger) <= w.end - SECOND
    ensures ScheduledAt(w, now, i, stagger) <= ScheduledAt(w, now, j, stagger)
    ensures now <= w.end - SECOND ==> now <= ScheduledAt(w, now, i, stagger)
  {
    assert i * stagger >= 0;
    assert (j - i) * stagger >= 0;
  }

  /** Exactly the staggered instant where it lies between now and the last second; else whichever it passes. */
  lemma StaggerIsExact(w: WindowBounds, now: Time, i: nat, stagger: nat)
    ensures var at, staggered, last := ScheduledAt(w, now, i, stagger), w.start + i * stagger * 1_000_000, w.end - 1_000_000;
      && (now <= staggered <= last ==> at == staggered)
      && (staggered < now <= last ==> at == now)
      && (staggered > last || now > last ==> at == last)
  {
  }

  // ---------------------------------------------------------------- every URL with every scenario

  /** Where the run of URL i with scenario j of n comes in the plan. */
  function Ordinal(n: nat, i: nat, j: nat): nat {
    i * n + j
  }

  lemma {:induction false} OrdinalWithin(n: nat, m: nat, i: nat, j: nat)
    requires i < m && j < n
    ensures Ordinal(n, i, j) < m * n
    decreases m
  {
    if i < m - 1 {
      OrdinalWithin(n, m - 1, i, j);
    }
  }

  lemma {:induction false} KeysAreEveryPair(window: Id, urls: seq<Id>, scenarios: seq<Id>)
    ensures |Keys(window, urls, scenarios)| == |urls| * |scenarios|
    ensures forall i, j :: 0 <= i < |urls| && 0 <= j < |scenarios| ==>
      && Ordinal(|scenarios|, i, j) < |Keys(window, urls, scenarios)|
      && Keys(window, urls, scenarios)[Ordinal(|scenarios|, i, j)] == RunKey(window, urls[i], scenarios[j])
    ensures forall k :: k in Keys(window, urls, scenarios) ==> k.window == window && k.url in urls && k.scenario in scenarios
  {
    if urls != [] {
      var before, last, n := urls[..|urls| - 1], urls[|urls| - 1], |scenarios|;
      KeysAreEveryPair(window, before, scenarios);
      assert urls == before + [last];
      var keys, row := Keys(window, before, scenarios), Row(window, last, scenarios);
      forall i, j | 0 <= i < |urls| && 0 <= j < n
        ensures Ordinal(n, i, j) < |keys + row| && (keys + row)[Ordinal(n, i, j)] == RunKey(window, urls[i], scenarios[j])
      {
        if i < |before| {
          OrdinalWithin(n, |before|, i, j);
        } else {
          assert Ordinal(n, i, j) == |keys| + j;
        }
      }
    }
  }

  /**
    An admitted pass with the breaker closed stores a run for every URL with every scenario, and adds no
    other; any other pass adds none.
  */
  lemma PassStoresEveryPair(s: Site, w: WindowBounds, urls: seq<Id>, scenarios: seq<Id>, breakerOpen: bool)
    ensures var t := Materialized(s, w, urls, scenarios, breakerOpen);
      if s.on && w.start > s.watermark && !breakerOpen then
        && w.start in t.windows
        && (forall u, c :: u in urls && c in scenarios ==> RunKey(t.windows[w.start], u, c) in t.runs)
        && (forall k :: k in s.runs ==> k in t.runs && t.runs[k] == s.runs[k])
        && (forall k :: k in t.runs && k !in s.runs ==>
              k.window == t.windows[w.start] && k.url in urls && k.scenario in scenarios && t.runs[k].scheduledFor == w.start)
      else t.runs == s.runs
  {
    hide WithRuns, Keys;
    if Admitted(s, w) && !breakerOpen {
      var begun := WithWindow(s, w.start);
      var window := begun.windows[w.start];
      var keys := Keys(window, urls, scenarios);
      KeysAreEveryPair(window, urls, scenarios);
      WithRunsAdds(begun, keys, w.start);
      forall u, c | u in urls && c in scenarios
        ensures RunKey(window, u, c) in keys
      {
        var i :| 0 <= i < |urls| && urls[i] == u;
        var j :| 0 <= j < |scenarios| && scenarios[j] == c;
        assert keys[Ordinal(|scenarios|, i, j)] == RunKey(window, u, c);
      }
    }
  }

  /** The plan has one entry for every URL with every scenario, URLs outermost: the stored run and its instant. */
  ghost predicate PlansEveryPair(t: Site, w: WindowBounds, urls: seq<Id>, scenarios: seq<Id>, plan: seq<Planned>,
                                 now: Time, stagger: nat)
  {
    && w.start in t.windows
    && |plan| == |urls| * |scenarios|
    && forall i, j :: 0 <= i < |urls| && 0 <= j < |scenarios| ==>
         var key, at := RunKey(t.windows[w.start], urls[i], scenarios[j]), Ordinal(|scenarios|, i, j);
         && at < |plan| && key in t.runs
         && plan[at] == Planned(t.runs[key].id, ScheduledAt(w, now, at, stagger))
  }

  lemma PlanIsEveryPair(t: Site, w: WindowBounds, urls: seq<Id>, scenarios: seq<Id>, now: Time, stagger: nat)
    requires w.start in t.windows && forall k :: k in Keys(t.windows[w.start], urls, scenarios) ==> k in t.runs
    ensures PlansEveryPair(t, w, urls, scenarios, Plan(t, Keys(t.windows[w.start], urls, scenarios), w, now, stagger), now, stagger)
  {
    hide ScheduledAt, Keys, Ordinal;
    KeysAreEveryPair(t.windows[w.start], urls, scenarios);
  }

  // ---------------------------------------------------------------- runs of the whole machine

  datatype Event =
    | Toggle(enabled: bool, at: Time)
    | Tick(at: Time, urls: seq<Id>, scenarios: seq<Id>, breakerOpen: bool)

  function Step(s: Site, e: Event, east: int): Site {
    match e
    case Toggle(enabled, at) => SetMonitoring(s, enabled, at)
    case Tick(at, urls, scenarios, breakerOpen) => Materialized(s, WindowOf(at, east), urls, scenarios, breakerOpen)
  }

  function Run(created: Time, es: seq<Event>, east: int): Site {
    if es == [] then Site(false, created, [], map[], map[], 0)
    else Step(Run(created, es[..|es| - 1], east), es[|es| - 1], east)
  }

  predicate Requested(es: seq<Event>) {
    es != [] && (if es[|es| - 1].Toggle? then es[|es| - 1].enabled else Requested(es[..|es| - 1]))
  }

  /** The last event asks for the other state than the last request before it; a repeated request switches nothing. */
  predicate Switches(es: seq<Event>) {
    es != [] && es[|es| - 1].Toggle? && (es[|es| - 1].enabled <==> !Requested(es[..|es| - 1]))
  }

  /** What the last committed switch stamped strictly before an instant switched to; a new site is off. */
  predicate OnBefore(es: seq<Event>, t: Time) {
    es != [] &&
    var last := es[|es| - 1];
    if Switches(es) && last.at < t then last.enabled else OnBefore(es[..|es| - 1], t)
  }

  /** The stored state is the last request, and after the watermark monitoring is on. */
  ghost predicate Switched(es: seq<Event>, s: Site) {
    && (s.on <==> Requested(es))
    && (s.on ==> forall t :: t > s.watermark ==> OnBefore(es, t))
  }

  /** Every run stands for a window at whose start monitoring had been switched on. */
  predicate RunsAuthorized(es: seq<Event>, s: Site) {
    forall k :: k in s.runs ==> OnBefore(es, s.runs[k].scheduledFor)
  }

  lemma ToggleSwitches(s: Site, es: seq<Event>)
    requires es != [] && es[|es| - 1].Toggle? && Switched(es[..|es| - 1], s)
    ensures Switched(es, SetMonitoring(s, es[|es| - 1].enabled, es[|es| - 1].at))
  {
    var before, last := es[..|es| - 1], es[|es| - 1];
    if last.enabled {
      var watermark := if s.on then s.watermark else last.at;
      forall t | t > watermark
        ensures OnBefore(es, t)
      {
        assert s.on ==> OnBefore(before, t);
      }
    }
  }

  /** A toggle keeps every run authorized unless it switches off and is stamped before a run's window starts. */
  lemma ToggleKeepsRunsIff(s: Site, es: seq<Event>)
    requires es != [] && es[|es| - 1].Toggle? && Switched(es[..|es| - 1], s) && RunsAuthorized(es[..|es| - 1], s)
    ensures var last := es[|es| - 1];
      RunsAuthorized(es, s) <==> last.enabled || !s.on || forall k :: k in s.runs ==> s.runs[k].scheduledFor <= last.at
  {
    var before, last := es[..|es| - 1], es[|es| - 1];
    forall k | k in s.runs
      ensures OnBefore(es, s.runs[k].scheduledFor) <==> last.enabled || !s.on || s.runs[k].scheduledFor <= last.at
    {
      assert OnBefore(before, s.runs[k].scheduledFor);
    }
  }

  lemma TickRuns(s: Site, e: Event, east: int)
    requires e.Tick?
    ensures var t, w := Step(s, e, east), WindowOf(e.at, east);
      && Extends(s, t) && w.start <= e.at
      && forall k :: k in t.runs && k !in s.runs ==> Admitted(s, w) && t.runs[k].scheduledFor == w.start
  {
    var w := WindowOf(e.at, east);
    WindowShape(e.at, east);
    hide WindowOf, WithRuns, Keys;
    var begun := WithWindow(s, w.start);
    WithRunsAdds(begun, Keys(begun.windows[w.start], e.urls, e.scenarios), w.start);
  }

  /** A pass adds only authorized runs, however old the instant it read before it took the site lock. */
  lemma TickKeepsRuns(s: Site, es: seq<Event>, east: int)
    requires es != [] && es[|es| - 1].Tick? && Switched(es[..|es| - 1], s)
    ensures var t := Step(s, es[|es| - 1], east);
      Switched(es, t) && (RunsAuthorized(es[..|es| - 1], s) ==> RunsAuthorized(es, t))
  {
    var before, last := es[..|es| - 1], es[|es| - 1];
    TickRuns(s, last, east);
    hide Step, WindowOf;
    assert forall t :: OnBefore(es, t) <==> OnBefore(before, t);
  }

  /** After every event so far, every run stood for a window at whose start monitoring was on. */
  predicate AuthorizedThroughout(created: Time, es: seq<Event>, east: int) {
    && RunsAuthorized(es, Run(created, es, east))
    && (es != [] ==> AuthorizedThroughout(created, es[..|es| - 1], east))
  }

  /** No toggle that finds the site on and switches it off is stamped before the start of a window that already has a run. */
  predicate Timely(created: Time, es: seq<Event>, east: int) {
    es == [] ||
    var before, last := es[..|es| - 1], es[|es| - 1];
    var s := Run(created, before, east);
    && Timely(created, before, east)
    && (last.Toggle? && !last.enabled && s.on ==> forall k :: k in s.runs ==> s.runs[k].scheduledFor <= last.at)
  }

  lemma {:induction false} AlwaysSwitched(created: Time, es: seq<Event>, east: int)
    ensures Switched(es, Run(created, es, east))
  {
    if es != [] {
      hide Switched, Materialized;
      var before := es[..|es| - 1];
      AlwaysSwitched(created, before, east);
      if es[|es| - 1].Toggle? {
        ToggleSwitches(Run(created, before, east), es);
      } else {
        TickKeepsRuns(Run(created, before, east), es, east);
      }
    } else {
      assert Switched([], Run(created, [], east));
    }
  }

  /**
    Over every interleaving of toggles and scheduler passes, in whatever order their instants were read:
    no run ever stands for a window that started off, exactly when no toggle that finds the site on and
    switches it off is stamped before the start of a window that already has a run.
  */
  lemma {:induction false} AuthorizedExactlyWhenTimely(created: Time, es: seq<Event>, east: int)
    ensures AuthorizedThroughout(created, es, east) <==> Timely(created, es, east)
  {
    if es != [] {
      hide Switched, RunsAuthorized, Materialized;
      var before := es[..|es| - 1];
      var s := Run(created, before, east);
      AuthorizedExactlyWhenTimely(created, before, east);
      AlwaysSwitched(created, before, east);
      if AuthorizedThroughout(created, before, east) {
        if es[|es| - 1].Toggle? {
          ToggleKeepsRunsIff(s, es);
          RunsKept(es, s, SetMonitoring(s, es[|es| - 1].enabled, es[|es| - 1].at));
        } else {
          TickKeepsRuns(s, es, east);
        }
      }
    } else {
      assert RunsAuthorized([], Run(created, [], east));
    }
  }

  lemma RunsKept(es: seq<Event>, s: Site, t: Site)
    requires s.runs == t.runs
    ensures RunsAuthorized(es, s) <==> RunsAuthorized(es, t)
  {
  }

  /** A request for the state the site is already in changes neither the site nor when it was on. */
  lemma RepeatedRequestChangesNothing(created: Time, es: seq<Event>, east: int)
    requires es != [] && es[|es| - 1].Toggle? && !Switches(es)
    ensures Run(created, es, east) == Run(created, es[..|es| - 1], east)
    ensures forall t :: OnBefore(es, t) <==> OnBefore(es[..|es| - 1], t)
    ensures AuthorizedThroughout(created, es, east) <==> AuthorizedThroughout(created, es[..|es| - 1], east)
  {
    AlwaysSwitched(created, es[..|es| - 1], east);
    hide Run;
    assert Run(created, es, east) == Step(Run(created, es[..|es| - 1], east), es[|es| - 1], east) by {
      RunStep(created, es, east);
    }
    AuthorizedExactlyWhenTimely(created, es, east);
    AuthorizedExactlyWhenTimely(created, es[..|es| - 1], east);
  }

  lemma RunStep(created: Time, es: seq<Event>, east: int)
    requires es != []
    ensures Run(created, es, east) == Step(Run(created, es[..|es| - 1], east), es[|es| - 1], east)
  {
  }

  /** Each switching off is stamped no earlier than the instants of the passes that commit before it. */
  predicate OffAfterPasses(es: seq<Event>) {
    forall i, j :: 0 <= i < j < |es| && es[i].Tick? && es[j] == Toggle(false, es[j].at) && Switches(es[..j + 1]) ==> es[i].at <= es[j].at
  }

  lemma {:induction false} RunsStartBeforeSomePass(created: Time, es: seq<Event>, east: int)
    ensures forall k :: k in Run(created, es, east).runs ==>
      exists i :: 0 <= i < |es| && es[i].Tick? && Run(created, es, east).runs[k].scheduledFor <= es[i].at
  {
    if es != [] {
      var before, last := es[..|es| - 1], es[|es| - 1];
      var s, t := Run(created, before, east), Run(created, es, east);
      RunsStartBeforeSomePass(created, before, east);
      if last.Tick? {
        TickRuns(s, last, east);
      }
      hide Step, WindowOf;
      forall k | k in t.runs
        ensures exists i :: 0 <= i < |es| && es[i].Tick? && t.runs[k].scheduledFor <= es[i].at
      {
        if k in s.runs {
          var i :| 0 <= i < |before| && before[i].Tick? && s.runs[k].scheduledFor <= before[i].at;
          assert es[i] == before[i];
        } else {
          assert t.runs[k].scheduledFor <= es[|es| - 1].at;
        }
      }
    }
  }

  lemma OffAfterPassesBefore(es: seq<Event>)
    requires es != [] && OffAfterPasses(es)
    ensures OffAfterPasses(es[..|es| - 1])
  {
    hide Switches;
    var before := es[..|es| - 1];
    forall i, j | 0 <= i < j < |before| && before[i].Tick? && before[j] == Toggle(false, before[j].at) && Switches(before[..j + 1])
      ensures before[i].at <= before[j].at
    {
      assert before[..j + 1] == es[..j + 1];
    }
  }

  lemma {:induction false} OffAfterPassesIsTimely(created: Time, es: seq<Event>, east: int)
    requires OffAfterPasses(es)
    ensures Timely(created, es, east)
  {
    if es != [] {
      var before, last := es[..|es| - 1], es[|es| - 1];
      OffAfterPassesBefore(es);
      OffAfterPassesIsTimely(created, before, east);
      RunsStartBeforeSomePass(created, before, east);
      AlwaysSwitched(created, before, east);
      var s := Run(created, before, east);
      hide Run;
      assert es[..|before| + 1] == es;
      forall k | last.Toggle? && !last.enabled && s.on && k in s.runs
        ensures s.runs[k].scheduledFor <= last.at
      {
        var i :| 0 <= i < |before| && before[i].Tick? && s.runs[k].scheduledFor <= before[i].at;
        assert es[i] == before[i];
      }
    }
  }

  /**
    When each switching off is stamped no earlier than the passes that commit before it, while passes
    carry any instant read earlier and the other toggles any stamp: the stored state is the last
    request, and no run stands for a window that started off.
  */
  lemma NoRunForWindowThatStartedOff(created: Time, es: seq<Event>, east: int)
    requires OffAfterPasses(es)
    ensures var s := Run(created, es, east);
      && (s.on <==> Requested(es))
      && forall k :: k in s.runs ==> OnBefore(es, s.runs[k].scheduledFor)
  {
    OffAfterPassesIsTimely(created, es, east);
    AuthorizedExactlyWhenTimely(created, es, east);
    AlwaysSwitched(created, es, east);
  }

  /** A disabling toggle stamped before the start of a window whose run was planned meanwhile leaves that run behind. */
  lemma LateToggleLeavesRun(url: Id, scenario: Id)
    ensures var es := [Toggle(true, 0), Tick(6 * HOUR, [url], [scenario], false), Toggle(false, 6 * HOUR - 1)];
      !AuthorizedThroughout(0, es, 0)
  {
    var on, tick, off := Toggle(true, 0), Tick(6 * HOUR, [url], [scenario], false), Toggle(false, 6 * HOUR - 1);
    var es := [on, tick, off];
    assert es[..2] == [on, tick] && [on, tick][..1] == [on] && [on][..0] == [];
    var s := Run(0, [on], 0);
    assert s == SetMonitoring(Run(0, [], 0), true, 0);
    assert Run(0, [on, tick], 0) == Step(s, tick, 0);
    var key := PlannedRun(s, url, scenario);
    hide Step;
    assert !Timely(0, es, 0) by {
      assert Run(0, es[..2], 0).on;
    }
    AuthorizedExactlyWhenTimely(0, es, 0);
  }

  lemma PlannedRun(s: Site, url: Id, scenario: Id) returns (key: RunKey)
    requires s.on && s.watermark == 0 && s.runs == map[]
    ensures var t := Step(s, Tick(6 * HOUR, [url], [scenario], false), 0);
      t.on && key in t.runs && t.runs[key].scheduledFor == 6 * HOUR
  {
    hide WindowOf, WithRuns, Keys;
    SixOClock();
    var w := WindowOf(6 * HOUR, 0);
    var begun := WithWindow(s, w.start);
    key := RunKey(begun.windows[w.start], url, scenario);
    OneKey(key.window, url, scenario);
    WithRunsAdds(begun, Keys(key.window, [url], [scenario]), w.start);
  }

  lemma SixOClock()
    ensures WindowOf(6 * HOUR, 0).start == 6 * HOUR
  {
    WindowShape(6 * HOUR, 0);
    hide WindowOf;
  }

  lemma OneKey(window: Id, url: Id, scenario: Id)
    ensures RunKey(window, url, scenario) in Keys(window, [url], [scenario])
  {
    assert [url][..0] == [] && Keys(window, [url], [scenario]) == [] + Row(window, url, [scenario]);
    assert Row(window, url, [scenario])[0] == RunKey(window, url, scenario);
  }

  /** The stamp of the last event that switched the site, or its creation. */
  function LastSwitch(created: Time, es: seq<Event>): Time {
    if es == [] then created
    else if Switches(es) then es[|es| - 1].at
    else LastSwitch(created, es[..|es| - 1])
  }

  function SwitchCount(es: seq<Event>): nat {
    if es == [] then 0 else SwitchCount(es[..|es| - 1]) + if Switches(es) then 1 else 0
  }

  /** The watermark is the stamp of the last real switch, on or off, and each real switch has one audit row. */
  lemma {:induction false} WatermarkIsLastSwitch(created: Time, es: seq<Event>, east: int)
    ensures var s := Run(created, es, east);
      s.watermark == LastSwitch(created, es) && |s.audit| == SwitchCount(es)
  {
    if es != [] {
      var before, last := es[..|es| - 1], es[|es| - 1];
      WatermarkIsLastSwitch(created, before, east);
      AlwaysSwitched(created, before, east);
      if last.Tick? {
        TickExtends(Run(created, before, east), last, east);
      }
      hide Materialized;
    }
  }

  predicate Alternates(audit: seq<Change>, on: bool) {
    && (forall i :: 0 <= i < |audit| ==> audit[i].before != audit[i].after)
    && (forall i :: 0 < i < |audit| ==> audit[i].before == audit[i - 1].after)
    && (if audit == [] then !on else !audit[0].before && audit[|audit| - 1].after == on)
  }

  /** The audit rows form an alternating chain that starts from OFF and ends in the stored state. */
  lemma {:induction false} AuditIsAlternatingChain(created: Time, es: seq<Event>, east: int)
    ensures Alternates(Run(created, es, east).audit, Run(created, es, east).on)
  {
    if es != [] {
      AuditIsAlternatingChain(created, es[..|es| - 1], east);
      StepAlternates(Run(created, es[..|es| - 1], east), es[|es| - 1], east);
    }
  }

  lemma StepAlternates(s: Site, e: Event, east: int)
    requires Alternates(s.audit, s.on)
    ensures Alternates(Step(s, e, east).audit, Step(s, e, east).on)
  {
    if e.Tick? {
      TickExtends(s, e, east);
    }
  }

  lemma TickExtends(s: Site, e: Event, east: int)
    requires e.Tick?
    ensures Extends(s, Step(s, e, east))
    ensures DistinctIds(s) ==> DistinctIds(Step(s, e, east))
  {
    hide WindowOf, WithRuns, Keys, DistinctIds;
    var w := WindowOf(e.at, east);
    var begun := WithWindow(s, w.start);
    var keys := Keys(begun.windows[w.start], e.urls, e.scenarios);
    WithRunsAdds(begun, keys, w.start);
    if DistinctIds(s) {
      WithWindowDistinct(s, w.start);
      WithRunsDistinct(begun, keys, w.start);
    }
  }

  lemma WithWindowDistinct(s: Site, start: Time)
    requires DistinctIds(s)
    ensures DistinctIds(WithWindow(s, start))
  {
  }

  lemma StepKeepsRows(s: Site, e: Event, east: int)
    ensures var t := Step(s, e, east);
      && (forall k :: k in s.runs ==> k in t.runs && t.runs[k] == s.runs[k])
      && (forall w :: w in s.windows ==> w in t.windows && t.windows[w] == s.windows[w])
      && (DistinctIds(s) ==> DistinctIds(t))
  {
    if e.Tick? {
      TickExtends(s, e, east);
    }
  }

  lemma {:induction false} IdsAreDistinct(created: Time, es: seq<Event>, east: int)
    ensures DistinctIds(Run(created, es, east))
  {
    if es != [] {
      IdsAreDistinct(created, es[..|es| - 1], east);
      StepKeepsRows(Run(created, es[..|es| - 1], east), es[|es| - 1], east);
    }
  }

  /** Rows are never rewritten, and no two of them share an identifier. */
  lemma {:induction false} RowsAreStable(created: Time, es: seq<Event>, more: seq<Event>, east: int)
    ensures DistinctIds(Run(created, es + more, east))
    ensures var s, t := Run(created, es, east), Run(created, es + more, east);
      && (forall k :: k in s.runs ==> k in t.runs && t.runs[k] == s.runs[k])
      && (forall w :: w in s.windows ==> w in t.windows && t.windows[w] == s.windows[w])
    decreases |more|
  {
    hide DistinctIds, Step;
    IdsAreDistinct(created, es + more, east);
    if more == [] {
      assert es + more == es;
    } else {
      var all := es + more;
      assert all[..|all| - 1] == es + more[..|more| - 1];
      RowsAreStable(created, es, more[..|more| - 1], east);
      StepKeepsRows(Run(created, all[..|all| - 1], east), all[|all| - 1], east);
    }
  }
}
