/** Every delivery of a diagnostic refines one step of the list; health and redelivery follow. */
module ReliabilityTheorems {
  import opened Contracts
  import opened Lifecycle
  import opened EventStore
  import opened SourceHealth
  import opened ReliabilityStore

  /** The run belongs to the site. */
  predicate Owned(runs: Runs, p: Place, run: Id) {
    run in runs && runs[run].tenant == p.tenant && runs[run].site == p.site
  }

  // ---------------------------------------------------------------- inserting the evidence

  ghost function EvidenceRefs(id: EventId, ps: seq<Pointer>): set<Ref> {
    set q | q in ps :: Ref(id, CheckpointRef, q.source, q.relation)
  }

  predicate Insertable(runs: Runs, p: Place, ps: seq<Pointer>) {
    forall q :: q in ps ==> q.kind == CheckpointRun && q.relation != OtherRelation && Owned(runs, p, q.source)
  }

  lemma SiteScopeAccepts(runs: Runs, p: Place, e: Event, q: Pointer)
    requires e.tenant == p.tenant && e.site == p.site && e.scope == SiteScope(p) && Owned(runs, p, q.source)
    ensures PointerError(runs, e, q, SourceLevel).None?
  {
  }

  lemma EvidenceRefsStep(id: EventId, ps: seq<Pointer>)
    requires ps != []
    ensures EvidenceRefs(id, ps) == {Ref(id, CheckpointRef, ps[0].source, ps[0].relation)} + EvidenceRefs(id, ps[1..])
  {
    assert ps == [ps[0]] + ps[1..];
    assert forall q :: q in ps <==> q == ps[0] || q in ps[1..];
  }

  lemma {:induction false} InsertOwned(runs: Runs, p: Place, refs: set<Ref>, id: EventId, e: Event, ps: seq<Pointer>,
                                       seen: set<(Id, Relation)>, n: nat)
    requires Insertable(runs, p, ps) && IsReliabilityCode(e.code)
    requires e.tenant == p.tenant && e.site == p.site && e.scope == SiteScope(p)
    requires forall pair :: pair in seen ==> Ref(id, CheckpointRef, pair.0, pair.1) in refs
    ensures var r := InsertPointers(runs, refs, id, e, ps, seen, false, SourceLevel, n);
      r.Ok? && r.value.0 == refs + EvidenceRefs(id, ps)
    decreases |ps|
  {
    if ps == [] {
    } else {
      var q := ps[0];
      assert q in ps && forall x :: x in ps[1..] ==> x in ps;
      SiteScopeAccepts(runs, p, e, q);
      EvidenceRefsStep(id, ps);
      if (q.source, q.relation) in seen {
        InsertOwned(runs, p, refs, id, e, ps[1..], seen, n);
      } else {
        var linked := Link(runs, refs, id, e, q);
        var isNew := Ref(id, CheckpointRef, q.source, q.relation) !in refs;
        InsertOwned(runs, p, linked, id, e, ps[1..], seen + {(q.source, q.relation)}, if isNew then n + 1 else n);
      }
    }
  }

  // ---------------------------------------------------------------- persisting one candidate

  function EntryRow(p: Place, e: Entry): Event {
    Event(p.tenant, p.site, e.code, None, e.at, None, e.since, Some(e.at), e.at, RuleOf(e.code).defaultSeverity,
          Recorded, None, SiteScope(p), MONITORING, NO_PROGRESS, 0)
  }

  predicate Recordable(runs: Runs, p: Place, e: Entry) {
    && IsReliabilityCode(e.code) && Owned(runs, p, e.run)
    && (e.recovers.Some? ==> Owned(runs, p, e.recovers.value))
    && (e.since.Some? ==> e.since.value <= e.at)
  }

  ghost function AfterRecording(s: Store, p: Place, e: Entry): Store {
    var id := EntryId(p, e);
    var inserted := if id in s.events then s else Insert(s, id, EntryRow(p, e));
    inserted.(refs := s.refs + EvidenceRefs(id, Evidence(e.recovers, e.run)))
  }

  lemma CandidateIsRecorded(runs: Runs, s: Store, p: Place, d: Diagnostic, e: Entry)
    requires Recordable(runs, p, e)
    requires EntryId(p, e) in s.events ==> RowFits(s, p, e)
    ensures PersistDiagnosticAll(runs, s, AnchorOf(p, d), d.observedAt, [ReliabilityCandidate(p, e)], NOTHING).Ok?
    ensures PersistDiagnosticAll(runs, s, AnchorOf(p, d), d.observedAt, [ReliabilityCandidate(p, e)], NOTHING).value.0
         == AfterRecording(s, p, e)
  {
    var c, a := ReliabilityCandidate(p, e), AnchorOf(p, d);
    assert NormalizedScope(c.scope) == SiteScope(p);
    var row := EntryRow(p, e);
    assert row == PointRow(a, c, NormalizedScope(c.scope), None, e.at, e.at, e.since);
    var id := EntryId(p, e);
    assert PointEventId(a, c, row.scope) == id;
    hide EntryId, PointEventId, Links, NormalizedScope;
    var inserted := if id in s.events then s else Insert(s, id, row);
    InsertOwned(runs, p, s.refs, id, inserted.events[id], c.evidence, {}, 0);
    OnlyCandidate(runs, s, a, d.observedAt, c);
    assert PersistDiagnosticOne(runs, s, a, c, d.observedAt) == PersistPointEvent(runs, s, a, c, row, SourceLevel);
  }

  lemma OnlyCandidate(runs: Runs, s: Store, a: Anchor, observedAt: Option<Time>, c: Candidate)
    ensures var one := PersistDiagnosticOne(runs, s, a, c, observedAt);
      PersistDiagnosticAll(runs, s, a, observedAt, [c], NOTHING) ==
      if one.Ok? then Ok((one.value.0, Counted(NOTHING, one.value.1, c))) else Err(one.error)
  {
    hide PersistDiagnosticOne, Counted;
    assert [c][1..] == [];
  }

  // ---------------------------------------------------------------- the refinement

  /** A fresh row and its evidence, added to a store. */
  ghost predicate Adds(s: Store, s': Store, p: Place, e: Entry) {
    var id := EntryId(p, e);
    && id !in s.events && id in s'.events
    && s'.events == s.events[id := s'.events[id]] && s'.events[id].serial == s.serial && s'.serial == s.serial + 1
    && RowFits(s', p, e)
    && s'.refs == s.refs + EvidenceRefs(id, Evidence(e.recovers, e.run))
  }

  lemma AddedRows(s: Store, s': Store, p: Place, log: seq<Entry>, e: Entry)
    requires Represents(s, p, log) && Adds(s, s', p, e)
    requires forall i :: 0 <= i < |log| ==> log[i].run != e.run && log[i].at <= e.at && EntryId(p, log[i]) != EntryId(p, e)
    ensures forall i :: 0 <= i < |log + [e]| ==> RowFits(s', p, (log + [e])[i])
    ensures Sequenced(s', p, log + [e])
  {
    hide EntryId, Evidence, RefsFit, IsSlot, EvidenceRefs, SiteScope, IsReliabilityCode;
    forall i | 0 <= i < |log|
      ensures RowFits(s', p, log[i]) && s'.events[EntryId(p, log[i])] == s.events[EntryId(p, log[i])]
    {
      assert RowFits(s, p, log[i]);
    }
  }

  lemma AddedRefs(s: Store, s': Store, p: Place, log: seq<Entry>, e: Entry)
    requires Represents(s, p, log) && Adds(s, s', p, e)
    requires forall i :: 0 <= i < |log| ==> EntryId(p, log[i]) != EntryId(p, e)
    ensures forall i :: 0 <= i < |log + [e]| ==> RefsFit(s', p, (log + [e])[i])
    ensures forall r :: r in s'.refs ==> r.event in s'.events
  {
    hide EntryId, Evidence, RowFits, IsSlot, Sequenced, Reliable;
    forall i | 0 <= i < |log|
      ensures RefsFit(s', p, log[i])
    {
      assert RefsFit(s, p, log[i]);
    }
    NewRefs(s, s', p, e);
  }

  lemma NewRefs(s: Store, s': Store, p: Place, e: Entry)
    requires Adds(s, s', p, e) && forall r :: r in s.refs ==> r.event in s.events
    ensures RefsFit(s', p, e)
  {
    hide EntryId, RowFits;
    var id, ps := EntryId(p, e), Evidence(e.recovers, e.run);
    forall r: Ref | r.event == id
      ensures r in s'.refs <==> r.kind == CheckpointRef && At(r.source, r.relation) in ps
    {
      assert r !in s.refs;
      if r in EvidenceRefs(id, ps) {
        var q :| q in ps && r == Ref(id, CheckpointRef, q.source, q.relation);
        assert q.kind == CheckpointRun;
      }
    }
  }

  lemma AddedCover(s: Store, s': Store, p: Place, log: seq<Entry>, e: Entry, x: EventId)
    requires Represents(s, p, log) && Adds(s, s', p, e)
    requires x in s'.events && (Reliable(s', p, x) || IsSlot(p, x))
    ensures exists i :: 0 <= i < |log + [e]| && x == EntryId(p, (log + [e])[i])
  {
    hide EntryId, Evidence, RowFits, RefsFit, Sequenced, IsReliabilityCode, SiteScope, EvidenceRefs;
    var log' := log + [e];
    if x == EntryId(p, e) {
      assert log'[|log|] == e;
    } else {
      assert Reliable(s, p, x) || IsSlot(p, x);
      var i :| 0 <= i < |log| && x == EntryId(p, log[i]);
      assert log'[i] == log[i];
    }
  }

  lemma AddedRepresents(s: Store, s': Store, p: Place, log: seq<Entry>, e: Entry)
    requires Represents(s, p, log) && Adds(s, s', p, e)
    requires forall i :: 0 <= i < |log| ==> log[i].run != e.run && log[i].at <= e.at && EntryId(p, log[i]) != EntryId(p, e)
    ensures Represents(s', p, log + [e])
  {
    AddedRows(s, s', p, log, e);
    AddedRefs(s, s', p, log, e);
    hide EntryId, RowFits, RefsFit, Sequenced, IsSlot, Reliable, EvidenceRefs;
    forall x | x in s'.events && (Reliable(s', p, x) || IsSlot(p, x))
      ensures exists i :: 0 <= i < |log + [e]| && x == EntryId(p, (log + [e])[i])
    {
      AddedCover(s, s', p, log, e, x);
    }
  }

  lemma AppendRepresents(s: Store, p: Place, log: seq<Entry>, e: Entry)
    requires Represents(s, p, log) && IsReliabilityCode(e.code)
    requires forall i :: 0 <= i < |log| ==> log[i].run != e.run && log[i].at <= e.at
    ensures Represents(AfterRecording(s, p, e), p, log + [e])
  {
    FreshId(s, p, log, e);
    var s' := AfterRecording(s, p, e);
    assert Adds(s, s', p, e) by {
      hide EntryId, Represents;
    }
    AddedRepresents(s, s', p, log, e);
  }

  lemma FreshId(s: Store, p: Place, log: seq<Entry>, e: Entry)
    requires Represents(s, p, log) && IsReliabilityCode(e.code)
    requires forall i :: 0 <= i < |log| ==> log[i].run != e.run
    ensures EntryId(p, e) !in s.events
    ensures forall i :: 0 <= i < |log| ==> EntryId(p, log[i]) != EntryId(p, e)
  {
    forall i | 0 <= i < |log|
      ensures EntryId(p, log[i]) != EntryId(p, e)
    {
      if EntryId(p, log[i]) == EntryId(p, e) {
        EntryIdsApart(p, log[i], e);
      }
    }
    assert IsSlot(p, EntryId(p, e));
  }

  /** Recording a degradation that is already listed changes nothing at all. */
  lemma AgainChangesNothing(s: Store, p: Place, log: seq<Entry>, e: Entry)
    requires Represents(s, p, log) && e in log
    ensures EntryId(p, e) in s.events && RowFits(s, p, e) && AfterRecording(s, p, e) == s
  {
    var i :| 0 <= i < |log| && log[i] == e;
    assert RowFits(s, p, log[i]) && RefsFit(s, p, log[i]);
    hide EntryId, Evidence;
    assert EvidenceRefs(EntryId(p, e), Evidence(e.recovers, e.run)) <= s.refs;
    assert s.refs + EvidenceRefs(EntryId(p, e), Evidence(e.recovers, e.run)) == s.refs;
  }

  /** A first delivery in time order, or the redelivery of a diagnostic the list has settled. */
  predicate Deliverable(log: seq<Entry>, d: Diagnostic) {
    Classified(d) ==> Settled(log, d) || forall e :: e in log ==> e.run != d.run && e.at <= d.observedAt.value
  }

  lemma DegradationRefines(runs: Runs, s: Store, p: Place, log: seq<Entry>, d: Diagnostic)
    requires Represents(s, p, log) && Bad(d) && Deliverable(log, d) && Owned(runs, p, d.run)
    ensures Represents(Deliver(runs, s, p, d), p, Derived(log, d))
  {
    hide Represents;
    var e := Entry(d.run, d.observedAt.value, CodeOf(d.access), None, None);
    if e in log {
      AgainChangesNothing(s, p, log, e);
    } else {
      FreshId(s, p, log, e);
      AppendRepresents(s, p, log, e);
    }
    CandidateIsRecorded(runs, s, p, d, e);
  }

  lemma RecoveryIsEvaluated(s: Store, p: Place, log: seq<Entry>, d: Diagnostic)
    requires Represents(s, p, log) && Shaped(log) && Classified(d) && !Bad(d) && Derived(log, d) != log
    ensures log != []
    ensures var last := log[|log| - 1];
      var e := Entry(d.run, d.observedAt.value, BrowserSourceRecovered, Some(last.run), Some(last.at));
      && last.at < e.at
      && EvaluateDiagnostic(p, d, OpenEpisode(s, p)) == [ReliabilityCandidate(p, e)]
      && Derived(log, d) == log + [e]
  {
    EpisodeIsOpenDegradation(s, p, log);
    hide Represents, OpenEpisode, Shaped;
  }

  lemma RunsApart(log: seq<Entry>, d: Diagnostic)
    requires Deliverable(log, d) && Classified(d) && !Bad(d) && Derived(log, d) != log
    ensures forall i :: 0 <= i < |log| ==> log[i].run != d.run && log[i].at <= d.observedAt.value
  {
    forall i | 0 <= i < |log|
      ensures log[i].run != d.run && log[i].at <= d.observedAt.value
    {
      assert log[i] in log;
    }
  }

  lemma RecoveryRefines(runs: Runs, s: Store, p: Place, log: seq<Entry>, d: Diagnostic)
    requires Represents(s, p, log) && Shaped(log) && Deliverable(log, d)
    requires Classified(d) && !Bad(d) && Derived(log, d) != log
    requires Owned(runs, p, d.run) && Owned(runs, p, log[|log| - 1].run)
    ensures Represents(Deliver(runs, s, p, d), p, Derived(log, d))
  {
    var last := log[|log| - 1];
    var e := Entry(d.run, d.observedAt.value, BrowserSourceRecovered, Some(last.run), Some(last.at));
    RecoveryIsEvaluated(s, p, log, d);
    RunsApart(log, d);
    hide Represents, OpenEpisode, Shaped, EvaluateDiagnostic, Derived, ReliabilityCandidate, Deliverable, AfterRecording;
    FreshId(s, p, log, e);
    CandidateIsRecorded(runs, s, p, d, e);
    AppendRepresents(s, p, log, e);
  }

  /** One delivery of a diagnostic: load, evaluate and persist does to the tables what the list does. */
  lemma DeliveryRefines(runs: Runs, s: Store, p: Place, log: seq<Entry>, d: Diagnostic)
    requires Represents(s, p, log) && Shaped(log) && Deliverable(log, d)
    requires Owned(runs, p, d.run) && forall e :: e in log ==> Owned(runs, p, e.run)
    ensures Represents(Deliver(runs, s, p, d), p, Derived(log, d))
  {
    EpisodeIsOpenDegradation(s, p, log);
    hide Represents;
    if Bad(d) {
      DegradationRefines(runs, s, p, log, d);
    } else if Derived(log, d) != log {
      assert log[|log| - 1] in log;
      RecoveryRefines(runs, s, p, log, d);
    } else {
      assert EvaluateDiagnostic(p, d, OpenEpisode(s, p)) == [];
    }
  }

  /** Redelivering a settled diagnostic leaves both tables exactly as they are. */
  lemma RedeliveryChangesNothing(runs: Runs, s: Store, p: Place, log: seq<Entry>, d: Diagnostic)
    requires Represents(s, p, log) && Shaped(log) && Settled(log, d) && Owned(runs, p, d.run)
    ensures Deliver(runs, s, p, d) == s && Derived(log, d) == log
  {
    EpisodeIsOpenDegradation(s, p, log);
    hide Represents;
    if Bad(d) {
      var e := Entry(d.run, d.observedAt.value, CodeOf(d.access), None, None);
      AgainChangesNothing(s, p, log, e);
      CandidateIsRecorded(runs, s, p, d, e);
    } else {
      assert EvaluateDiagnostic(p, d, OpenEpisode(s, p)) == [];
    }
  }

  // ---------------------------------------------------------------- every sequence of deliveries

  ghost function DeliverAll(runs: Runs, s: Store, p: Place, xs: seq<Diagnostic>): Store {
    if xs == [] then s else Deliver(runs, DeliverAll(runs, s, p, xs[..|xs| - 1]), p, xs[|xs| - 1])
  }

  /** The deliveries without the repeated ones. */
  function Firsts(xs: seq<Diagnostic>): seq<Diagnostic> {
    if xs == [] then []
    else
      var before := Firsts(xs[..|xs| - 1]);
      if xs[|xs| - 1] in before then before else before + [xs[|xs| - 1]]
  }

  lemma {:induction false} FirstsAreDelivered(xs: seq<Diagnostic>)
    ensures forall d :: d in Firsts(xs) ==> d in xs
  {
    if xs != [] {
      FirstsAreDelivered(xs[..|xs| - 1]);
    }
  }

  lemma NewestIsDeliverable(ds: seq<Diagnostic>, d: Diagnostic)
    requires History(ds + [d]) && Sourced(ds, Log(ds))
    ensures Deliverable(Log(ds), d)
  {
    var all := ds + [d];
    forall e | e in Log(ds) && Classified(d)
      ensures e.run != d.run && e.at <= d.observedAt.value
    {
      var x :| x in ds && Classified(x) && x.run == e.run && x.observedAt.value == e.at;
      var k :| 0 <= k < |ds| && ds[k] == x;
      assert all[k] == x && all[|ds|] == d;
    }
  }

  lemma EntriesOwned(runs: Runs, p: Place, ds: seq<Diagnostic>)
    requires Sourced(ds, Log(ds)) && forall d :: d in ds ==> Owned(runs, p, d.run)
    ensures forall e :: e in Log(ds) ==> Owned(runs, p, e.run)
  {
  }

  /**
    For every sequence of deliveries whose first deliveries are in time order, repeats anywhere, the
    tables hold exactly the events of the list without the repeats, that list has the shape (D+ R)* D*,
    and the site reads DEGRADED exactly when a diagnostic of the latest observed instant is not ok.
  */
  lemma {:induction false} HealthAfterDeliveries(runs: Runs, s: Store, p: Place, xs: seq<Diagnostic>)
    requires Represents(s, p, []) && History(Firsts(xs)) && forall d :: d in xs ==> Owned(runs, p, d.run)
    ensures Represents(DeliverAll(runs, s, p, xs), p, Log(Firsts(xs))) && Shaped(Log(Firsts(xs)))
    ensures HealthDegraded(DeliverAll(runs, s, p, xs), p) <==> BadAtLatestTime(Firsts(xs))
  {
    hide Represents, History, Sourced, Deliver, HealthDegraded, BadAtLatestTime, Shaped, Owned;
    var firsts := Firsts(xs);
    LogIsShaped(firsts);
    if xs != [] {
      var before, last := xs[..|xs| - 1], xs[|xs| - 1];
      var ds, t := Firsts(before), DeliverAll(runs, s, p, before);
      assert last in xs && forall d :: d in before ==> d in xs;
      if last !in ds {
        HistoryPrefix(firsts);
        assert firsts[..|firsts| - 1] == ds;
      }
      HealthAfterDeliveries(runs, s, p, before);
      LogIsSourced(ds);
      FirstsAreDelivered(before);
      EntriesOwned(runs, p, ds);
      if last in ds {
        SettledAfter(ds, last);
        RedeliveryChangesNothing(runs, t, p, Log(ds), last);
      } else {
        NewestIsDeliverable(ds, last);
        DeliveryRefines(runs, t, p, Log(ds), last);
      }
    }
    EpisodeIsOpenDegradation(DeliverAll(runs, s, p, xs), p, Log(firsts));
    DegradedIffBadAtLatestTime(firsts);
    assert Projected(firsts);
  }

  /** A stored reliability event tells of a diagnostic: its code, its times, its severity and its trigger run. */
  ghost predicate RowTells(s: Store, p: Place, id: EventId, d: Diagnostic) {
    && Reliable(s, p, id) && d.observedAt.Some?
    && var e := s.events[id];
       && e.detectedAt == d.observedAt.value && e.startedAt == d.observedAt.value && e.occurredBefore == d.observedAt
       && Ref(id, CheckpointRef, d.run, TriggerAfter) in s.refs
       && match d.access
          case AccessDegraded => e.code == BrowserSourceDegraded && e.severity == High && e.occurredAfter.None?
          case AccessChallenge => e.code == BrowserAccessChallengeSuspected && e.severity == Medium && e.occurredAfter.None?
          case AccessOk => e.code == BrowserSourceRecovered && e.severity == Low && e.occurredAfter.Some?
          case NoClassification => false
  }

  /** An open episode is that of a diagnostic which saw degraded access or a challenge. */
  predicate EpisodeTells(episode: Episode, d: Diagnostic) {
    && episode.trigger == Some(d.run) && Some(episode.detectedAt) == d.observedAt
    && match d.access
       case AccessDegraded => episode.code == BrowserSourceDegraded
       case AccessChallenge => episode.code == BrowserAccessChallengeSuspected
       case _ => false
  }

  lemma EntryTells(s: Store, p: Place, log: seq<Entry>, i: nat, d: Diagnostic)
    requires i < |log| && RowFits(s, p, log[i]) && RefsFit(s, p, log[i]) && Fits(log, i) && Tells(log[i], d)
    ensures RowTells(s, p, EntryId(p, log[i]), d)
  {
    hide EntryId, IsReliabilityCode, SiteScope;
    var e := log[i];
    var ps := Evidence(e.recovers, e.run);
    assert ps[|ps| - 1] == At(e.run, TriggerAfter);
    assert Ref(EntryId(p, e), CheckpointRef, e.run, TriggerAfter) in s.refs;
  }

  lemma StoredRowTells(s: Store, p: Place, ds: seq<Diagnostic>, id: EventId)
    requires Represents(s, p, Log(ds)) && Shaped(Log(ds)) && Reliable(s, p, id)
    ensures exists d :: d in ds && RowTells(s, p, id, d)
  {
    var log := Log(ds);
    LogTellsWhatWasSeen(ds);
    ReliableRowsExist(s, p);
    hide RowTells, Log, EntryId, RowFits, RefsFit, Fits, Tells, Reliable, Sequenced, IsSlot;
    var i :| 0 <= i < |log| && id == EntryId(p, log[i]);
    assert log[i] in log;
    var d :| d in ds && Tells(log[i], d);
    EntryTells(s, p, log, i, d);
  }

  lemma OpenEpisodeTells(s: Store, p: Place, ds: seq<Diagnostic>)
    requires Represents(s, p, Log(ds)) && Shaped(Log(ds)) && OpenEpisode(s, p).Some?
    ensures exists d :: d in ds && EpisodeTells(OpenEpisode(s, p).value, d)
  {
    var log := Log(ds);
    EpisodeIsOpenDegradation(s, p, log);
    LogTellsWhatWasSeen(ds);
    hide Represents, Shaped, Log, OpenEpisode, EntryId;
    var last := log[|log| - 1];
    assert last in log;
    var d :| d in ds && Tells(last, d);
    assert EpisodeTells(OpenEpisode(s, p).value, d);
  }

  /**
    After every such sequence of deliveries each stored reliability event tells of a delivered diagnostic;
    an open episode is that of a delivered diagnostic that saw degraded access or a challenge, and carries
    its run, its time and the code for what it saw.
  */
  lemma RowsTellWhatWasSeen(runs: Runs, s: Store, p: Place, xs: seq<Diagnostic>)
    requires Represents(s, p, []) && History(Firsts(xs)) && forall d :: d in xs ==> Owned(runs, p, d.run)
    ensures var t := DeliverAll(runs, s, p, xs);
      && (forall id :: Reliable(t, p, id) ==> exists d :: d in xs && RowTells(t, p, id, d))
      && (OpenEpisode(t, p).Some? ==> exists d :: d in xs && EpisodeTells(OpenEpisode(t, p).value, d))
  {
    hide RowTells, EpisodeTells, OpenEpisode, DeliverAll, Firsts, History, Shaped, Represents, Log, Reliable;
    var t, ds := DeliverAll(runs, s, p, xs), Firsts(xs);
    HealthAfterDeliveries(runs, s, p, xs);
    FirstsAreDelivered(xs);
    forall id | Reliable(t, p, id)
      ensures exists d :: d in xs && RowTells(t, p, id, d)
    {
      StoredRowTells(t, p, ds, id);
      var d :| d in ds && RowTells(t, p, id, d);
      assert d in xs;
    }
    if OpenEpisode(t, p).Some? {
      OpenEpisodeTells(t, p, ds);
      var d :| d in ds && EpisodeTells(OpenEpisode(t, p).value, d);
      assert d in xs;
    }
  }
}
