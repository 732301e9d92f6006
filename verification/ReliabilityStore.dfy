/** The reliability events of a site in the event tables, and their refinement of the list in SourceHealth. */
module ReliabilityStore {
  import opened Contracts
  import opened Lifecycle
  import opened EventStore
  import opened SourceHealth

  datatype Place = Place(tenant: Id, site: Id)

  /** The subject "browser-monitoring". */
  const MONITORING: Name := 0

  predicate IsReliabilityCode(code: Code) {
    code == BrowserSourceDegraded || code == BrowserAccessChallengeSuspected || code == BrowserSourceRecovered
  }

  // ---------------------------------------------------------------- projections

  predicate Reliable(s: Store, p: Place, id: EventId) {
    && id in s.events
    && s.events[id].tenant == p.tenant && s.events[id].site == p.site
    && IsReliabilityCode(s.events[id].code)
    && (s.events[id].status == Recorded || s.events[id].status == Active)
  }

  predicate NoLater(a: Event, b: Event) {
    a.detectedAt < b.detectedAt || (a.detectedAt == b.detectedAt && a.serial <= b.serial)
  }

  ghost predicate IsLatest(s: Store, p: Place, id: EventId) {
    Reliable(s, p, id) && forall other :: Reliable(s, p, other) ==> NoLater(s.events[other], s.events[id])
  }

  ghost function Latest(s: Store, p: Place): Option<EventId> {
    if exists id :: IsLatest(s, p, id) then
      var id :| IsLatest(s, p, id); Some(id)
    else None
  }

  predicate TriggerRef(s: Store, id: EventId, r: Ref) {
    r in s.refs && r.event == id && r.kind == CheckpointRef
    && (r.relation == TriggerAfter || r.relation == TriggerBefore || r.relation == Before)
  }

  ghost function TriggerRun(s: Store, id: EventId): Option<Id> {
    if exists r :: TriggerRef(s, id, r) then
      var r :| TriggerRef(s, id, r); Some(r.source)
    else None
  }

  datatype Episode = Episode(event: EventId, code: Code, detectedAt: Time, trigger: Option<Id>)

  /** Open when the latest reliability event is a degradation. */
  ghost function OpenEpisode(s: Store, p: Place): Option<Episode> {
    match Latest(s, p)
    case None => None
    case Some(id) =>
      if id !in s.events || s.events[id].code == BrowserSourceRecovered then None
      else Some(Episode(id, s.events[id].code, s.events[id].detectedAt, TriggerRun(s, id)))
  }

  ghost predicate HealthDegraded(s: Store, p: Place) {
    match Latest(s, p)
    case None => false
    case Some(id) => id in s.events && s.events[id].code != BrowserSourceRecovered
  }

  // ---------------------------------------------------------------- evaluation and delivery

  function Evidence(recovers: Option<Id>, run: Id): seq<Pointer> {
    (if recovers.Some? then [At(recovers.value, Before)] else []) + [At(run, TriggerAfter)]
  }

  function ReliabilityCandidate(p: Place, e: Entry): Candidate {
    Candidate(e.code, MONITORING, Record, None, map[SiteKey := Some(p.site)], e.since, Some(e.at), Some(e.at),
              Evidence(e.recovers, e.run), 1, 1)
  }

  function EvaluateDiagnostic(p: Place, d: Diagnostic, episode: Option<Episode>): seq<Candidate> {
    if d.access == NoClassification || d.observedAt.None? then []
    else if d.access == AccessOk then
      if episode.None? || episode.value.trigger.None? then []
      else if d.observedAt.value <= episode.value.detectedAt then []
      else if d.run == episode.value.trigger.value then []
      else [ReliabilityCandidate(p, Entry(d.run, d.observedAt.value, BrowserSourceRecovered, episode.value.trigger,
                                          Some(episode.value.detectedAt)))]
    else [ReliabilityCandidate(p, Entry(d.run, d.observedAt.value, CodeOf(d.access), None, None))]
  }

  function AnchorOf(p: Place, d: Diagnostic): Anchor {
    Anchor(p.tenant, p.site, None, d.run, None, d.observedAt.Or(0))
  }

  /** Load the open episode, evaluate, persist; an error rolls the call back. */
  ghost function Deliver(runs: Runs, s: Store, p: Place, d: Diagnostic): Store {
    match PersistDiagnosticAll(runs, s, AnchorOf(p, d), d.observedAt, EvaluateDiagnostic(p, d, OpenEpisode(s, p)), NOTHING)
    case Ok(done) => done.0
    case Err(_) => s
  }

  // ---------------------------------------------------------------- the list a store holds

  function SiteScope(p: Place): Scope {
    map[SiteKey := p.site]
  }

  function EntryId(p: Place, e: Entry): EventId {
    EvidenceSetId(p.tenant, e.code, MONITORING, SiteScope(p), Links(Evidence(e.recovers, e.run)))
  }

  predicate IsSlot(p: Place, id: EventId) {
    id.EvidenceSetId? && id.tenant == p.tenant && IsReliabilityCode(id.code) && id.subject == MONITORING && id.scope == SiteScope(p)
  }

  predicate RowFits(s: Store, p: Place, e: Entry) {
    var id := EntryId(p, e);
    && Reliable(s, p, id)
    && s.events[id].code == e.code && s.events[id].detectedAt == e.at && s.events[id].status == Recorded
    && s.events[id].scope == SiteScope(p) && s.events[id].subject == MONITORING && s.events[id].template.None?
    && s.events[id].startedAt == e.at && s.events[id].occurredBefore == Some(e.at) && s.events[id].occurredAfter == e.since
    && s.events[id].severity ==
       match e.code
       case BrowserSourceDegraded => High
       case BrowserAccessChallengeSuspected => Medium
       case _ => Low
  }

  ghost predicate RefsFit(s: Store, p: Place, e: Entry) {
    forall r: Ref :: r.event == EntryId(p, e) ==>
      (r in s.refs <==> r.kind == CheckpointRef && At(r.source, r.relation) in Evidence(e.recovers, e.run))
  }

  predicate Sequenced(s: Store, p: Place, log: seq<Entry>) {
    forall i, j :: 0 <= i < j < |log| ==>
      && RowFits(s, p, log[i]) && RowFits(s, p, log[j])
      && log[i].at <= log[j].at && log[i].run != log[j].run
      && s.events[EntryId(p, log[i])].serial < s.events[EntryId(p, log[j])].serial
  }

  ghost predicate Represents(s: Store, p: Place, log: seq<Entry>) {
    && (forall i :: 0 <= i < |log| ==> RowFits(s, p, log[i]))
    && Sequenced(s, p, log)
    && (forall i :: 0 <= i < |log| ==> RefsFit(s, p, log[i]))
    && (forall id :: id in s.events && (Reliable(s, p, id) || IsSlot(p, id)) ==>
          exists i :: 0 <= i < |log| && id == EntryId(p, log[i]))
    && (forall id :: id in s.events ==> s.events[id].serial < s.serial)
    && (forall r :: r in s.refs ==> r.event in s.events)
  }

  lemma LinksOfEvidence(recovers: Option<Id>, run: Id, x: Id)
    ensures (x, TriggerAfter) in Links(Evidence(recovers, run)) <==> x == run
  {
    var ps := Evidence(recovers, run);
    if recovers.Some? {
      var rest := ps[1..];
      assert ps[0] == At(recovers.value, Before) && rest == [At(run, TriggerAfter)] && rest[1..] == [];
      assert Links(rest) == multiset{(run, TriggerAfter)} + Links(rest[1..]);
    } else {
      assert ps == [At(run, TriggerAfter)] && ps[1..] == [];
      assert Links(ps) == multiset{(run, TriggerAfter)} + multiset{};
    }
  }

  lemma EntryIdsApart(p: Place, a: Entry, b: Entry)
    requires EntryId(p, a) == EntryId(p, b)
    ensures a.run == b.run && a.code == b.code
  {
    LinksOfEvidence(a.recovers, a.run, a.run);
    LinksOfEvidence(b.recovers, b.run, a.run);
  }

  lemma LatestIsLast(s: Store, p: Place, log: seq<Entry>)
    requires Represents(s, p, log)
    ensures Latest(s, p) == if log == [] then None else Some(EntryId(p, log[|log| - 1]))
  {
    hide EntryId, Reliable, IsSlot, RefsFit;
    assert forall id :: Reliable(s, p, id) ==> id in s.events by {
      ReliableRowsExist(s, p);
    }
    if log != [] {
      var last := EntryId(p, log[|log| - 1]);
      assert RowFits(s, p, log[|log| - 1]);
      forall id | Reliable(s, p, id)
        ensures NoLater(s.events[id], s.events[last]) && (id != last ==> !NoLater(s.events[last], s.events[id]))
      {
        var i :| 0 <= i < |log| && id == EntryId(p, log[i]);
        assert RowFits(s, p, log[i]);
      }
      assert IsLatest(s, p, last);
    }
  }

  lemma ReliableRowsExist(s: Store, p: Place)
    ensures forall id :: Reliable(s, p, id) ==> id in s.events
  {
  }

  lemma EpisodeIsOpenDegradation(s: Store, p: Place, log: seq<Entry>)
    requires Represents(s, p, log) && Shaped(log)
    ensures HealthDegraded(s, p) <==> IsDegraded(log)
    ensures OpenEpisode(s, p) ==
      if IsDegraded(log) then
        var last := log[|log| - 1];
        Some(Episode(EntryId(p, last), last.code, last.at, Some(last.run)))
      else None
  {
    LatestIsLast(s, p, log);
    if log != [] {
      var last := log[|log| - 1];
      assert RowFits(s, p, last) && RefsFit(s, p, last) && Fits(log, |log| - 1);
      if IsDegraded(log) {
        var id := EntryId(p, last);
        assert Evidence(last.recovers, last.run) == [At(last.run, TriggerAfter)];
        assert TriggerRef(s, id, Ref(id, CheckpointRef, last.run, TriggerAfter));
        assert forall r :: TriggerRef(s, id, r) ==> At(r.source, r.relation) in Evidence(last.recovers, last.run);
      }
    }
  }

  /** The recovery a diagnostic may be evaluated to: after a known degradation by another run, strictly later. */
  predicate Recovers(d: Diagnostic, episode: Option<Episode>) {
    && d.access == AccessOk && d.observedAt.Some? && episode.Some? && episode.value.trigger.Some?
    && episode.value.detectedAt < d.observedAt.value && episode.value.trigger != Some(d.run)
  }

  /**
    What a diagnostic is evaluated to: nothing without a classification and a time; a degradation or a
    suspected challenge of its own; a recovery that names the degradation and its time; else nothing.
  */
  lemma EvaluationIsSpelledOut(p: Place, d: Diagnostic, episode: Option<Episode>)
    ensures var out := EvaluateDiagnostic(p, d, episode);
      var bad := d.observedAt.Some? && (d.access == AccessDegraded || d.access == AccessChallenge);
      && (out != [] <==> bad || Recovers(d, episode))
      && (out != [] ==>
            var c := out[0];
            && |out| == 1 && c.action == Record && c.subject == MONITORING && c.scope == map[SiteKey := Some(p.site)]
            && c.severity.None? && c.detectedAt == d.observedAt && c.occurredBefore == d.observedAt
            && (d.access == AccessDegraded ==> c.code == BrowserSourceDegraded)
            && (d.access == AccessChallenge ==> c.code == BrowserAccessChallengeSuspected)
            && (bad ==> c.occurredAfter.None? && c.evidence == [At(d.run, TriggerAfter)])
            && (Recovers(d, episode) ==>
                  && c.code == BrowserSourceRecovered && c.occurredAfter == Some(episode.value.detectedAt)
                  && c.evidence == [At(episode.value.trigger.value, Before), At(d.run, TriggerAfter)]))
  {
  }
}
