/** The repository itself: the loops and in-place updates, against the functions of EventStore. */
module EventRepository {
  import opened Contracts
  import opened Lifecycle
  import opened EventStore
  import opened EventInvariants

  class Repository {
    const runs: Runs
    var events: map<EventId, Event>
    var refs: set<Ref>
    var serial: nat

    ghost function Contents(): Store
      reads this
    {
      Store(events, refs, serial)
    }

    ghost predicate Valid()
      reads this
    {
      Inv(Contents())
    }

    constructor (runs: Runs)
      ensures this.runs == runs && Valid() && Contents() == EMPTY
    {
      this.runs := runs;
      events, refs, serial := map[], {}, 0;
    }

    method ActiveCondition(key: ConditionKey) returns (r: Option<EventId>)
      requires Valid()
      ensures r == FindActive(Contents(), key)
    {
      r := None;
      if id :| id in events && events[id].status == Active && events[id].key == Some(key) {
        assert IsActive(Contents(), id, key);
        r := Some(id);
      } else {
        assert forall id :: !IsActive(Contents(), id, key);
      }
    }

    method InsertCandidateEvidence(tenant: Id, site: Id, id: EventId, pointers: seq<Pointer>,
                                   skipLinked: bool, level: ScopeValidation)
      returns (r: Result<nat>)
      modifies this`refs
      ensures match InsertEvidence(runs, old(Contents()), tenant, site, id, pointers, skipLinked, level)
        case Ok((refs', n)) => r == Ok(n) && Contents() == old(Contents()).(refs := refs')
        case Err(e) => r == Err(e)
    {
      if id !in events || events[id].tenant != tenant || events[id].site != site {
        return Err(EventOwnership);
      }
      var event := events[id];
      var inserted: nat := 0;
      var seen: set<(Id, Relation)> := {};
      for i := 0 to |pointers|
        invariant InsertPointers(runs, old(refs), id, event, pointers, {}, skipLinked, level, 0)
                  == InsertPointers(runs, refs, id, event, pointers[i..], seen, skipLinked, level, inserted)
      {
        var p := pointers[i];
        assert pointers[i..][0] == p && pointers[i..][1..] == pointers[i + 1..];
        if p.relation == OtherRelation {
          return Err(UnsupportedRelation);
        }
        if p.kind != CheckpointRun {
          return Err(UnsupportedEvidenceKind);
        }
        if (p.source, p.relation) !in seen {
          seen := seen + {(p.source, p.relation)};
          var error := PointerError(runs, event, p, level);
          if error.Some? {
            return Err(error.value);
          }
          var linked := exists r :: r in refs && r.event == id && r.kind == CheckpointRef && r.source == p.source;
          if !(skipLinked && linked) {
            if NeedsSpecific(event.code, p.relation) && !HasSpecific(event, runs[p.source]) {
              return Err(MissingSpecificEvidence);
            }
            if Ref(id, CheckpointRef, p.source, p.relation) !in refs {
              inserted := inserted + 1;
            }
            refs := Link(runs, refs, id, event, p);
          }
        }
      }
      return Ok(inserted);
    }

    method PersistPointRow(a: Anchor, c: Candidate, row: Event, level: ScopeValidation) returns (r: Result<Outcome>)
      modifies this
      ensures match PersistPointEvent(runs, old(Contents()), a, c, row, level)
        case Ok((s, o)) => r == Ok(o) && Contents() == s
        case Err(e) => r == Err(e)
    {
      if !RowConstraints(row) {
        return Err(CheckViolation);
      }
      var id := PointEventId(a, c, row.scope);
      var created := !Conflicts(Store(events, refs, serial), id, row);
      if created {
        events, serial := events[id := row.(serial := serial)], serial + 1;
      }
      var inserted := InsertCandidateEvidence(a.tenant, a.site, id, c.evidence, false, level);
      if inserted.Err? {
        return Err(inserted.error);
      }
      return Ok(if created then Created(id) else Ignored);
    }

    /** The shared tail: evidence is linked first, and only new checkpoints update the row. */
    method SupportCondition(a: Anchor, c: Candidate, id: EventId) returns (r: Result<Outcome>)
      requires id in events
      modifies this
      ensures match SupportActive(runs, old(Contents()), a, c, id)
        case Ok((s, o)) => r == Ok(o) && Contents() == s
        case Err(e) => r == Err(e)
    {
      InsertEvidenceGrow(runs, Contents(), a.tenant, a.site, id, AsSupport(c.evidence), true, Strict);
      var inserted := InsertCandidateEvidence(a.tenant, a.site, id, AsSupport(c.evidence), true, Strict);
      if inserted.Err? {
        return Err(inserted.error);
      }
      if inserted.value == 0 {
        return Ok(Ignored);
      }
      var row := events[id];
      var latest := c.detectedAt.Or(a.currentAt);
      var progress := row.progress;
      progress := progress.(latest := Some(Max(progress.latest.Or(latest), latest)));
      progress := progress.(supporting := progress.supporting + inserted.value);
      progress := progress.(affected := Max(progress.affected, c.affectedUrls));
      progress := progress.(valid := Max(progress.valid, c.validUrls));
      progress := progress.(blast := Max(progress.blast, BlastRadius(c)));
      events := events[id := row.(progress := progress, severity := HigherSeverity(row.severity, SeverityOf(c)))];
      return Ok(Updated(id));
    }

    /** `raced`: the first select ran before a competing creator committed, and found nothing. */
    method PersistCondition(a: Anchor, c: Candidate, raced: bool) returns (r: Result<Outcome>)
      requires Valid()
      modifies this
      ensures match PersistConditionFrom(runs, old(Contents()), a, c,
                                         if raced then None else FindActive(old(Contents()), KeyOf(a, c)))
        case Ok((s, o)) => r == Ok(o) && Contents() == s
        case Err(e) => r == Err(e)
    {
      var key := KeyOf(a, c);
      var scope := NormalizedScope(c.scope);
      var active: Option<EventId> := None;
      if !raced {
        active := ActiveCondition(key);
      }
      if active.None? {
        if c.action == Support {
          return Ok(Ignored);
        }
        if TemplateKey !in scope {
          return Err(InvalidScope);
        }
        var id, row := ConditionEventId(a, c), ConditionRow(a, c, scope[TemplateKey]);
        if !RowConstraints(row) {
          return Err(CheckViolation);
        }
        if !Conflicts(Store(events, refs, serial), id, row) {
          events, serial := events[id := row.(serial := serial)], serial + 1;
          var inserted := InsertCandidateEvidence(a.tenant, a.site, id, c.evidence, false, Strict);
          if inserted.Err? {
            return Err(inserted.error);
          }
          return Ok(Created(id));
        }
        active := ActiveCondition(key);
        if active.None? {
          return Err(ActiveConflict);
        }
      }
      r := SupportCondition(a, c, active.value);
    }

    method ResolveActive(a: Anchor, c: Candidate) returns (r: Result<Outcome>)
      requires Valid()
      modifies this
      ensures match ResolveCondition(runs, old(Contents()), a, c)
        case Ok((s, o)) => r == Ok(o) && Contents() == s
        case Err(e) => r == Err(e)
    {
      var active := ActiveCondition(KeyOf(a, c));
      if active.None? {
        return Ok(Ignored);
      }
      var id := active.value;
      var detectedAt := c.detectedAt.Or(a.currentAt);
      if detectedAt < events[id].detectedAt {
        return Ok(Ignored);
      }
      InsertEvidenceGrow(runs, Contents(), a.tenant, a.site, id, c.evidence, true, Strict);
      var inserted := InsertCandidateEvidence(a.tenant, a.site, id, c.evidence, true, Strict);
      if inserted.Err? {
        return Err(inserted.error);
      }
      if inserted.value == 0 {
        return Ok(Ignored);
      }
      var row := events[id];
      var progress := row.progress.(latest := Some(detectedAt), resolvedAfter := c.occurredAfter,
                                    resolvedBefore := Some(c.occurredBefore.Or(detectedAt)));
      row := row.(progress := progress);
      row := row.(endedAt := Some(detectedAt));
      row := row.(status := Resolved);
      events := events[id := row];
      return Ok(Updated(id));
    }

    method PersistCandidate(a: Anchor, c: Candidate, raced: bool) returns (r: Result<Outcome>)
      requires Valid()
      modifies this
      ensures match PersistOne(runs, old(Contents()), a, c, raced)
        case Ok((s, o)) => r == Ok(o) && Contents() == s
        case Err(e) => r == Err(e)
    {
      if c.action == Pending {
        return Ok(Ignored);
      }
      if c.action == Record {
        if RuleOf(c.code).kind != Point {
          return Err(WrongKind);
        }
        var scope := NormalizedScope(c.scope);
        if TemplateKey !in scope {
          return Err(InvalidScope);
        }
        var after := if c.occurredAfter.Some? then c.occurredAfter else a.previousAt;
        var row := PointRow(a, c, scope, Some(scope[TemplateKey]),
                            c.detectedAt.Or(a.currentAt), c.occurredBefore.Or(a.currentAt), after);
        r := PersistPointRow(a, c, row, Strict);
        return;
      }
      if RuleOf(c.code).kind != Condition {
        return Err(WrongKind);
      }
      if c.action == Resolve {
        r := ResolveActive(a, c);
      } else {
        r := PersistCondition(a, c, raced);
      }
    }

    method Persist(a: Anchor, candidates: seq<Candidate>) returns (r: Result<Tally>)
      requires Valid()
      modifies this
      ensures Valid()
      ensures match PersistAll(runs, old(Contents()), a, candidates, NOTHING)
        case Ok((s, t)) => r == Ok(t) && Contents() == s
        case Err(e) => r == Err(e) && Contents() == old(Contents())
    {
      var savedEvents, savedRefs, savedSerial := events, refs, serial;
      var tally := NOTHING;
      for i := 0 to |candidates|
        invariant Valid()
        invariant PersistAll(runs, old(Contents()), a, candidates, NOTHING)
                  == PersistAll(runs, Contents(), a, candidates[i..], tally)
      {
        var c := candidates[i];
        assert candidates[i..][0] == c && candidates[i..][1..] == candidates[i + 1..];
        PersistOneStep(runs, Contents(), a, c, false);
        var outcome := PersistCandidate(a, c, false);
        if outcome.Err? {
          events, refs, serial := savedEvents, savedRefs, savedSerial;
          return Err(outcome.error);
        }
        tally := Counted(tally, outcome.value, c);
      }
      return Ok(tally);
    }

    method PersistDiagnostic(a: Anchor, observedAt: Option<Time>, candidates: seq<Candidate>) returns (r: Result<Tally>)
      requires Valid()
      modifies this
      ensures Valid()
      ensures match PersistDiagnosticAll(runs, old(Contents()), a, observedAt, candidates, NOTHING)
        case Ok((s, t)) => r == Ok(t) && Contents() == s
        case Err(e) => r == Err(e) && Contents() == old(Contents())
    {
      var savedEvents, savedRefs, savedSerial := events, refs, serial;
      var tally := NOTHING;
      for i := 0 to |candidates|
        invariant Valid()
        invariant PersistDiagnosticAll(runs, old(Contents()), a, observedAt, candidates, NOTHING)
                  == PersistDiagnosticAll(runs, Contents(), a, observedAt, candidates[i..], tally)
      {
        var c := candidates[i];
        assert candidates[i..][0] == c && candidates[i..][1..] == candidates[i + 1..];
        if RuleOf(c.code).kind != Point || c.action != Record {
          events, refs, serial := savedEvents, savedRefs, savedSerial;
          return Err(WrongKind);
        }
        var observed := if c.detectedAt.Some? then c.detectedAt else observedAt;
        if observed.None? {
          events, refs, serial := savedEvents, savedRefs, savedSerial;
          return Err(MissingObservationTime);
        }
        var row := PointRow(a, c, NormalizedScope(c.scope), None, observed.value,
                            c.occurredBefore.Or(observed.value), c.occurredAfter);
        PointStep(runs, Contents(), a, c, row, SourceLevel, KeyOf(a, c));
        var outcome := PersistPointRow(a, c, row, SourceLevel);
        if outcome.Err? {
          events, refs, serial := savedEvents, savedRefs, savedSerial;
          return Err(outcome.error);
        }
        tally := Counted(tally, outcome.value, c);
      }
      return Ok(tally);
    }
  }
}
