/**
  The JavaScript-error condition of one URL and scenario, over a whole history of checkpoints
  that are delivered first in order and may then be redelivered at any time.
*/
module JsHistory {
  import opened Contracts
  import opened Lifecycle
  import opened EventStore
  import opened EventInvariants
  import opened Evaluator

  datatype Place = Place(tenant: Id, site: Id, url: Id, template: Id, scenario: Id)

  datatype Checkpoint = Checkpoint(run: Id, at: Time, status: RunStatus, state: PageState)

  type History = seq<Checkpoint>

  function Errors(h: History, i: nat): set<Name>
    requires i < |h|
  {
    Items(h[i].state, JavascriptPart)
  }

  /** Gap-free, time-ordered, valid and comparable; the stored runs are the ones of this place. */
  ghost predicate Proper(runs: Runs, p: Place, h: History) {
    && (forall i :: 0 <= i < |h| ==> ValidStatus(h[i].status))
    && (forall i, j :: 0 <= i < j < |h| ==> h[i].at < h[j].at && h[i].run != h[j].run)
    && (forall i, part :: 0 < i < |h| && part in PARTS ==> Comparable(h[i - 1].state, h[i].state, part))
    && (forall i :: 0 <= i < |h| ==> h[i].run in runs && RowFor(runs[h[i].run], p, Errors(h, i)))
  }

  predicate RowFor(row: RunRow, p: Place, errors: set<Name>) {
    && row.tenant == p.tenant && row.site == p.site && row.url == p.url
    && row.template == p.template && row.scenario == p.scenario
    && row.jsErrors == errors
  }

  /** The input loaded for checkpoint `j`: its recorded predecessor and that one's predecessor. */
  function Input(p: Place, h: History, j: nat): EvaluationInput
    requires 1 <= j < |h|
  {
    EvaluationInput(p.tenant, p.site, p.url, p.template, p.scenario,
                    h[j - 1].run, h[j].run, h[j - 1].at, h[j].at, h[j - 1].status, h[j].status,
                    ExactMonitoredUrl, h[j - 1].state, h[j].state, map[], map[],
                    if j >= 2 then Some(Prior(h[j - 2].run, h[j - 2].at, h[j - 2].status, h[j - 2].state)) else None)
  }

  function PlaceScope(p: Place): Scope {
    map[ScenarioKey := p.scenario, TemplateKey := p.template, UrlKey := p.url]
  }

  function JsKey(p: Place, f: Name): ConditionKey {
    ConditionKey(p.tenant, p.site, JsErrorStarted, f, PlaceScope(p))
  }

  predicate OwnKey(p: Place, key: ConditionKey) {
    key == JsKey(p, key.subject)
  }

  // ---------------------------------------------------------------- the history predicate

  predicate Present(h: History, f: Name, s: nat, k: nat) {
    k < |h| && forall m :: s <= m <= k ==> f in Errors(h, m)
  }

  /** Absent at `s - 1`, present at `s` and at `s + 1`. */
  predicate Onset(h: History, f: Name, s: nat) {
    1 <= s && s + 1 < |h| && f !in Errors(h, s - 1) && f in Errors(h, s) && f in Errors(h, s + 1)
  }

  function RowId(p: Place, h: History, f: Name, s: nat): EventId
    requires s < |h|
  {
    ConditionId(JsKey(p, f), multiset{h[s].run}, Some(h[s].at))
  }

  predicate RowFits(e: Event, p: Place, h: History, f: Name, s: nat, k: nat)
    requires s + 1 < |h|
  {
    && e.tenant == p.tenant && e.site == p.site && e.code == JsErrorStarted && e.subject == f
    && e.scope == PlaceScope(p) && e.key == Some(JsKey(p, f)) && e.detectedAt == h[s + 1].at
    && e.status == if Present(h, f, s, k) then Active else Resolved
  }

  /**
    After checkpoints 0..k the rows of a fingerprint are exactly its confirmed onsets, each active
    while the error stayed, and none of them is linked to a checkpoint still to come.
  */
  ghost predicate Tracks(s: Store, p: Place, h: History, f: Name, k: nat) {
    && (forall id: EventId :: id in s.events && id.ConditionId? && id.key == JsKey(p, f) ==>
          exists i: nat :: i < k < |h| && Onset(h, f, i) && id == RowId(p, h, f, i))
    && (forall i: nat :: i < k < |h| && Onset(h, f, i) ==>
          RowId(p, h, f, i) in s.events && RowFits(s.events[RowId(p, h, f, i)], p, h, f, i, k))
    && (forall i: nat, j :: i < k < j < |h| && Onset(h, f, i) ==> !IsLinked(s.refs, RowId(p, h, f, i), h[j].run))
  }

  // ---------------------------------------------------------------- frames

  lemma ForeignStep(s: Store, s': Store, p: Place, h: History, f: Name, k: nat, key: ConditionKey)
    requires Inv(s) && Step(s, s', key) && key != JsKey(p, f)
    requires Tracks(s, p, h, f, k)
    ensures Tracks(s', p, h, f, k)
  {
    forall i: nat | i < k < |h| && Onset(h, f, i)
      ensures RowId(p, h, f, i) in s'.events && RowFits(s'.events[RowId(p, h, f, i)], p, h, f, i, k)
    {
      assert Keeps(s, s', RowId(p, h, f, i));
    }
    forall i: nat, j | i < k < j < |h| && Onset(h, f, i)
      ensures !IsLinked(s'.refs, RowId(p, h, f, i), h[j].run)
    {
      assert Keeps(s, s', RowId(p, h, f, i));
    }
  }

  // ---------------------------------------------------------------- evidence always fits

  predicate PointerFits(runs: Runs, e: Event, ptr: Pointer) {
    && ptr.relation != OtherRelation && ptr.kind == CheckpointRun
    && PointerError(runs, e, ptr, Strict).None?
    && (NeedsSpecific(e.code, ptr.relation) ==> HasSpecific(e, runs[ptr.source]))
  }

  lemma {:induction false} FittingPointersInsert(runs: Runs, refs: set<Ref>, id: EventId, e: Event, ps: seq<Pointer>,
                                                 seen: set<(Id, Relation)>, skip: bool, n: nat)
    requires forall ptr :: ptr in ps ==> PointerFits(runs, e, ptr)
    ensures InsertPointers(runs, refs, id, e, ps, seen, skip, Strict, n).Ok?
    decreases |ps|
  {
    if ps != [] {
      var ptr, rest := ps[0], ps[1..];
      assert PointerFits(runs, e, ptr);
      var seen' := seen + {(ptr.source, ptr.relation)};
      FittingPointersInsert(runs, refs, id, e, rest, seen, skip, n);
      FittingPointersInsert(runs, refs, id, e, rest, seen', skip, n);
      var isNew := Ref(id, CheckpointRef, ptr.source, ptr.relation) !in refs;
      FittingPointersInsert(runs, Link(runs, refs, id, e, ptr), id, e, rest, seen', skip, if isNew then n + 1 else n);
    }
  }

  lemma OwnPointerFits(runs: Runs, p: Place, h: History, f: Name, e: Event, i: nat, relation: Relation)
    requires Proper(runs, p, h) && i < |h| && relation != OtherRelation
    requires e.tenant == p.tenant && e.site == p.site && e.code == JsErrorStarted && e.subject == f && e.scope == PlaceScope(p)
    requires relation == TriggerBefore || relation == Recovery || f in Errors(h, i)
    ensures PointerFits(runs, e, At(h[i].run, relation))
  {
    assert RowFor(runs[h[i].run], p, Errors(h, i));
  }

  lemma CandidateScope(p: Place, h: History, j: nat)
    requires 1 <= j < |h|
    ensures NormalizedScope(ExactScope(Input(p, h, j))) == PlaceScope(p)
  {
  }

  lemma InputIsEvaluated(runs: Runs, p: Place, h: History, j: nat)
    requires Proper(runs, p, h) && 1 <= j < |h|
    ensures Evaluate(Input(p, h, j)) == JsCandidates(Input(p, h, j))
    ensures PriorComparable(Input(p, h, j)) <==> j >= 2
  {
    var v := Input(p, h, j);
    assert forall part :: part in PARTS ==> Comparable(v.previousState, v.currentState, part);
    NoSkips(v, PARTS);
    if j >= 2 {
      assert JavascriptPart in PARTS by {
        assert PARTS[2] == JavascriptPart;
      }
      assert Comparable(h[(j - 1) - 1].state, h[j - 1].state, JavascriptPart);
    }
  }

  lemma {:induction false} NoSkips(v: EvaluationInput, parts: seq<ComponentName>)
    requires forall part :: part in parts ==> Comparable(v.previousState, v.currentState, part)
    ensures PartSkips(v, parts) == []
  {
    if parts != [] {
      assert Comparable(v.previousState, v.currentState, parts[|parts| - 1]);
      NoSkips(v, parts[..|parts| - 1]);
    }
  }

  // ---------------------------------------------------------------- the active row

  lemma ActiveRow(s: Store, p: Place, h: History, f: Name, k: nat) returns (i: nat)
    requires Inv(s) && Tracks(s, p, h, f, k) && k < |h|
    ensures FindActive(s, JsKey(p, f)).None? ==> forall m: nat :: m < k && Onset(h, f, m) ==> !Present(h, f, m, k)
    ensures FindActive(s, JsKey(p, f)).Some? ==>
      && i < k && Onset(h, f, i) && Present(h, f, i, k)
      && FindActive(s, JsKey(p, f)) == Some(RowId(p, h, f, i)) && IsActive(s, RowId(p, h, f, i), JsKey(p, f))
      && (forall m: nat :: m < k && Onset(h, f, m) && m != i ==> !Present(h, f, m, k))
  {
    var key := JsKey(p, f);
    i := 0;
    if FindActive(s, key).None? {
      forall m: nat | m < k && Onset(h, f, m)
        ensures !Present(h, f, m, k)
      {
        assert !IsActive(s, RowId(p, h, f, m), key);
      }
    } else {
      var id := FindActive(s, key).value;
      assert IsActive(s, id, key);
      assert RowOk(id, s.events[id]);
      i :| i < k < |h| && Onset(h, f, i) && id == RowId(p, h, f, i);
      assert RowFits(s.events[id], p, h, f, i, k);
      forall m: nat | m < k && Onset(h, f, m) && m != i
        ensures !Present(h, f, m, k)
      {
        assert RowFits(s.events[RowId(p, h, f, m)], p, h, f, m, k);
        if Present(h, f, m, k) {
          assert RowId(p, h, f, m) == id;
          OnsetsDiffer(h, f, i, m, k);
        }
      }
    }
  }

  /** An error present without a break from two onsets would have been absent in between. */
  lemma OnsetsDiffer(h: History, f: Name, i: nat, m: nat, k: nat)
    requires Onset(h, f, i) && Onset(h, f, m) && i <= k && m <= k && Present(h, f, i, k) && Present(h, f, m, k)
    ensures i == m
  {
  }

  lemma RowIdsDiffer(runs: Runs, p: Place, h: History, f: Name, i: nat, m: nat)
    requires Proper(runs, p, h) && i < |h| && m < |h| && i != m
    ensures RowId(p, h, f, i) != RowId(p, h, f, m)
  {
    assert h[i].at != h[m].at;
  }

  /** Whether anything is still open changes only with the newest checkpoint. */
  predicate SameOpen(h: History, f: Name, k: nat, k': nat) {
    && k <= k' < |h|
    && (forall m: nat :: m < k' && Onset(h, f, m) ==> m < k)
    && (forall m: nat :: m < k && Onset(h, f, m) ==> (Present(h, f, m, k) <==> Present(h, f, m, k')))
  }

  lemma Untouched(s: Store, p: Place, h: History, f: Name, k: nat, k': nat)
    requires Tracks(s, p, h, f, k) && SameOpen(h, f, k, k')
    ensures Tracks(s, p, h, f, k')
  {
    forall i: nat | i < k' < |h| && Onset(h, f, i)
      ensures RowId(p, h, f, i) in s.events && RowFits(s.events[RowId(p, h, f, i)], p, h, f, i, k')
    {
      assert RowFits(s.events[RowId(p, h, f, i)], p, h, f, i, k);
    }
  }

  ghost predicate LinksOnly(refs: set<Ref>, refs': set<Ref>, id: EventId, sources: set<Id>) {
    && refs <= refs'
    && forall r :: r in refs' && r !in refs ==> r.event == id && r.source in sources
  }

  ghost predicate NotYet(h: History, k: nat, sources: set<Id>) {
    forall j :: k < j < |h| ==> h[j].run !in sources
  }

  /** Re-establishing the invariant after one row `i` was rewritten in place. */
  lemma Rewritten(runs: Runs, s: Store, s': Store, p: Place, h: History, f: Name, k: nat, k': nat, i: nat, sources: set<Id>)
    requires Proper(runs, p, h) && Tracks(s, p, h, f, k) && k <= k' < |h|
    requires i < k && Onset(h, f, i)
    requires s'.events.Keys == s.events.Keys
    requires forall id: EventId :: id in s.events && id.ConditionId? && id != RowId(p, h, f, i) ==> s'.events[id] == s.events[id]
    requires RowFits(s'.events[RowId(p, h, f, i)], p, h, f, i, k')
    requires LinksOnly(s.refs, s'.refs, RowId(p, h, f, i), sources) && NotYet(h, k', sources)
    requires forall m: nat :: m < k' && Onset(h, f, m) ==> m < k
    requires forall m: nat :: m < k && Onset(h, f, m) && m != i ==> (Present(h, f, m, k) <==> Present(h, f, m, k'))
    ensures Tracks(s', p, h, f, k')
  {
    forall m: nat | m < k' < |h| && Onset(h, f, m)
      ensures RowId(p, h, f, m) in s'.events && RowFits(s'.events[RowId(p, h, f, m)], p, h, f, m, k')
    {
      assert RowFits(s.events[RowId(p, h, f, m)], p, h, f, m, k);
      if m != i {
        RowIdsDiffer(runs, p, h, f, i, m);
      }
    }
    forall m: nat, j | m < k' < j < |h| && Onset(h, f, m)
      ensures !IsLinked(s'.refs, RowId(p, h, f, m), h[j].run)
    {
      assert !IsLinked(s.refs, RowId(p, h, f, m), h[j].run);
    }
  }

  // ---------------------------------------------------------------- first delivery

  ghost predicate Delivered(r: Result<(Store, Outcome)>, p: Place, h: History, f: Name, k: nat) {
    r.Ok? && Tracks(r.value.0, p, h, f, k)
  }

  lemma FirstUpsert(runs: Runs, s: Store, p: Place, h: History, f: Name, k: nat)
    requires Proper(runs, p, h) && Inv(s) && Tracks(s, p, h, f, k)
    requires 1 <= k && k + 1 < |h| && f !in Errors(h, k - 1) && f in Errors(h, k) && f in Errors(h, k + 1)
    ensures var v := Input(p, h, k + 1);
      Delivered(PersistOne(runs, s, AnchorOf(v), Confirmed(v, f), false), p, h, f, k + 1)
  {
    hide Tracks, Proper, Inv, Input, Confirmed, AnchorOf, PersistOne, InsertEvidence, ConditionRow, Insert, RowId, KeyOf;
    var a, c := AnchorOf(Input(p, h, k + 1)), Confirmed(Input(p, h, k + 1), f);
    UpsertShape(runs, p, h, f, k);
    NothingOpen(runs, s, p, h, f, k);
    CreateOutcome(runs, s, a, c, p.template);
    CreatesRow(runs, s, p, h, f, k, a, c);
  }

  lemma UpsertShape(runs: Runs, p: Place, h: History, f: Name, k: nat)
    requires Proper(runs, p, h) && 1 <= k && k + 1 < |h|
    requires f !in Errors(h, k - 1) && f in Errors(h, k) && f in Errors(h, k + 1)
    ensures var v := Input(p, h, k + 1);
      var a, c := AnchorOf(v), Confirmed(v, f);
      && a.tenant == p.tenant && a.site == p.site
      && c.action == Upsert && c.code == JsErrorStarted && c.detectedAt == Some(h[k + 1].at)
      && KeyOf(a, c) == JsKey(p, f) && ConditionEventId(a, c) == RowId(p, h, f, k)
      && c.evidence == [At(h[k - 1].run, TriggerBefore), At(h[k].run, TriggerAfter), At(h[k + 1].run, Relation.Supporting)]
      && NormalizedScope(c.scope) == PlaceScope(p)
      && RowConstraints(ConditionRow(a, c, p.template))
  {
    InputIsEvaluated(runs, p, h, k + 1);
    CandidateScope(p, h, k + 1);
    OneTrigger(At(h[k - 1].run, TriggerBefore), At(h[k].run, TriggerAfter), At(h[k + 1].run, Relation.Supporting));
    TimesIncrease(runs, p, h);
  }

  lemma CreatesRow(runs: Runs, s: Store, p: Place, h: History, f: Name, k: nat, a: Anchor, c: Candidate)
    requires Proper(runs, p, h) && Inv(s) && Tracks(s, p, h, f, k) && 1 <= k && k + 1 < |h| && Onset(h, f, k)
    requires a.tenant == p.tenant && a.site == p.site && c.code == JsErrorStarted && KeyOf(a, c) == JsKey(p, f)
    requires c.detectedAt == Some(h[k + 1].at) && ConditionEventId(a, c) == RowId(p, h, f, k)
    requires c.evidence == [At(h[k - 1].run, TriggerBefore), At(h[k].run, TriggerAfter), At(h[k + 1].run, Relation.Supporting)]
    ensures var s' := Insert(s, RowId(p, h, f, k), ConditionRow(a, c, p.template));
      var r := InsertEvidence(runs, s', p.tenant, p.site, RowId(p, h, f, k), c.evidence, false, Strict);
      r.Ok? && Tracks(s'.(refs := r.value.0), p, h, f, k + 1)
  {
    NothingOpen(runs, s, p, h, f, k);
    hide Tracks, Proper, InsertEvidence;
    var id := RowId(p, h, f, k);
    var s' := Insert(s, id, ConditionRow(a, c, p.template));
    FreshRowLinks(runs, s', p, h, f, k, c.evidence);
    var r := InsertEvidence(runs, s', p.tenant, p.site, id, c.evidence, false, Strict);
    CreatedTracks(runs, s, s'.(refs := r.value.0), p, h, f, k);
  }

  lemma TimesIncrease(runs: Runs, p: Place, h: History)
    requires Proper(runs, p, h)
    ensures forall i, j :: 0 <= i < j < |h| ==> h[i].at < h[j].at
  {
  }

  /** An error absent at `k - 1` has no open row, and no row yet with the id of onset `k`. */
  lemma NothingOpen(runs: Runs, s: Store, p: Place, h: History, f: Name, k: nat)
    requires Proper(runs, p, h) && Inv(s) && Tracks(s, p, h, f, k) && 1 <= k < |h| && f !in Errors(h, k - 1)
    ensures FindActive(s, JsKey(p, f)).None?
    ensures forall m: nat :: m < k && Onset(h, f, m) ==> !Present(h, f, m, k)
    ensures RowId(p, h, f, k) !in s.events
  {
    var active := ActiveRow(s, p, h, f, k);
    forall i: nat | i < k
      ensures RowId(p, h, f, i) != RowId(p, h, f, k)
    {
      RowIdsDiffer(runs, p, h, f, i, k);
    }
  }

  lemma CreateOutcome(runs: Runs, s: Store, a: Anchor, c: Candidate, template: Id)
    requires c.action == Upsert && c.code == JsErrorStarted
    requires FindActive(s, KeyOf(a, c)).None? && ConditionEventId(a, c) !in s.events
    requires TemplateKey in NormalizedScope(c.scope) && NormalizedScope(c.scope)[TemplateKey] == template
    ensures var id, row := ConditionEventId(a, c), ConditionRow(a, c, template);
      var s' := Insert(s, id, row);
      var r := InsertEvidence(runs, s', a.tenant, a.site, id, c.evidence, false, Strict);
      RowConstraints(row) && r.Ok? ==> PersistOne(runs, s, a, c, false) == Ok((s'.(refs := r.value.0), Created(id)))
  {
    var id, row := ConditionEventId(a, c), ConditionRow(a, c, template);
    assert forall other :: !IsActive(s, other, KeyOf(a, c));
    assert !Conflicts(s, id, row);
  }

  lemma OneTrigger(x: Pointer, y: Pointer, z: Pointer)
    requires x.relation != TriggerAfter && y.relation == TriggerAfter && z.relation != TriggerAfter
    ensures TriggersOf([x, y, z]) == multiset{y.source}
  {
    assert [x, y, z][1..] == [y, z] && [y, z][1..] == [z] && [z][1..] == [];
    assert TriggersOf([z]) == multiset{} + TriggersOf([]);
    assert TriggersOf([y, z]) == multiset{y.source} + TriggersOf([z]);
  }

  lemma FreshRowLinks(runs: Runs, s: Store, p: Place, h: History, f: Name, k: nat, ps: seq<Pointer>)
    requires Proper(runs, p, h) && 1 <= k && k + 1 < |h| && Onset(h, f, k)
    requires RowId(p, h, f, k) in s.events && RowFits(s.events[RowId(p, h, f, k)], p, h, f, k, k + 1)
    requires ps == [At(h[k - 1].run, TriggerBefore), At(h[k].run, TriggerAfter), At(h[k + 1].run, Relation.Supporting)]
    ensures var r := InsertEvidence(runs, s, p.tenant, p.site, RowId(p, h, f, k), ps, false, Strict);
      r.Ok? && LinksOnly(s.refs, r.value.0, RowId(p, h, f, k), {h[k - 1].run, h[k].run, h[k + 1].run})
  {
    var id := RowId(p, h, f, k);
    var e := s.events[id];
    OwnPointerFits(runs, p, h, f, e, k - 1, TriggerBefore);
    OwnPointerFits(runs, p, h, f, e, k, TriggerAfter);
    OwnPointerFits(runs, p, h, f, e, k + 1, Relation.Supporting);
    FittingPointersInsert(runs, s.refs, id, e, ps, {}, false, 0);
    InsertEvidenceGrow(runs, s, p.tenant, p.site, id, ps, false, Strict);
  }

  lemma CreatedTracks(runs: Runs, s: Store, s': Store, p: Place, h: History, f: Name, k: nat)
    requires Proper(runs, p, h) && Tracks(s, p, h, f, k) && 1 <= k && k + 1 < |h| && Onset(h, f, k) && Inv(s)
    requires forall m: nat :: m < k && Onset(h, f, m) ==> !Present(h, f, m, k)
    requires RowId(p, h, f, k) !in s.events && s'.events.Keys == s.events.Keys + {RowId(p, h, f, k)}
    requires forall id :: id in s.events ==> s'.events[id] == s.events[id]
    requires RowFits(s'.events[RowId(p, h, f, k)], p, h, f, k, k + 1)
    requires LinksOnly(s.refs, s'.refs, RowId(p, h, f, k), {h[k - 1].run, h[k].run, h[k + 1].run})
    ensures Tracks(s', p, h, f, k + 1)
  {
    forall m: nat | m < k + 1 < |h| && Onset(h, f, m)
      ensures RowId(p, h, f, m) in s'.events && RowFits(s'.events[RowId(p, h, f, m)], p, h, f, m, k + 1)
    {
      if m < k {
        assert RowFits(s.events[RowId(p, h, f, m)], p, h, f, m, k);
      }
    }
    forall m: nat, j | m < k + 1 < j < |h| && Onset(h, f, m)
      ensures !IsLinked(s'.refs, RowId(p, h, f, m), h[j].run)
    {
      if m < k {
        assert !IsLinked(s.refs, RowId(p, h, f, m), h[j].run);
        RowIdsDiffer(runs, p, h, f, m, k);
      }
    }
  }

  /** Linking one own checkpoint to the active row of `i` rewrites it without changing its status. */
  lemma SupportOwn(runs: Runs, s: Store, p: Place, h: History, f: Name, k: nat, k': nat, i: nat, a: Anchor, c: Candidate)
    requires Proper(runs, p, h) && Inv(s) && Tracks(s, p, h, f, k) && k <= k' < |h|
    requires i < k && Onset(h, f, i) && Present(h, f, i, k) && Present(h, f, i, k')
    requires a.tenant == p.tenant && a.site == p.site && KeyOf(a, c) == JsKey(p, f)
    requires SameOpen(h, f, k, k')
    requires IsActive(s, RowId(p, h, f, i), JsKey(p, f))
    requires NotYet(h, k', Runs(c.evidence))
    ensures var r := SupportActive(runs, s, a, c, RowId(p, h, f, i));
      r.Ok? ==> Tracks(r.value.0, p, h, f, k')
  {
    hide Proper, Tracks, Inv, RowFits, RowId, SupportActive, Supported, Present, NotYet, LinksOnly, Runs, KeyOf, JsKey;
    var id := RowId(p, h, f, i);
    var r := SupportActive(runs, s, a, c, id);
    TrackedRow(s, p, h, f, k, i);
    SupportWrites(runs, s, a, c, id);
    if r.Ok? {
      if r.value.1.Ignored? {
        Untouched(s, p, h, f, k, k');
      } else {
        var n: nat :| r.value.0.events == s.events[id := Supported(s.events[id], a, c, n)];
        SupportedFits(s.events[id], p, h, f, i, k, k', a, c, n);
        Rewritten(runs, s, r.value.0, p, h, f, k, k', i, Runs(c.evidence));
      }
    }
  }

  /** What support does to the row: nothing, or an update in place and links to the candidate's runs only. */
  lemma SupportWrites(runs: Runs, s: Store, a: Anchor, c: Candidate, id: EventId)
    requires id in s.events
    ensures var r := SupportActive(runs, s, a, c, id);
      r.Ok? ==>
        if r.value.1.Ignored? then r.value.0 == s
        else
          && LinksOnly(s.refs, r.value.0.refs, id, Runs(c.evidence))
          && exists n: nat :: r.value.0.events == s.events[id := Supported(s.events[id], a, c, n)]
  {
    hide InsertEvidence, Supported, AsSupport, Runs;
    var ps := AsSupport(c.evidence);
    AsSupportRuns(c.evidence);
    InsertEvidenceGrow(runs, s, a.tenant, a.site, id, ps, true, Strict);
    var inserted := InsertEvidence(runs, s, a.tenant, a.site, id, ps, true, Strict);
    if inserted.Ok? {
      forall x | x in inserted.value.0 && x !in s.refs
        ensures x.event == id && x.source in Runs(c.evidence)
      {
        var ptr :| ptr in ps && ptr.source == x.source;
      }
      var n := inserted.value.1;
    }
  }

  lemma SupportedFits(e: Event, p: Place, h: History, f: Name, i: nat, k: nat, k': nat, a: Anchor, c: Candidate, n: nat)
    requires i < k <= k' < |h| && RowFits(e, p, h, f, i, k) && Present(h, f, i, k) && Present(h, f, i, k')
    ensures RowFits(Supported(e, a, c, n), p, h, f, i, k')
  {
    hide JsKey, PlaceScope, Present;
  }

  function Runs(ps: seq<Pointer>): set<Id> {
    set ptr | ptr in ps :: ptr.source
  }

  lemma {:induction false} AsSupportRuns(ps: seq<Pointer>)
    ensures forall ptr :: ptr in AsSupport(ps) ==> ptr.source in Runs(ps)
  {
    if ps != [] {
      AsSupportRuns(ps[1..]);
      assert forall ptr :: ptr in ps[1..] ==> ptr in ps;
      assert ps[0] in ps;
    }
  }

  lemma SupportOutcome(runs: Runs, s: Store, a: Anchor, c: Candidate)
    requires c.action == Support && c.code == JsErrorStarted
    ensures PersistOne(runs, s, a, c, false) ==
      match FindActive(s, KeyOf(a, c))
      case None => Ok((s, Ignored))
      case Some(id) => SupportActive(runs, s, a, c, id)
  {
  }

  lemma ResolveOutcome(runs: Runs, s: Store, a: Anchor, c: Candidate)
    requires c.action == Resolve && c.code == JsErrorStarted
    ensures PersistOne(runs, s, a, c, false) == ResolveCondition(runs, s, a, c)
  {
  }

  lemma OneSupport(x: Pointer)
    requires Supports(x.relation)
    ensures AsSupport([x]) == [At(x.source, Relation.Supporting)]
  {
    assert [x][1..] == [] && AsSupport([]) == [];
  }

  lemma FirstSupport(runs: Runs, s: Store, p: Place, h: History, f: Name, k: nat)
    requires Proper(runs, p, h) && Inv(s) && Tracks(s, p, h, f, k)
    requires k + 1 < |h| && (k >= 1 ==> f in Errors(h, k - 1)) && f in Errors(h, k) && f in Errors(h, k + 1)
    ensures var v := Input(p, h, k + 1);
      Delivered(PersistOne(runs, s, AnchorOf(v), Confirmed(v, f), false), p, h, f, k + 1)
  {
    hide Tracks, Proper, Inv, Input, Confirmed, AnchorOf, PersistOne, InsertEvidence, RowId, KeyOf, SameOpen, SupportActive, Runs;
    var a, c := AnchorOf(Input(p, h, k + 1)), Confirmed(Input(p, h, k + 1), f);
    SupportShape(runs, p, h, f, k);
    SupportOutcome(runs, s, a, c);
    StillOpen(h, f, k);
    NewestOnly(runs, p, h, k + 1);
    var i := ActiveRow(s, p, h, f, k);
    if FindActive(s, JsKey(p, f)).None? {
      Untouched(s, p, h, f, k, k + 1);
    } else {
      StaysPresent(h, f, i, k);
      SupportsNewest(runs, s, p, h, f, k, i, a, c);
      SupportOwn(runs, s, p, h, f, k, k + 1, i, a, c);
    }
  }

  lemma SupportShape(runs: Runs, p: Place, h: History, f: Name, k: nat)
    requires Proper(runs, p, h) && k + 1 < |h| && (k >= 1 ==> f in Errors(h, k - 1))
    ensures var v := Input(p, h, k + 1);
      var a, c := AnchorOf(v), Confirmed(v, f);
      && a.tenant == p.tenant && a.site == p.site
      && c.action == Support && c.code == JsErrorStarted
      && KeyOf(a, c) == JsKey(p, f)
      && c.evidence == [At(h[k + 1].run, Relation.Supporting)]
      && Runs(c.evidence) == {h[k + 1].run}
  {
    InputIsEvaluated(runs, p, h, k + 1);
    CandidateScope(p, h, k + 1);
  }

  lemma StaysPresent(h: History, f: Name, i: nat, k: nat)
    requires i <= k && k + 1 < |h| && Present(h, f, i, k) && f in Errors(h, k + 1)
    ensures Present(h, f, i, k + 1)
  {
  }

  lemma NewestOnly(runs: Runs, p: Place, h: History, j: nat)
    requires Proper(runs, p, h) && j < |h|
    ensures NotYet(h, j, {h[j].run})
  {
  }

  lemma StillOpen(h: History, f: Name, k: nat)
    requires k + 1 < |h| && (k >= 1 ==> f in Errors(h, k - 1)) && f in Errors(h, k + 1)
    ensures SameOpen(h, f, k, k + 1)
  {
  }

  lemma SupportsNewest(runs: Runs, s: Store, p: Place, h: History, f: Name, k: nat, i: nat, a: Anchor, c: Candidate)
    requires Proper(runs, p, h) && Tracks(s, p, h, f, k) && i < k && k + 1 < |h| && Onset(h, f, i) && f in Errors(h, k + 1)
    requires a.tenant == p.tenant && a.site == p.site
    requires c.evidence == [At(h[k + 1].run, Relation.Supporting)]
    ensures SupportActive(runs, s, a, c, RowId(p, h, f, i)).Ok?
  {
    var id := RowId(p, h, f, i);
    assert RowFits(s.events[id], p, h, f, i, k);
    OwnPointerFits(runs, p, h, f, s.events[id], k + 1, Relation.Supporting);
    OneSupport(c.evidence[0]);
    FittingPointersInsert(runs, s.refs, id, s.events[id], AsSupport(c.evidence), {}, true, 0);
  }

  lemma FirstResolve(runs: Runs, s: Store, p: Place, h: History, f: Name, k: nat)
    requires Proper(runs, p, h) && Inv(s) && Tracks(s, p, h, f, k)
    requires k + 1 < |h| && f in Errors(h, k) && f !in Errors(h, k + 1)
    ensures var v := Input(p, h, k + 1);
      Delivered(PersistOne(runs, s, AnchorOf(v), Gone(v, f), false), p, h, f, k + 1)
  {
    hide Tracks, Proper, Inv, Input, Gone, AnchorOf, PersistOne, CloseActive, KeyOf, RowId, JsKey, IsActive, Delivered;
    var a, c := AnchorOf(Input(p, h, k + 1)), Gone(Input(p, h, k + 1), f);
    GoneShape(p, h, f, k);
    ResolveOutcome(runs, s, a, c);
    var i := ActiveRow(s, p, h, f, k);
    if FindActive(s, JsKey(p, f)).None? {
      NothingToResolve(s, p, h, f, k);
    } else {
      ClosesRow(runs, s, p, h, f, k, i, a, c);
    }
  }

  lemma GoneShape(p: Place, h: History, f: Name, k: nat)
    requires k + 1 < |h|
    ensures var a, c := AnchorOf(Input(p, h, k + 1)), Gone(Input(p, h, k + 1), f);
      && a.tenant == p.tenant && a.site == p.site && KeyOf(a, c) == JsKey(p, f)
      && c.action == Resolve && c.code == JsErrorStarted && c.detectedAt == Some(h[k + 1].at)
      && c.evidence == [At(h[k + 1].run, Recovery)]
  {
    CandidateScope(p, h, k + 1);
  }

  lemma NothingToResolve(s: Store, p: Place, h: History, f: Name, k: nat)
    requires Tracks(s, p, h, f, k) && k + 1 < |h| && f !in Errors(h, k + 1)
    requires forall m: nat :: m < k && Onset(h, f, m) ==> !Present(h, f, m, k)
    ensures Delivered(Ok((s, Ignored)), p, h, f, k + 1)
  {
    var next := k + 1;
    assert forall m: nat :: m < next && Onset(h, f, m) ==> !Present(h, f, m, next);
    Untouched(s, p, h, f, k, k + 1);
  }

  lemma RecoveryLinks(runs: Runs, s: Store, p: Place, h: History, f: Name, k: nat, i: nat, c: Candidate)
    requires Proper(runs, p, h) && Tracks(s, p, h, f, k) && i < k && k + 1 < |h| && Onset(h, f, i)
    requires c.evidence == [At(h[k + 1].run, Recovery)]
    ensures var r := InsertEvidence(runs, s, p.tenant, p.site, RowId(p, h, f, i), c.evidence, true, Strict);
      r.Ok? && r.value.1 == 1 && LinksOnly(s.refs, r.value.0, RowId(p, h, f, i), {h[k + 1].run})
  {
    var id := RowId(p, h, f, i);
    var e := s.events[id];
    assert RowFits(e, p, h, f, i, k);
    OwnPointerFits(runs, p, h, f, e, k + 1, Recovery);
    assert !IsLinked(s.refs, id, h[k + 1].run);
    assert Ref(id, CheckpointRef, h[k + 1].run, Recovery) !in s.refs;
    assert c.evidence[1..] == [];
    assert InsertEvidence(runs, s, p.tenant, p.site, id, c.evidence, true, Strict)
      == InsertPointers(runs, Link(runs, s.refs, id, e, c.evidence[0]), id, e, [],
                        {} + {(h[k + 1].run, Recovery)}, true, Strict, 1);
    InsertEvidenceGrow(runs, s, p.tenant, p.site, id, c.evidence, true, Strict);
  }

  lemma ClosesRow(runs: Runs, s: Store, p: Place, h: History, f: Name, k: nat, i: nat, a: Anchor, c: Candidate)
    requires Proper(runs, p, h) && Inv(s) && Tracks(s, p, h, f, k)
    requires k + 1 < |h| && f in Errors(h, k) && f !in Errors(h, k + 1)
    requires i < k && Onset(h, f, i) && Present(h, f, i, k)
    requires forall m: nat :: m < k && Onset(h, f, m) && m != i ==> !Present(h, f, m, k)
    requires a.tenant == p.tenant && a.site == p.site && c.detectedAt == Some(h[k + 1].at)
    requires c.evidence == [At(h[k + 1].run, Recovery)]
    ensures RowId(p, h, f, i) in s.events
    ensures Delivered(CloseActive(runs, s, a, c, RowId(p, h, f, i)), p, h, f, k + 1)
  {
    hide Proper, Tracks, Inv, RowFits, RowId, InsertEvidence, CloseActive, Closed, Present, Errors, NotYet, LinksOnly;
    var id := RowId(p, h, f, i);
    TrackedRow(s, p, h, f, k, i);
    RecoveryLinks(runs, s, p, h, f, k, i, c);
    RecoveryIsLater(runs, s, p, h, f, k, i);
    CloseWrites(runs, s, a, c, id);
    ClosedFits(s.events[id], p, h, f, i, k, a, c);
    OthersStayClosed(h, f, k, i);
    NewestOnly(runs, p, h, k + 1);
    Rewritten(runs, s, CloseActive(runs, s, a, c, id).value.0, p, h, f, k, k + 1, i, {h[k + 1].run});
  }

  lemma TrackedRow(s: Store, p: Place, h: History, f: Name, k: nat, i: nat)
    requires Tracks(s, p, h, f, k) && i < k < |h| && Onset(h, f, i)
    ensures RowId(p, h, f, i) in s.events && RowFits(s.events[RowId(p, h, f, i)], p, h, f, i, k)
  {
  }

  lemma RecoveryIsLater(runs: Runs, s: Store, p: Place, h: History, f: Name, k: nat, i: nat)
    requires Proper(runs, p, h) && i < k && k + 1 < |h|
    requires RowId(p, h, f, i) in s.events && RowFits(s.events[RowId(p, h, f, i)], p, h, f, i, k)
    ensures var e := s.events[RowId(p, h, f, i)];
      e.tenant == p.tenant && e.site == p.site && e.detectedAt <= h[k + 1].at
  {
    TimesIncrease(runs, p, h);
  }

  /** What closing does to the row, once its evidence is in. */
  lemma CloseWrites(runs: Runs, s: Store, a: Anchor, c: Candidate, id: EventId)
    requires id in s.events && c.detectedAt.Some? && c.detectedAt.value >= s.events[id].detectedAt
    requires InsertEvidence(runs, s, a.tenant, a.site, id, c.evidence, true, Strict).Ok?
    requires InsertEvidence(runs, s, a.tenant, a.site, id, c.evidence, true, Strict).value.1 == 1
    ensures var refs := InsertEvidence(runs, s, a.tenant, a.site, id, c.evidence, true, Strict).value.0;
      CloseActive(runs, s, a, c, id) == Ok((Store(s.events[id := Closed(s.events[id], a, c)], refs, s.serial), Updated(id)))
  {
    hide InsertEvidence, Closed;
  }

  lemma ClosedFits(e: Event, p: Place, h: History, f: Name, i: nat, k: nat, a: Anchor, c: Candidate)
    requires i < k && k + 1 < |h| && RowFits(e, p, h, f, i, k) && f !in Errors(h, k + 1)
    ensures RowFits(Closed(e, a, c), p, h, f, i, k + 1)
  {
    hide JsKey, PlaceScope, Errors;
    assert !Present(h, f, i, k + 1);
  }

  lemma OthersStayClosed(h: History, f: Name, k: nat, i: nat)
    requires k + 1 < |h| && f !in Errors(h, k + 1)
    requires forall m: nat :: m < k && Onset(h, f, m) && m != i ==> !Present(h, f, m, k)
    ensures forall m: nat :: m < k + 1 && Onset(h, f, m) ==> m < k
    ensures forall m: nat :: m < k && Onset(h, f, m) && m != i ==> (Present(h, f, m, k) <==> Present(h, f, m, k + 1))
  {
    var next := k + 1;
    assert forall m: nat :: m <= k ==> !Present(h, f, m, next);
  }

  lemma FirstDelivery(runs: Runs, s: Store, p: Place, h: History, f: Name, k: nat, c: Candidate)
    requires Proper(runs, p, h) && Inv(s) && Tracks(s, p, h, f, k) && k + 1 < |h|
    requires Speaks(Input(p, h, k + 1), f, c)
    ensures Delivered(PersistOne(runs, s, AnchorOf(Input(p, h, k + 1)), c, false), p, h, f, k + 1)
  {
    if f !in Errors(h, k) {
      Untouched(s, p, h, f, k, k + 1);
    } else if f !in Errors(h, k + 1) {
      FirstResolve(runs, s, p, h, f, k);
    } else if k >= 1 && f !in Errors(h, k - 1) {
      FirstUpsert(runs, s, p, h, f, k);
    } else {
      FirstSupport(runs, s, p, h, f, k);
    }
  }
}
