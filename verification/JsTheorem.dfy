/** The condition machine equals a predicate of the history, under any redelivery. */
module JsTheorem {
  import opened Contracts
  import opened Lifecycle
  import opened EventStore
  import opened EventInvariants
  import opened Evaluator
  import opened JsHistory

  // ---------------------------------------------------------------- redelivery of one candidate

  lemma SameOpenSelf(h: History, f: Name, k: nat)
    requires k < |h|
    ensures SameOpen(h, f, k, k)
  {
  }

  lemma ReplayShape(runs: Runs, p: Place, h: History, f: Name, j: nat, k: nat, c: Candidate)
    requires Proper(runs, p, h) && 1 <= j <= k < |h| && Speaks(Input(p, h, j), f, c)
    ensures var a := AnchorOf(Input(p, h, j));
      && a.tenant == p.tenant && a.site == p.site && c.code == JsErrorStarted && c.subject == f
      && KeyOf(a, c) == JsKey(p, f) && TemplateKey in NormalizedScope(c.scope)
      && (c.action == Pending || c.action == Upsert || c.action == Support || c.action == Resolve)
      && (c.action == Support || c.action == Upsert ==> NotYet(h, k, JsHistory.Runs(c.evidence)))
      && (c.action == Resolve ==> f !in Errors(h, j) && c.detectedAt == Some(h[j].at))
      && (c.action == Upsert ==> 2 <= j && Onset(h, f, j - 1) && ConditionEventId(a, c) == RowId(p, h, f, j - 1)
                                 && RowConstraints(ConditionRow(a, c, p.template))
                                 && NormalizedScope(c.scope)[TemplateKey] == p.template)
  {
    InputIsEvaluated(runs, p, h, j);
    CandidateScope(p, h, j);
    TimesIncrease(runs, p, h);
    if c.action == Upsert {
      UpsertShape(runs, p, h, f, j - 1);
    }
  }

  /** A trigger redelivered after its episode closed hits its own deterministic id and raises. */
  lemma ReplayedTriggerRaises(runs: Runs, s: Store, p: Place, h: History, f: Name, k: nat, j: nat, c: Candidate)
    requires Proper(runs, p, h) && Inv(s) && Tracks(s, p, h, f, k) && 1 <= j <= k < |h|
    requires Speaks(Input(p, h, j), f, c) && c.action == Upsert
    requires FindActive(s, JsKey(p, f)).None?
    ensures PersistOne(runs, s, AnchorOf(Input(p, h, j)), c, false) == Err(ActiveConflict)
  {
    ReplayShape(runs, p, h, f, j, k, c);
    assert RowId(p, h, f, j - 1) in s.events;
    hide Proper, Tracks, Input, Speaks, RowId, ConditionRow;
  }

  /** A recovery redelivered when a later episode is open is older than that episode and is refused. */
  lemma ReplayedRecoveryRefused(runs: Runs, s: Store, p: Place, h: History, f: Name, k: nat, j: nat, c: Candidate)
    requires Proper(runs, p, h) && Inv(s) && Tracks(s, p, h, f, k) && 1 <= j <= k < |h|
    requires Speaks(Input(p, h, j), f, c) && c.action == Resolve
    ensures PersistOne(runs, s, AnchorOf(Input(p, h, j)), c, false) == Ok((s, Ignored))
  {
    ReplayShape(runs, p, h, f, j, k, c);
    var i := ActiveRow(s, p, h, f, k);
    if FindActive(s, JsKey(p, f)).Some? {
      assert RowFits(s.events[RowId(p, h, f, i)], p, h, f, i, k);
      assert j < i;
      TimesIncrease(runs, p, h);
    }
    ResolveOutcome(runs, s, AnchorOf(Input(p, h, j)), c);
  }

  lemma ReplayedSupport(runs: Runs, s: Store, p: Place, h: History, f: Name, k: nat, j: nat, c: Candidate)
    requires Proper(runs, p, h) && Inv(s) && Tracks(s, p, h, f, k) && 1 <= j <= k < |h|
    requires Speaks(Input(p, h, j), f, c) && (c.action == Support || c.action == Upsert)
    ensures var r := PersistOne(runs, s, AnchorOf(Input(p, h, j)), c, false);
      r.Ok? ==> Tracks(r.value.0, p, h, f, k)
  {
    hide Proper, Tracks, Inv, Input, Speaks, RowId, AnchorOf, SupportActive, SameOpen, JsHistory.Runs;
    var a := AnchorOf(Input(p, h, j));
    ReplayShape(runs, p, h, f, j, k, c);
    var i := ActiveRow(s, p, h, f, k);
    SameOpenSelf(h, f, k);
    if FindActive(s, JsKey(p, f)).Some? {
      SupportOwn(runs, s, p, h, f, k, k, i, a, c);
    } else if c.action == Upsert {
      ReplayedTriggerRaises(runs, s, p, h, f, k, j, c);
    }
  }

  lemma Replay(runs: Runs, s: Store, p: Place, h: History, f: Name, k: nat, j: nat, c: Candidate)
    requires Proper(runs, p, h) && Inv(s) && Tracks(s, p, h, f, k) && 1 <= j <= k < |h|
    requires Speaks(Input(p, h, j), f, c)
    ensures var r := PersistOne(runs, s, AnchorOf(Input(p, h, j)), c, false);
      r.Ok? ==> Tracks(r.value.0, p, h, f, k)
  {
    hide Proper, Tracks, Inv, Input, Speaks, AnchorOf;
    ReplayShape(runs, p, h, f, j, k, c);
    if c.action == Resolve {
      ReplayedRecoveryRefused(runs, s, p, h, f, k, j, c);
    } else if c.action != Pending {
      ReplayedSupport(runs, s, p, h, f, k, j, c);
    }
  }

  // ---------------------------------------------------------------- batches

  function Upto(done: set<Name>, k: nat, f: Name): nat {
    if f in done then k + 1 else k
  }

  /** Fingerprints in `done` are tracked up to `k + 1`, the others up to `k`. */
  ghost predicate Mix(s: Store, p: Place, h: History, k: nat, done: set<Name>) {
    && Inv(s)
    && forall f :: Tracks(s, p, h, f, Upto(done, k, f))
  }

  lemma MixAt(s: Store, p: Place, h: History, k: nat, f: Name)
    requires Mix(s, p, h, k, {})
    ensures Inv(s) && Tracks(s, p, h, f, k)
  {
    assert Upto({}, k, f) == k;
  }

  predicate Foreign(p: Place, a: Anchor, c: Candidate) {
    c.action == Pending || !OwnKey(p, KeyOf(a, c))
  }

  lemma ForeignOne(runs: Runs, s: Store, p: Place, h: History, k: nat, done: set<Name>, a: Anchor, c: Candidate)
    requires Mix(s, p, h, k, done) && Foreign(p, a, c)
    ensures var r := PersistOne(runs, s, a, c, false);
      r.Ok? ==> Mix(r.value.0, p, h, k, done)
  {
    var r := PersistOne(runs, s, a, c, false);
    if r.Ok? && c.action != Pending {
      hide PersistOne, Tracks;
      PersistOneStep(runs, s, a, c, false);
      forall f
        ensures Tracks(r.value.0, p, h, f, Upto(done, k, f))
      {
        ForeignStep(s, r.value.0, p, h, f, Upto(done, k, f), KeyOf(a, c));
      }
    }
  }

  lemma {:induction false} ForeignBatch(runs: Runs, s: Store, p: Place, h: History, k: nat, done: set<Name>,
                                        a: Anchor, cs: seq<Candidate>, t: Tally)
    requires Mix(s, p, h, k, done) && forall c :: c in cs ==> Foreign(p, a, c)
    ensures var r := PersistAll(runs, s, a, cs, t);
      r.Ok? ==> Mix(r.value.0, p, h, k, done)
    decreases |cs|
  {
    hide PersistOne, Mix;
    if cs != [] {
      ForeignOne(runs, s, p, h, k, done, a, cs[0]);
      var one := PersistOne(runs, s, a, cs[0], false);
      if one.Ok? {
        ForeignBatch(runs, one.value.0, p, h, k, done, a, cs[1..], Counted(t, one.value.1, cs[0]));
      }
    }
  }

  lemma {:induction false} PersistAllAppend(runs: Runs, s: Store, a: Anchor, xs: seq<Candidate>, ys: seq<Candidate>, t: Tally)
    ensures PersistAll(runs, s, a, xs + ys, t) ==
      match PersistAll(runs, s, a, xs, t)
      case Ok(done) => PersistAll(runs, done.0, a, ys, done.1)
      case Err(e) => Err(e)
    decreases |xs|
  {
    hide PersistOne;
    if xs == [] {
      assert xs + ys == ys;
    } else {
      assert (xs + ys)[1..] == xs[1..] + ys;
      var one := PersistOne(runs, s, a, xs[0], false);
      if one.Ok? {
        PersistAllAppend(runs, one.value.0, a, xs[1..], ys, Counted(t, one.value.1, xs[0]));
      }
    }
  }

  function Subjects(cs: seq<Candidate>): set<Name> {
    set c | c in cs :: c.subject
  }

  ghost predicate OwnCandidates(v: EvaluationInput, cs: seq<Candidate>) {
    && (forall i :: 0 <= i < |cs| ==> Speaks(v, cs[i].subject, cs[i]))
    && (forall i, j :: 0 <= i < j < |cs| ==> cs[i].subject != cs[j].subject)
  }

  lemma OwnKeyOf(p: Place, h: History, j: nat, c: Candidate)
    requires 1 <= j < |h| && Speaks(Input(p, h, j), c.subject, c)
    ensures KeyOf(AnchorOf(Input(p, h, j)), c) == JsKey(p, c.subject)
  {
    CandidateScope(p, h, j);
  }

  ghost predicate MixedResult(r: Result<(Store, Outcome)>, p: Place, h: History, k: nat, done: set<Name>) {
    r.Ok? && Mix(r.value.0, p, h, k, done)
  }

  lemma FirstOne(runs: Runs, s: Store, p: Place, h: History, k: nat, done: set<Name>, c: Candidate)
    requires Proper(runs, p, h) && k + 1 < |h| && Mix(s, p, h, k, done)
    requires Speaks(Input(p, h, k + 1), c.subject, c) && c.subject !in done
    ensures MixedResult(PersistOne(runs, s, AnchorOf(Input(p, h, k + 1)), c, false), p, h, k, done + {c.subject})
  {
    var a := AnchorOf(Input(p, h, k + 1));
    var r := PersistOne(runs, s, a, c, false);
    hide PersistOne, Tracks, Proper, Input, AnchorOf, Speaks;
    assert Upto(done, k, c.subject) == k;
    FirstDelivery(runs, s, p, h, c.subject, k, c);
    OwnKeyOf(p, h, k + 1, c);
    PersistOneStep(runs, s, a, c, false);
    var done' := done + {c.subject};
    forall f
      ensures Tracks(r.value.0, p, h, f, Upto(done', k, f))
    {
      if f != c.subject {
        ForeignStep(s, r.value.0, p, h, f, Upto(done, k, f), KeyOf(a, c));
      }
    }
  }

  lemma {:induction false} FirstBatch(runs: Runs, s: Store, p: Place, h: History, k: nat, done: set<Name>,
                                      cs: seq<Candidate>, t: Tally)
    requires Proper(runs, p, h) && k + 1 < |h| && Mix(s, p, h, k, done)
    requires OwnCandidates(Input(p, h, k + 1), cs) && forall i :: 0 <= i < |cs| ==> cs[i].subject !in done
    ensures var r := PersistAll(runs, s, AnchorOf(Input(p, h, k + 1)), cs, t);
      r.Ok? && Mix(r.value.0, p, h, k, done + Subjects(cs))
    decreases |cs|
  {
    hide PersistOne, Mix, Proper, Input, AnchorOf, Speaks;
    if cs == [] {
      assert done + Subjects(cs) == done;
    } else {
      FirstOne(runs, s, p, h, k, done, cs[0]);
      var one := PersistOne(runs, s, AnchorOf(Input(p, h, k + 1)), cs[0], false);
      FirstBatch(runs, one.value.0, p, h, k, done + {cs[0].subject}, cs[1..], Counted(t, one.value.1, cs[0]));
      assert cs == [cs[0]] + cs[1..];
      assert done + {cs[0].subject} + Subjects(cs[1..]) == done + Subjects(cs);
    }
  }

  lemma ReplayOne(runs: Runs, s: Store, p: Place, h: History, k: nat, j: nat, c: Candidate)
    requires Proper(runs, p, h) && 1 <= j <= k < |h| && Mix(s, p, h, k, {})
    requires Speaks(Input(p, h, j), c.subject, c)
    ensures var r := PersistOne(runs, s, AnchorOf(Input(p, h, j)), c, false);
      r.Ok? ==> Mix(r.value.0, p, h, k, {})
  {
    var a := AnchorOf(Input(p, h, j));
    var r := PersistOne(runs, s, a, c, false);
    hide PersistOne, Tracks, Proper, Input, AnchorOf, Speaks;
    MixAt(s, p, h, k, c.subject);
    Replay(runs, s, p, h, c.subject, k, j, c);
    OwnKeyOf(p, h, j, c);
    PersistOneStep(runs, s, a, c, false);
    if r.Ok? {
      forall f
        ensures Tracks(r.value.0, p, h, f, Upto({}, k, f))
      {
        MixAt(s, p, h, k, f);
        if f != c.subject {
          ForeignStep(s, r.value.0, p, h, f, k, KeyOf(a, c));
        }
      }
    }
  }

  lemma {:induction false} ReplayBatch(runs: Runs, s: Store, p: Place, h: History, k: nat, j: nat, cs: seq<Candidate>, t: Tally)
    requires Proper(runs, p, h) && 1 <= j <= k < |h| && Mix(s, p, h, k, {})
    requires OwnCandidates(Input(p, h, j), cs)
    ensures var r := PersistAll(runs, s, AnchorOf(Input(p, h, j)), cs, t);
      r.Ok? ==> Mix(r.value.0, p, h, k, {})
    decreases |cs|
  {
    hide PersistOne, Mix, Proper, Input, AnchorOf, Speaks;
    if cs != [] {
      ReplayOne(runs, s, p, h, k, j, cs[0]);
      var one := PersistOne(runs, s, AnchorOf(Input(p, h, j)), cs[0], false);
      if one.Ok? {
        ReplayBatch(runs, one.value.0, p, h, k, j, cs[1..], Counted(t, one.value.1, cs[0]));
      }
    }
  }

  // ---------------------------------------------------------------- deliveries

  /**
    A derivation call for checkpoint `j`, with whatever other candidates the same call carries, or
    a call about other conditions (another URL, scenario, rule or site).
  */
  datatype Delivery =
    | Deliver(j: nat, before: seq<Candidate>, after: seq<Candidate>)
    | Elsewhere(anchor: Anchor, candidates: seq<Candidate>)

  /** First deliveries come in order; a processed checkpoint may come again at any time. */
  predicate Fits(p: Place, h: History, k: nat, d: Delivery) {
    match d
    case Deliver(j, before, after) =>
      && 1 <= j <= k + 1 && j < |h|
      && (forall c :: c in before + after ==> Foreign(p, AnchorOf(Input(p, h, j)), c))
    case Elsewhere(a, cs) => forall c :: c in cs ==> Foreign(p, a, c)
  }

  ghost function Persisted(runs: Runs, p: Place, h: History, s: Store, k: nat, d: Delivery): Result<(Store, Tally)>
    requires Fits(p, h, k, d)
  {
    match d
    case Deliver(j, before, after) =>
      PersistAll(runs, s, AnchorOf(Input(p, h, j)), before + Evaluate(Input(p, h, j)) + after, NOTHING)
    case Elsewhere(a, cs) => PersistAll(runs, s, a, cs, NOTHING)
  }

  /** A call that raised changed nothing; its checkpoint still has to be delivered. */
  ghost function Step(runs: Runs, p: Place, h: History, s: Store, k: nat, d: Delivery): (Store, nat)
    requires Fits(p, h, k, d)
  {
    match Persisted(runs, p, h, s, k, d)
    case Ok(done) => (done.0, if d.Deliver? && d.j == k + 1 then k + 1 else k)
    case Err(_) => (s, k)
  }

  ghost predicate Legal(runs: Runs, p: Place, h: History, s: Store, k: nat, ds: seq<Delivery>)
    decreases |ds|
  {
    ds == [] ||
    (Fits(p, h, k, ds[0]) && var (s', k') := Step(runs, p, h, s, k, ds[0]); Legal(runs, p, h, s', k', ds[1..]))
  }

  ghost function After(runs: Runs, p: Place, h: History, s: Store, k: nat, ds: seq<Delivery>): (Store, nat)
    requires Legal(runs, p, h, s, k, ds)
    decreases |ds|
  {
    if ds == [] then (s, k)
    else
      var (s', k') := Step(runs, p, h, s, k, ds[0]);
      After(runs, p, h, s', k', ds[1..])
  }

  lemma EvaluatedCandidates(runs: Runs, p: Place, h: History, j: nat)
    requires Proper(runs, p, h) && 1 <= j < |h|
    ensures OwnCandidates(Input(p, h, j), Evaluate(Input(p, h, j)))
    ensures Errors(h, j - 1) + Errors(h, j) <= Subjects(Evaluate(Input(p, h, j)))
  {
    InputIsEvaluated(runs, p, h, j);
    var v := Input(p, h, j);
    hide Proper, Evaluate, Speaks, JsCandidates;
    CandidatesSpeak(v);
    forall f | f in Errors(h, j - 1) + Errors(h, j)
      ensures f in Subjects(JsCandidates(v))
    {
      var i := EveryFingerprintSpoken(v, f);
      assert JsCandidates(v)[i] in JsCandidates(v);
    }
  }

  lemma AllAdvanced(s: Store, p: Place, h: History, k: nat, done: set<Name>)
    requires Mix(s, p, h, k, done) && k + 1 < |h| && Errors(h, k) + Errors(h, k + 1) <= done
    ensures Mix(s, p, h, k + 1, {})
  {
    hide Tracks, Inv;
    var next := k + 1;
    forall f
      ensures Tracks(s, p, h, f, Upto({}, next, f))
    {
      assert Tracks(s, p, h, f, Upto(done, k, f));
      if f !in done {
        Untouched(s, p, h, f, k, k + 1);
      }
    }
  }

  lemma DeliverKeeps(runs: Runs, p: Place, h: History, s: Store, k: nat, d: Delivery)
    requires Proper(runs, p, h) && Mix(s, p, h, k, {}) && k < |h| && Fits(p, h, k, d) && d.Deliver?
    ensures var (s', k') := Step(runs, p, h, s, k, d);
      k' < |h| && Mix(s', p, h, k', {})
  {
    hide Mix, Proper, Input, AnchorOf, PersistAll, Evaluate, OwnCandidates, Subjects;
    var a := AnchorOf(Input(p, h, d.j));
    var own := Evaluate(Input(p, h, d.j));
    var cs := d.before + own + d.after;
    EvaluatedCandidates(runs, p, h, d.j);
    PersistAllAppend(runs, s, a, d.before + own, d.after, NOTHING);
    PersistAllAppend(runs, s, a, d.before, own, NOTHING);
    if PersistAll(runs, s, a, cs, NOTHING).Ok? {
      ForeignBatch(runs, s, p, h, k, {}, a, d.before, NOTHING);
      var (s1, t1) := PersistAll(runs, s, a, d.before, NOTHING).value;
      var (s2, t2) := PersistAll(runs, s1, a, own, t1).value;
      if d.j == k + 1 {
        OwnDistinct(Input(p, h, d.j), own);
        FirstBatch(runs, s1, p, h, k, {}, own, t1);
        AllAdvanced(s2, p, h, k, {} + Subjects(own));
        ForeignBatch(runs, s2, p, h, k + 1, {}, a, d.after, t2);
      } else {
        ReplayBatch(runs, s1, p, h, k, d.j, own, t1);
        ForeignBatch(runs, s2, p, h, k, {}, a, d.after, t2);
      }
    }
  }

  lemma OwnDistinct(v: EvaluationInput, cs: seq<Candidate>)
    requires OwnCandidates(v, cs)
    ensures forall i :: 0 <= i < |cs| ==> cs[i].subject !in {}
  {
  }

  lemma StepKeeps(runs: Runs, p: Place, h: History, s: Store, k: nat, d: Delivery)
    requires Proper(runs, p, h) && Mix(s, p, h, k, {}) && k < |h| && Fits(p, h, k, d)
    ensures var (s', k') := Step(runs, p, h, s, k, d);
      k <= k' < |h| && Mix(s', p, h, k', {})
  {
    hide Mix, Proper, Input, AnchorOf, PersistAll, Evaluate;
    match d
    case Deliver(_, _, _) => DeliverKeeps(runs, p, h, s, k, d);
    case Elsewhere(a, cs) => ForeignBatch(runs, s, p, h, k, {}, a, cs, NOTHING);
  }

  lemma {:induction false} AfterKeeps(runs: Runs, p: Place, h: History, s: Store, k: nat, ds: seq<Delivery>)
    requires Proper(runs, p, h) && Mix(s, p, h, k, {}) && k < |h| && Legal(runs, p, h, s, k, ds)
    ensures var (s', k') := After(runs, p, h, s, k, ds);
      k <= k' < |h| && Mix(s', p, h, k', {})
    decreases |ds|
  {
    hide Mix, Proper, Step, Fits;
    if ds != [] {
      StepKeeps(runs, p, h, s, k, ds[0]);
      var (s', k') := Step(runs, p, h, s, k, ds[0]);
      AfterKeeps(runs, p, h, s', k', ds[1..]);
    }
  }

  // ---------------------------------------------------------------- main results

  /** Nothing of this place is stored before its first checkpoint. */
  ghost predicate Blank(s: Store, p: Place) {
    Inv(s) && forall id: EventId :: id in s.events && id.ConditionId? ==> !OwnKey(p, id.key)
  }

  lemma BlankTracks(s: Store, p: Place, h: History)
    requires Blank(s, p)
    ensures Mix(s, p, h, 0, {})
  {
  }

  /** The error has stayed since a checkpoint that followed its absence, at least two checkpoints ago or now. */
  predicate Confirmed(h: History, f: Name, s: nat, k: nat) {
    1 <= s && s + 1 <= k && Present(h, f, s, k) && f !in Errors(h, s - 1)
  }

  ghost predicate OpenIffConfirmed(s: Store, p: Place, h: History, f: Name, k: nat) {
    (exists id :: IsActive(s, id, JsKey(p, f))) <==> exists i: nat :: Confirmed(h, f, i, k)
  }

  lemma OpenExactlyWhenConfirmed(s: Store, p: Place, h: History, f: Name, k: nat)
    requires Inv(s) && Tracks(s, p, h, f, k) && k < |h|
    ensures OpenIffConfirmed(s, p, h, f, k)
  {
    var i := ActiveRow(s, p, h, f, k);
    if FindActive(s, JsKey(p, f)).Some? {
      assert Confirmed(h, f, i, k);
    }
    assert forall m: nat :: Confirmed(h, f, m, k) ==> m < k && Onset(h, f, m) && Present(h, f, m, k);
  }

  /**
    After any run of first deliveries, redeliveries and calls about other conditions, a condition is
    active for a fingerprint exactly when the error was absent, then appeared and was still there at
    the next checkpoint, and never left since. Nothing but the checkpoints processed matters.
  */
  lemma JsConditionIsHistory(runs: Runs, p: Place, h: History, s0: Store, ds: seq<Delivery>)
    requires Proper(runs, p, h) && h != [] && Blank(s0, p) && Legal(runs, p, h, s0, 0, ds)
    ensures var (s, k) := After(runs, p, h, s0, 0, ds);
      k < |h| && forall f :: OpenIffConfirmed(s, p, h, f, k)
  {
    BlankTracks(s0, p, h);
    AfterKeeps(runs, p, h, s0, 0, ds);
    var (s, k) := After(runs, p, h, s0, 0, ds);
    hide Proper, Tracks, OpenIffConfirmed;
    forall f
      ensures OpenIffConfirmed(s, p, h, f, k)
    {
      MixAt(s, p, h, k, f);
      OpenExactlyWhenConfirmed(s, p, h, f, k);
    }
  }

  predicate SameStatus(s: Store, s': Store, id: EventId) {
    (id in s.events <==> id in s'.events) && (id in s.events ==> s.events[id].status == s'.events[id].status)
  }

  lemma TracksFixesStatus(s: Store, s': Store, p: Place, h: History, f: Name, k: nat, id: EventId)
    requires Tracks(s, p, h, f, k) && Tracks(s', p, h, f, k) && id.ConditionId? && id.key == JsKey(p, f)
    ensures SameStatus(s, s', id)
  {
    if id in s.events || id in s'.events {
      var i: nat :| i < k < |h| && Onset(h, f, i) && id == RowId(p, h, f, i);
      assert RowFits(s.events[id], p, h, f, i, k) && RowFits(s'.events[id], p, h, f, i, k);
    }
  }

  /** Redelivering a processed checkpoint opens nothing, closes nothing and reopens nothing. */
  lemma RedeliveryKeepsStatuses(runs: Runs, p: Place, h: History, s0: Store, ds: seq<Delivery>, again: Delivery)
    requires Proper(runs, p, h) && h != [] && Blank(s0, p) && Legal(runs, p, h, s0, 0, ds)
    requires var (s, k) := After(runs, p, h, s0, 0, ds);
      again.Deliver? && again.j <= k && Fits(p, h, k, again)
    ensures var (s, k) := After(runs, p, h, s0, 0, ds);
      var (s', k') := Step(runs, p, h, s, k, again);
      k' == k && forall id: EventId :: id.ConditionId? && OwnKey(p, id.key) ==> SameStatus(s, s', id)
  {
    BlankTracks(s0, p, h);
    AfterKeeps(runs, p, h, s0, 0, ds);
    var (s, k) := After(runs, p, h, s0, 0, ds);
    StepKeeps(runs, p, h, s, k, again);
    var (s', k') := Step(runs, p, h, s, k, again);
    forall id: EventId | id.ConditionId? && OwnKey(p, id.key)
      ensures SameStatus(s, s', id)
    {
      hide Proper, Tracks;
      MixAt(s, p, h, k, id.key.subject);
      MixAt(s', p, h, k, id.key.subject);
      TracksFixesStatus(s, s', p, h, id.key.subject, k, id);
    }
  }

  /** A first delivery raises only because of what else its call carries. */
  lemma FirstDeliverySucceeds(runs: Runs, p: Place, h: History, s0: Store, ds: seq<Delivery>)
    requires Proper(runs, p, h) && h != [] && Blank(s0, p) && Legal(runs, p, h, s0, 0, ds)
    ensures var (s, k) := After(runs, p, h, s0, 0, ds);
      k + 1 < |h| ==> Fits(p, h, k, Deliver(k + 1, [], [])) && Persisted(runs, p, h, s, k, Deliver(k + 1, [], [])).Ok?
  {
    hide Proper, Mix, Blank, Persisted, Fits, Legal;
    BlankTracks(s0, p, h);
    AfterKeeps(runs, p, h, s0, 0, ds);
    var (s, k) := After(runs, p, h, s0, 0, ds);
    hide After;
    if k + 1 < |h| {
      NextSucceeds(runs, p, h, s, k);
    }
  }

  lemma NextSucceeds(runs: Runs, p: Place, h: History, s: Store, k: nat)
    requires Proper(runs, p, h) && Mix(s, p, h, k, {}) && k + 1 < |h|
    ensures Fits(p, h, k, Deliver(k + 1, [], [])) && Persisted(runs, p, h, s, k, Deliver(k + 1, [], [])).Ok?
  {
    hide Proper, Mix, PersistAll, Evaluate, Input, AnchorOf, OwnCandidates;
    var own := Evaluate(Input(p, h, k + 1));
    EvaluatedCandidates(runs, p, h, k + 1);
    FirstBatch(runs, s, p, h, k, {}, own, NOTHING);
    assert [] + own + [] == own;
  }
}
