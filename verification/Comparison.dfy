/** The comparison of two normalized checkpoint states as a list of reported changes. */
module Comparison {
  import opened Contracts
  import Names

  const MAX_CHANGES: nat := 200

  datatype Counts = Counts(failures: int, status4xx: int, status5xx: int)

  datatype Dom = Dom(version: Name, sha: Name)
  datatype Keyed = Keyed(version: Name, keys: set<Name>)
  datatype Network = Network(version: Name, dependencies: map<Name, Counts>)

  /** A part that is missing or malformed is `None`. */
  datatype NormalizedState = NormalizedState(dom: Option<Dom>, scripts: Option<Keyed>, network: Option<Network>, errors: Option<Keyed>)

  datatype Section = DomSection | ScriptsSection | NetworkSection | ErrorsSection

  datatype Reason = NoPredecessor | PredecessorHasNoState | MissingState(section: Section) | IncompatibleNormalizer(section: Section)

  datatype Subject = Script | Dependency | JavascriptError

  datatype Change =
    | Structural(before: Name, after: Name)
    | Added(subject: Subject, key: Name)
    | Removed(subject: Subject, key: Name)
    | StatusChange(key: Name, was: Counts, now: Counts)

  datatype Comparison =
    | NotComparable(reason: Reason)
    | Comparable(changeCount: nat, changes: seq<Change>, truncated: bool)

  // ---------------------------------------------------------------- what counts as a change

  function SectionProblem<T>(section: Section, current: Option<T>, previous: Option<T>, version: T -> Name): Option<Reason> {
    if current.None? || previous.None? then Some(MissingState(section))
    else if version(current.value) != version(previous.value) then Some(IncompatibleNormalizer(section))
    else None
  }

  /** Parts are examined in a fixed order; the first problem is the reason. */
  function Problem(current: NormalizedState, previous: NormalizedState): Option<Reason> {
    var dom := SectionProblem(DomSection, current.dom, previous.dom, (d: Dom) => d.version);
    var scripts := SectionProblem(ScriptsSection, current.scripts, previous.scripts, (k: Keyed) => k.version);
    var network := SectionProblem(NetworkSection, current.network, previous.network, (n: Network) => n.version);
    var errors := SectionProblem(ErrorsSection, current.errors, previous.errors, (k: Keyed) => k.version);
    if dom.Some? then dom else if scripts.Some? then scripts else if network.Some? then network else errors
  }

  predicate Whole(s: NormalizedState) {
    s.dom.Some? && s.scripts.Some? && s.network.Some? && s.errors.Some?
  }

  function KeysOf(s: NormalizedState, subject: Subject): set<Name>
    requires Whole(s)
  {
    match subject
    case Script => s.scripts.value.keys
    case Dependency => s.network.value.dependencies.Keys
    case JavascriptError => s.errors.value.keys
  }

  predicate IsChange(c: Change, current: NormalizedState, previous: NormalizedState)
    requires Whole(current) && Whole(previous)
  {
    match c
    case Structural(before, after) => before == previous.dom.value.sha && after == current.dom.value.sha && before != after
    case Added(subject, key) => key in KeysOf(current, subject) && key !in KeysOf(previous, subject)
    case Removed(subject, key) => key in KeysOf(previous, subject) && key !in KeysOf(current, subject)
    case StatusChange(key, before, after) =>
      var now, was := current.network.value.dependencies, previous.network.value.dependencies;
      key in now && key in was && before == was[key] && after == now[key] && before != after
  }

  predicate NoRepeats<T(==)>(s: seq<T>) {
    forall i, j :: 0 <= i < j < |s| ==> s[i] != s[j]
  }

  /** Each change once. */
  ghost predicate Reports(changes: seq<Change>, current: NormalizedState, previous: NormalizedState)
    requires Whole(current) && Whole(previous)
  {
    NoRepeats(changes) && forall c :: c in changes <==> IsChange(c, current, previous)
  }

  // ---------------------------------------------------------------- the lists the helpers append

  function AddedFor(subject: Subject, keys: seq<Name>): seq<Change> {
    seq(|keys|, i requires 0 <= i < |keys| => Added(subject, keys[i]))
  }

  function RemovedFor(subject: Subject, keys: seq<Name>): seq<Change> {
    seq(|keys|, i requires 0 <= i < |keys| => Removed(subject, keys[i]))
  }

  function StatusFor(keys: seq<Name>, now: map<Name, Counts>, was: map<Name, Counts>): seq<Change>
    requires forall k :: k in keys ==> k in now && k in was
  {
    if keys == [] then []
    else
      var k := keys[|keys| - 1];
      StatusFor(keys[..|keys| - 1], now, was) + if was[k] != now[k] then [StatusChange(k, was[k], now[k])] else []
  }

  ghost function SetChanges(subject: Subject, now: set<Name>, was: set<Name>): seq<Change> {
    AddedFor(subject, Names.Sorted(now - was)) + RemovedFor(subject, Names.Sorted(was - now))
  }

  ghost function NetworkChanges(now: map<Name, Counts>, was: map<Name, Counts>): seq<Change> {
    StatusFor(Names.Sorted(now.Keys * was.Keys), now, was)
  }

  ghost function AllChanges(current: NormalizedState, previous: NormalizedState): seq<Change>
    requires Whole(current) && Whole(previous)
  {
    var before, after := previous.dom.value.sha, current.dom.value.sha;
    (if before != after then [Structural(before, after)] else [])
    + SetChanges(Script, KeysOf(current, Script), KeysOf(previous, Script))
    + SetChanges(Dependency, KeysOf(current, Dependency), KeysOf(previous, Dependency))
    + NetworkChanges(current.network.value.dependencies, previous.network.value.dependencies)
    + SetChanges(JavascriptError, KeysOf(current, JavascriptError), KeysOf(previous, JavascriptError))
  }

  // ---------------------------------------------------------------- the list reports each change once

  lemma {:induction false} StatusForReports(keys: seq<Name>, now: map<Name, Counts>, was: map<Name, Counts>)
    requires Names.Increasing(keys) && forall k :: k in keys ==> k in now && k in was
    ensures NoRepeats(StatusFor(keys, now, was))
    ensures forall c :: c in StatusFor(keys, now, was) <==>
      c.StatusChange? && c.key in keys && c.was == was[c.key] && c.now == now[c.key] && c.was != c.now
  {
    if keys != [] {
      var before, k := keys[..|keys| - 1], keys[|keys| - 1];
      assert keys == before + [k];
      forall x | x in before
        ensures x in keys && x != k
      {
        var i :| 0 <= i < |before| && before[i] == x;
        assert keys[i] < keys[|keys| - 1];
      }
      StatusForReports(before, now, was);
      var list := StatusFor(before, now, was);
      if was[k] != now[k] {
        var c := StatusChange(k, was[k], now[k]);
        assert StatusFor(keys, now, was) == list + [c];
        assert c !in list;
        hide StatusFor;
        JoinRepeats(list, [c]);
      } else {
        assert StatusFor(keys, now, was) == list;
      }
    }
  }

  lemma SetChangesReport(subject: Subject, now: set<Name>, was: set<Name>)
    ensures NoRepeats(SetChanges(subject, now, was))
    ensures forall c :: c in SetChanges(subject, now, was) <==>
      || (c.Added? && c.subject == subject && c.key in now && c.key !in was)
      || (c.Removed? && c.subject == subject && c.key in was && c.key !in now)
  {
    var plus, minus := Names.Sorted(now - was), Names.Sorted(was - now);
    var added, removed := AddedFor(subject, plus), RemovedFor(subject, minus);
    AddedMembers(subject, plus);
    RemovedMembers(subject, minus);
    JoinRepeats(added, removed);
  }

  lemma AddedMembers(subject: Subject, keys: seq<Name>)
    requires Names.Increasing(keys)
    ensures NoRepeats(AddedFor(subject, keys))
    ensures forall c :: c in AddedFor(subject, keys) <==> c.Added? && c.subject == subject && c.key in keys
  {
    forall c: Change | c.Added? && c.subject == subject && c.key in keys
      ensures c in AddedFor(subject, keys)
    {
      var i :| 0 <= i < |keys| && keys[i] == c.key;
      assert AddedFor(subject, keys)[i] == c;
    }
  }

  lemma RemovedMembers(subject: Subject, keys: seq<Name>)
    requires Names.Increasing(keys)
    ensures NoRepeats(RemovedFor(subject, keys))
    ensures forall c :: c in RemovedFor(subject, keys) <==> c.Removed? && c.subject == subject && c.key in keys
  {
    forall c: Change | c.Removed? && c.subject == subject && c.key in keys
      ensures c in RemovedFor(subject, keys)
    {
      var i :| 0 <= i < |keys| && keys[i] == c.key;
      assert RemovedFor(subject, keys)[i] == c;
    }
  }

  lemma JoinRepeats<T>(a: seq<T>, b: seq<T>)
    requires NoRepeats(a) && NoRepeats(b) && forall x :: x in a ==> x !in b
    ensures NoRepeats(a + b)
    ensures forall x :: x in a + b <==> x in a || x in b
  {
    forall i, j | 0 <= i < j < |a + b|
      ensures (a + b)[i] != (a + b)[j]
    {
      if i < |a| <= j {
        assert a[i] in a && b[j - |a|] in b;
      }
    }
  }

  lemma NetworkChangesReport(now: map<Name, Counts>, was: map<Name, Counts>)
    ensures NoRepeats(NetworkChanges(now, was))
    ensures forall c :: c in NetworkChanges(now, was) <==>
      c.StatusChange? && c.key in now && c.key in was && c.was == was[c.key] && c.now == now[c.key] && c.was != c.now
  {
    var keys := Names.Sorted(now.Keys * was.Keys);
    assert forall k :: k in keys <==> k in now && k in was;
    StatusForReports(keys, now, was);
  }

  lemma AllChangesReport(current: NormalizedState, previous: NormalizedState)
    requires Whole(current) && Whole(previous)
    ensures Reports(AllChanges(current, previous), current, previous)
  {
    var before, after := previous.dom.value.sha, current.dom.value.sha;
    var dom := if before != after then [Structural(before, after)] else [];
    var scripts := SetChanges(Script, KeysOf(current, Script), KeysOf(previous, Script));
    var keys := SetChanges(Dependency, KeysOf(current, Dependency), KeysOf(previous, Dependency));
    var statuses := NetworkChanges(current.network.value.dependencies, previous.network.value.dependencies);
    var errors := SetChanges(JavascriptError, KeysOf(current, JavascriptError), KeysOf(previous, JavascriptError));
    SetChangesReport(Script, KeysOf(current, Script), KeysOf(previous, Script));
    SetChangesReport(Dependency, KeysOf(current, Dependency), KeysOf(previous, Dependency));
    NetworkChangesReport(current.network.value.dependencies, previous.network.value.dependencies);
    SetChangesReport(JavascriptError, KeysOf(current, JavascriptError), KeysOf(previous, JavascriptError));
    hide SetChanges, NetworkChanges, NoRepeats;
    SingleReports(dom);
    JoinRepeats(dom, scripts);
    JoinRepeats(dom + scripts, keys);
    JoinRepeats(dom + scripts + keys, statuses);
    JoinRepeats(dom + scripts + keys + statuses, errors);
  }

  // ---------------------------------------------------------------- the order of the list

  /** Where a change belongs: DOM, scripts, dependencies, their status changes, errors; additions before removals. */
  function Place(c: Change): nat {
    match c
    case Structural(_, _) => 0
    case Added(subject, _) => if subject == Script then 1 else if subject == Dependency then 3 else 6
    case Removed(subject, _) => if subject == Script then 2 else if subject == Dependency then 4 else 7
    case StatusChange(_, _, _) => 5
  }

  function KeyOf(c: Change): Name {
    if c.Structural? then 0 else c.key
  }

  predicate ComesBefore(a: Change, b: Change) {
    Place(a) < Place(b) || (Place(a) == Place(b) && KeyOf(a) < KeyOf(b))
  }

  predicate InOrder(changes: seq<Change>) {
    forall i, j :: 0 <= i < j < |changes| ==> ComesBefore(changes[i], changes[j])
  }

  lemma JoinOrdered(a: seq<Change>, b: seq<Change>)
    requires InOrder(a) && InOrder(b) && forall x, y :: x in a && y in b ==> Place(x) < Place(y)
    ensures InOrder(a + b) && forall x :: x in a + b <==> x in a || x in b
  {
    hide Place, KeyOf;
    forall i, j | 0 <= i < j < |a + b|
      ensures ComesBefore((a + b)[i], (a + b)[j])
    {
      if i < |a| <= j {
        assert a[i] in a && b[j - |a|] in b;
      }
    }
  }

  lemma SetChangesOrdered(subject: Subject, now: set<Name>, was: set<Name>)
    ensures InOrder(SetChanges(subject, now, was))
    ensures forall c :: c in SetChanges(subject, now, was) ==> (c.Added? || c.Removed?) && c.subject == subject
  {
    var plus, minus := Names.Sorted(now - was), Names.Sorted(was - now);
    JoinOrdered(AddedFor(subject, plus), RemovedFor(subject, minus));
  }

  lemma {:induction false} StatusForOrdered(keys: seq<Name>, now: map<Name, Counts>, was: map<Name, Counts>)
    requires Names.Increasing(keys) && forall k :: k in keys ==> k in now && k in was
    ensures InOrder(StatusFor(keys, now, was))
    ensures forall c :: c in StatusFor(keys, now, was) ==> c.StatusChange? && c.key in keys
  {
    if keys != [] {
      var before, k := keys[..|keys| - 1], keys[|keys| - 1];
      assert keys == before + [k];
      StatusForOrdered(before, now, was);
      forall x | x in before
        ensures x < k
      {
        var i :| 0 <= i < |before| && before[i] == x;
        assert keys[i] < keys[|keys| - 1];
      }
      AppendOrdered(StatusFor(before, now, was), StatusChange(k, was[k], now[k]));
    }
  }

  lemma AppendOrdered(changes: seq<Change>, c: Change)
    requires InOrder(changes) && forall x :: x in changes ==> ComesBefore(x, c)
    ensures InOrder(changes + [c])
  {
  }

  /** The list, which is cut at its end, is ordered by section, additions before removals, keys increasing. */
  lemma AllChangesInOrder(current: NormalizedState, previous: NormalizedState)
    requires Whole(current) && Whole(previous)
    ensures InOrder(AllChanges(current, previous))
  {
    var before, after := previous.dom.value.sha, current.dom.value.sha;
    var dom := if before != after then [Structural(before, after)] else [];
    var scripts := SetChanges(Script, KeysOf(current, Script), KeysOf(previous, Script));
    var keys := SetChanges(Dependency, KeysOf(current, Dependency), KeysOf(previous, Dependency));
    var now, was := current.network.value.dependencies, previous.network.value.dependencies;
    var statuses := NetworkChanges(now, was);
    var errors := SetChanges(JavascriptError, KeysOf(current, JavascriptError), KeysOf(previous, JavascriptError));
    SetChangesOrdered(Script, KeysOf(current, Script), KeysOf(previous, Script));
    SetChangesOrdered(Dependency, KeysOf(current, Dependency), KeysOf(previous, Dependency));
    SetChangesOrdered(JavascriptError, KeysOf(current, JavascriptError), KeysOf(previous, JavascriptError));
    assert forall k :: k in Names.Sorted(now.Keys * was.Keys) <==> k in now && k in was;
    StatusForOrdered(Names.Sorted(now.Keys * was.Keys), now, was);
    hide SetChanges, NetworkChanges, InOrder, StatusFor;
    assert InOrder(dom) by { SingleOrdered(dom); }
    JoinOrdered(dom, scripts);
    JoinOrdered(dom + scripts, keys);
    JoinOrdered(dom + scripts + keys, statuses);
    JoinOrdered(dom + scripts + keys + statuses, errors);
  }

  lemma SingleOrdered(changes: seq<Change>)
    requires |changes| <= 1
    ensures InOrder(changes)
  {
  }

  lemma SingleReports<T>(s: seq<T>)
    requires |s| <= 1
    ensures NoRepeats(s)
  {
  }

  // ---------------------------------------------------------------- patching, emptiness, mirror

  function PatchedKeys(keys: set<Name>, subject: Subject, changes: seq<Change>): set<Name> {
    if changes == [] then keys
    else
      var before, last := PatchedKeys(keys, subject, changes[..|changes| - 1]), changes[|changes| - 1];
      if last.Added? && last.subject == subject then before + {last.key}
      else if last.Removed? && last.subject == subject then before - {last.key}
      else before
  }

  function PatchedCounts(counts: map<Name, Counts>, changes: seq<Change>): map<Name, Counts> {
    if changes == [] then counts
    else
      var before, last := PatchedCounts(counts, changes[..|changes| - 1]), changes[|changes| - 1];
      if last.StatusChange? then before[last.key := last.now] else before
  }

  lemma {:induction false} PatchedKeysMeaning(keys: set<Name>, subject: Subject, changes: seq<Change>, k: Name)
    requires !(Added(subject, k) in changes && Removed(subject, k) in changes)
    ensures k in PatchedKeys(keys, subject, changes) <==>
      Added(subject, k) in changes || (k in keys && Removed(subject, k) !in changes)
  {
    if changes != [] {
      var before, last := changes[..|changes| - 1], changes[|changes| - 1];
      assert changes == before + [last];
      assert forall c :: c in changes <==> c in before || c == last;
      PatchedKeysMeaning(keys, subject, before, k);
    }
  }

  lemma {:induction false} PatchedCountsMeaning(counts: map<Name, Counts>, changes: seq<Change>, k: Name, value: Counts)
    requires k in counts && forall c :: c in changes && c.StatusChange? && c.key == k ==> c.now == value
    ensures k in PatchedCounts(counts, changes)
    ensures PatchedCounts(counts, changes)[k] ==
      if exists c :: c in changes && c.StatusChange? && c.key == k then value else counts[k]
  {
    if changes != [] {
      var before, last := changes[..|changes| - 1], changes[|changes| - 1];
      assert changes == before + [last];
      assert forall c :: c in changes <==> c in before || c == last;
      PatchedCountsMeaning(counts, before, k, value);
    }
  }

  /** Applying an untruncated list of changes to the predecessor gives the current keys and status counts. */
  lemma PatchGivesCurrent(current: NormalizedState, previous: NormalizedState, subject: Subject, k: Name)
    requires Whole(current) && Whole(previous)
    ensures k in PatchedKeys(KeysOf(previous, subject), subject, AllChanges(current, previous)) <==> k in KeysOf(current, subject)
    ensures k in KeysOf(previous, Dependency) && k in KeysOf(current, Dependency) ==>
      var patched := PatchedCounts(previous.network.value.dependencies, AllChanges(current, previous));
      k in patched && patched[k] == current.network.value.dependencies[k]
  {
    AllChangesReport(current, previous);
    var changes := AllChanges(current, previous);
    hide AllChanges;
    assert Added(subject, k) in changes <==> IsChange(Added(subject, k), current, previous);
    assert Removed(subject, k) in changes <==> IsChange(Removed(subject, k), current, previous);
    PatchedKeysMeaning(KeysOf(previous, subject), subject, changes, k);
    var now, was := current.network.value.dependencies, previous.network.value.dependencies;
    if k in now && k in was {
      PatchedCountsMeaning(was, changes, k, now[k]);
      assert StatusChange(k, was[k], now[k]) in changes <==> was[k] != now[k];
    }
  }

  /** Nothing is reported exactly when the DOM hash, every key set and every shared status count agree. */
  lemma NothingReportedIffSame(current: NormalizedState, previous: NormalizedState)
    requires Whole(current) && Whole(previous)
    ensures AllChanges(current, previous) == [] <==>
      && current.dom.value.sha == previous.dom.value.sha
      && (forall subject, k :: k in KeysOf(current, subject) <==> k in KeysOf(previous, subject))
      && (forall k :: k in KeysOf(current, Dependency) && k in KeysOf(previous, Dependency) ==>
            current.network.value.dependencies[k] == previous.network.value.dependencies[k])
  {
    AllChangesReport(current, previous);
    var changes := AllChanges(current, previous);
    hide AllChanges;
    if changes == [] {
      assert forall c :: !IsChange(c, current, previous);
      assert !IsChange(Structural(previous.dom.value.sha, current.dom.value.sha), current, previous);
      forall subject, k
        ensures k in KeysOf(current, subject) <==> k in KeysOf(previous, subject)
      {
        assert !IsChange(Added(subject, k), current, previous) && !IsChange(Removed(subject, k), current, previous);
      }
      var now, was := current.network.value.dependencies, previous.network.value.dependencies;
      forall k | k in now && k in was
        ensures now[k] == was[k]
      {
        assert !IsChange(StatusChange(k, was[k], now[k]), current, previous);
      }
    } else {
      var c := changes[0];
      assert c in changes && IsChange(c, current, previous);
    }
  }

  function Mirror(c: Change): Change {
    match c
    case Structural(before, after) => Structural(after, before)
    case Added(subject, key) => Removed(subject, key)
    case Removed(subject, key) => Added(subject, key)
    case StatusChange(key, was, now) => StatusChange(key, now, was)
  }

  function Mirrored(changes: seq<Change>): seq<Change> {
    seq(|changes|, i requires 0 <= i < |changes| => Mirror(changes[i]))
  }

  lemma SameMembersSameLength<T>(a: seq<T>, b: seq<T>)
    requires NoRepeats(a) && NoRepeats(b) && forall x :: x in a <==> x in b
    ensures |a| == |b|
  {
    DistinctCount(a);
    DistinctCount(b);
    assert (set x | x in a) == (set x | x in b);
  }

  lemma {:induction false} DistinctCount<T>(s: seq<T>)
    requires NoRepeats(s)
    ensures |set x | x in s| == |s|
  {
    if s != [] {
      var before, last := s[..|s| - 1], s[|s| - 1];
      DistinctCount(before);
      assert (set x | x in s) == (set x | x in before) + {last};
      assert last !in before;
    }
  }

  /** Exchanging the arguments exchanges added with removed and before with after, change by change. */
  lemma SwapMirrors(current: NormalizedState, previous: NormalizedState)
    requires Whole(current) && Whole(previous)
    ensures forall c :: c in AllChanges(current, previous) <==> Mirror(c) in AllChanges(previous, current)
    ensures |AllChanges(current, previous)| == |AllChanges(previous, current)|
  {
    AllChangesReport(current, previous);
    AllChangesReport(previous, current);
    var there, back := AllChanges(current, previous), AllChanges(previous, current);
    ChangesMirror(current, previous);
    hide AllChanges, IsChange, NoRepeats, Mirror;
    var mirrored := Mirrored(there);
    MirroredMembers(there);
    hide Mirrored;
    forall c
      ensures c in mirrored <==> c in back
    {
      MirrorTwice(c);
      assert c in mirrored <==> Mirror(c) in there;
    }
    SameMembersSameLength(mirrored, back);
  }

  lemma MirrorTwice(c: Change)
    ensures Mirror(Mirror(c)) == c
  {
  }

  lemma ChangesMirror(current: NormalizedState, previous: NormalizedState)
    requires Whole(current) && Whole(previous)
    ensures forall c :: IsChange(c, current, previous) <==> IsChange(Mirror(c), previous, current)
  {
  }

  /** Whether two states compare at all, and why not, does not depend on their order. */
  lemma ProblemIsSymmetric(current: NormalizedState, previous: NormalizedState)
    ensures Problem(current, previous) == Problem(previous, current)
  {
  }

  /** The versions of a section in two states, if both have it. */
  function Versions(current: NormalizedState, previous: NormalizedState, section: Section): Option<(Name, Name)> {
    match section
    case DomSection =>
      if current.dom.Some? && previous.dom.Some? then Some((current.dom.value.version, previous.dom.value.version)) else None
    case ScriptsSection =>
      if current.scripts.Some? && previous.scripts.Some?
      then Some((current.scripts.value.version, previous.scripts.value.version)) else None
    case NetworkSection =>
      if current.network.Some? && previous.network.Some?
      then Some((current.network.value.version, previous.network.value.version)) else None
    case ErrorsSection =>
      if current.errors.Some? && previous.errors.Some?
      then Some((current.errors.value.version, previous.errors.value.version)) else None
  }

  predicate Agrees(current: NormalizedState, previous: NormalizedState, section: Section) {
    match Versions(current, previous, section)
    case None => false
    case Some((now, was)) => now == was
  }

  const SECTIONS := [DomSection, ScriptsSection, NetworkSection, ErrorsSection]

  predicate FirstDisagreement(current: NormalizedState, previous: NormalizedState, i: nat)
    requires i < |SECTIONS|
  {
    !Agrees(current, previous, SECTIONS[i]) && forall j :: 0 <= j < i ==> Agrees(current, previous, SECTIONS[j])
  }

  /**
    Two states compare exactly when every section is in both with one normalizer version. Else the reason
    names the first section, in the order DOM, scripts, network, errors, that is missing or differs.
  */
  lemma ProblemIsTheFirst(current: NormalizedState, previous: NormalizedState)
    ensures Problem(current, previous).None? <==> forall section :: Agrees(current, previous, section)
    ensures Problem(current, previous).None? ==> Whole(current) && Whole(previous)
    ensures forall i :: 0 <= i < |SECTIONS| && FirstDisagreement(current, previous, i) ==>
      Problem(current, previous) ==
      Some(if Versions(current, previous, SECTIONS[i]).None? then MissingState(SECTIONS[i]) else IncompatibleNormalizer(SECTIONS[i]))
  {
    if forall section :: Agrees(current, previous, section) {
      assert Agrees(current, previous, DomSection) && Agrees(current, previous, ScriptsSection);
      assert Agrees(current, previous, NetworkSection) && Agrees(current, previous, ErrorsSection);
    }
    assert SECTIONS[0] == DomSection && SECTIONS[1] == ScriptsSection && SECTIONS[2] == NetworkSection && SECTIONS[3] == ErrorsSection;
  }

  lemma MirroredMembers(changes: seq<Change>)
    requires NoRepeats(changes)
    ensures NoRepeats(Mirrored(changes)) && forall c :: c in Mirrored(changes) <==> Mirror(c) in changes
  {
    var mirrored := Mirrored(changes);
    assert forall c :: Mirror(Mirror(c)) == c;
    forall i, j | 0 <= i < j < |mirrored|
      ensures mirrored[i] != mirrored[j]
    {
      assert Mirror(mirrored[i]) == changes[i] && Mirror(mirrored[j]) == changes[j];
    }
    forall c | Mirror(c) in changes
      ensures c in mirrored
    {
      var i :| 0 <= i < |changes| && changes[i] == Mirror(c);
      assert mirrored[i] == c;
    }
  }

  // ---------------------------------------------------------------- the methods

  method AppendSetChanges(changes: seq<Change>, subject: Subject, now: set<Name>, was: set<Name>) returns (all: seq<Change>)
    ensures all == changes + SetChanges(subject, now, was)
  {
    all := changes;
    var plus := Names.Sort(now - was);
    for i := 0 to |plus|
      invariant all == changes + AddedFor(subject, plus)[..i]
    {
      all := all + [Added(subject, plus[i])];
    }
    var minus := Names.Sort(was - now);
    for i := 0 to |minus|
      invariant all == changes + AddedFor(subject, plus) + RemovedFor(subject, minus)[..i]
    {
      all := all + [Removed(subject, minus[i])];
    }
    assert changes + AddedFor(subject, plus) + RemovedFor(subject, minus) == changes + SetChanges(subject, now, was);
  }

  method AppendNetworkStatusChanges(changes: seq<Change>, now: map<Name, Counts>, was: map<Name, Counts>)
    returns (all: seq<Change>)
    ensures all == changes + NetworkChanges(now, was)
  {
    all := changes;
    var shared := Names.Sort(now.Keys * was.Keys);
    assert forall k :: k in shared <==> k in now && k in was;
    for i := 0 to |shared|
      invariant all == changes + StatusFor(shared[..i], now, was)
    {
      assert shared[..i + 1][..i] == shared[..i] && shared[i] in shared;
      var before, after := was[shared[i]], now[shared[i]];
      if before != after {
        all := all + [StatusChange(shared[i], before, after)];
      }
    }
    assert shared[..|shared|] == shared;
  }

  method CompareNormalizedState(current: NormalizedState, manifest: Option<Option<NormalizedState>>) returns (r: Comparison)
    ensures manifest == None ==> r == NotComparable(NoPredecessor)
    ensures manifest == Some(None) ==> r == NotComparable(PredecessorHasNoState)
    ensures manifest.Some? && manifest.value.Some? ==>
      var previous := manifest.value.value;
      match Problem(current, previous)
      case Some(reason) => r == NotComparable(reason)
      case None =>
        var all := AllChanges(current, previous);
        r == Comparable(|all|, if |all| > 200 then all[..200] else all, |all| > 200)
  {
    if manifest == None {
      return NotComparable(NoPredecessor);
    }
    if manifest.value == None {
      return NotComparable(PredecessorHasNoState);
    }
    var previous := manifest.value.value;
    var problem := Problem(current, previous);
    if problem.Some? {
      return NotComparable(problem.value);
    }
    var changes: seq<Change> := [];
    if current.dom.value.sha != previous.dom.value.sha {
      changes := [Structural(previous.dom.value.sha, current.dom.value.sha)];
    }
    changes := AppendSetChanges(changes, Script, current.scripts.value.keys, previous.scripts.value.keys);
    changes := AppendSetChanges(changes, Dependency,
                                current.network.value.dependencies.Keys, previous.network.value.dependencies.Keys);
    changes := AppendNetworkStatusChanges(changes, current.network.value.dependencies, previous.network.value.dependencies);
    changes := AppendSetChanges(changes, JavascriptError, current.errors.value.keys, previous.errors.value.keys);
    return Comparable(|changes|, if |changes| > MAX_CHANGES then changes[..MAX_CHANGES] else changes, |changes| > MAX_CHANGES);
  }
}
