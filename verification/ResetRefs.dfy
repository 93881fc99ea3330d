/**
  Restoring a backup's references: the difference to the repository's references is
  computed and applied in one transaction, or the removals first and the rest, if it can
  be applied, in a second one.
 */
module ResetRefs {
  type Name = string
  type Target = string

  datatype Ref = Ref(name: Name, target: Target)

  const HEAD: Name := "HEAD"

  /** The object ID that stands for "no object". */
  const ZERO: Target := "0000000000000000000000000000000000000000"

  ghost predicate Distinct(refs: seq<Ref>) {
    forall i, j :: 0 <= i < j < |refs| ==> refs[i].name != refs[j].name
  }

  function NamesOf(refs: seq<Ref>): set<Name> {
    set i | 0 <= i < |refs| :: refs[i].name
  }

  /** `refs` lists `m`, in any order. */
  ghost predicate Listing(refs: seq<Ref>, m: map<Name, Target>) {
    Distinct(refs) && NamesOf(refs) == m.Keys && forall i :: 0 <= i < |refs| ==> m[refs[i].name] == refs[i].target
  }

  // -------------------------------------------------------- a reference transaction

  function Updated(m: map<Name, Target>, u: Ref): map<Name, Target> {
    if u.target == ZERO then m - {u.name} else m[u.name := u.target]
  }

  function Applied(m: map<Name, Target>, batch: seq<Ref>): map<Name, Target> {
    if batch == [] then m else Updated(Applied(m, batch[..|batch| - 1]), batch[|batch| - 1])
  }

  lemma {:induction false} AppliedElsewhere(m: map<Name, Target>, batch: seq<Ref>, name: Name)
    requires name !in NamesOf(batch)
    ensures name in Applied(m, batch) <==> name in m
    ensures name in m ==> Applied(m, batch)[name] == m[name]
  {
    if batch != [] {
      AppliedElsewhere(m, batch[..|batch| - 1], name);
    }
  }

  lemma {:induction false} AppliedAt(m: map<Name, Target>, batch: seq<Ref>, i: nat)
    requires Distinct(batch) && i < |batch|
    ensures var r := Applied(m, batch);
            if batch[i].target == ZERO then batch[i].name !in r
            else batch[i].name in r && r[batch[i].name] == batch[i].target
  {
    if i < |batch| - 1 {
      AppliedAt(m, batch[..|batch| - 1], i);
    }
  }

  // ------------------------------------------------------------- the difference

  predicate ShouldRemoveRef(refsToKeep: set<Name>, name: Name) {
    name != HEAD && name !in refsToKeep
  }

  predicate ShouldUpdateRef(existing: map<Name, Target>, new': Ref) {
    new'.name != HEAD && !(new'.name in existing && existing[new'.name] == new'.target)
  }

  function Removals(existing: seq<Ref>, refs: seq<Ref>): seq<Ref> {
    if existing == [] then [] else
    var last := existing[|existing| - 1];
    Removals(existing[..|existing| - 1], refs)
    + if ShouldRemoveRef(NamesOf(refs), last.name) then [Ref(last.name, ZERO)] else []
  }

  function Updates(existing: map<Name, Target>, refs: seq<Ref>): seq<Ref> {
    if refs == [] then [] else
    var last := refs[|refs| - 1];
    Updates(existing, refs[..|refs| - 1]) + if ShouldUpdateRef(existing, last) then [last] else []
  }

  lemma {:induction false} RemovalsAre(existing: seq<Ref>, refs: seq<Ref>, name: Name)
    ensures name in NamesOf(Removals(existing, refs)) <==>
            name in NamesOf(existing) && ShouldRemoveRef(NamesOf(refs), name)
    ensures forall i :: 0 <= i < |Removals(existing, refs)| ==> Removals(existing, refs)[i].target == ZERO
  {
    if existing != [] {
      var front, last := existing[..|existing| - 1], existing[|existing| - 1];
      RemovalsAre(front, refs, name);
      assert existing == front + [last];
      NamesSplit(front, last);
      if ShouldRemoveRef(NamesOf(refs), last.name) {
        NamesSplit(Removals(front, refs), Ref(last.name, ZERO));
        assert Removals(existing, refs) == Removals(front, refs) + [Ref(last.name, ZERO)];
      } else {
        assert Removals(existing, refs) == Removals(front, refs);
      }
    }
  }

  lemma NamesSplit(front: seq<Ref>, last: Ref)
    ensures NamesOf(front + [last]) == NamesOf(front) + {last.name}
  {
    forall name ensures name in NamesOf(front + [last]) <==> name in NamesOf(front) + {last.name} {
      if name in NamesOf(front) {
        var i :| 0 <= i < |front| && front[i].name == name;
        assert (front + [last])[i].name == name;
      }
      assert (front + [last])[|front|].name == last.name;
    }
  }

  lemma {:induction false} RemovalsAreDistinct(existing: seq<Ref>, refs: seq<Ref>)
    requires Distinct(existing)
    ensures Distinct(Removals(existing, refs))
  {
    if existing != [] {
      var front, last := existing[..|existing| - 1], existing[|existing| - 1];
      RemovalsAreDistinct(front, refs);
      RemovalsAre(front, refs, last.name);
      assert forall i :: 0 <= i < |Removals(front, refs)| ==>
                           Removals(front, refs)[i].name in NamesOf(Removals(front, refs));
    }
  }

  lemma {:induction false} UpdatesAre(existing: map<Name, Target>, refs: seq<Ref>, u: Ref)
    ensures u in Updates(existing, refs) <==> u in refs && ShouldUpdateRef(existing, u)
  {
    if refs != [] {
      UpdatesAre(existing, refs[..|refs| - 1], u);
      assert refs == refs[..|refs| - 1] + [refs[|refs| - 1]];
    }
  }

  lemma {:induction false} UpdatesAreDistinct(existing: map<Name, Target>, refs: seq<Ref>)
    requires Distinct(refs)
    ensures Distinct(Updates(existing, refs))
  {
    if refs != [] {
      var front, last := refs[..|refs| - 1], refs[|refs| - 1];
      UpdatesAreDistinct(existing, front);
      forall i | 0 <= i < |Updates(existing, front)| ensures Updates(existing, front)[i].name != last.name {
        UpdatesAre(existing, front, Updates(existing, front)[i]);
        assert Updates(existing, front)[i] in front;
      }
    }
  }

  lemma NameHasRef(refs: seq<Ref>, name: Name) returns (i: nat)
    requires name in NamesOf(refs)
    ensures i < |refs| && refs[i].name == name
  {
    i :| i < |refs| && refs[i].name == name;
  }

  lemma {:induction false} NamesConcat(a: seq<Ref>, b: seq<Ref>)
    ensures NamesOf(a + b) == NamesOf(a) + NamesOf(b)
  {
    if b == [] {
      assert a + b == a;
    } else {
      var front, last := b[..|b| - 1], b[|b| - 1];
      assert a + b == (a + front) + [last] && b == front + [last];
      NamesConcat(a, front);
      NamesSplit(a + front, last);
      NamesSplit(front, last);
    }
  }

  /** No removal names a reference of the backup, so the transaction names one twice
      exactly when the updates do. */
  lemma BatchIsDistinct(m: map<Name, Target>, existing: seq<Ref>, refs: seq<Ref>)
    requires Listing(existing, m)
    ensures Distinct(Removals(existing, refs) + Updates(m, refs)) <==> Distinct(Updates(m, refs))
  {
    RemovalsAreDistinct(existing, refs);
    var removals, updates := Removals(existing, refs), Updates(m, refs);
    forall i, j | 0 <= i < |removals| && 0 <= j < |updates| ensures removals[i].name != updates[j].name {
      RemovalsAre(existing, refs, removals[i].name);
      assert removals[i].name in NamesOf(removals);
      UpdatesAre(m, refs, updates[j]);
      assert updates[j] in refs && updates[j].name in NamesOf(refs);
    }
    if i, j :| 0 <= i < j < |updates| && updates[i].name == updates[j].name {
      var batch := removals + updates;
      assert batch[|removals| + i].name == batch[|removals| + j].name;
    }
  }

  /** For a backup that names every reference once, the transaction does so too. */
  lemma NoRefIsNamedTwice(m: map<Name, Target>, existing: seq<Ref>, refs: seq<Ref>)
    requires Listing(existing, m) && Distinct(refs)
    ensures Distinct(Removals(existing, refs) + Updates(m, refs))
  {
    BatchIsDistinct(m, existing, refs);
    UpdatesAreDistinct(m, refs);
  }

  lemma NamedTwice(updates: seq<Ref>, i: nat)
    requires i < |updates| && updates[i].name in NamesOf(updates[..i])
    ensures !Distinct(updates)
  {
    var j := NameHasRef(updates[..i], updates[i].name);
  }

  lemma StillDistinct(front: seq<Ref>, u: Ref)
    requires Distinct(front)
    ensures Distinct(front + [u]) <==> u.name !in NamesOf(front)
  {
    if u.name in NamesOf(front) {
      var j := NameHasRef(front, u.name);
      assert (front + [u])[j].name == (front + [u])[|front|].name;
    } else {
      assert forall i :: 0 <= i < |front| ==> front[i].name in NamesOf(front);
    }
  }

  /** Two entries of the backup for one reference, both different from what is there. */
  ghost predicate Conflict(m: map<Name, Target>, refs: seq<Ref>, i: nat, j: nat) {
    && i < j < |refs| && refs[i].name == refs[j].name
    && ShouldUpdateRef(m, refs[i]) && ShouldUpdateRef(m, refs[j])
  }

  /** Updates name a reference twice exactly when the backup has such a conflict; that is
      something a caller can see beforehand. */
  lemma {:induction false} RefusedExactly(m: map<Name, Target>, refs: seq<Ref>)
    ensures Distinct(Updates(m, refs)) <==> forall i: nat, j: nat :: !Conflict(m, refs, i, j)
  {
    if refs != [] {
      var front, n := refs[..|refs| - 1], |refs| - 1;
      RefusedExactly(m, front);
      ConflictsSplit(m, refs, n);
      if ShouldUpdateRef(m, refs[n]) {
        LastConflict(m, refs, n);
      } else {
        assert Updates(m, refs) == Updates(m, front);
        forall i: nat ensures !Conflict(m, refs, i, n) {}
      }
    }
  }

  /** A conflict is one of the entries before the last, or one with the last. */
  lemma ConflictsSplit(m: map<Name, Target>, refs: seq<Ref>, n: nat)
    requires n + 1 == |refs|
    ensures (forall i: nat, j: nat :: !Conflict(m, refs, i, j))
            <==> (forall i: nat, j: nat :: !Conflict(m, refs[..n], i, j)) && (forall i: nat :: !Conflict(m, refs, i, n))
  {
    forall i: nat, j: nat ensures Conflict(m, refs[..n], i, j) <==> Conflict(m, refs, i, j) && j < n {
    }
    if i: nat, j: nat :| Conflict(m, refs, i, j) {
      assert j == n || Conflict(m, refs[..n], i, j);
    }
  }

  lemma LastConflict(m: map<Name, Target>, refs: seq<Ref>, n: nat)
    requires n + 1 == |refs| && ShouldUpdateRef(m, refs[n])
    ensures Distinct(Updates(m, refs)) <==>
            Distinct(Updates(m, refs[..n])) && forall i: nat :: !Conflict(m, refs, i, n)
  {
    var front, last := refs[..n], refs[n];
    var u := Updates(m, front);
    assert Updates(m, refs) == u + [last];
    if !Distinct(u) {
      var i, j :| 0 <= i < j < |u| && u[i].name == u[j].name;
      assert (u + [last])[i].name == (u + [last])[j].name;
    } else {
      StillDistinct(u, last);
      if last.name in NamesOf(u) {
        var j := NameHasRef(u, last.name);
        UpdatesAre(m, front, u[j]);
        var i: nat :| i < |front| && front[i] == u[j];
        assert Conflict(m, refs, i, n);
      } else {
        forall i: nat ensures !Conflict(m, refs, i, n) {
          if i < |front| {
            UpdatesAre(m, front, refs[i]);
            assert refs[i] in u ==> refs[i].name in NamesOf(u);
            assert refs[i] == front[i] && front[i] in front;
          }
        }
      }
    }
  }

  /** Every entry of the transaction changes its reference, and none names HEAD. */
  lemma NothingIsRewritten(m: map<Name, Target>, existing: seq<Ref>, refs: seq<Ref>, u: Ref)
    requires Listing(existing, m) && ZERO !in m.Values && u in Removals(existing, refs) + Updates(m, refs)
    ensures u.name != HEAD && (u.name in m ==> m[u.name] != u.target)
  {
    RemovalsAre(existing, refs, u.name);
    UpdatesAre(m, refs, u);
    assert u in Removals(existing, refs) ==> u.name in NamesOf(Removals(existing, refs));
  }

  // ------------------------------------------------------------ what they amount to

  /** `r` has HEAD as `m` has it and otherwise exactly the backup's references; a
      reference to the zero object is none. */
  ghost predicate IsReset(m: map<Name, Target>, refs: seq<Ref>, r: map<Name, Target>) {
    && (HEAD in r <==> HEAD in m) && (HEAD in m ==> r[HEAD] == m[HEAD])
    && (forall name :: name in r && name != HEAD ==> Ref(name, r[name]) in refs && r[name] != ZERO)
    && (forall u :: u in refs && u.name != HEAD && u.target != ZERO ==> u.name in r && r[u.name] == u.target)
  }

  ghost predicate Same(m: map<Name, Target>, r: map<Name, Target>, name: Name) {
    (name in r <==> name in m) && (name in m ==> r[name] == m[name])
  }

  /** What becomes of the reference `name`, even if the backup names it more than once:
      HEAD stays, a name that is not in the backup goes, and any other ends at an entry
      of the backup that differs from what was there, or stays if there is none. */
  ghost predicate MergedAt(m: map<Name, Target>, refs: seq<Ref>, r: map<Name, Target>, name: Name) {
    if name == HEAD then Same(m, r, name)
    else if name !in NamesOf(refs) then name !in r
    else
      && (forall u :: u in refs && u.name == name && ShouldUpdateRef(m, u) ==>
            if u.target == ZERO then name !in r else name in r && r[name] == u.target)
      && ((forall u :: u in refs && u.name == name ==> !ShouldUpdateRef(m, u)) ==> Same(m, r, name))
  }

  ghost predicate IsMerged(m: map<Name, Target>, refs: seq<Ref>, r: map<Name, Target>) {
    forall name :: MergedAt(m, refs, r, name)
  }

  lemma OutsideBatch(m: map<Name, Target>, existing: seq<Ref>, refs: seq<Ref>, name: Name)
    requires Listing(existing, m) && name !in NamesOf(Removals(existing, refs)) + NamesOf(Updates(m, refs))
    ensures forall u :: u in refs && u.name == name ==> !ShouldUpdateRef(m, u)
    ensures name != HEAD && name !in NamesOf(refs) ==> name !in m
  {
    RemovalsAre(existing, refs, name);
    forall u | u in refs && u.name == name ensures !ShouldUpdateRef(m, u) {
      UpdatesAre(m, refs, u);
      assert u in Updates(m, refs) ==> u.name in NamesOf(Updates(m, refs));
    }
  }

  lemma SameUpdate(m: map<Name, Target>, refs: seq<Ref>, u: Ref, v: Ref)
    requires Distinct(Updates(m, refs)) && u in Updates(m, refs) && v in Updates(m, refs) && u.name == v.name
    ensures u == v
  {
    var updates := Updates(m, refs);
    var i :| 0 <= i < |updates| && updates[i] == u;
    var j :| 0 <= j < |updates| && updates[j] == v;
    assert i == j;
  }

  lemma InsideBatch(m: map<Name, Target>, existing: seq<Ref>, refs: seq<Ref>, i: nat)
    requires Listing(existing, m) && Distinct(Updates(m, refs))
    requires i < |Removals(existing, refs) + Updates(m, refs)|
    ensures var batch := Removals(existing, refs) + Updates(m, refs);
            MergedAt(m, refs, Applied(m, batch), batch[i].name)
  {
    var removals, updates := Removals(existing, refs), Updates(m, refs);
    var batch := removals + updates;
    BatchIsDistinct(m, existing, refs);
    AppliedAt(m, batch, i);
    RemovalsAre(existing, refs, batch[i].name);
    if i < |removals| {
      assert batch[i] == removals[i] && removals[i].name in NamesOf(removals);
    } else {
      assert batch[i] in updates;
      UpdatesAre(m, refs, batch[i]);
      assert batch[i].name in NamesOf(refs);
      forall u | u in refs && u.name == batch[i].name && ShouldUpdateRef(m, u) ensures u == batch[i] {
        UpdatesAre(m, refs, u);
        SameUpdate(m, refs, u, batch[i]);
      }
    }
  }

  /** Applying the difference to a backup of which nothing is refused. */
  lemma DifferenceMerges(m: map<Name, Target>, existing: seq<Ref>, refs: seq<Ref>)
    requires Listing(existing, m) && Distinct(Updates(m, refs))
    ensures IsMerged(m, refs, Applied(m, Removals(existing, refs) + Updates(m, refs)))
  {
    var batch := Removals(existing, refs) + Updates(m, refs);
    var r := Applied(m, batch);
    forall name ensures MergedAt(m, refs, r, name) {
      NamesConcat(Removals(existing, refs), Updates(m, refs));
      if name in NamesOf(batch) {
        var i := NameHasRef(batch, name);
        InsideBatch(m, existing, refs, i);
      } else {
        AppliedElsewhere(m, batch, name);
        OutsideBatch(m, existing, refs, name);
      }
    }
  }

  lemma OneEntry(refs: seq<Ref>, u: Ref, v: Ref)
    requires Distinct(refs) && u in refs && v in refs && u.name == v.name
    ensures u == v
  {
    var i :| 0 <= i < |refs| && refs[i] == u;
    var j :| 0 <= j < |refs| && refs[j] == v;
    assert i == j;
  }

  /** For a backup that names each reference once, that is what it says. */
  lemma MergedOnceAt(m: map<Name, Target>, refs: seq<Ref>, r: map<Name, Target>, u: Ref)
    requires Distinct(refs) && ZERO !in m.Values && MergedAt(m, refs, r, u.name) && u in refs && u.name != HEAD
    ensures if u.target == ZERO then u.name !in r else u.name in r && r[u.name] == u.target
  {
    assert u.name in NamesOf(refs);
    forall v | v in refs && v.name == u.name ensures v == u {
      OneEntry(refs, u, v);
    }
  }

  /** Applying the difference gives exactly the backup's references outside HEAD. */
  lemma DifferenceResets(m: map<Name, Target>, existing: seq<Ref>, refs: seq<Ref>)
    requires Listing(existing, m) && Distinct(refs) && ZERO !in m.Values
    ensures IsReset(m, refs, Applied(m, Removals(existing, refs) + Updates(m, refs)))
  {
    UpdatesAreDistinct(m, refs);
    DifferenceMerges(m, existing, refs);
    var r := Applied(m, Removals(existing, refs) + Updates(m, refs));
    assert MergedAt(m, refs, r, HEAD);
    forall name | name in r && name != HEAD ensures Ref(name, r[name]) in refs && r[name] != ZERO {
      assert MergedAt(m, refs, r, name);
      var i := NameHasRef(refs, name);
      MergedOnceAt(m, refs, r, refs[i]);
      assert refs[i] in refs;
    }
    forall u | u in refs && u.name != HEAD && u.target != ZERO ensures u.name in r && r[u.name] == u.target {
      assert MergedAt(m, refs, r, u.name);
      MergedOnceAt(m, refs, r, u);
    }
  }

  /** The references that a backup does not drop. */
  function Kept(m: map<Name, Target>, refs: seq<Ref>): map<Name, Target> {
    map name | name in m && (name == HEAD || name in NamesOf(refs)) :: m[name]
  }

  /** The removals alone leave HEAD and the backup's names as they were, and nothing else. */
  lemma RemovalsKeep(m: map<Name, Target>, existing: seq<Ref>, refs: seq<Ref>)
    requires Listing(existing, m)
    ensures Applied(m, Removals(existing, refs)) == Kept(m, refs)
  {
    var removals := Removals(existing, refs);
    RemovalsAreDistinct(existing, refs);
    forall name
      ensures name in Applied(m, removals) <==> name in Kept(m, refs)
      ensures name in Kept(m, refs) ==> Applied(m, removals)[name] == m[name]
    {
      RemovalsAre(existing, refs, name);
      if name in NamesOf(removals) {
        var i := NameHasRef(removals, name);
        AppliedAt(m, removals, i);
      } else {
        AppliedElsewhere(m, removals, name);
      }
    }
  }

  lemma {:induction false} AppliedConcat(m: map<Name, Target>, a: seq<Ref>, b: seq<Ref>)
    ensures Applied(m, a + b) == Applied(Applied(m, a), b)
  {
    if b == [] {
      assert a + b == a;
    } else {
      assert (a + b)[..|a + b| - 1] == a + b[..|b| - 1];
      AppliedConcat(m, a, b[..|b| - 1]);
    }
  }

  // ------------------------------------------------------------------ in place

  method ComputeRemovals(existing: seq<Ref>, backup: seq<Ref>) returns (removals: seq<Ref>)
    ensures removals == Removals(existing, backup)
  {
    var refsToKeep: set<Name> := {};
    for i := 0 to |backup|
      invariant refsToKeep == NamesOf(backup[..i])
    {
      NamesSplit(backup[..i], backup[i]);
      assert backup[..i + 1] == backup[..i] + [backup[i]];
      refsToKeep := refsToKeep + {backup[i].name};
    }
    assert backup[..|backup|] == backup;
    removals := [];
    for i := 0 to |existing|
      invariant removals == Removals(existing[..i], backup)
    {
      assert existing[..i + 1][..i] == existing[..i];
      if ShouldRemoveRef(refsToKeep, existing[i].name) {
        removals := removals + [Ref(existing[i].name, ZERO)];
      }
    }
    assert existing[..|existing|] == existing;
  }

  method TargetsOf(existing: seq<Ref>, ghost m: map<Name, Target>) returns (targets: map<Name, Target>)
    requires Listing(existing, m)
    ensures targets == m
  {
    targets := map[];
    for i := 0 to |existing|
      invariant targets.Keys == NamesOf(existing[..i])
      invariant forall j :: 0 <= j < i ==>
                              existing[j].name in targets && targets[existing[j].name] == existing[j].target
    {
      NamesSplit(existing[..i], existing[i]);
      assert existing[..i + 1] == existing[..i] + [existing[i]];
      targets := targets[existing[i].name := existing[i].target];
    }
    assert existing[..|existing|] == existing;
    SameTargets(existing, m, targets);
  }

  method ComputeUpdates(targets: map<Name, Target>, backup: seq<Ref>) returns (updates: seq<Ref>)
    ensures updates == Updates(targets, backup)
  {
    updates := [];
    for i := 0 to |backup|
      invariant updates == Updates(targets, backup[..i])
    {
      assert backup[..i + 1][..i] == backup[..i];
      if ShouldUpdateRef(targets, backup[i]) {
        updates := updates + [backup[i]];
      }
    }
    assert backup[..|backup|] == backup;
  }

  /** `list` has the references of `m` outside `todo`. */
  ghost predicate ListedSoFar(list: seq<Ref>, m: map<Name, Target>, todo: set<Name>) {
    && Distinct(list) && todo <= m.Keys && NamesOf(list) == m.Keys - todo
    && (forall i :: 0 <= i < |list| ==> list[i].name in m && m[list[i].name] == list[i].target)
  }

  lemma ListOne(list: seq<Ref>, m: map<Name, Target>, todo: set<Name>, name: Name)
    requires ListedSoFar(list, m, todo) && name in todo
    ensures ListedSoFar(list + [Ref(name, m[name])], m, todo - {name})
  {
    NamesSplit(list, Ref(name, m[name]));
    assert forall i :: 0 <= i < |list| ==> list[i].name in NamesOf(list);
  }

  class LocalRepository {
    var refs: map<Name, Target>

    constructor (refs: map<Name, Target>)
      ensures this.refs == refs
    {
      this.refs := refs;
    }

    method GetReferences() returns (list: seq<Ref>)
      ensures Listing(list, refs)
    {
      list := [];
      var todo := refs.Keys;
      while todo != {}
        invariant ListedSoFar(list, refs, todo)
        decreases |todo|
      {
        var name :| name in todo;
        ListOne(list, refs, todo, name);
        todo := todo - {name};
        list := list + [Ref(name, refs[name])];
      }
    }

    /** One reference transaction, which Git accepts as a whole or not at all; it refuses
        one that names a reference twice, and may refuse any other. */
    method UpdateRefs(updates: seq<Ref>, accepted: bool) returns (ok: bool)
      modifies this
      ensures ok <==> accepted && Distinct(updates)
      ensures refs == if ok then Applied(old(refs), updates) else old(refs)
    {
      var staged, named := refs, {};
      for i := 0 to |updates|
        invariant staged == Applied(refs, updates[..i])
        invariant named == NamesOf(updates[..i]) && Distinct(updates[..i])
        invariant refs == old(refs)
      {
        var u := updates[i];
        assert updates[..i + 1] == updates[..i] + [u] && updates[..i + 1][..i] == updates[..i];
        if u.name in named {
          NamedTwice(updates, i);
          return false;
        }
        NamesSplit(updates[..i], u);
        StillDistinct(updates[..i], u);
        named := named + {u.name};
        staged := if u.target == ZERO then staged - {u.name} else staged[u.name := u.target];
      }
      assert updates[..|updates|] == updates;
      if accepted {
        refs := staged;
      }
      ok := accepted;
    }

    /** `accepted` and `updatesAccepted` are what Git says of the first transaction and of
        the second, which is tried only in the optimistic mode.  Git refuses updates that
        name a reference twice; see `RefusedExactly`. */
    method ResetRefs(backup: seq<Ref>, optimistic: bool, accepted: bool, updatesAccepted: bool) returns (ok: bool)
      requires ZERO !in refs.Values
      modifies this
      ensures ok <==> accepted && (optimistic || Distinct(Updates(old(refs), backup)))
      ensures !ok ==> refs == old(refs)
      ensures ok && Distinct(backup) && (!optimistic || updatesAccepted) ==> IsReset(old(refs), backup, refs)
      ensures ok && Distinct(Updates(old(refs), backup)) && (!optimistic || updatesAccepted) ==>
                IsMerged(old(refs), backup, refs)
      ensures ok && optimistic && !(updatesAccepted && Distinct(Updates(old(refs), backup))) ==>
                refs == Kept(old(refs), backup)
    {
      ghost var m := refs;
      var existing := GetReferences();
      var removals := ComputeRemovals(existing, backup);
      var targets := TargetsOf(existing, m);
      var updates := ComputeUpdates(targets, backup);
      if Distinct(backup) {
        DifferenceResets(m, existing, backup);
        UpdatesAreDistinct(m, backup);
      }
      if Distinct(updates) {
        DifferenceMerges(m, existing, backup);
      }
      BatchIsDistinct(m, existing, backup);
      RemovalsAreDistinct(existing, backup);
      if optimistic {
        ok := UpdateRefs(removals, accepted);
        if !ok {
          return;
        }
        RemovalsKeep(m, existing, backup);
        AppliedConcat(m, removals, updates);
        var _ := UpdateRefs(updates, updatesAccepted);
        return;
      }
      ok := UpdateRefs(removals + updates, accepted);
    }
  }

  lemma SameTargets(list: seq<Ref>, m: map<Name, Target>, targets: map<Name, Target>)
    requires Listing(list, m) && targets.Keys == NamesOf(list)
    requires forall j :: 0 <= j < |list| ==> list[j].name in targets && targets[list[j].name] == list[j].target
    ensures targets == m
  {
    forall name | name in m ensures targets[name] == m[name] {
      var i := NameHasRef(list, name);
    }
  }
}
