/** What the lease protocol promises, in every run. */
module CacheRuns {
  import opened Options
  import opened CacheLease
  import opened CacheSteps

  /** The actions can be taken one after the other from `s`. */
  ghost predicate Legal(s: State, run: seq<Action>)
    decreases |run|, 0
  {
    run == [] || (Legal(s, run[..|run| - 1]) && Enabled(Exec(s, run[..|run| - 1]), run[|run| - 1]))
  }

  ghost function Exec(s: State, run: seq<Action>): State
    requires Legal(s, run)
    decreases |run|, 1
  {
    if run == [] then s else Apply(Exec(s, run[..|run| - 1]), run[|run| - 1])
  }

  /** A run of the whole system, from the empty cache. */
  ghost predicate IsRun(run: seq<Action>) {
    Legal(EMPTY_STATE, run)
  }

  lemma {:induction false} PrefixIsRun(run: seq<Action>, n: nat)
    requires IsRun(run) && n <= |run|
    ensures IsRun(run[..n])
  {
    if n < |run| {
      PrefixIsRun(run[..|run| - 1], n);
      assert run[..|run| - 1][..n] == run[..n];
    } else {
      assert run[..n] == run;
    }
  }

  /** The state of the run before its action `n`. */
  ghost function At(run: seq<Action>, n: nat): State
    requires IsRun(run) && n <= |run|
  {
    PrefixIsRun(run, n);
    Exec(EMPTY_STATE, run[..n])
  }

  lemma AtStep(run: seq<Action>, n: nat)
    requires IsRun(run) && n < |run|
    ensures Enabled(At(run, n), run[n]) && At(run, n + 1) == Apply(At(run, n), run[n])
  {
    PrefixIsRun(run, n + 1);
    assert run[..n + 1][..n] == run[..n];
  }

  lemma {:induction false} RunKeepsInv(run: seq<Action>, n: nat)
    requires IsRun(run) && n <= |run|
    ensures Inv(At(run, n)) && At(run, n).step == n
  {
    if n > 0 {
      RunKeepsInv(run, n - 1);
      NextKeepsInv(run, n - 1);
    } else {
      StartsEmpty(run);
    }
  }

  lemma NextKeepsInv(run: seq<Action>, n: nat)
    requires IsRun(run) && n < |run| && Inv(At(run, n))
    ensures Inv(At(run, n + 1)) && At(run, n + 1).step == At(run, n).step + 1
  {
    AtStep(run, n);
    InvStep(At(run, n), run[n]);
  }

  lemma StartsEmpty(run: seq<Action>)
    requires IsRun(run)
    ensures At(run, 0) == EMPTY_STATE && Inv(At(run, 0))
  {
    assert run[..0] == [];
  }

  /** What a state keeps of an earlier state of the same run. */
  ghost predicate Later(s: State, t: State) {
    && s.clock <= t.clock && s.version <= t.version && s.floor <= t.floor
    && s.versions <= t.versions
    && (forall g :: g in s.installed ==> g in t.installed && t.installed[g] == s.installed[g])
    && (forall p :: p in s.ops ==> p in t.ops && SameCall(s.ops[p], t.ops[p]))
    && (forall l :: l in s.leases ==> l in t.leases && SameLease(s.leases[l], t.leases[l]))
  }

  ghost predicate SameLease(x: Lease, y: Lease) {
    && (x.started.Some? ==> y.started == x.started && y.file == x.file && y.mtime == x.mtime)
    && (x.wrote.Some? ==> y.wrote == x.wrote)
  }

  lemma OpIsLater(s: State, p: OpId, t: State)
    requires OpFrame(s, p, t)
    ensures Later(s, t)
  {
  }

  lemma LeaseIsLater(s: State, k: LeaseId, t: State)
    requires LeaseFrame(s, k, t)
    ensures Later(s, t)
  {
  }

  lemma LaterStep(s: State, a: Action)
    requires Inv(s) && Enabled(s, a)
    ensures Later(s, Apply(s, a))
  {
    match a
    case Call(p, ca) =>
      OpHasFrame(s, p, ca);
      OpIsLater(s, p, Apply(s, a));
    case OfLease(l, la) =>
      LeaseHasFrame(s, l, la);
      LeaseIsLater(s, l, Apply(s, a));
    case Env(ea) =>
      OtherHasFrame(s, ea);
  }

  lemma LaterTransitive(s: State, t: State, u: State)
    requires Later(s, t) && Later(t, u)
    ensures Later(s, u)
  {
  }

  lemma StepIsLater(run: seq<Action>, j: nat)
    requires IsRun(run) && j < |run|
    ensures Later(At(run, j), At(run, j + 1))
  {
    RunKeepsInv(run, j);
    AtStep(run, j);
    LaterStep(At(run, j), run[j]);
  }

  lemma {:induction false} RunIsLater(run: seq<Action>, i: nat, j: nat)
    requires IsRun(run) && i <= j <= |run|
    ensures Later(At(run, i), At(run, j))
  {
    if i < j {
      RunIsLater(run, i, j - 1);
      StepIsLater(run, j - 1);
      LaterTransitive(At(run, i), At(run, j - 1), At(run, j));
    }
  }

  lemma {:induction false} VersionsRecorded(run: seq<Action>, i: nat, n: nat)
    requires IsRun(run) && i < n <= |run|
    ensures i < |At(run, n).versions| && At(run, n).versions[i] == At(run, i).version
  {
    AtStep(run, i);
    RunKeepsInv(run, i);
    RunKeepsInv(run, n);
    RunIsLater(run, i + 1, n);
    assert At(run, i + 1).versions[i] == At(run, i).version;
  }

  /** StartLease's removal or EndLease's replacement of "latest". */
  predicate Invalidates(a: Action) {
    a.OfLease? && (a.la.RemoveLatest? || a.la.WriteLatest?)
  }

  /** The creation of a pending file, after which StartLease returns. */
  predicate Starts(a: Action) {
    a.OfLease? && a.la.CreatePending?
  }

  predicate Begins(a: Action, p: OpId) {
    a.Call? && a.op == p && a.ca.Begin?
  }

  /** The call `p` has returned the cached response `r`. */
  predicate Served(s: State, p: OpId, r: Response) {
    p in s.ops && s.ops[p].stage.Returned? && s.ops[p].stage.response == Some(r)
  }

  /** The call `p` has computed a key with generation `g`. */
  predicate HasGen(s: State, p: OpId, g: Gen) {
    p in s.ops && HasKey(s.ops[p].stage) && s.ops[p].stage.gen == g
  }

  lemma CallBegun(run: seq<Action>, j: nat, n: nat, p: OpId)
    requires IsRun(run) && j < n <= |run| && Begins(run[j], p)
    ensures p in At(run, n).ops && At(run, n).ops[p].began == j && At(run, n).ops[p].floor == At(run, j).floor
  {
    AtStep(run, j);
    RunKeepsInv(run, j);
    RunIsLater(run, j + 1, n);
  }

  lemma StepRaisesFloor(s: State, a: Action)
    requires Enabled(s, a) && Invalidates(a)
    ensures Apply(s, a).floor == s.step
  {
  }

  lemma InvalidationRaisesFloor(run: seq<Action>, i: nat, j: nat)
    requires IsRun(run) && i < j <= |run| && Invalidates(run[i])
    ensures i <= At(run, j).floor
  {
    AtStep(run, i);
    RunKeepsInv(run, i);
    StepRaisesFloor(At(run, i), run[i]);
    RunIsLater(run, i + 1, j);
  }

  /** A response shows a repository at least as new as at any step before its production
      began. */
  lemma ServedShows(run: seq<Action>, i: nat, n: nat, p: OpId, r: Response)
    requires IsRun(run) && n <= |run| && Served(At(run, n), p, r)
    requires i < r.born
    ensures r.born < n && At(run, i).version <= r.version
  {
    RunKeepsInv(run, n);
    assert OpOk(At(run, n), p, At(run, n).ops[p]);
    VersionsRecorded(run, r.born, n);
    RunIsLater(run, i, r.born);
  }

  /** Freshness.  Once a lease has removed or replaced "latest", no GetStream that
      begins afterwards returns a response of a generation installed before, or whose
      PutStream had computed its key before.  A response produced after its generation
      was installed was therefore produced after the lease's action, and shows the
      repository as it was left by it. */
  lemma InvalidatedNeverServed(run: seq<Action>, i: nat, j: nat, n: nat, p: OpId, r: Response)
    requires IsRun(run) && i < j < n <= |run|
    requires Invalidates(run[i])
    requires Begins(run[j], p)
    requires Served(At(run, n), p, r)
    ensures var s := At(run, n);
            var g := s.ops[p].stage.gen;
            && g in s.installed && i <= s.installed[g] <= r.keyed
            && (s.installed[g] < r.born ==> i < r.born && At(run, i).version <= r.version)
  {
    CallBegun(run, j, n, p);
    InvalidationRaisesFloor(run, i, j);
    RunKeepsInv(run, n);
    assert OpOk(At(run, n), p, At(run, n).ops[p]);
    if At(run, n).installed[At(run, n).ops[p].stage.gen] < r.born {
      ServedShows(run, i, n, p, r);
    }
  }

  lemma LeaseBegun(run: seq<Action>, c: nat, n: nat)
    requires IsRun(run) && c < n <= |run| && Starts(run[c])
    ensures run[c].lease in At(run, n).leases
    ensures At(run, n).leases[run[c].lease].started == Some(c)
    ensures At(run, n).leases[run[c].lease].mtime == At(run, c).clock
  {
    AtStep(run, c);
    RunKeepsInv(run, c);
    RunIsLater(run, c + 1, n);
  }

  lemma WriteRecorded(run: seq<Action>, w: nat)
    requires IsRun(run) && w < |run| && run[w].OfLease? && run[w].la.WriteLatest?
    ensures run[w].lease in At(run, w + 1).leases
    ensures At(run, w + 1).leases[run[w].lease].wrote == Some(Write(w, At(run, w).clock))
  {
    AtStep(run, w);
    RunKeepsInv(run, w);
  }

  lemma LeaseWritten(run: seq<Action>, w: nat, n: nat)
    requires IsRun(run) && w < |run| && n <= |run| && run[w].OfLease? && run[w].la.WriteLatest?
    requires run[w].lease in At(run, n).leases
    ensures At(run, n).leases[run[w].lease].wrote ==
            if w < n then Some(Write(w, At(run, w).clock)) else None
  {
    var l := run[w].lease;
    if w < n {
      WriteRecorded(run, w);
      RunIsLater(run, w + 1, n);
    } else {
      AtStep(run, w);
      RunKeepsInv(run, w);
      RunIsLater(run, n, w);
      assert LeaseOk(At(run, w), l, At(run, w).leases[l]);
    }
  }

  /** Isolation.  Take a lease that writes its new generation before its pending file
      is `STALE_AGE` old.  A key lookup that begins after StartLease returned has no
      key until that write, and then only one of a generation installed at it or
      later. */
  lemma LookupWaitsForLease(run: seq<Action>, c: nat, w: nat, b: nat, n: nat, p: OpId, g: Gen)
    requires IsRun(run) && c < b < n <= |run| && w < |run|
    requires Starts(run[c]) && run[w] == OfLease(run[c].lease, WriteLatest)
    requires At(run, w).clock < At(run, c).clock + STALE_AGE
    requires Begins(run[b], p) && HasGen(At(run, n), p, g)
    ensures w < n && g in At(run, n).installed && w <= At(run, n).installed[g]
  {
    var s, l := At(run, n), run[c].lease;
    CallBegun(run, b, n, p);
    LeaseBegun(run, c, n);
    LeaseWritten(run, w, n);
    RunKeepsInv(run, n);
    KeyIsShielded(s, p, l, g);
    if n <= w {
      RunIsLater(run, n, w);
    }
  }

  lemma KeyIsShielded(s: State, p: OpId, l: LeaseId, g: Gen)
    requires ShieldsOk(s) && HasGen(s, p, g) && l in s.leases
    requires s.leases[l].started.Some? && s.leases[l].started.value < s.ops[p].began
    ensures KeyShielded(s, g, s.leases[l])
  {
    assert Shielded(s, s.ops[p].stage, s.leases[l]);
  }

  /** So it shares no key with a lookup that was complete before that write. */
  lemma LookupsShareNoKey(run: seq<Action>, c: nat, w: nat, b: nat, n: nat, p: OpId, g: Gen,
                          m: nat, q: OpId, h: Gen)
    requires IsRun(run) && c < b < n <= |run| && w < |run|
    requires Starts(run[c]) && run[w] == OfLease(run[c].lease, WriteLatest)
    requires At(run, w).clock < At(run, c).clock + STALE_AGE
    requires Begins(run[b], p) && HasGen(At(run, n), p, g)
    requires m <= w && HasGen(At(run, m), q, h)
    ensures g != h
  {
    LookupWaitsForLease(run, c, w, b, n, p, g);
    RunKeepsInv(run, m);
    assert OpOk(At(run, m), q, At(run, m).ops[q]);
    RunIsLater(run, m, n);
  }

  /** And a GetStream that begins once StartLease has returned never serves what was
      made before the mutation was over. */
  lemma {:induction false} LeaseNeverServesOlder(run: seq<Action>, c: nat, w: nat, b: nat, n: nat, p: OpId, r: Response)
    requires IsRun(run) && c < b < n <= |run| && w < |run|
    requires Starts(run[c]) && run[w] == OfLease(run[c].lease, WriteLatest)
    requires At(run, w).clock < At(run, c).clock + STALE_AGE
    requires Begins(run[b], p) && Served(At(run, n), p, r)
    ensures var s := At(run, n);
            var g := s.ops[p].stage.gen;
            && g in s.installed && w <= s.installed[g] <= r.keyed
            && (s.installed[g] < r.born ==> w < r.born && At(run, w).version <= r.version)
  {
    LookupWaitsForLease(run, c, w, b, n, p, At(run, n).ops[p].stage.gen);
    RunKeepsInv(run, n);
    assert OpOk(At(run, n), p, At(run, n).ops[p]);
    if At(run, n).installed[At(run, n).ops[p].stage.gen] < r.born {
      ServedShows(run, w, n, p, r);
    }
  }

  // ------------------------------------------------------------ runs from any state

  ghost predicate Reaches(s: State, run: seq<Action>, t: State) {
    Legal(s, run) && Exec(s, run) == t
  }

  lemma ReachesStep(s: State, run: seq<Action>, t: State, a: Action, u: State)
    requires Reaches(s, run, t) && Enabled(t, a) && u == Apply(t, a)
    ensures Reaches(s, run + [a], u)
  {
    assert (run + [a])[..|run|] == run;
  }
}
