/**
  The locking file writer: any number of writers of one path, interleaved at each of
  their file operations.  A version stands for what the code compares of a file (its
  size, modification time and mode); every committed file is a new version.
 */
module LockingWriter {
  import opened Options

  type Writer = nat
  type Version = nat

  /** Where a writer is: open, between the check and the creation of the lock file in
      Lock, locked, between the check and the rename in Commit, between the rename and
      the removal of the lock file, and closed.  `spent` is set once its temporary file
      has been committed or lost, so that it cannot be committed again. */
  datatype Stage = Open | LockChecked | Locked(spent: bool) | CommitChecked | Renamed | Closed

  datatype WriterState = WriterState(seen: Option<Version>, stage: Stage)

  datatype Commit = Commit(writer: Writer, replaced: Option<Version>, installed: Version)

  /** `owner` is who created the lock file that exists now; the code does not know it. */
  datatype State = State(
    target: Option<Version>, lockFile: bool, owner: Option<Writer>, writers: map<Writer, WriterState>,
    unused: Version, commits: seq<Commit>)

  datatype Action =
    | New
    | LockCheck     // Lock: checkConcurrentModification
    | LockCreate    // Lock: O_CREATE|O_EXCL on the lock file
    | CommitCheck   // Commit: checkConcurrentModification
    | CommitRename  // Commit: the rename
    | CommitFail    // Commit: an error before or after the rename
    | Unlock        // Commit: removal of the lock file
    | Close

  function Start(target: Option<Version>): State {
    State(target, false, None, map[], if target.Some? then target.value + 1 else 0, [])
  }

  predicate Enabled(s: State, w: Writer, a: Action) {
    if a.New? then w !in s.writers else
    && w in s.writers
    && var st := s.writers[w].stage;
    match a
    case LockCheck => st.Open?
    case LockCreate => st.LockChecked?
    case CommitCheck => st.Locked?
    case CommitRename => st.CommitChecked?
    case CommitFail => st.CommitChecked? || st.Renamed?
    case Unlock => st.Renamed?
    case Close => st.Open? || st.Locked? || st.Closed?
    case New => false
  }

  function SetStage(s: State, w: Writer, st: Stage): State
    requires w in s.writers
  {
    s.(writers := s.writers[w := s.writers[w].(stage := st)])
  }

  function Apply(s: State, w: Writer, a: Action): State
    requires Enabled(s, w, a)
  {
    match a
    case New => s.(writers := s.writers[w := WriterState(s.target, Open)])
    case LockCheck => if s.target == s.writers[w].seen then SetStage(s, w, LockChecked) else s
    case LockCreate =>
      if s.lockFile then SetStage(s, w, Open) else SetStage(s, w, Locked(false)).(lockFile := true, owner := Some(w))
    case CommitCheck =>
      if s.target != s.writers[w].seen then s
      else SetStage(s, w, if s.writers[w].stage.spent then Locked(true) else CommitChecked)
    case CommitRename =>
      SetStage(s, w, Renamed)
      .(target := Some(s.unused), unused := s.unused + 1,
        commits := s.commits + [Commit(w, s.target, s.unused)])
    case CommitFail => SetStage(s, w, Locked(true))
    case Unlock => SetStage(s, w, Closed).(lockFile := false, owner := None)
    case Close =>
      if s.writers[w].stage.Locked? then SetStage(s, w, Closed).(lockFile := false, owner := None)
      else SetStage(s, w, Closed)
  }

  // ---------------------------------------------------------------- the invariant

  /** The writers that have created the lock file and not removed it. */
  predicate Owns(s: State, w: Writer) {
    w in s.writers
    && (s.writers[w].stage.Locked? || s.writers[w].stage.CommitChecked? || s.writers[w].stage.Renamed?)
  }

  ghost predicate LockOk(s: State) {
    && (s.lockFile <==> s.owner.Some?)
    && (forall w: Writer :: Owns(s, w) <==> s.owner == Some(w))
    && (forall w :: w in s.writers && s.writers[w].stage.CommitChecked? ==> s.target == s.writers[w].seen)
  }

  predicate Older(v: Option<Version>, unused: Version) {
    v.Some? ==> v.value < unused
  }

  /** The version that was there before commit `i`. */
  function Before(origin: Option<Version>, commits: seq<Commit>, i: nat): Option<Version>
    requires i <= |commits|
  {
    if i == 0 then origin else Some(commits[i - 1].installed)
  }

  ghost predicate CommitOk(s: State, origin: Option<Version>, i: nat)
    requires i < |s.commits|
  {
    && s.commits[i].replaced == Before(origin, s.commits, i) && s.commits[i].installed < s.unused
    && Older(Before(origin, s.commits, i), s.commits[i].installed)
    && s.commits[i].writer in s.writers && s.writers[s.commits[i].writer].seen == s.commits[i].replaced
  }

  /** The commits form a chain of ever newer versions, from the first to the present one. */
  ghost predicate ChainOk(s: State, origin: Option<Version>) {
    && Older(s.target, s.unused) && s.target == Before(origin, s.commits, |s.commits|)
    && (forall i :: 0 <= i < |s.commits| ==> CommitOk(s, origin, i))
  }

  ghost predicate Inv(s: State, origin: Option<Version>) {
    LockOk(s) && ChainOk(s, origin)
  }

  lemma ChainKept(s: State, t: State, origin: Option<Version>)
    requires ChainOk(s, origin) && t.target == s.target && t.unused == s.unused && t.commits == s.commits
    requires forall w :: w in s.writers ==> w in t.writers && t.writers[w].seen == s.writers[w].seen
    ensures ChainOk(t, origin)
  {
    forall i | 0 <= i < |t.commits| ensures CommitOk(t, origin, i) {
      assert CommitOk(s, origin, i);
    }
  }

  lemma ChainCommit(s: State, origin: Option<Version>, w: Writer)
    requires ChainOk(s, origin) && Enabled(s, w, CommitRename) && s.target == s.writers[w].seen
    ensures ChainOk(Apply(s, w, CommitRename), origin)
  {
    var t := Apply(s, w, CommitRename);
    forall i | 0 <= i < |t.commits| ensures CommitOk(t, origin, i) {
      if i < |s.commits| {
        assert CommitOk(s, origin, i);
      }
    }
  }

  lemma ChainStep(s: State, origin: Option<Version>, w: Writer, a: Action)
    requires Inv(s, origin) && Enabled(s, w, a)
    ensures ChainOk(Apply(s, w, a), origin)
  {
    if a.CommitRename? {
      ChainCommit(s, origin, w);
    } else {
      ChainKept(s, Apply(s, w, a), origin);
    }
  }

  lemma LockStep(s: State, w: Writer, a: Action)
    requires LockOk(s) && Enabled(s, w, a)
    ensures LockOk(Apply(s, w, a))
  {
    var t := Apply(s, w, a);
    assert forall v :: v != w ==> (Owns(t, v) <==> Owns(s, v));
    assert Owns(s, w) <==> s.owner == Some(w);
    if a.CommitRename? {
      assert forall v :: v in s.writers && s.writers[v].stage.CommitChecked? ==> Owns(s, v);
    }
  }

  // ------------------------------------------------------------------ whole runs

  datatype Event = Event(w: Writer, a: Action)

  ghost predicate Legal(origin: Option<Version>, run: seq<Event>)
    decreases |run|, 0
  {
    run == []
    || (&& Legal(origin, run[..|run| - 1])
        && Enabled(Exec(origin, run[..|run| - 1]), run[|run| - 1].w, run[|run| - 1].a))
  }

  ghost function Exec(origin: Option<Version>, run: seq<Event>): State
    requires Legal(origin, run)
    decreases |run|, 1
  {
    if run == [] then Start(origin)
    else Apply(Exec(origin, run[..|run| - 1]), run[|run| - 1].w, run[|run| - 1].a)
  }

  lemma {:induction false} RunKeepsInv(origin: Option<Version>, run: seq<Event>)
    requires Legal(origin, run)
    ensures Inv(Exec(origin, run), origin)
  {
    if run != [] {
      var s, ev := Exec(origin, run[..|run| - 1]), run[|run| - 1];
      RunKeepsInv(origin, run[..|run| - 1]);
      ChainStep(s, origin, ev.w, ev.a);
      LockStep(s, ev.w, ev.a);
    }
  }

  lemma {:induction false} Newer(s: State, origin: Option<Version>, i: nat, j: nat)
    requires ChainOk(s, origin) && i < j < |s.commits|
    ensures s.commits[i].installed < s.commits[j].installed && Older(origin, s.commits[i].installed)
  {
    assert CommitOk(s, origin, j);
    if i > 0 {
      Newer(s, origin, i - 1, i);
      assert CommitOk(s, origin, i);
    }
    assert CommitOk(s, origin, 0);
    if i < j - 1 {
      Newer(s, origin, i, j - 1);
    }
  }

  lemma NoTwoReplaceTheSame(s: State, origin: Option<Version>, i: nat, j: nat)
    requires ChainOk(s, origin) && i < j < |s.commits|
    ensures s.commits[i].replaced != s.commits[j].replaced
  {
    assert CommitOk(s, origin, i) && CommitOk(s, origin, j) && CommitOk(s, origin, j - 1);
    if i > 0 {
      Newer(s, origin, i - 1, j);
      assert CommitOk(s, origin, i - 1);
      if i < j - 1 {
        Newer(s, origin, i - 1, j - 1);
      }
    } else if j > 1 {
      Newer(s, origin, 0, j - 1);
      assert CommitOk(s, origin, 0);
    }
  }

  lemma LockHasOneOwner(s: State)
    requires LockOk(s)
    ensures s.lockFile <==> exists w: Writer :: Owns(s, w)
    ensures forall w: Writer, v: Writer :: Owns(s, w) && Owns(s, v) ==> w == v
  {
    if s.owner.Some? {
      assert Owns(s, s.owner.value);
    }
  }

  /** The commits of `s` replace, each, the version its writer saw, which is the one
      before it; and no two of them saw the same version. */
  ghost predicate SwapsExactly(s: State, origin: Option<Version>) {
    && s.target == Before(origin, s.commits, |s.commits|)
    && (forall i :: 0 <= i < |s.commits| ==>
          && s.commits[i].writer in s.writers
          && s.writers[s.commits[i].writer].seen == s.commits[i].replaced == Before(origin, s.commits, i))
    && (forall i, j :: 0 <= i < j < |s.commits| ==> s.commits[i].replaced != s.commits[j].replaced)
  }

  lemma ChainSwaps(s: State, origin: Option<Version>)
    requires ChainOk(s, origin)
    ensures SwapsExactly(s, origin)
  {
    forall i | 0 <= i < |s.commits|
      ensures s.commits[i].writer in s.writers
      ensures s.writers[s.commits[i].writer].seen == s.commits[i].replaced == Before(origin, s.commits, i)
    {
      assert CommitOk(s, origin, i);
    }
    forall i, j | 0 <= i < j < |s.commits| ensures s.commits[i].replaced != s.commits[j].replaced {
      NoTwoReplaceTheSame(s, origin, i, j);
    }
  }

  /** In every run a commit is a compare-and-swap: it replaces exactly the version that
      its writer saw when it was created, and that was there; so of the writers created
      on one version at most one commits, and no update is lost.  The lock file exists
      exactly while one writer owns it. */
  lemma CommitIsCompareAndSwap(origin: Option<Version>, run: seq<Event>)
    requires Legal(origin, run)
    ensures SwapsExactly(Exec(origin, run), origin)
    ensures var s := Exec(origin, run);
            && (s.lockFile <==> exists w: Writer :: Owns(s, w))
            && (forall w: Writer, v: Writer :: Owns(s, w) && Owns(s, v) ==> w == v)
  {
    RunKeepsInv(origin, run);
    ChainSwaps(Exec(origin, run), origin);
    LockHasOneOwner(Exec(origin, run));
  }
}
