/**
  Every interleaving of calls on one semaphore.  A call is its own waiter, so a
  call identifier is used once.
 */
module SemaphoreRuns {
  import opened Semaphores

  /** A call waits, or has been told that it holds a token, or has given it back, or
      has been told that it got none. */
  datatype Phase = Waiting | Holding | Released | Refused

  datatype System = System(sem: Sem, calls: map<Caller, Phase>)

  datatype Action =
    | Acquire(c: Caller, cancelled: bool)
    | Wake(c: Caller)           // the call sees its closed channel
    | Stop(c: Caller)           // the call sees its context done first
    | TryAcquire(c: Caller)
    | Release(c: Caller)
    | Resize(newSize: nat)

  predicate Enabled(s: System, a: Action) {
    match a
    case Acquire(c, _) => c !in s.calls
    case TryAcquire(c) => c !in s.calls
    case Wake(c) => c in s.calls && s.calls[c].Waiting? && c in s.sem.ready
    case Stop(c) => c in s.calls && s.calls[c].Waiting?
    case Release(c) => c in s.calls && s.calls[c].Holding? && Count(s.sem) > 0
    case Resize(_) => true
  }

  function Apply(s: System, a: Action): System
    requires Enabled(s, a)
  {
    match a
    case Acquire(c, cancelled) =>
      var (t, e) := AfterAcquire(s.sem, c, cancelled);
      System(t, s.calls[c := if e.Acquired? then Holding else if e.Queued? then Waiting else Refused])
    case TryAcquire(c) =>
      var (t, ok) := AfterTryAcquire(s.sem);
      System(t, s.calls[c := if ok then Holding else Refused])
    case Wake(c) => s.(calls := s.calls[c := Holding])
    case Stop(c) =>
      var (t, ok) := AfterStop(s.sem, c);
      System(t, s.calls[c := if ok then Holding else Refused])
    case Release(c) => System(AfterRelease(s.sem), s.calls[c := Released])
    case Resize(n) => s.(sem := AfterResize(s.sem, n))
  }

  /** The calls that own a token, whether or not they know it yet. */
  ghost function Held(s: System): set<Caller> {
    set c | c in s.calls && (s.calls[c].Holding? || (s.calls[c].Waiting? && c in s.sem.ready))
  }

  ghost function InQueue(s: System): set<Caller> {
    set c | c in s.calls && s.calls[c].Waiting? && c !in s.sem.ready
  }

  ghost predicate Inv(s: System) {
    && s.sem.ready <= s.calls.Keys
    && (forall c :: c in s.calls && s.calls[c].Refused? ==> c !in s.sem.ready)
    && Accounts(s.sem, Held(s), InQueue(s))
  }

  /** `t` keeps the invariant, and a call got a token only if it then fits. */
  ghost predicate Kept(s: System, t: System) {
    Inv(t) && (Held(t) - Held(s) != {} ==> |Held(t)| <= t.sem.size)
  }

  /** A call that enters changes nobody else's standing. */
  lemma EnterSets(s: System, sem: Sem, c: Caller, ph: Phase)
    requires s.sem.ready <= s.calls.Keys && c !in s.calls && sem.ready == s.sem.ready
    ensures var t := System(sem, s.calls[c := ph]);
            && Held(t) == (if ph.Holding? then Held(s) + {c} else Held(s))
            && InQueue(t) == (if ph.Waiting? then InQueue(s) + {c} else InQueue(s))
  {
  }

  lemma AcquireKeeps(s: System, c: Caller, cancelled: bool)
    requires Inv(s) && c !in s.calls
    ensures Kept(s, Apply(s, Acquire(c, cancelled)))
  {
    var t := Apply(s, Acquire(c, cancelled));
    AcquireAccounts(s.sem, Held(s), InQueue(s), c, cancelled);
    EnterSets(s, t.sem, c, t.calls[c]);
    assert Accounts(t.sem, Held(t), InQueue(t));
  }

  lemma TryAcquireKeeps(s: System, c: Caller)
    requires Inv(s) && c !in s.calls
    ensures Kept(s, Apply(s, TryAcquire(c)))
  {
    var t := Apply(s, TryAcquire(c));
    TryAcquireAccounts(s.sem, Held(s), InQueue(s), c);
    EnterSets(s, t.sem, c, t.calls[c]);
  }

  /** A call that leaves its phase, while others are granted tokens. */
  lemma GrantSets(s: System, t: System, g: set<Caller>)
    requires t.sem.ready == s.sem.ready + g && g <= InQueue(s) && t.calls == s.calls
    ensures Held(t) == Held(s) + g && InQueue(t) == InQueue(s) - g
  {
  }

  lemma LeaveSets(s: System, sem: Sem, c: Caller, ph: Phase)
    requires c in s.calls && sem.ready == s.sem.ready
    requires s.calls[c].Holding? ==> ph.Released?
    requires s.calls[c].Waiting? ==> ph == (if c in s.sem.ready then Holding else Refused)
    requires s.calls[c].Holding? || s.calls[c].Waiting?
    ensures var t := System(sem, s.calls[c := ph]);
            && Held(t) == (if ph.Released? then Held(s) - {c} else Held(s))
            && InQueue(t) == (if ph.Refused? then InQueue(s) - {c} else InQueue(s))
  {
  }

  lemma StopKeeps(s: System, c: Caller)
    requires Inv(s) && Enabled(s, Stop(c))
    ensures Kept(s, Apply(s, Stop(c)))
  {
    var t := Apply(s, Stop(c));
    StopAccounts(s.sem, Held(s), InQueue(s), c);
    var mid := System(s.sem, t.calls);
    LeaveSets(s, s.sem, c, t.calls[c]);
    GrantSets(mid, t, Granted(s.sem, t.sem));
  }

  lemma ReleaseSets(s: System, t: System, c: Caller)
    requires Enabled(s, Release(c)) && t.calls == s.calls[c := Released]
    requires s.sem.ready <= t.sem.ready && Granted(s.sem, t.sem) <= InQueue(s)
    ensures Held(t) == Held(s) - {c} + Granted(s.sem, t.sem) && InQueue(t) == InQueue(s) - Granted(s.sem, t.sem)
    ensures Granted(s.sem, t.sem) == {} ==> Held(t) - Held(s) == {}
  {
    assert t.sem.ready == s.sem.ready + Granted(s.sem, t.sem);
  }

  lemma ReleaseKeeps(s: System, c: Caller)
    requires Inv(s) && Enabled(s, Release(c))
    ensures Kept(s, Apply(s, Release(c)))
  {
    ReleaseAccounts(s.sem, Held(s), InQueue(s), c);
    ReleaseSets(s, Apply(s, Release(c)), c);
  }

  lemma ResizeKeeps(s: System, n: nat)
    requires Inv(s)
    ensures Kept(s, Apply(s, Resize(n)))
  {
    var t := Apply(s, Resize(n));
    ResizeAccounts(s.sem, Held(s), InQueue(s), n);
    GrantSets(s, t, Granted(s.sem, t.sem));
  }

  /** One step keeps the accounts, and a call gets a token only if it then fits. */
  lemma StepKeeps(s: System, a: Action)
    requires Inv(s) && Enabled(s, a)
    ensures Kept(s, Apply(s, a))
  {
    match a
    case Acquire(c, cancelled) => AcquireKeeps(s, c, cancelled);
    case TryAcquire(c) => TryAcquireKeeps(s, c);
    case Wake(c) =>
      assert Held(Apply(s, a)) == Held(s) && InQueue(Apply(s, a)) == InQueue(s);
    case Stop(c) => StopKeeps(s, c);
    case Release(c) => ReleaseKeeps(s, c);
    case Resize(n) => ResizeKeeps(s, n);
  }

  ghost predicate Legal(size: nat, run: seq<Action>)
    decreases |run|, 0
  {
    run == [] || (Legal(size, run[..|run| - 1]) && Enabled(Exec(size, run[..|run| - 1]), run[|run| - 1]))
  }

  /** The state that a run of actions on a new semaphore leads to. */
  ghost function Exec(size: nat, run: seq<Action>): System
    requires Legal(size, run)
    decreases |run|, 1
  {
    if run == [] then System(NewSem(size), map[]) else Apply(Exec(size, run[..|run| - 1]), run[|run| - 1])
  }

  lemma {:induction false} RunKeepsInv(size: nat, run: seq<Action>)
    requires Legal(size, run)
    ensures Inv(Exec(size, run))
  {
    if run == [] {
      assert Held(Exec(size, run)) == {} && InQueue(Exec(size, run)) == {};
    } else {
      RunKeepsInv(size, run[..|run| - 1]);
      StepKeeps(Exec(size, run[..|run| - 1]), run[|run| - 1]);
    }
  }

  /** In every run, `current` and `leftover` are the holders below and above the size,
      calls queue only while the semaphore is full, a call that was told it holds a
      token does, one that was refused does not, and the next Release never
      underflows. */
  lemma TokensAccounted(size: nat, run: seq<Action>)
    requires Legal(size, run)
    ensures var s := Exec(size, run);
            var held := |Held(s)|;
            && s.sem.current == Min(held, s.sem.size)
            && s.sem.leftover == (if held > s.sem.size then held - s.sem.size else 0)
            && (InQueue(s) != {} ==> held >= s.sem.size)
            && (forall c :: c in s.calls ==> (s.calls[c].Holding? ==> c in Held(s)))
            && (forall c :: c in s.calls && s.calls[c].Refused? ==> c !in Held(s) && c !in s.sem.ready)
            && (forall c :: c in s.calls && s.calls[c].Holding? ==> Enabled(s, Release(c)))
  {
    RunKeepsInv(size, run);
    var s := Exec(size, run);
    assert InQueue(s) == Elems(s.sem.waiters);
    if Held(s) == {} {
    } else {
      assert |Held(s)| > 0;
    }
  }
}
