/**
  The resizable semaphore of the concurrency limiter: what each of its critical
  sections does to its fields, first as functions on values, then as the class
  itself.  A waiter is identified by the call that waits; `ready` holds the
  waiters whose channel has been closed.
 */
module Semaphores {

  type Caller = nat

  const MAX_UINT: nat := 0xffff_ffff_ffff_ffff

  datatype Sem = Sem(current: nat, leftover: nat, size: nat, waiters: seq<Caller>, ready: set<Caller>)

  datatype Entered = Acquired | Queued | Cancelled

  function NewSem(size: nat): Sem {
    Sem(0, 0, size, [], {})
  }

  function Count(s: Sem): nat {
    s.current + s.leftover
  }

  function Min(a: nat, b: nat): nat {
    if a <= b then a else b
  }

  // ------------------------------------------------------- the critical sections

  /** Hand free slots to waiters, from the front of the list. */
  function AfterNotify(s: Sem): Sem
    decreases |s.waiters|
  {
    if s.waiters == [] || Count(s) >= s.size then s
    else AfterNotify(s.(current := s.current + 1, waiters := s.waiters[1..], ready := s.ready + {s.waiters[0]}))
  }

  /** Acquire, up to the point where it waits. */
  function AfterAcquire(s: Sem, c: Caller, cancelled: bool): (Sem, Entered) {
    if Count(s) < s.size then
      if cancelled then (s, Cancelled) else (s.(current := s.current + 1), Acquired)
    else (s.(waiters := [c] + s.waiters), Queued)
  }

  function Without(q: seq<Caller>, c: Caller): (r: seq<Caller>) {
    if q == [] then [] else if q[0] == c then q[1..] else [q[0]] + Without(q[1..], c)
  }

  /** A waiter's context is done: it keeps a slot that it was granted in the meantime. */
  function AfterStop(s: Sem, c: Caller): (Sem, bool) {
    if c in s.ready then (s, true)
    else
      var t := s.(waiters := Without(s.waiters, c));
      (if s.waiters != [] && s.waiters[0] == c then AfterNotify(t) else t, false)
  }

  function AfterTryAcquire(s: Sem): (Sem, bool) {
    if Count(s) < s.size && s.waiters == [] then (s.(current := s.current + 1), true) else (s, false)
  }

  /** Releasing a token that nobody holds wraps the unsigned counter around. */
  function AfterRelease(s: Sem): Sem {
    AfterNotify(if s.leftover > 0 then s.(leftover := s.leftover - 1)
                else s.(current := if s.current > 0 then s.current - 1 else MAX_UINT))
  }

  function AfterResize(s: Sem, newSize: nat): Sem {
    if newSize == s.size then s
    else if newSize > Count(s) then AfterNotify(s.(size := newSize, leftover := 0, current := Count(s)))
    else s.(size := newSize, current := newSize, leftover := Count(s) - newSize)
  }

  // ------------------------------------------------------------ what they maintain

  function Elems(q: seq<Caller>): set<Caller> {
    set c | c in q
  }

  predicate Distinct(q: seq<Caller>) {
    forall i, j :: 0 <= i < j < |q| ==> q[i] != q[j]
  }

  /** The tokens are accounted for: `current` and `leftover` split the number of
      holders at the size, and nobody waits while there is a free slot. */
  ghost predicate Accounts(s: Sem, held: set<Caller>, waiting: set<Caller>) {
    && Balanced(s, held, waiting)
    && (s.waiters != [] ==> |held| >= s.size)
  }

  ghost predicate Balanced(s: Sem, held: set<Caller>, waiting: set<Caller>) {
    && Count(s) == |held| && s.current == Min(|held|, s.size)
    && Distinct(s.waiters) && Elems(s.waiters) == waiting
    && waiting !! held && waiting !! s.ready
  }

  /** The waiters that an operation let through. */
  function Granted(s: Sem, t: Sem): set<Caller> {
    t.ready - s.ready
  }

  /** `t` came from `s` by letting some waiters through, and no more than fit. */
  ghost predicate Grants(s: Sem, t: Sem, held: set<Caller>, waiting: set<Caller>) {
    && Granted(s, t) <= waiting && s.ready <= t.ready
    && Accounts(t, held + Granted(s, t), waiting - Granted(s, t))
    && (Granted(s, t) != {} ==> |held + Granted(s, t)| <= t.size)
  }

  lemma NoElems(q: seq<Caller>)
    ensures Elems(q) == {} <==> q == []
  {
    if q != [] {
      assert q[0] in Elems(q);
    }
  }

  lemma NothingHeld(s: Sem)
    requires Accounts(s, {}, {})
    ensures Count(s) == 0 && s.waiters == []
  {
    NoElems(s.waiters);
  }

  lemma FrontElems(q: seq<Caller>)
    requires q != [] && Distinct(q)
    ensures Distinct(q[1..]) && Elems(q[1..]) == Elems(q) - {q[0]}
  {
    assert q == [q[0]] + q[1..];
    assert forall x :: x in q[1..] ==> x != q[0];
  }

  lemma GrantOneMore(s: Sem, s1: Sem, t: Sem, held: set<Caller>, waiting: set<Caller>, c: Caller)
    requires c in waiting && c !in s.ready && s1.ready == s.ready + {c}
    requires Grants(s1, t, held + {c}, waiting - {c}) && |held + {c}| <= t.size
    ensures Grants(s, t, held, waiting)
  {
    var g, g1 := Granted(s, t), Granted(s1, t);
    OneMore(held, waiting, g1, c);
    assert g == {c} + g1;
  }

  lemma OneMore(held: set<Caller>, waiting: set<Caller>, g: set<Caller>, c: Caller)
    ensures held + ({c} + g) == held + {c} + g
    ensures waiting - ({c} + g) == waiting - {c} - g
    ensures g == {} ==> held + ({c} + g) == held + {c}
  {
  }

  lemma NothingGranted(s: Sem, t: Sem, held: set<Caller>, waiting: set<Caller>)
    requires Accounts(t, held, waiting) && t.ready == s.ready
    ensures Grants(s, t, held, waiting)
  {
    assert Granted(s, t) == {};
    assert held + {} == held && waiting - {} == waiting;
  }

  lemma {:induction false} NotifyGrants(s: Sem, held: set<Caller>, waiting: set<Caller>)
    requires Balanced(s, held, waiting)
    ensures Grants(s, AfterNotify(s), held, waiting) && AfterNotify(s).size == s.size
    decreases |s.waiters|
  {
    if s.waiters != [] && Count(s) < s.size {
      var c := s.waiters[0];
      var s1 := s.(current := s.current + 1, waiters := s.waiters[1..], ready := s.ready + {c});
      FrontElems(s.waiters);
      assert |held + {c}| == |held| + 1;
      NotifyGrants(s1, held + {c}, waiting - {c});
      GrantOneMore(s, s1, AfterNotify(s1), held, waiting, c);
    } else {
      NothingGranted(s, s, held, waiting);
    }
  }

  lemma AcquireAccounts(s: Sem, held: set<Caller>, waiting: set<Caller>, c: Caller, cancelled: bool)
    requires Accounts(s, held, waiting) && c !in held && c !in waiting && c !in s.ready
    ensures var (t, e) := AfterAcquire(s, c, cancelled);
            && t.ready == s.ready && t.size == s.size
            && Accounts(t, if e.Acquired? then held + {c} else held, if e.Queued? then waiting + {c} else waiting)
            && (e.Acquired? ==> |held + {c}| <= t.size)
            && (e.Cancelled? ==> cancelled)
  {
    var (t, e) := AfterAcquire(s, c, cancelled);
    assert |held + {c}| == |held| + 1;
    assert e.Queued? ==> Elems(t.waiters) == waiting + {c};
  }

  lemma TryAcquireAccounts(s: Sem, held: set<Caller>, waiting: set<Caller>, c: Caller)
    requires Accounts(s, held, waiting) && c !in held && c !in waiting
    ensures var (t, ok) := AfterTryAcquire(s);
            && t.ready == s.ready && t.size == s.size
            && Accounts(t, if ok then held + {c} else held, waiting)
            && (ok <==> |held| < s.size)
  {
    assert |held + {c}| == |held| + 1;
  }

  lemma ReleaseAccounts(s: Sem, held: set<Caller>, waiting: set<Caller>, c: Caller)
    requires Accounts(s, held, waiting) && c in held
    ensures Count(s) > 0 && AfterRelease(s).size == s.size
    ensures Grants(s, AfterRelease(s), held - {c}, waiting)
  {
    assert |held - {c}| == |held| - 1;
    var s1 := if s.leftover > 0 then s.(leftover := s.leftover - 1) else s.(current := s.current - 1);
    NotifyGrants(s1, held - {c}, waiting);
  }

  /** A release without a token leaves a semaphore that counts as full at any size: it
      lets no waiter through, and neither does any later acquisition. */
  lemma ReleaseOfNothing(s: Sem, c: Caller)
    requires Accounts(s, {}, {}) && s.size <= MAX_UINT
    ensures var t := AfterRelease(s);
            && t == s.(current := MAX_UINT) && AfterTryAcquire(t) == (t, false)
            && forall cancelled :: AfterAcquire(t, c, cancelled).1.Queued?
  {
  }

  lemma ReleaseUncontended(s: Sem, held: set<Caller>, c: Caller)
    requires Accounts(s, held, {}) && c in held
    ensures Count(s) > 0 && AfterRelease(s).size == s.size && Accounts(AfterRelease(s), held - {c}, {})
  {
    ReleaseAccounts(s, held, {}, c);
    var g := Granted(s, AfterRelease(s));
    assert g == {};
    assert held - {c} + g == held - {c} && {} - g == g;
  }

  lemma ResizeAccounts(s: Sem, held: set<Caller>, waiting: set<Caller>, newSize: nat)
    requires Accounts(s, held, waiting)
    ensures Grants(s, AfterResize(s, newSize), held, waiting)
    ensures AfterResize(s, newSize).size == newSize
  {
    var t := AfterResize(s, newSize);
    if newSize > Count(s) && newSize != s.size {
      NotifyGrants(s.(size := newSize, leftover := 0, current := Count(s)), held, waiting);
    } else {
      NothingGranted(s, t, held, waiting);
    }
  }

  lemma ResizeUncontended(s: Sem, held: set<Caller>, newSize: nat)
    requires Accounts(s, held, {})
    ensures AfterResize(s, newSize).size == newSize && Accounts(AfterResize(s, newSize), held, {})
  {
    ResizeAccounts(s, held, {}, newSize);
    var g := Granted(s, AfterResize(s, newSize));
    assert g == {};
    assert held + g == held && {} - g == g;
  }

  lemma {:induction false} WithoutElems(q: seq<Caller>, c: Caller)
    requires Distinct(q)
    ensures Distinct(Without(q, c)) && Elems(Without(q, c)) == Elems(q) - {c}
  {
    if q != [] {
      FrontElems(q);
      var r := Without(q[1..], c);
      if q[0] != c {
        WithoutElems(q[1..], c);
        assert forall x :: x in r ==> x in Elems(r);
        assert Elems([q[0]] + r) == {q[0]} + Elems(r);
      }
    }
  }

  /** Cancellation that races a grant: the caller is told it has the token exactly
      when it was granted one, and otherwise leaves the queue. */
  lemma StopAccounts(s: Sem, held: set<Caller>, waiting: set<Caller>, c: Caller)
    requires Accounts(s, held, waiting)
    requires c in waiting || (c in held && c in s.ready)
    ensures var (t, ok) := AfterStop(s, c);
            && (ok <==> c in held) && t.size == s.size
            && Grants(s, t, held, if ok then waiting else waiting - {c})
  {
    var (t, ok) := AfterStop(s, c);
    if ok {
      NothingGranted(s, t, held, waiting);
    } else {
      var s1 := s.(waiters := Without(s.waiters, c));
      WithoutElems(s.waiters, c);
      if s.waiters != [] && s.waiters[0] == c {
        NotifyGrants(s1, held, waiting - {c});
      } else {
        assert c in Elems(s.waiters);
        NothingGranted(s, t, held, waiting - {c});
      }
    }
  }

  // ------------------------------------------------------------------- the object

  /** The object itself; each method is one critical section of its mutex. */
  class ResizableSemaphore {
    var current: nat
    var leftover: nat
    var size: nat
    var waiters: seq<Caller>
    var ready: set<Caller>

    ghost function Value(): Sem
      reads this
    {
      Sem(current, leftover, size, waiters, ready)
    }

    constructor (size: nat)
      ensures Value() == NewSem(size)
    {
      current, leftover, this.size, waiters, ready := 0, 0, size, [], {};
    }

    method NotifyWaiters()
      modifies this
      ensures Value() == AfterNotify(old(Value()))
    {
      while waiters != []
        invariant AfterNotify(Value()) == AfterNotify(old(Value()))
        decreases |waiters|
      {
        if current + leftover >= size {
          return;
        }
        var w := waiters[0];
        current := current + 1;
        waiters := waiters[1..];
        ready := ready + {w};
      }
    }

    method Acquire(c: Caller, cancelled: bool) returns (e: Entered)
      modifies this
      ensures (Value(), e) == AfterAcquire(old(Value()), c, cancelled)
    {
      if current + leftover < size {
        if cancelled {
          return Cancelled;
        }
        current := current + 1;
        return Acquired;
      }
      waiters := [c] + waiters;
      return Queued;
    }

    method StopWaiter(c: Caller) returns (ok: bool)
      modifies this
      ensures (Value(), ok) == AfterStop(old(Value()), c)
    {
      if c in ready {
        return true;
      }
      var isFront := waiters != [] && waiters[0] == c;
      waiters := Without(waiters, c);
      if isFront {
        NotifyWaiters();
      }
      return false;
    }

    method TryAcquire() returns (ok: bool)
      modifies this
      ensures (Value(), ok) == AfterTryAcquire(old(Value()))
    {
      if current + leftover < size && |waiters| == 0 {
        current := current + 1;
        return true;
      }
      return false;
    }

    method Release()
      modifies this
      ensures Value() == AfterRelease(old(Value()))
    {
      if leftover > 0 {
        leftover := leftover - 1;
      } else {
        current := if current > 0 then current - 1 else MAX_UINT;
      }
      NotifyWaiters();
    }

    method Resize(newSize: nat)
      modifies this
      ensures Value() == AfterResize(old(Value()), newSize)
    {
      if newSize == size {
        return;
      }
      size := newSize;
      var currentCount := current + leftover;
      if newSize > currentCount {
        leftover := 0;
        current := currentCount;
        NotifyWaiters();
      } else {
        current := newSize;
        leftover := currentCount - newSize;
      }
    }
  }
}
