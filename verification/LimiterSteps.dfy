/** Every critical section of the limiter keeps its invariant. */
module LimiterSteps {
  import opened Options
  import opened Semaphores
  import opened Adaptive
  import opened Limiter

  // ---------------------------------------------------- a call moves on in its entry

  /** An entry is not touched by the calls of other entries. */
  lemma OtherEntryKept(s: State, t: State, e: EntryId)
    requires e in s.entries && e in t.entries && t.entries[e] == s.entries[e] && EntryOk(s, e)
    requires t.maxQueue == s.maxQueue
    requires forall c :: c in s.calls && s.calls[c].entry == e && !s.calls[c].phase.Checked?
                         ==> c in t.calls && t.calls[c] == s.calls[c]
    requires forall c :: c in t.calls && t.calls[c].entry == e && IsLive(t.calls[c].phase)
                         ==> c in s.calls && t.calls[c] == s.calls[c]
    ensures EntryOk(t, e) && Users(t, e) == Users(s, e)
  {
    var r := s.entries[e].conc.ready;
    assert Users(t, e) == Users(s, e) && QueueHeld(t, e) == QueueHeld(s, e);
    assert ConcHeld(t, e, r) == ConcHeld(s, e, r) && ConcQueue(t, e, r) == ConcQueue(s, e, r);
  }

  /** When a call moves on with its entry in order, everything stays in order. */
  lemma MoveKeeps(s: State, c: Caller, ph: Phase, x: Entry)
    requires Inv(s) && HasEntry(s, c) && IsLive(ph)
    requires x.refcount == s.entries[s.calls[c].entry].refcount
    requires var t := Move(s, c, ph, x); ConcOk(t, s.calls[c].entry, x) && QueueOk(t, s.calls[c].entry, x)
    ensures Inv(Move(s, c, ph, x))
  {
    var t, e0 := Move(s, c, ph, x), s.calls[c].entry;
    assert Users(t, e0) == Users(s, e0);
    forall k | k in t.byKey ensures EntryOk(t, t.byKey[k]) && Users(t, t.byKey[k]) != {} {
      assert EntryOk(s, s.byKey[k]);
      if t.byKey[k] != e0 {
        OtherEntryKept(s, t, t.byKey[k]);
      }
    }
  }

  /** What moving on does to the sets of the call's entry. */
  lemma QueueSets(s: State, c: Caller, ph: Phase, x: Entry)
    requires HasEntry(s, c)
    ensures QueueHeld(Move(s, c, ph, x), s.calls[c].entry) ==
            if HoldsQueue(ph) then QueueHeld(s, s.calls[c].entry) + {c} else QueueHeld(s, s.calls[c].entry) - {c}
  {
  }

  lemma EnterSets(s: State, c: Caller, ph: Phase, x: Entry, r: set<Caller>)
    requires HasEntry(s, c) && InPhase(s, c, Admitted) && c !in r && !ph.QueueReturned?
    ensures var t, e := Move(s, c, ph, x), s.calls[c].entry;
            && ConcHeld(t, e, r) == (if ph.Running? then ConcHeld(s, e, r) + {c} else ConcHeld(s, e, r))
            && ConcQueue(t, e, r) == (if ph.Waiting? then ConcQueue(s, e, r) + {c} else ConcQueue(s, e, r))
  {
  }

  lemma StopSets(s: State, c: Caller, ph: Phase, x: Entry, r: set<Caller>, g: set<Caller>)
    requires HasEntry(s, c) && InPhase(s, c, Waiting)
    requires g <= ConcQueue(s, s.calls[c].entry, r) - {c}
    requires if c in r then ph.Running? else ph.Leaving? || ph.Backing?
    ensures var t, e := Move(s, c, ph, x), s.calls[c].entry;
            && ConcHeld(t, e, r + g) == ConcHeld(s, e, r) + g
            && ConcQueue(t, e, r + g) == (if c in r then ConcQueue(s, e, r) else ConcQueue(s, e, r) - {c}) - g
  {
  }

  lemma LeaveSets(s: State, c: Caller, x: Entry, r: set<Caller>, g: set<Caller>)
    requires HasEntry(s, c) && InPhase(s, c, QueueReturned)
    requires g <= ConcQueue(s, s.calls[c].entry, r)
    ensures var t, e := Move(s, c, Leaving, x), s.calls[c].entry;
            && ConcHeld(t, e, r + g) == ConcHeld(s, e, r) - {c} + g
            && ConcQueue(t, e, r + g) == ConcQueue(s, e, r) - g
  {
  }

  lemma ReadyKept(s: State, c: Caller, ph: Phase, x: Entry, r: set<Caller>, g: set<Caller>)
    requires HasEntry(s, c) && ReadyOk(s, s.calls[c].entry, r)
    requires g <= ConcQueue(s, s.calls[c].entry, r)
    requires !ph.Referenced? && !ph.Admitted? && !ph.Checked?
    ensures ReadyOk(Move(s, c, ph, x), s.calls[c].entry, r + g)
  {
  }

  lemma EntryInOrder(s: State, c: Caller)
    requires Inv(s) && c in s.calls && IsLive(s.calls[c].phase)
    ensures HasEntry(s, c) && EntryOk(s, s.calls[c].entry)
  {
    assert s.byKey[s.calls[c].key] == s.calls[c].entry;
  }

  /** A move that has nothing to do with the concurrency tokens. */
  lemma SameConc(s: State, c: Caller, ph: Phase, x: Entry)
    requires HasEntry(s, c) && x.conc == s.entries[s.calls[c].entry].conc
    requires ConcOk(s, s.calls[c].entry, s.entries[s.calls[c].entry])
    requires var was := s.calls[c].phase;
             && !was.Waiting? && !ph.Waiting? && HoldsConc(ph) == HoldsConc(was)
             && ((ph.Admitted? || ph.Referenced? || ph.Checked?) ==> (was.Referenced? || was.Admitted? || was.Checked?))
    ensures ConcOk(Move(s, c, ph, x), s.calls[c].entry, x)
  {
    var t, e, r := Move(s, c, ph, x), s.calls[c].entry, x.conc.ready;
    assert ConcHeld(t, e, r) == ConcHeld(s, e, r) && ConcQueue(t, e, r) == ConcQueue(s, e, r);
  }

  /** A move that has nothing to do with the queue tokens. */
  lemma SameQueue(s: State, c: Caller, ph: Phase, x: Entry)
    requires HasEntry(s, c) && x.queue == s.entries[s.calls[c].entry].queue
    requires QueueOk(s, s.calls[c].entry, s.entries[s.calls[c].entry])
    requires x.queue.None? || HoldsQueue(ph) == HoldsQueue(s.calls[c].phase)
    ensures QueueOk(Move(s, c, ph, x), s.calls[c].entry, x)
  {
    if x.queue.Some? {
      assert QueueHeld(Move(s, c, ph, x), s.calls[c].entry) == QueueHeld(s, s.calls[c].entry);
    }
  }

  lemma QueueTaken(s: State, c: Caller, x: Entry, ok: bool)
    requires HasEntry(s, c) && InPhase(s, c, Referenced)
    requires var y := s.entries[s.calls[c].entry];
             && QueueOk(s, s.calls[c].entry, y) && y.queue.Some?
             && x.conc == y.conc && x.queue.Some? && (x.queue.value, ok) == AfterTryAcquire(y.queue.value)
    ensures QueueOk(Move(s, c, if ok then Admitted else Leaving, x), s.calls[c].entry, x)
  {
    var e, ph := s.calls[c].entry, if ok then Admitted else Leaving;
    TryAcquireAccounts(s.entries[e].queue.value, QueueHeld(s, e), {}, c);
    QueueSets(s, c, ph, x);
    assert QueueHeld(s, e) - {c} == QueueHeld(s, e);
  }

  lemma QueueGiven(s: State, c: Caller, ph: Phase)
    requires HasEntry(s, c) && HoldsQueue(s.calls[c].phase) && !HoldsQueue(ph)
    requires var y := s.entries[s.calls[c].entry]; QueueOk(s, s.calls[c].entry, y) && y.queue.Some?
    ensures var y := s.entries[s.calls[c].entry];
            && Count(y.queue.value) > 0
            && var x := y.(queue := Some(AfterRelease(y.queue.value)));
               QueueOk(Move(s, c, ph, x), s.calls[c].entry, x)
  {
    var e := s.calls[c].entry;
    var q := s.entries[e].queue.value;
    ReleaseUncontended(q, QueueHeld(s, e), c);
    var x := s.entries[e].(queue := Some(AfterRelease(q)));
    QueueSets(s, c, ph, x);
  }

  lemma ConcAcquired(s: State, c: Caller, cancelled: bool, ph: Phase, x: Entry)
    requires HasEntry(s, c) && InPhase(s, c, Admitted) && ConcOk(s, s.calls[c].entry, s.entries[s.calls[c].entry])
    requires var (t, e) := AfterAcquire(s.entries[s.calls[c].entry].conc, c, cancelled);
             && x.conc == t
             && (if e.Acquired? then ph.Running? else if e.Queued? then ph.Waiting? else ph.Leaving? || ph.Backing?)
    ensures ConcOk(Move(s, c, ph, x), s.calls[c].entry, x)
  {
    var e := s.calls[c].entry;
    var y := s.entries[e];
    var held, waiting := ConcHeld(s, e, y.conc.ready), ConcQueue(s, e, y.conc.ready);
    AcquireAccounts(y.conc, held, waiting, c, cancelled);
    EnterSets(s, c, ph, x, y.conc.ready);
  }

  lemma ConcWoken(s: State, c: Caller, x: Entry)
    requires HasEntry(s, c) && InPhase(s, c, Waiting) && ConcOk(s, s.calls[c].entry, s.entries[s.calls[c].entry])
    requires x == s.entries[s.calls[c].entry] && c in x.conc.ready
    ensures ConcOk(Move(s, c, Running, x), s.calls[c].entry, x)
  {
    var t, e, r := Move(s, c, Running, x), s.calls[c].entry, x.conc.ready;
    assert ConcHeld(t, e, r) == ConcHeld(s, e, r) && ConcQueue(t, e, r) == ConcQueue(s, e, r);
  }

  lemma ConcStopped(s: State, c: Caller, ph: Phase, x: Entry)
    requires HasEntry(s, c) && InPhase(s, c, Waiting) && ConcOk(s, s.calls[c].entry, s.entries[s.calls[c].entry])
    requires var (t, ok) := AfterStop(s.entries[s.calls[c].entry].conc, c);
             x.conc == t && (if ok then ph.Running? else ph.Leaving? || ph.Backing?)
    ensures ConcOk(Move(s, c, ph, x), s.calls[c].entry, x)
  {
    var e := s.calls[c].entry;
    var y := s.entries[e];
    var held, waiting := ConcHeld(s, e, y.conc.ready), ConcQueue(s, e, y.conc.ready);
    var (t, ok) := AfterStop(y.conc, c);
    var g := Granted(y.conc, t);
    StopAccounts(y.conc, held, waiting, c);
    assert t.ready == y.conc.ready + g;
    StopSets(s, c, ph, x, y.conc.ready, g);
    ReadyKept(s, c, ph, x, y.conc.ready, g);
  }

  lemma ConcGiven(s: State, c: Caller)
    requires HasEntry(s, c) && InPhase(s, c, QueueReturned) && ConcOk(s, s.calls[c].entry, s.entries[s.calls[c].entry])
    ensures var y := s.entries[s.calls[c].entry];
            && Count(y.conc) > 0
            && var x := y.(conc := AfterRelease(y.conc));
               ConcOk(Move(s, c, Leaving, x), s.calls[c].entry, x)
  {
    var e := s.calls[c].entry;
    var y := s.entries[e];
    var held, waiting := ConcHeld(s, e, y.conc.ready), ConcQueue(s, e, y.conc.ready);
    ReleaseAccounts(y.conc, held, waiting, c);
    var x := y.(conc := AfterRelease(y.conc));
    var g := Granted(y.conc, x.conc);
    assert x.conc.ready == y.conc.ready + g;
    LeaveSets(s, c, x, y.conc.ready, g);
    ReadyKept(s, c, Leaving, x, y.conc.ready, g);
  }

  lemma TryQueueKeeps(s: State, c: Caller)
    requires Inv(s) && Enabled(s, c, TryQueue) && EntryOk(s, s.calls[c].entry)
    ensures Inv(ApplyTokens(s, c, TryQueue))
  {
    var y := s.entries[s.calls[c].entry];
    if y.queue.None? {
      SameQueue(s, c, Admitted, y);
      SameConc(s, c, Admitted, y);
      MoveKeeps(s, c, Admitted, y);
    } else {
      var (q, ok) := AfterTryAcquire(y.queue.value);
      var ph, x := if ok then Admitted else Leaving, y.(queue := Some(q));
      QueueTaken(s, c, x, ok);
      SameConc(s, c, ph, x);
      MoveKeeps(s, c, ph, x);
    }
  }

  lemma AcquireKeeps(s: State, c: Caller, cancelled: bool)
    requires Inv(s) && Enabled(s, c, Acquire(cancelled)) && EntryOk(s, s.calls[c].entry)
    ensures Inv(ApplyTokens(s, c, Acquire(cancelled)))
  {
    var y := s.entries[s.calls[c].entry];
    var (t, r) := AfterAcquire(y.conc, c, cancelled);
    var ph, x := if r.Acquired? then Running else if r.Queued? then Waiting else GiveUp(y), y.(conc := t);
    ConcAcquired(s, c, cancelled, ph, x);
    SameQueue(s, c, ph, x);
    MoveKeeps(s, c, ph, x);
  }

  lemma StopKeeps(s: State, c: Caller)
    requires Inv(s) && Enabled(s, c, Stop) && EntryOk(s, s.calls[c].entry)
    ensures Inv(ApplyTokens(s, c, Stop))
  {
    var y := s.entries[s.calls[c].entry];
    var (t, ok) := AfterStop(y.conc, c);
    var ph, x := if ok then Running else GiveUp(y), y.(conc := t);
    ConcStopped(s, c, ph, x);
    SameQueue(s, c, ph, x);
    MoveKeeps(s, c, ph, x);
  }

  predicate IsTokenAction(a: Action) {
    a.TryQueue? || a.Acquire? || a.Wake? || a.Stop? || a.ReturnQueue? || a.Finish? || a.ReturnConc?
  }

  lemma TokensKeep(s: State, c: Caller, a: Action)
    requires Inv(s) && Enabled(s, c, a) && IsTokenAction(a)
    ensures Inv(ApplyTokens(s, c, a))
  {
    EntryInOrder(s, c);
    match a
    case TryQueue => TryQueueKeeps(s, c);
    case Acquire(cancelled) => AcquireKeeps(s, c, cancelled);
    case Wake => WakeKeeps(s, c);
    case Stop => StopKeeps(s, c);
    case ReturnQueue => QueueReleaseKeeps(s, c, Leaving);
    case Finish => QueueReleaseKeeps(s, c, QueueReturned);
    case ReturnConc => ConcReleaseKeeps(s, c);
  }

  lemma WakeKeeps(s: State, c: Caller)
    requires Inv(s) && Enabled(s, c, Wake) && EntryOk(s, s.calls[c].entry)
    ensures Inv(ApplyTokens(s, c, Wake))
  {
    var y := s.entries[s.calls[c].entry];
    ConcWoken(s, c, y);
    SameQueue(s, c, Running, y);
    MoveKeeps(s, c, Running, y);
  }

  lemma ConcReleaseKeeps(s: State, c: Caller)
    requires Inv(s) && Enabled(s, c, ReturnConc) && EntryOk(s, s.calls[c].entry)
    ensures Inv(ApplyTokens(s, c, ReturnConc))
  {
    var y := s.entries[s.calls[c].entry];
    ConcGiven(s, c);
    var x := y.(conc := AfterRelease(y.conc));
    SameQueue(s, c, Leaving, x);
    MoveKeeps(s, c, Leaving, x);
  }

  lemma QueueReleaseKeeps(s: State, c: Caller, ph: Phase)
    requires Inv(s) && HasEntry(s, c) && EntryOk(s, s.calls[c].entry)
    requires (InPhase(s, c, Backing) && ph.Leaving?) || (InPhase(s, c, Running) && ph.QueueReturned?)
    ensures Inv(ApplyQueueRelease(s, c, ph, s.entries[s.calls[c].entry]))
  {
    var y := s.entries[s.calls[c].entry];
    var x := y;
    if y.queue.Some? {
      QueueGiven(s, c, ph);
      x := y.(queue := Some(AfterRelease(y.queue.value)));
    } else {
      SameQueue(s, c, ph, y);
    }
    SameConc(s, c, ph, x);
    MoveKeeps(s, c, ph, x);
  }

  // --------------------------------------------------- references and calibrations

  /** Which calls use an entry changes, but not who holds its tokens. */
  lemma SameTokens(s: State, t: State, e: EntryId, c: Caller)
    requires e in s.entries && e in t.entries && EntryOk(s, e)
    requires t.entries[e] == s.entries[e].(refcount := t.entries[e].refcount)
    requires t.maxQueue == s.maxQueue
    requires c in s.calls && c in t.calls && t.calls == s.calls[c := t.calls[c]]
    requires s.calls[c].phase.Checked? || (s.calls[c].phase.Leaving? && s.calls[c].entry == e)
    requires t.calls[c].entry == e
    requires if s.calls[c].phase.Checked? then t.calls[c].phase.Referenced? else t.calls[c].phase.Done?
    ensures ConcOk(t, e, t.entries[e]) && QueueOk(t, e, t.entries[e])
  {
    var r := s.entries[e].conc.ready;
    assert QueueHeld(t, e) == QueueHeld(s, e);
    assert ConcHeld(t, e, r) == ConcHeld(s, e, r) && ConcQueue(t, e, r) == ConcQueue(s, e, r);
  }

  lemma CheckKeeps(s: State, c: Caller, key: Key)
    requires Inv(s) && Enabled(s, c, Check(key))
    ensures Inv(Apply(s, c, Check(key)))
  {
    var t := Apply(s, c, Check(key));
    forall k | k in t.byKey ensures EntryOk(t, t.byKey[k]) && Users(t, t.byKey[k]) != {} {
      CheckKeepsEntry(s, c, key, k);
    }
  }

  lemma CheckKeepsEntry(s: State, c: Caller, key: Key, k: Key)
    requires Inv(s) && Enabled(s, c, Check(key)) && k in s.byKey
    ensures var t := Apply(s, c, Check(key)); EntryOk(t, t.byKey[k]) && Users(t, t.byKey[k]) != {}
  {
    assert EntryOk(s, s.byKey[k]);
    OtherEntryKept(s, Apply(s, c, Check(key)), s.byKey[k]);
  }

  /** The entry that a call gets counts it. */
  lemma GetEntry(s: State, c: Caller)
    requires Inv(s) && Enabled(s, c, Get)
    ensures var t := ApplyGet(s, c); EntryOk(t, t.calls[c].entry) && c in Users(t, t.calls[c].entry)
  {
    var t := ApplyGet(s, c);
    var e := t.calls[c].entry;
    assert EntryOk(s, e);
    assert Users(t, e) == Users(s, e) + {c};
    SameTokens(s, t, e, c);
  }

  lemma InsertedEntry(s: State, c: Caller, unused: EntryId)
    requires MapOk(s) && Enabled(s, c, Insert(unused)) && s.calls[c].key !in s.byKey
    ensures var t := ApplyInsert(s, c, unused); EntryOk(t, unused) && c in Users(t, unused)
  {
    NewEntryOk(ApplyInsert(s, c, unused), c, unused, s.lock.value.queueLimit, s.lock.value.concLimit.value);
  }

  lemma NewEntryOk(t: State, c: Caller, e: EntryId, queueLimit: Option<int>, concLimit: int)
    requires c in t.calls && t.calls[c].entry == e && t.calls[c].phase.Referenced?
    requires t.maxQueue > 0 ==> queueLimit.Some?
    requires e in t.entries && t.entries[e] == NewEntry(t.maxQueue, queueLimit, concLimit).(refcount := 1)
    requires forall d :: d in t.calls && d != c && IsLive(t.calls[d].phase) ==> t.calls[d].entry != e
    ensures EntryOk(t, e)
  {
    assert Users(t, e) == {c};
    assert ConcHeld(t, e, {}) == {} && ConcQueue(t, e, {}) == {} && QueueHeld(t, e) == {};
  }

  /** Getting or inserting an entry leaves the entries of other keys. */
  lemma ReferenceKeepsOthers(s: State, c: Caller, e: EntryId, x: Entry, t: State, k: Key)
    requires Inv(s) && InPhase(s, c, Checked) && k in s.byKey && s.byKey[k] != e
    requires t.calls == Reference(s, c, e, x).calls && t.entries == Reference(s, c, e, x).entries
    requires t.maxQueue == s.maxQueue
    ensures EntryOk(t, s.byKey[k]) && Users(t, s.byKey[k]) == Users(s, s.byKey[k])
  {
    assert EntryOk(s, s.byKey[k]);
    OtherEntryKept(s, t, s.byKey[k]);
  }

  lemma GetKeeps(s: State, c: Caller)
    requires Inv(s) && Enabled(s, c, Get)
    ensures Inv(ApplyGet(s, c))
  {
    var t, e := ApplyGet(s, c), s.byKey[s.calls[c].key];
    forall k | k in t.byKey ensures EntryOk(t, t.byKey[k]) && Users(t, t.byKey[k]) != {} {
      if k == s.calls[c].key {
        GetEntry(s, c);
      } else {
        ReferenceKeepsOthers(s, c, e, s.entries[e], t, k);
      }
    }
  }

  lemma InsertKeepsEntry(s: State, c: Caller, unused: EntryId, k: Key)
    requires Inv(s) && Enabled(s, c, Insert(unused)) && (k in s.byKey || k == s.calls[c].key)
    ensures var t := ApplyInsert(s, c, unused); EntryOk(t, t.byKey[k]) && Users(t, t.byKey[k]) != {}
  {
    var t, cr := ApplyInsert(s, c, unused), s.lock.value;
    if k == s.calls[c].key {
      InsertedEntry(s, c, unused);
    } else {
      ReferenceKeepsOthers(s, c, unused, NewEntry(s.maxQueue, cr.queueLimit, cr.concLimit.value), t, k);
    }
  }

  lemma InsertKeeps(s: State, c: Caller, unused: EntryId)
    requires Inv(s) && Enabled(s, c, Insert(unused))
    ensures Inv(ApplyInsert(s, c, unused))
  {
    var t := ApplyInsert(s, c, unused);
    forall k | k in t.byKey ensures EntryOk(t, t.byKey[k]) && Users(t, t.byKey[k]) != {} {
      InsertKeepsEntry(s, c, unused, k);
    }
  }

  /** Steps that change neither the map nor an entry nor a call. */
  lemma SameEntriesKeeps(s: State, t: State)
    requires Inv(s) && t.byKey == s.byKey && t.entries == s.entries && t.calls == s.calls
    requires t.maxQueue == s.maxQueue && !t.panicked && LimitOk(t) && LockOk(t)
    ensures Inv(t)
  {
    forall k | k in t.byKey ensures EntryOk(t, t.byKey[k]) && Users(t, t.byKey[k]) != {} {
      assert EntryOk(s, s.byKey[k]);
      OtherEntryKept(s, t, t.byKey[k]);
    }
  }

  /** The entry that a call puts back no longer counts it. */
  lemma PutEntry(s: State, c: Caller)
    requires Inv(s) && Enabled(s, c, Put)
    ensures !ApplyPut(s, c).panicked
    ensures EntryOk(ApplyPut(s, c), s.calls[c].entry)
    ensures Users(ApplyPut(s, c), s.calls[c].entry) == Users(s, s.calls[c].entry) - {c}
  {
    EntryInOrder(s, c);
    var e := s.calls[c].entry;
    assert c in Users(s, e);
    var t := ApplyPut(s, c);
    assert Users(t, e) == Users(s, e) - {c};
    SameTokens(s, t, e, c);
  }

  lemma PutKeepsOthers(s: State, c: Caller, k: Key)
    requires Inv(s) && Enabled(s, c, Put) && k in s.byKey && s.byKey[k] != s.calls[c].entry
    ensures var t := ApplyPut(s, c); k in t.byKey && EntryOk(t, s.byKey[k]) && Users(t, s.byKey[k]) != {}
  {
    assert EntryOk(s, s.byKey[k]);
    OtherEntryKept(s, ApplyPut(s, c), s.byKey[k]);
  }

  lemma PutKeepsMap(s: State, c: Caller)
    requires MapOk(s) && Enabled(s, c, Put) && !ApplyPut(s, c).panicked
    requires EntryOk(ApplyPut(s, c), s.calls[c].entry)
    ensures var t := ApplyPut(s, c);
            forall d :: d in t.calls && IsLive(t.calls[d].phase) ==>
                          t.calls[d].key in t.byKey && t.byKey[t.calls[d].key] == t.calls[d].entry
  {
    var t := ApplyPut(s, c);
    forall d | d in t.calls && IsLive(t.calls[d].phase)
      ensures t.calls[d].key in t.byKey && t.byKey[t.calls[d].key] == t.calls[d].entry
    {
      if t.calls[d].entry == s.calls[c].entry {
        assert d in Users(t, t.calls[d].entry);
      }
    }
  }

  lemma PutKeepsOwn(s: State, c: Caller, k: Key)
    requires Inv(s) && Enabled(s, c, Put) && k in s.byKey && s.byKey[k] == s.calls[c].entry
    requires k in ApplyPut(s, c).byKey
    ensures var t := ApplyPut(s, c); EntryOk(t, s.byKey[k]) && Users(t, s.byKey[k]) != {}
  {
    PutEntry(s, c);
    EntryInOrder(s, c);
    assert k == s.calls[c].key;
  }

  /** An entry that is still in the map is in order and in use. */
  lemma PutKeepsEntry(s: State, c: Caller, k: Key)
    requires Inv(s) && Enabled(s, c, Put) && k in s.byKey && k in ApplyPut(s, c).byKey
    ensures var t := ApplyPut(s, c); EntryOk(t, s.byKey[k]) && Users(t, s.byKey[k]) != {}
  {
    if s.byKey[k] != s.calls[c].entry {
      PutKeepsOthers(s, c, k);
    } else {
      PutKeepsOwn(s, c, k);
    }
  }

  lemma PutKeepsRest(s: State, c: Caller)
    requires LimitOk(s) && LockOk(s) && Enabled(s, c, Put) && !ApplyPut(s, c).panicked
    ensures var t := ApplyPut(s, c);
            && LimitOk(t) && LockOk(t) && t.byKey.Keys <= s.byKey.Keys
            && (forall k :: k in t.byKey ==> t.byKey[k] == s.byKey[k])
  {
  }

  lemma PutKeeps(s: State, c: Caller)
    requires Inv(s) && Enabled(s, c, Put)
    ensures Inv(ApplyPut(s, c))
  {
    var t := ApplyPut(s, c);
    PutEntry(s, c);
    PutKeepsMap(s, c);
    PutKeepsRest(s, c);
    forall k | k in t.byKey ensures EntryOk(t, t.byKey[k]) && Users(t, t.byKey[k]) != {} {
      PutKeepsEntry(s, c, k);
    }
  }

  lemma GrantSets(s: State, t: State, e: EntryId, r: set<Caller>, g: set<Caller>)
    requires t.calls == s.calls && g <= ConcQueue(s, e, r)
    ensures ConcHeld(t, e, r + g) == ConcHeld(s, e, r) + g && ConcQueue(t, e, r + g) == ConcQueue(s, e, r) - g
    ensures ReadyOk(s, e, r) ==> ReadyOk(t, e, r + g)
    ensures Users(t, e) == Users(s, e) && QueueHeld(t, e) == QueueHeld(s, e)
  {
  }

  lemma ConcResizedOk(s: State, t: State, e: EntryId)
    requires EntryOk(s, e) && t.calls == s.calls && t.maxQueue == s.maxQueue
    requires e in t.entries && t.entries[e] == ConcResized(t.limit, s.entries[e])
    ensures EntryOk(t, e) && Users(t, e) == Users(s, e)
  {
    var y, x := s.entries[e], t.entries[e];
    var r := y.conc.ready;
    ResizeAccounts(y.conc, ConcHeld(s, e, r), ConcQueue(s, e, r), Nat(t.limit));
    assert x.conc.ready == r + Granted(y.conc, x.conc);
    GrantSets(s, t, e, r, Granted(y.conc, x.conc));
  }

  lemma QueueResizedOk(s: State, t: State, e: EntryId)
    requires EntryOk(s, e) && t.calls == s.calls && t.maxQueue == s.maxQueue
    requires e in t.entries && t.entries[e] == QueueResized(t.maxQueue, t.limit, s.entries[e])
    ensures EntryOk(t, e) && Users(t, e) == Users(s, e)
  {
    var y := s.entries[e];
    var r := y.conc.ready;
    assert Users(t, e) == Users(s, e) && QueueHeld(t, e) == QueueHeld(s, e);
    assert ConcHeld(t, e, r) == ConcHeld(s, e, r) && ConcQueue(t, e, r) == ConcQueue(s, e, r);
    if y.queue.Some? {
      ResizeUncontended(y.queue.value, QueueHeld(s, e), Nat(t.limit + s.maxQueue));
    }
  }

  lemma HookKeeps(s: State, a: HookAction)
    requires Inv(s) && HookEnabled(s, a)
    ensures Inv(ApplyHook(s, a))
  {
    var t := ApplyHook(s, a);
    if a.HookDone? {
      SameEntriesKeeps(s, t);
    } else {
      forall k | k in t.byKey ensures EntryOk(t, t.byKey[k]) && Users(t, t.byKey[k]) != {} {
        HookKeepsEntry(s, a, k);
      }
    }
  }

  lemma HookKeepsEntry(s: State, a: HookAction, k: Key)
    requires Inv(s) && HookEnabled(s, a) && !a.HookDone? && k in s.byKey
    ensures var t := ApplyHook(s, a); EntryOk(t, s.byKey[k]) && Users(t, s.byKey[k]) != {}
  {
    var t := ApplyHook(s, a);
    assert EntryOk(s, s.byKey[k]);
    if s.byKey[k] != a.e {
      OtherEntryKept(s, t, s.byKey[k]);
    } else if a.ResizeConc? {
      ConcResizedOk(s, t, a.e);
    } else {
      QueueResizedOk(s, t, a.e);
    }
  }

  lemma UpdateKeeps(s: State, backoff: bool)
    requires Inv(s)
    ensures Inv(ApplyUpdate(s, backoff))
  {
    StaysInRange(s.setting, s.limit, backoff);
    SameEntriesKeeps(s, ApplyUpdate(s, backoff));
  }

  lemma CreationKeeps(s: State, c: Caller, a: Action)
    requires Inv(s) && Enabled(s, c, a) && (a.StartCreate? || a.ReadQueueLimit? || a.ReadConcLimit?)
    ensures Inv(Apply(s, c, a))
  {
    SameEntriesKeeps(s, Apply(s, c, a));
  }
}
