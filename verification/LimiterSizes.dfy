/** How the sizes of the semaphores follow the limit, in every run. */
module LimiterSizes {
  import opened Options
  import opened Semaphores
  import opened Adaptive
  import opened Limiter
  import opened LimiterSteps
  import opened LimiterRuns

  predicate ConcSized(s: State, x: Entry) {
    x.conc.size == s.limit
  }

  predicate QueueSized(s: State, x: Entry) {
    x.queue.Some? ==> x.queue.value.size == s.limit + s.maxQueue
  }

  /** While a hook walks, what was in the map when it began has the new sizes once it was
      visited; everything else has them unless its creation was overlapped by an update. */
  ghost predicate SizeOk(s: State, e: EntryId)
    requires e in s.entries
  {
    if s.hook.Some? && e in s.hook.value.since
    then && (e in s.hook.value.concTodo || ConcSized(s, s.entries[e]))
         && (e in s.hook.value.queueTodo || QueueSized(s, s.entries[e]))
    else e in s.stale || (ConcSized(s, s.entries[e]) && QueueSized(s, s.entries[e]))
  }

  /** A creation that was not overlapped has read the present limit. */
  ghost predicate ReadsOk(s: State) {
    s.lock.Some? && !s.lock.value.overlapped ==>
      && (s.lock.value.concLimit.Some? ==> s.lock.value.concLimit.value == s.limit)
      && (s.lock.value.queueLimit.Some? ==> s.lock.value.queueLimit.value == s.limit)
  }

  ghost predicate SizesOk(s: State) {
    && ReadsOk(s) && (s.hook.Some? ==> s.hook.value.since <= s.entries.Keys)
    && (forall k :: k in s.byKey ==> s.byKey[k] in s.entries && SizeOk(s, s.byKey[k]))
  }

  predicate SameSizes(x: Entry, y: Entry) {
    && y.conc.size == x.conc.size && (y.queue.Some? <==> x.queue.Some?)
    && (x.queue.Some? ==> y.queue.value.size == x.queue.value.size)
  }

  lemma {:induction false} NotifySize(q: Sem)
    ensures AfterNotify(q).size == q.size
    decreases |q.waiters|
  {
    if q.waiters != [] && Count(q) < q.size {
      NotifySize(q.(current := q.current + 1, waiters := q.waiters[1..], ready := q.ready + {q.waiters[0]}));
    }
  }

  lemma ReleaseSize(q: Sem)
    requires Count(q) > 0
    ensures AfterRelease(q).size == q.size
  {
    NotifySize(if q.leftover > 0 then q.(leftover := q.leftover - 1) else q.(current := q.current - 1));
  }

  lemma StopSize(q: Sem, c: Caller)
    ensures AfterStop(q, c).0.size == q.size
  {
    NotifySize(q.(waiters := Without(q.waiters, c)));
  }

  lemma ResizeSize(q: Sem, n: nat)
    ensures AfterResize(q, n).size == n
  {
    NotifySize(q.(size := n, leftover := 0, current := Count(q)));
  }

  /** Taking and giving back tokens changes no size, and no entry but the call's own. */
  lemma TokensKeepSizes(s: State, c: Caller, a: Action)
    requires HasEntry(s, c) && IsTokenAction(a)
    ensures var t, e := ApplyTokens(s, c, a), s.calls[c].entry;
            && e in t.entries && SameSizes(s.entries[e], t.entries[e]) && t.entries == s.entries[e := t.entries[e]]
            && t.byKey == s.byKey && t.limit == s.limit && t.maxQueue == s.maxQueue
            && t.lock == s.lock && t.hook == s.hook && t.stale == s.stale
  {
    var x := s.entries[s.calls[c].entry];
    StopSize(x.conc, c);
    if Count(x.conc) > 0 {
      ReleaseSize(x.conc);
    }
    if x.queue.Some? && Count(x.queue.value) > 0 {
      ReleaseSize(x.queue.value);
    }
  }

  lemma SizesKept(s: State, t: State)
    requires SizesOk(s) && ReadsOk(t) && SizeFrame(s, t)
    ensures SizesOk(t)
  {
    forall k | k in t.byKey ensures t.byKey[k] in t.entries && SizeOk(t, t.byKey[k]) {
      assert SizeOk(s, s.byKey[k]);
    }
  }

  lemma InsertSizes(s: State, c: Caller, unused: EntryId)
    requires LimitOk(s) && SizesOk(s) && Enabled(s, c, Insert(unused))
    ensures SizesOk(ApplyInsert(s, c, unused))
  {
    var t := ApplyInsert(s, c, unused);
    forall k | k in t.byKey ensures t.byKey[k] in t.entries && SizeOk(t, t.byKey[k]) {
      if k != s.calls[c].key {
        assert SizeOk(s, s.byKey[k]);
      }
    }
  }

  /** What the remaining actions do: at most a reference count changes, an entry leaves the
      map, or a creation goes on. */
  ghost predicate SizeFrame(s: State, t: State) {
    && t.limit == s.limit && t.maxQueue == s.maxQueue && t.hook == s.hook && t.stale == s.stale
    && s.entries.Keys <= t.entries.Keys && (forall e :: e in s.entries ==> SameSizes(s.entries[e], t.entries[e]))
    && (forall k :: k in t.byKey ==> k in s.byKey && t.byKey[k] == s.byKey[k])
  }

  lemma CreationFrame(s: State, c: Caller, a: Action)
    requires ReadsOk(s) && Enabled(s, c, a)
    requires a.Check? || a.StartCreate? || a.ReadQueueLimit? || a.ReadConcLimit?
    ensures SizeFrame(s, Apply(s, c, a)) && ReadsOk(Apply(s, c, a))
  {
  }

  lemma GetPutFrame(s: State, c: Caller, a: Action)
    requires ReadsOk(s) && Enabled(s, c, a) && (a.Get? || a.Put?)
    ensures SizeFrame(s, Apply(s, c, a)) && ReadsOk(Apply(s, c, a))
  {
  }

  lemma TokensFrame(s: State, c: Caller, a: Action)
    requires ReadsOk(s) && Enabled(s, c, a) && IsTokenAction(a)
    ensures SizeFrame(s, Apply(s, c, a)) && ReadsOk(Apply(s, c, a))
  {
    TokensKeepSizes(s, c, a);
  }

  lemma ActionFrame(s: State, c: Caller, a: Action)
    requires ReadsOk(s) && Enabled(s, c, a) && !a.Insert?
    ensures SizeFrame(s, Apply(s, c, a)) && ReadsOk(Apply(s, c, a))
  {
    if IsTokenAction(a) {
      TokensFrame(s, c, a);
    } else if a.Get? || a.Put? {
      GetPutFrame(s, c, a);
    } else {
      CreationFrame(s, c, a);
    }
  }

  lemma ActionSizes(s: State, c: Caller, a: Action)
    requires LimitOk(s) && SizesOk(s) && Enabled(s, c, a)
    ensures SizesOk(Apply(s, c, a))
  {
    if a.Insert? {
      InsertSizes(s, c, a.unused);
    } else {
      ActionFrame(s, c, a);
      SizesKept(s, Apply(s, c, a));
    }
  }

  lemma UpdateSizes(s: State, backoff: bool)
    requires SizesOk(s) && s.hook.None?
    ensures SizesOk(ApplyUpdate(s, backoff))
  {
    var t := ApplyUpdate(s, backoff);
    if t.hook.Some? {
      forall k | k in t.byKey ensures t.byKey[k] in t.entries && SizeOk(t, t.byKey[k]) {
        assert t.byKey[k] in s.byKey.Values;
      }
    }
  }

  lemma ResizedSizes(s: State, x: Entry)
    requires LimitOk(s) && (x.queue.Some? ==> s.maxQueue > 0)
    ensures QueueSized(s, QueueResized(s.maxQueue, s.limit, x)) && ConcSized(s, ConcResized(s.limit, x))
    ensures ConcSized(s, x) ==> ConcSized(s, QueueResized(s.maxQueue, s.limit, x))
    ensures QueueSized(s, x) ==> QueueSized(s, ConcResized(s.limit, x))
  {
    ResizeSize(x.conc, Nat(s.limit));
    if x.queue.Some? {
      ResizeSize(x.queue.value, Nat(s.limit + s.maxQueue));
    }
  }

  lemma HookSize(s: State, a: HookAction, e: EntryId)
    requires LimitOk(s) && HookEnabled(s, a) && e in s.entries && e in s.byKey.Values && SizeOk(s, e)
    requires s.entries[e].queue.Some? ==> s.maxQueue > 0
    ensures SizeOk(ApplyHook(s, a), e)
  {
    ResizedSizes(s, s.entries[e]);
  }

  lemma HookSizes(s: State, a: HookAction)
    requires Inv(s) && SizesOk(s) && HookEnabled(s, a)
    ensures SizesOk(ApplyHook(s, a))
  {
    var t := ApplyHook(s, a);
    forall k | k in t.byKey ensures t.byKey[k] in t.entries && SizeOk(t, t.byKey[k]) {
      assert s.byKey[k] in s.byKey.Values && EntryOk(s, s.byKey[k]);
      HookSize(s, a, s.byKey[k]);
    }
  }

  lemma {:induction false} RunKeepsSizes(setting: Setting, maxQueue: int, run: seq<Event>)
    requires ValidSetting(setting) && Legal(Start(setting, maxQueue), run)
    ensures SizesOk(Exec(Start(setting, maxQueue), run))
  {
    if run != [] {
      var s, ev := Exec(Start(setting, maxQueue), run[..|run| - 1]), run[|run| - 1];
      RunKeepsSizes(setting, maxQueue, run[..|run| - 1]);
      RunKeepsInv(setting, maxQueue, run[..|run| - 1]);
      match ev
      case Of(c, a) => ActionSizes(s, c, a);
      case Update(backoff) => UpdateSizes(s, backoff);
      case OfHook(h) => HookSizes(s, h);
    }
  }

  /** In every run the sizes follow the limit: while no hook walks, every entry in the map
      has the present limit as the size of its concurrency semaphore, and the queue length
      more for its queue semaphore, unless the limit was updated while the entry was being
      created and not since; a walking hook has resized what it has visited. */
  lemma {:induction false} SizesFollowTheLimit(setting: Setting, maxQueue: int, run: seq<Event>, k: Key)
    requires ValidSetting(setting) && Legal(Start(setting, maxQueue), run)
    requires k in Exec(Start(setting, maxQueue), run).byKey
    ensures var s := Exec(Start(setting, maxQueue), run);
            && s.byKey[k] in s.entries
            && (s.hook.None? && s.byKey[k] !in s.stale ==>
                  ConcSized(s, s.entries[s.byKey[k]]) && QueueSized(s, s.entries[s.byKey[k]]))
            && (s.hook.Some? && s.byKey[k] in s.hook.value.since ==>
                  && (s.byKey[k] in s.hook.value.concTodo || ConcSized(s, s.entries[s.byKey[k]]))
                  && (s.byKey[k] in s.hook.value.queueTodo || QueueSized(s, s.entries[s.byKey[k]])))
  {
    RunKeepsSizes(setting, maxQueue, run);
    assert SizeOk(Exec(Start(setting, maxQueue), run), Exec(Start(setting, maxQueue), run).byKey[k]);
  }

  /** No update falls between the first time that a creation reads the limit and its
      insertion. */
  ghost predicate Undisturbed(s: State, run: seq<Event>)
    requires Legal(s, run)
  {
    run == []
    || (&& Undisturbed(s, run[..|run| - 1])
        && (run[|run| - 1].Update? ==> !HasRead(Exec(s, run[..|run| - 1]))))
  }

  predicate NothingStale(s: State) {
    s.stale == {} && (s.lock.Some? ==> !s.lock.value.overlapped)
  }

  lemma TokensLeaveStale(s: State, c: Caller, a: Action)
    requires HasEntry(s, c) && IsTokenAction(a)
    ensures ApplyTokens(s, c, a).stale == s.stale && ApplyTokens(s, c, a).lock == s.lock
  {
  }

  lemma NextLeavesNothingStale(s: State, ev: Event)
    requires NothingStale(s) && Possible(s, ev) && (ev.Update? ==> !HasRead(s))
    ensures NothingStale(Next(s, ev))
  {
    if ev.Of? && IsTokenAction(ev.a) {
      TokensLeaveStale(s, ev.c, ev.a);
    }
  }

  lemma {:induction false} UndisturbedLeavesNothingStale(setting: Setting, maxQueue: int, run: seq<Event>)
    requires Legal(Start(setting, maxQueue), run) && Undisturbed(Start(setting, maxQueue), run)
    ensures NothingStale(Exec(Start(setting, maxQueue), run))
  {
    if run != [] {
      UndisturbedLeavesNothingStale(setting, maxQueue, run[..|run| - 1]);
      NextLeavesNothingStale(Exec(Start(setting, maxQueue), run[..|run| - 1]), run[|run| - 1]);
    }
  }

  /** So if no update overlaps a creation, every entry in the map has the sizes of the
      present limit whenever no hook walks. */
  lemma {:induction false} UndisturbedSizesAreExact(setting: Setting, maxQueue: int, run: seq<Event>, k: Key)
    requires ValidSetting(setting) && Legal(Start(setting, maxQueue), run)
    requires Undisturbed(Start(setting, maxQueue), run)
    requires k in Exec(Start(setting, maxQueue), run).byKey && Exec(Start(setting, maxQueue), run).hook.None?
    ensures var s := Exec(Start(setting, maxQueue), run);
            && s.byKey[k] in s.entries
            && var x := s.entries[s.byKey[k]];
            && x.conc.size == s.limit && (x.queue.Some? ==> x.queue.value.size == s.limit + maxQueue)
  {
    UndisturbedLeavesNothingStale(setting, maxQueue, run);
    SizesFollowTheLimit(setting, maxQueue, run, k);
    SettingsKept(setting, maxQueue, run);
  }

  lemma RunStep(s: State, run: seq<Event>, ev: Event)
    requires Legal(s, run) && Possible(Exec(s, run), ev)
    ensures Legal(s, run + [ev]) && Exec(s, run + [ev]) == Next(Exec(s, run), ev)
  {
    assert (run + [ev])[..|run|] == run;
  }

  /** A call that has read the limit to create an entry. */
  lemma ReadsDone(setting: Setting, maxQueue: int) returns (run: seq<Event>)
    requires ValidSetting(setting)
    ensures Legal(Start(setting, maxQueue), run)
    ensures var s := Exec(Start(setting, maxQueue), run);
            && CanInsert(s, 0) && s.lock.value.concLimit == Some(setting.initial) && s.calls[0].key == "key"
            && s.entries == map[] && s.byKey == map[] && s.hook.None? && s.limit == setting.initial
            && s.setting == setting && s.maxQueue == maxQueue
  {
    var s := Start(setting, maxQueue);
    RunStep(s, [], Of(0, Check("key")));
    run := [] + [Of(0, Check("key"))];
    RunStep(s, run, Of(0, StartCreate));
    run := run + [Of(0, StartCreate)];
    if maxQueue > 0 {
      RunStep(s, run, Of(0, ReadQueueLimit));
      run := run + [Of(0, ReadQueueLimit)];
    }
    RunStep(s, run, Of(0, ReadConcLimit));
    run := run + [Of(0, ReadConcLimit)];
  }

  /** The exception is real: in some run, whatever the setting, an update that overlaps the
      creation of an entry leaves it with the size of the previous limit. */
  lemma OverlappedCreationIsStale(setting: Setting, maxQueue: int) returns (run: seq<Event>)
    requires ValidSetting(setting) && setting.initial < setting.max
    ensures Legal(Start(setting, maxQueue), run)
    ensures var s := Exec(Start(setting, maxQueue), run);
            && s.hook.None? && "key" in s.byKey && s.byKey["key"] in s.entries
            && s.entries[s.byKey["key"]].conc.size == setting.initial < s.limit
  {
    var s := Start(setting, maxQueue);
    run := ReadsDone(setting, maxQueue);
    RunStep(s, run, Update(false));
    run := run + [Update(false)];
    RunStep(s, run, OfHook(HookDone));
    run := run + [OfHook(HookDone)];
    RunStep(s, run, Of(0, Insert(0)));
    run := run + [Of(0, Insert(0))];
  }
}
