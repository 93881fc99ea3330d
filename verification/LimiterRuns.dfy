/** What holds in every run of the limiter. */
module LimiterRuns {
  import opened Options
  import opened Semaphores
  import opened Adaptive
  import opened Limiter
  import opened LimiterSteps

  datatype Event = Of(c: Caller, a: Action) | Update(backoff: bool) | OfHook(h: HookAction)

  predicate Possible(s: State, ev: Event) {
    match ev
    case Of(c, a) => Enabled(s, c, a)
    case Update(_) => s.hook.None?
    case OfHook(h) => HookEnabled(s, h)
  }

  function Next(s: State, ev: Event): State
    requires Possible(s, ev)
  {
    match ev
    case Of(c, a) => Apply(s, c, a)
    case Update(backoff) => ApplyUpdate(s, backoff)
    case OfHook(h) => ApplyHook(s, h)
  }

  /** NewConcurrencyLimiter with a limit that has just been started. */
  function Start(setting: Setting, maxQueue: int): State {
    State(setting, maxQueue, setting.initial, map[], map[], map[], false, None, None, {})
  }

  ghost predicate Legal(s: State, run: seq<Event>)
    decreases |run|, 0
  {
    run == [] || (Legal(s, run[..|run| - 1]) && Possible(Exec(s, run[..|run| - 1]), run[|run| - 1]))
  }

  ghost function Exec(s: State, run: seq<Event>): State
    requires Legal(s, run)
    decreases |run|, 1
  {
    if run == [] then s else Next(Exec(s, run[..|run| - 1]), run[|run| - 1])
  }

  lemma ActionKeeps(s: State, c: Caller, a: Action)
    requires Inv(s) && Enabled(s, c, a)
    ensures Inv(Apply(s, c, a))
  {
    match a
    case Check(key) => CheckKeeps(s, c, key);
    case Get => GetKeeps(s, c);
    case StartCreate => CreationKeeps(s, c, a);
    case ReadQueueLimit => CreationKeeps(s, c, a);
    case ReadConcLimit => CreationKeeps(s, c, a);
    case Insert(unused) => InsertKeeps(s, c, unused);
    case Put => PutKeeps(s, c);
    case _ => TokensKeep(s, c, a);
  }

  lemma NextKeeps(s: State, ev: Event)
    requires Inv(s) && Possible(s, ev)
    ensures Inv(Next(s, ev))
  {
    match ev
    case Update(backoff) => UpdateKeeps(s, backoff);
    case OfHook(h) => HookKeeps(s, h);
    case Of(c, a) => ActionKeeps(s, c, a);
  }

  lemma {:induction false} RunKeepsInv(setting: Setting, maxQueue: int, run: seq<Event>)
    requires ValidSetting(setting) && Legal(Start(setting, maxQueue), run)
    ensures Inv(Exec(Start(setting, maxQueue), run))
  {
    if run != [] {
      RunKeepsInv(setting, maxQueue, run[..|run| - 1]);
      NextKeeps(Exec(Start(setting, maxQueue), run[..|run| - 1]), run[|run| - 1]);
    }
  }

  /** The callers that hold only a queue token, and those that have returned only it. */
  ghost function QueueOnly(s: State, e: EntryId, ready: set<Caller>): set<Caller> {
    QueueHeld(s, e) - ConcHeld(s, e, ready)
  }

  ghost function ConcOnly(s: State, e: EntryId): set<Caller> {
    set c | c in s.calls && s.calls[c].entry == e && s.calls[c].phase.QueueReturned?
  }

  lemma BalanceOfSets(s: State, e: EntryId, r: set<Caller>)
    ensures |QueueHeld(s, e)| + |ConcOnly(s, e)| == |ConcHeld(s, e, r)| + |QueueOnly(s, e, r)|
  {
    var q, k, both := QueueHeld(s, e), ConcHeld(s, e, r), QueueHeld(s, e) * ConcHeld(s, e, r);
    assert q == both + QueueOnly(s, e, r) && both !! QueueOnly(s, e, r);
    assert k == both + ConcOnly(s, e) && both !! ConcOnly(s, e);
  }

  /** In every run: no panic is reached and no counter wraps around; the calls of a key
      that are under way share its one entry, which counts them; the limit stays within
      its bounds; and queue tokens held plus calls that have returned only theirs equals
      concurrency tokens held plus calls that hold only a queue token. */
  lemma {:induction false} LimiterIsSound(setting: Setting, maxQueue: int, run: seq<Event>)
    requires ValidSetting(setting) && Legal(Start(setting, maxQueue), run)
    ensures var s := Exec(Start(setting, maxQueue), run);
            && !s.panicked && setting.min <= s.limit <= setting.max
            && (forall c, d :: c in s.calls && d in s.calls && IsLive(s.calls[c].phase) && IsLive(s.calls[d].phase)
                               && s.calls[c].key == s.calls[d].key ==>
                                 s.calls[c].entry == s.calls[d].entry)
            && (forall k :: k in s.byKey ==>
                  && s.byKey[k] in s.entries
                  && var e, x := s.byKey[k], s.entries[s.byKey[k]];
                  && x.refcount == |Users(s, e)| > 0
                  && (x.queue.Some? <==> maxQueue > 0)
                  && (x.queue.Some? ==>
                        Count(x.queue.value) + |ConcOnly(s, e)| ==
                           Count(x.conc) + |QueueOnly(s, e, x.conc.ready)|))
  {
    RunKeepsInv(setting, maxQueue, run);
    var s := Exec(Start(setting, maxQueue), run);
    SettingsKept(setting, maxQueue, run);
    forall k | k in s.byKey ensures EntryOk(s, s.byKey[k]) && |Users(s, s.byKey[k])| > 0 {
      assert Users(s, s.byKey[k]) != {};
    }
    forall k | k in s.byKey {
      BalanceOfSets(s, s.byKey[k], s.entries[s.byKey[k]].conc.ready);
    }
  }

  lemma TokensKeepSettings(s: State, c: Caller, a: Action)
    requires HasEntry(s, c) && IsTokenAction(a)
    ensures ApplyTokens(s, c, a).setting == s.setting && ApplyTokens(s, c, a).maxQueue == s.maxQueue
  {
  }

  lemma MapKeepsSettings(s: State, c: Caller, a: Action)
    requires Enabled(s, c, a) && !IsTokenAction(a)
    ensures Apply(s, c, a).setting == s.setting && Apply(s, c, a).maxQueue == s.maxQueue
  {
  }

  lemma SettingsStay(s: State, ev: Event)
    requires Possible(s, ev)
    ensures Next(s, ev).setting == s.setting && Next(s, ev).maxQueue == s.maxQueue
  {
    match ev
    case Of(c, a) =>
      if IsTokenAction(a) {
        TokensKeepSettings(s, c, a);
      } else {
        MapKeepsSettings(s, c, a);
      }
    case _ =>
  }

  lemma {:induction false} SettingsKept(setting: Setting, maxQueue: int, run: seq<Event>)
    requires Legal(Start(setting, maxQueue), run)
    ensures var s := Exec(Start(setting, maxQueue), run); s.setting == setting && s.maxQueue == maxQueue
  {
    if run != [] {
      SettingsKept(setting, maxQueue, run[..|run| - 1]);
      SettingsStay(Exec(Start(setting, maxQueue), run[..|run| - 1]), run[|run| - 1]);
    }
  }

  lemma OnlyPutDrops(s: State, c: Caller, a: Action, k: Key)
    requires Enabled(s, c, a) && k in s.byKey && k !in Apply(s, c, a).byKey
    ensures a.Put? && k == s.calls[c].key
  {
  }

  lemma PutDropsIdle(s: State, c: Caller)
    requires Inv(s) && Enabled(s, c, Put) && s.calls[c].key !in ApplyPut(s, c).byKey
    ensures s.calls[c].key in s.byKey && s.byKey[s.calls[c].key] == s.calls[c].entry
    ensures s.calls[c].entry in ApplyPut(s, c).entries && Idle(ApplyPut(s, c).entries[s.calls[c].entry])
  {
    PutEntry(s, c);
    EntryInOrder(s, c);
    var t, e := ApplyPut(s, c), s.calls[c].entry;
    assert Users(t, e) == {};
    NoUsersNoTokens(t, e);
  }

  predicate Idle(x: Entry) {
    && Count(x.conc) == 0 && x.conc.waiters == []
    && (x.queue.Some? ==> Count(x.queue.value) == 0 && x.queue.value.waiters == [])
  }

  lemma NoUsersNoSets(t: State, e: EntryId, r: set<Caller>)
    requires Users(t, e) == {}
    ensures ConcHeld(t, e, r) == {} && ConcQueue(t, e, r) == {} && QueueHeld(t, e) == {}
  {
    assert forall d :: d in ConcHeld(t, e, r) + ConcQueue(t, e, r) + QueueHeld(t, e) ==> d in Users(t, e);
  }

  lemma NoUsersNoTokens(t: State, e: EntryId)
    requires EntryOk(t, e) && Users(t, e) == {}
    ensures Idle(t.entries[e])
  {
    var x := t.entries[e];
    NoUsersNoSets(t, e, x.conc.ready);
    NothingHeld(x.conc);
    if x.queue.Some? {
      NothingHeld(x.queue.value);
    }
  }

  /** In every run an entry leaves the map only when its semaphores hold no token and
      no waiter. */
  lemma {:induction false} DroppedEntryIsIdle(setting: Setting, maxQueue: int, run: seq<Event>, k: Key)
    requires ValidSetting(setting) && Legal(Start(setting, maxQueue), run) && run != []
    requires k in Exec(Start(setting, maxQueue), run[..|run| - 1]).byKey
    requires k !in Exec(Start(setting, maxQueue), run).byKey
    ensures var s, t := Exec(Start(setting, maxQueue), run[..|run| - 1]), Exec(Start(setting, maxQueue), run);
            s.byKey[k] in t.entries && Idle(t.entries[s.byKey[k]])
  {
    RunKeepsInv(setting, maxQueue, run[..|run| - 1]);
    DropIsIdle(Exec(Start(setting, maxQueue), run[..|run| - 1]), run[|run| - 1], k);
  }

  lemma DropIsIdle(s: State, ev: Event, k: Key)
    requires Inv(s) && Possible(s, ev) && k in s.byKey && k !in Next(s, ev).byKey
    ensures s.byKey[k] in Next(s, ev).entries && Idle(Next(s, ev).entries[s.byKey[k]])
  {
    if ev.Of? {
      OnlyPutDrops(s, ev.c, ev.a, k);
      PutDropsIdle(s, ev.c);
    }
  }

  /** In every run a call of a limiter with a queue is turned away exactly when as many
      calls are admitted as its queue semaphore allows, one without a queue never is, and
      an admitted call runs at once exactly when fewer calls run than its concurrency
      semaphore allows; see `SizesFollowTheLimit` for these sizes. */
  lemma {:induction false} AdmissionIsExact(setting: Setting, maxQueue: int, run: seq<Event>, c: Caller)
    requires ValidSetting(setting) && Legal(Start(setting, maxQueue), run)
    requires c in Exec(Start(setting, maxQueue), run).calls
    requires IsLive(Exec(Start(setting, maxQueue), run).calls[c].phase)
    ensures var s := Exec(Start(setting, maxQueue), run);
            var e := s.calls[c].entry;
            && e in s.entries
            && (s.calls[c].phase.Referenced? ==>
                  && Enabled(s, c, TryQueue)
                  && Apply(s, c, TryQueue).calls[c].phase
                     == (if s.entries[e].queue.None? || |QueueHeld(s, e)| < s.entries[e].queue.value.size
                         then Admitted else Leaving))
            && (s.calls[c].phase.Admitted? ==>
                  && Enabled(s, c, Acquire(false))
                  && Apply(s, c, Acquire(false)).calls[c].phase
                     == (if |ConcHeld(s, e, s.entries[e].conc.ready)| < s.entries[e].conc.size
                         then Running else Waiting))
  {
    RunKeepsInv(setting, maxQueue, run);
    var s := Exec(Start(setting, maxQueue), run);
    EntryInOrder(s, c);
    if s.calls[c].phase.Referenced? {
      QueueAdmits(s, c);
    } else if s.calls[c].phase.Admitted? {
      ConcAdmits(s, c);
    }
  }

  lemma QueueAdmits(s: State, c: Caller)
    requires InPhase(s, c, Referenced) && HasEntry(s, c) && EntryOk(s, s.calls[c].entry)
    ensures var e := s.calls[c].entry;
            ApplyTokens(s, c, TryQueue).calls[c].phase
            == if s.entries[e].queue.None? || |QueueHeld(s, e)| < s.entries[e].queue.value.size then Admitted
               else Leaving
  {
    var x := s.entries[s.calls[c].entry];
    if x.queue.Some? {
      NoElems(x.queue.value.waiters);
    }
  }

  lemma ConcAdmits(s: State, c: Caller)
    requires InPhase(s, c, Admitted) && HasEntry(s, c) && EntryOk(s, s.calls[c].entry)
    ensures var e := s.calls[c].entry;
            ApplyTokens(s, c, Acquire(false)).calls[c].phase
            == if |ConcHeld(s, e, s.entries[e].conc.ready)| < s.entries[e].conc.size then Running else Waiting
  {
  }
}
