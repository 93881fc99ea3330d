/**
  The concurrency limiter: every interleaving of calls of `Limit` on any number of
  keys, with the lazily created, reference-counted entry of each key and its two
  semaphores, and with calibrations that resize the live semaphores.

  Every action is one critical section of the code.  An entry is created under the lock
  of the map, in steps: the limit is read for one size and then for the other, and the
  entry is inserted.  An update of the limit holds the lock of the limit while its hook
  walks the map, without the lock of the map, and resizes one semaphore at a time.
 */
module Limiter {
  import opened Options
  import opened Semaphores
  import opened Adaptive

  type Key = string
  type EntryId = nat

  /** What the map holds for a key. */
  datatype Entry = Entry(refcount: int, conc: Sem, queue: Option<Sem>)

  /** Where a call of `Limit` is. */
  datatype Phase =
    | Unlimited      // the limit was not positive: run without limiting
    | Checked        // the limit is positive, no entry yet
    | Referenced     // has its entry
    | Admitted       // holds a queue token, if there are any
    | Waiting        // waits for a concurrency token
    | Running        // holds both tokens
    | QueueReturned  // has given back its queue token
    | Backing        // got no concurrency token, has to give back its queue token
    | Leaving        // holds no token, has to drop its entry
    | Done

  datatype Call = Call(key: Key, entry: EntryId, phase: Phase)

  /** Who holds the lock of the map to create an entry, and the limits it has read;
      `overlapped` says that the limit was updated since the first of them. */
  datatype Creation = Creation(owner: Caller, queueLimit: Option<int>, concLimit: Option<int>, overlapped: bool)

  /** The hook after an update: the entries that were in the map when it began, and those
      of them whose semaphores it has yet to resize. */
  datatype Hook = Hook(since: set<EntryId>, queueTodo: set<EntryId>, concTodo: set<EntryId>)

  /** `stale` are the entries whose creation was overlapped by an update, as long as no
      later update has resized them. */
  datatype State = State(
    setting: Setting, maxQueue: int, limit: int,
    byKey: map<Key, EntryId>, entries: map<EntryId, Entry>, calls: map<Caller, Call>, panicked: bool,
    lock: Option<Creation>, hook: Option<Hook>, stale: set<EntryId>)

  datatype Action =
    | Check(key: Key)
    | Get                      // getConcurrencyLimit, when there is an entry
    | StartCreate              // getConcurrencyLimit, when there is none
    | ReadQueueLimit
    | ReadConcLimit
    | Insert(unused: EntryId)
    | TryQueue
    | Acquire(cancelled: bool)
    | Wake
    | Stop
    | ReturnQueue
    | Finish
    | ReturnConc
    | Put

  predicate IsLive(ph: Phase) {
    !(ph.Unlimited? || ph.Checked? || ph.Done?)
  }

  predicate InPhase(s: State, c: Caller, ph: Phase) {
    c in s.calls && s.calls[c].phase == ph
  }

  predicate HasEntry(s: State, c: Caller) {
    c in s.calls && IsLive(s.calls[c].phase) && s.calls[c].entry in s.entries
  }

  predicate Enabled(s: State, c: Caller, a: Action) {
    match a
    case Check(_) => c !in s.calls && s.hook.None?
    case Get => InPhase(s, c, Checked) && s.lock.None? && s.calls[c].key in s.byKey
    case StartCreate => InPhase(s, c, Checked) && s.lock.None? && s.calls[c].key !in s.byKey
    case ReadQueueLimit => Creates(s, c) && s.hook.None? && s.maxQueue > 0 && s.lock.value.queueLimit.None?
    case ReadConcLimit =>
      && Creates(s, c) && s.hook.None? && s.lock.value.concLimit.None?
      && (s.maxQueue > 0 ==> s.lock.value.queueLimit.Some?)
    case Insert(e) => CanInsert(s, c) && e !in s.entries
    case TryQueue => InPhase(s, c, Referenced) && HasEntry(s, c)
    case Acquire(_) => InPhase(s, c, Admitted) && HasEntry(s, c)
    case Wake => InPhase(s, c, Waiting) && HasEntry(s, c) && c in s.entries[s.calls[c].entry].conc.ready
    case Stop => InPhase(s, c, Waiting) && HasEntry(s, c)
    case ReturnQueue => InPhase(s, c, Backing) && HasEntry(s, c)
    case Finish => InPhase(s, c, Running) && HasEntry(s, c)
    case ReturnConc => InPhase(s, c, QueueReturned) && HasEntry(s, c)
    case Put => InPhase(s, c, Leaving) && s.lock.None?
  }

  predicate Creates(s: State, c: Caller) {
    InPhase(s, c, Checked) && s.lock.Some? && s.lock.value.owner == c
  }

  predicate CanInsert(s: State, c: Caller) {
    Creates(s, c) && s.lock.value.concLimit.Some? && (s.maxQueue > 0 ==> s.lock.value.queueLimit.Some?)
  }

  /** The call `c` goes on to phase `ph`, leaving its entry as `x`. */
  function Move(s: State, c: Caller, ph: Phase, x: Entry): State
    requires c in s.calls
  {
    s.(calls := s.calls[c := s.calls[c].(phase := ph)], entries := s.entries[s.calls[c].entry := x])
  }

  function NewEntry(maxQueue: int, queueLimit: Option<int>, concLimit: int): Entry
    requires maxQueue > 0 ==> queueLimit.Some?
  {
    Entry(0, NewSem(Nat(concLimit)), if maxQueue > 0 then Some(NewSem(Nat(queueLimit.value + maxQueue))) else None)
  }

  function Nat(n: int): nat {
    if n < 0 then 0 else n
  }

  /** The call `c` gets the entry `e`, which was `x`, and counts in it. */
  function Reference(s: State, c: Caller, e: EntryId, x: Entry): State
    requires c in s.calls
  {
    var key := s.calls[c].key;
    s.(byKey := s.byKey[key := e], entries := s.entries[e := x.(refcount := x.refcount + 1)],
       calls := s.calls[c := Call(key, e, Referenced)])
  }

  function ApplyGet(s: State, c: Caller): State
    requires c in s.calls && s.calls[c].key in s.byKey
  {
    var e := s.byKey[s.calls[c].key];
    if e in s.entries then Reference(s, c, e, s.entries[e]) else s.(panicked := true)
  }

  function ApplyInsert(s: State, c: Caller, unused: EntryId): State
    requires CanInsert(s, c)
  {
    var cr := s.lock.value;
    Reference(s, c, unused, NewEntry(s.maxQueue, cr.queueLimit, cr.concLimit.value))
    .(lock := None, stale := if cr.overlapped then s.stale + {unused} else s.stale)
  }

  /** putConcurrencyLimit, which looks its entry up by key and panics if there is none. */
  function ApplyPut(s: State, c: Caller): State
    requires c in s.calls
  {
    var key := s.calls[c].key;
    if key !in s.byKey || s.byKey[key] !in s.entries || s.entries[s.byKey[key]].refcount <= 0
    then s.(panicked := true)
    else
      var e := s.byKey[key];
      var x := s.entries[e].(refcount := s.entries[e].refcount - 1);
      s.(calls := s.calls[c := s.calls[c].(phase := Done)], entries := s.entries[e := x],
         byKey := if x.refcount == 0 then s.byKey - {key} else s.byKey)
  }

  function ApplyTokens(s: State, c: Caller, a: Action): State
    requires HasEntry(s, c)
  {
    var x := s.entries[s.calls[c].entry];
    match a
    case TryQueue =>
      if x.queue.None? then Move(s, c, Admitted, x)
      else
        var (q, ok) := AfterTryAcquire(x.queue.value);
        Move(s, c, if ok then Admitted else Leaving, x.(queue := Some(q)))
    case Acquire(cancelled) =>
      var (t, e) := AfterAcquire(x.conc, c, cancelled);
      Move(s, c, if e.Acquired? then Running else if e.Queued? then Waiting else GiveUp(x), x.(conc := t))
    case Wake => Move(s, c, Running, x)
    case Stop =>
      var (t, ok) := AfterStop(x.conc, c);
      Move(s, c, if ok then Running else GiveUp(x), x.(conc := t))
    case ReturnQueue => ApplyQueueRelease(s, c, Leaving, x)
    case Finish => ApplyQueueRelease(s, c, QueueReturned, x)
    case ReturnConc =>
      if Count(x.conc) == 0 then s.(panicked := true) else Move(s, c, Leaving, x.(conc := AfterRelease(x.conc)))
    case _ => s
  }

  /** Release of the queue token.  A release below zero would wrap the counter around;
      it counts as a panic. */
  function ApplyQueueRelease(s: State, c: Caller, ph: Phase, x: Entry): State
    requires c in s.calls
  {
    if x.queue.None? then Move(s, c, ph, x)
    else if Count(x.queue.value) == 0 then s.(panicked := true)
    else Move(s, c, ph, x.(queue := Some(AfterRelease(x.queue.value))))
  }

  /** acquire failed: give back the queue token, if there is one. */
  function GiveUp(x: Entry): Phase {
    if x.queue.None? then Leaving else Backing
  }

  function Apply(s: State, c: Caller, a: Action): State
    requires Enabled(s, c, a)
  {
    match a
    case Check(key) => s.(calls := s.calls[c := Call(key, 0, if s.limit <= 0 then Unlimited else Checked)])
    case Get => ApplyGet(s, c)
    case StartCreate => s.(lock := Some(Creation(c, None, None, false)))
    case ReadQueueLimit => s.(lock := Some(s.lock.value.(queueLimit := Some(s.limit))))
    case ReadConcLimit => s.(lock := Some(s.lock.value.(concLimit := Some(s.limit))))
    case Insert(unused) => ApplyInsert(s, c, unused)
    case Put => ApplyPut(s, c)
    case _ => ApplyTokens(s, c, a)
  }

  /** What the hook makes of an entry. */
  function Resized(maxQueue: int, limit: int, x: Entry): Entry {
    ConcResized(limit, QueueResized(maxQueue, limit, x))
  }

  function QueueResized(maxQueue: int, limit: int, x: Entry): Entry {
    if x.queue.None? then x else x.(queue := Some(AfterResize(x.queue.value, Nat(limit + maxQueue))))
  }

  function ConcResized(limit: int, x: Entry): Entry {
    x.(conc := AfterResize(x.conc, Nat(limit)))
  }

  // ------------------------------------------------------------------ calibrations

  datatype HookAction = ResizeQueue(e: EntryId) | ResizeConc(e: EntryId) | HookDone

  /** A creation is under way that has read the limit. */
  predicate HasRead(s: State) {
    s.lock.Some? && (s.lock.value.queueLimit.Some? || s.lock.value.concLimit.Some?)
  }

  /** The new limit; if it differs the hook begins its walk.  A creation that has read the
      limit before is overlapped. */
  function ApplyUpdate(s: State, backoff: bool): State {
    var limit := NextLimit(s.setting, s.limit, backoff);
    if limit == s.limit then s
    else s.(limit := limit, hook := Some(Hook(s.byKey.Values, s.byKey.Values, s.byKey.Values)),
            lock := if HasRead(s) then Some(s.lock.value.(overlapped := true)) else s.lock)
  }

  /** The walk visits what is in the map, and is done once it has visited everything that
      was there all the time. */
  predicate HookEnabled(s: State, a: HookAction) {
    && s.hook.Some?
    && match a
       case ResizeQueue(e) => e in s.byKey.Values && e in s.entries
       case ResizeConc(e) => e in s.byKey.Values && e in s.entries
       case HookDone => s.hook.value.queueTodo !! s.byKey.Values && s.hook.value.concTodo !! s.byKey.Values
  }

  function ApplyHook(s: State, a: HookAction): State
    requires HookEnabled(s, a)
  {
    var h := s.hook.value;
    match a
    case ResizeQueue(e) =>
      s.(entries := s.entries[e := QueueResized(s.maxQueue, s.limit, s.entries[e])],
         hook := Some(h.(queueTodo := h.queueTodo - {e})))
    case ResizeConc(e) =>
      s.(entries := s.entries[e := ConcResized(s.limit, s.entries[e])], hook := Some(h.(concTodo := h.concTodo - {e})))
    case HookDone => s.(hook := None, stale := s.stale - h.since)
  }

  // ---------------------------------------------------------------- the invariant

  predicate HoldsQueue(ph: Phase) {
    ph.Admitted? || ph.Waiting? || ph.Running? || ph.Backing?
  }

  predicate HoldsConc(ph: Phase) {
    ph.Running? || ph.QueueReturned?
  }

  /** The calls that use an entry. */
  ghost function Users(s: State, e: EntryId): set<Caller> {
    set c | c in s.calls && s.calls[c].entry == e && IsLive(s.calls[c].phase)
  }

  ghost function QueueHeld(s: State, e: EntryId): set<Caller> {
    set c | c in s.calls && s.calls[c].entry == e && HoldsQueue(s.calls[c].phase)
  }

  ghost function ConcHeld(s: State, e: EntryId, ready: set<Caller>): set<Caller> {
    set c | c in s.calls && s.calls[c].entry == e
            && (HoldsConc(s.calls[c].phase) || (s.calls[c].phase.Waiting? && c in ready))
  }

  ghost function ConcQueue(s: State, e: EntryId, ready: set<Caller>): set<Caller> {
    set c | c in s.calls && s.calls[c].entry == e && s.calls[c].phase.Waiting? && c !in ready
  }

  /** Only calls that have waited on this entry were ever granted a token here. */
  ghost predicate ReadyOk(s: State, e: EntryId, ready: set<Caller>) {
    forall c :: c in ready ==>
                  c in s.calls && s.calls[c].entry == e && !s.calls[c].phase.Referenced?
                  && !s.calls[c].phase.Admitted? && !s.calls[c].phase.Checked?
  }

  ghost predicate ConcOk(s: State, e: EntryId, x: Entry) {
    && Accounts(x.conc, ConcHeld(s, e, x.conc.ready), ConcQueue(s, e, x.conc.ready))
    && ReadyOk(s, e, x.conc.ready)
  }

  ghost predicate QueueOk(s: State, e: EntryId, x: Entry) {
    && (x.queue.Some? <==> s.maxQueue > 0)
    && (x.queue.Some? ==> Accounts(x.queue.value, QueueHeld(s, e), {}))
  }

  ghost predicate EntryOk(s: State, e: EntryId) {
    && e in s.entries
    && s.entries[e].refcount == |Users(s, e)|
    && ConcOk(s, e, s.entries[e]) && QueueOk(s, e, s.entries[e])
  }

  ghost predicate MapOk(s: State) {
    && (forall k :: k in s.byKey ==> s.byKey[k] in s.entries && Users(s, s.byKey[k]) != {})
    && (forall k, k' :: k in s.byKey && k' in s.byKey && s.byKey[k] == s.byKey[k'] ==> k == k')
    && (forall c :: c in s.calls && IsLive(s.calls[c].phase) ==>
                      s.calls[c].key in s.byKey && s.byKey[s.calls[c].key] == s.calls[c].entry)
  }

  ghost predicate LimitOk(s: State) {
    ValidSetting(s.setting) && s.setting.min <= s.limit <= s.setting.max
  }

  /** The creator's key has no entry as long as it holds the lock. */
  ghost predicate LockOk(s: State) {
    s.lock.Some? ==> InPhase(s, s.lock.value.owner, Checked) && s.calls[s.lock.value.owner].key !in s.byKey
  }

  ghost predicate Inv(s: State) {
    && !s.panicked && LimitOk(s) && MapOk(s) && LockOk(s)
    && forall k :: k in s.byKey ==> EntryOk(s, s.byKey[k])
  }
}
