/**
  The limiter object itself: its map of entries, updated in place under its lock.  Each
  method is one step of the machine in `Limiter`.
 */
module LimiterObject {
  import opened Options
  import opened Semaphores
  import opened Adaptive
  import opened Limiter
  import opened LimiterSteps
  import opened LimiterRuns

  /** What the map holds in a state of the machine. */
  ghost function ByKey(s: State): map<Key, Entry> {
    map k | k in s.byKey && s.byKey[k] in s.entries :: s.entries[s.byKey[k]]
  }

  /** Distinct keys have distinct entries. */
  ghost predicate OneEntryEach(s: State) {
    && (forall k :: k in s.byKey ==> s.byKey[k] in s.entries)
    && (forall k, k' :: k in s.byKey && k' in s.byKey && s.byKey[k] == s.byKey[k'] ==> k == k')
  }

  class ConcurrencyLimiter {
    const maxQueueLength: int
    var limit: int
    var limitsByKey: map<Key, Entry>

    ghost predicate Shows(s: State)
      reads this
    {
      limit == s.limit && maxQueueLength == s.maxQueue && limitsByKey == ByKey(s)
    }

    constructor (setting: Setting, maxQueueLength: int)
      ensures Shows(Start(setting, maxQueueLength))
    {
      this.maxQueueLength, limit, limitsByKey := maxQueueLength, setting.initial, map[];
    }

    /** `first` and `second` are what the two reads of the limit return, if the entry is
        created; the steps of the creation come before in the machine. */
    method GetConcurrencyLimit(key: Key, first: int, second: int,
                               ghost s: State, ghost c: Caller, ghost unused: EntryId)
      requires OneEntryEach(s) && Shows(s) && InPhase(s, c, Checked) && s.calls[c].key == key && unused !in s.entries
      requires key !in s.byKey ==>
                 && CanInsert(s, c) && s.lock.value.concLimit.value == second
                 && (maxQueueLength > 0 ==> s.lock.value.queueLimit.value == first)
      modifies this
      ensures Shows(if key in s.byKey then ApplyGet(s, c) else ApplyInsert(s, c, unused))
    {
      ghost var m := limitsByKey;
      if key in limitsByKey {
        GetIsOneUpdate(s, c);
      } else {
        InsertIsOneUpdate(s, c, unused);
        var created := CreateEntry(first, second);
        limitsByKey := limitsByKey[key := created];
      }
      ghost var x := limitsByKey[key];
      limitsByKey := limitsByKey[key := limitsByKey[key].(refcount := limitsByKey[key].refcount + 1)];
      Rewritten(m, key, x, x.(refcount := x.refcount + 1));
    }

    method CreateEntry(first: int, second: int) returns (x: Entry)
      ensures x == NewEntry(maxQueueLength, Some(first), second)
    {
      var queueTokens := None;
      if maxQueueLength > 0 {
        queueTokens := Some(NewSem(Nat(first + maxQueueLength)));
      }
      x := Entry(0, NewSem(Nat(second)), queueTokens);
    }

    /** Without a matching get there is no entry, or one that nobody uses: that is a panic. */
    method PutConcurrencyLimit(key: Key, ghost s: State, ghost c: Caller) returns (panicked: bool)
      requires OneEntryEach(s) && Shows(s) && c in s.calls && s.calls[c].key == key && !s.panicked
      modifies this
      ensures panicked <==> key !in old(limitsByKey) || old(limitsByKey)[key].refcount <= 0
      ensures panicked == ApplyPut(s, c).panicked && Shows(ApplyPut(s, c))
    {
      if key !in limitsByKey {
        return true;
      }
      var ref := limitsByKey[key];
      if ref.refcount <= 0 {
        return true;
      }
      PutIsOneUpdate(s, c);
      ref := ref.(refcount := ref.refcount - 1);
      limitsByKey := limitsByKey[key := ref];
      if ref.refcount == 0 {
        limitsByKey := limitsByKey - {key};
      }
      return false;
    }

    /** The hook after an update of the limit; the loop resizes both semaphores of every
        entry in the map. */
    method LimitUpdated(val: int)
      modifies this
      ensures limit == val && limitsByKey.Keys == old(limitsByKey).Keys
      ensures forall k :: k in limitsByKey ==> limitsByKey[k] == Resized(maxQueueLength, val, old(limitsByKey)[k])
    {
      limit := val;
      var todo := limitsByKey.Keys;
      while todo != {}
        invariant todo <= limitsByKey.Keys == old(limitsByKey).Keys && limit == val
        invariant forall k :: k in limitsByKey ==>
                    limitsByKey[k] == if k in todo then old(limitsByKey)[k]
                                      else Resized(maxQueueLength, val, old(limitsByKey)[k])
        decreases |todo|
      {
        var k :| k in todo;
        todo := todo - {k};
        var x := limitsByKey[k];
        if x.queue.Some? {
          x := x.(queue := Some(AfterResize(x.queue.value, Nat(val + maxQueueLength))));
        }
        limitsByKey := limitsByKey[k := x.(conc := AfterResize(x.conc, Nat(val)))];
      }
    }
  }

  lemma Rewritten(m: map<Key, Entry>, k: Key, x: Entry, y: Entry)
    ensures m[k := x][k := y] == m[k := y]
    ensures k in m && m[k] == x ==> m[k := x] == m
  {
  }

  /** A step on one entry leaves the others. */
  lemma GetIsOneUpdate(s: State, c: Caller)
    requires OneEntryEach(s) && InPhase(s, c, Checked) && s.calls[c].key in s.byKey
    ensures var key, m, t := s.calls[c].key, ByKey(s), ApplyGet(s, c);
            && ByKey(t) == m[key := m[key].(refcount := m[key].refcount + 1)]
            && t.limit == s.limit && t.maxQueue == s.maxQueue
  {
  }

  lemma InsertIsOneUpdate(s: State, c: Caller, unused: EntryId)
    requires OneEntryEach(s) && CanInsert(s, c) && s.calls[c].key !in s.byKey && unused !in s.entries
    ensures var key, cr, t := s.calls[c].key, s.lock.value, ApplyInsert(s, c, unused);
            && ByKey(t) == ByKey(s)[key := NewEntry(s.maxQueue, cr.queueLimit, cr.concLimit.value).(refcount := 1)]
            && t.limit == s.limit && t.maxQueue == s.maxQueue
  {
  }

  /** In a reachable state the call that leaves finds its entry, and counts in it. */
  lemma PutFindsEntry(s: State, c: Caller)
    requires Inv(s) && Enabled(s, c, Put)
    ensures s.calls[c].key in ByKey(s) && ByKey(s)[s.calls[c].key].refcount > 0 && !ApplyPut(s, c).panicked
  {
    EntryInOrder(s, c);
    assert c in Users(s, s.calls[c].entry);
  }

  lemma PutIsOneUpdate(s: State, c: Caller)
    requires OneEntryEach(s) && c in s.calls
    requires s.calls[c].key in s.byKey && s.entries[s.byKey[s.calls[c].key]].refcount > 0
    ensures var key, m := s.calls[c].key, ByKey(s);
            var x := m[key].(refcount := m[key].refcount - 1);
            ByKey(ApplyPut(s, c)) == if x.refcount == 0 then m - {key} else m[key := x]
  {
  }

  /** What the loop does to an entry is what the machine's two steps on it do, and they
      leave the other entries. */
  lemma HookResizes(s: State, e: EntryId)
    requires HookEnabled(s, ResizeQueue(e))
    ensures var t := ApplyHook(s, ResizeQueue(e));
            && HookEnabled(t, ResizeConc(e))
            && ApplyHook(t, ResizeConc(e)).entries == s.entries[e := Resized(s.maxQueue, s.limit, s.entries[e])]
  {
  }
}
