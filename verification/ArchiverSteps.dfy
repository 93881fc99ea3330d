/** Every step of the archiver, its workers and the log managers keeps the invariant. */
module ArchiverSteps {
  import opened Options
  import opened Archiver
  import opened ArchiverSystem

  /** A partition's progress is not touched by what happens to others. */
  lemma ProgressKept(s: System, t: System, p: Partition)
    requires ProgressOk(s, p)
    requires p in t.first && p in t.acked && p in t.book.parts
    requires t.first[p] == s.first[p] && Recorded(t, p) == Recorded(s, p) && s.store <= t.store
    requires t.book.parts[p].nextLSN == s.book.parts[p].nextLSN && t.acked[p] < t.book.parts[p].nextLSN
    ensures ProgressOk(t, p)
  {
  }

  lemma NotifyKeepsQueue(s: System, n: Notification)
    requires QueueOk(s) && Enabled(s, Notify(n))
    requires forall p :: p in s.archived || p in s.book.parts ==> p in s.first
    ensures QueueOk(Apply(s, Notify(n)))
  {
    var t := Apply(s, Notify(n));
    forall p | p in t.first && p !in t.book.parts ensures FirstInQueue(t, p) {
      if p in s.first {
        assert FirstInQueue(s, p);
        var i :| 0 <= i < |s.queue| && s.queue[i].partition == p && s.queue[i].low == s.first[p]
                 && forall j :: 0 <= j < i ==> s.queue[j].partition != p;
        assert t.queue[i] == s.queue[i];
      } else {
        assert t.queue[|s.queue|] == n;
      }
    }
  }

  lemma NotifyKeeps(s: System, n: Notification)
    requires Inv(s) && Enabled(s, Notify(n))
    ensures Inv(Apply(s, Notify(n)))
  {
    forall p | p in s.archived || p in s.book.parts ensures p in s.first {
      assert ProgressOk(s, p);
    }
    NotifyKeepsQueue(s, n);
    NotifyKeepsProgress(s, n);
  }

  lemma NotifyKeepsProgress(s: System, n: Notification)
    requires AllProgressOk(s) && Enabled(s, Notify(n))
    ensures AllProgressOk(Apply(s, Notify(n)))
  {
    var t := Apply(s, Notify(n));
    forall p | p in t.book.parts ensures ProgressOk(t, p) {
      ProgressKept(s, t, p);
    }
  }

  lemma {:induction false} OneJobEach(b: Book, chosen: set<Partition>)
    requires chosen <= b.parts.Keys
    ensures |Jobs(b, chosen)| == |chosen|
    decreases |chosen|
  {
    if chosen == {} {
      assert Jobs(b, chosen) == {};
    } else {
      var p :| p in chosen;
      OneJobEach(b, chosen - {p});
      assert Jobs(b, chosen) == Jobs(b, chosen - {p}) + {LogEntry(p, b.parts[p].nextLSN)};
    }
  }

  lemma JobsAfterSend(b: Book, chosen: set<Partition>, e: LogEntry)
    requires forall p :: p in chosen ==> p in b.parts
    ensures IsJob(AfterSend(b, chosen), e) <==> IsJob(b, e) || e in Jobs(b, chosen)
  {
    if e.partition in chosen && e.lsn == b.parts[e.partition].nextLSN {
      assert e == LogEntry(e.partition, b.parts[e.partition].nextLSN);
    }
  }

  lemma JobsAreNew(b: Book, inFlight: map<LogEntry, Option<bool>>, chosen: set<Partition>)
    requires forall e :: e in inFlight <==> IsJob(b, e)
    requires forall p :: p in chosen ==> p in b.parts && !b.parts[p].hasJob
    ensures inFlight.Keys !! Jobs(b, chosen)
    ensures |Started(inFlight, Jobs(b, chosen)).Keys| == |inFlight.Keys| + |chosen|
  {
    OneJobEach(b, chosen);
    forall e | e in Jobs(b, chosen) ensures e !in inFlight {
      assert !IsJob(b, e);
    }
    assert Started(inFlight, Jobs(b, chosen)).Keys == inFlight.Keys + Jobs(b, chosen);
  }

  lemma SendKeepsJobs(b: Book, inFlight: map<LogEntry, Option<bool>>, store: set<LogEntry>, chosen: set<Partition>)
    requires JobsOk(b, inFlight, store) && CanSend(b, chosen)
    ensures JobsOk(AfterSend(b, chosen), Started(inFlight, Jobs(b, chosen)), store)
  {
    JobsAreNew(b, inFlight, chosen);
    forall e ensures e in Started(inFlight, Jobs(b, chosen)) <==> IsJob(AfterSend(b, chosen), e) {
      JobsAfterSend(b, chosen, e);
    }
  }

  lemma SendKeepsActive(b: Book, chosen: set<Partition>)
    requires ActiveOk(b) && CanSend(b, chosen)
    ensures ActiveOk(AfterSend(b, chosen))
    ensures var b' := AfterSend(b, chosen);
            b'.activeJobs == b'.workerCount || forall p :: p in b'.active ==> p in b'.parts && b'.parts[p].hasJob
  {
  }

  lemma SendKeeps(s: System, chosen: set<Partition>)
    requires Inv(s) && Enabled(s, Send(chosen))
    ensures Inv(Apply(s, Send(chosen)))
  {
    SendKeepsJobs(s.book, s.inFlight, s.store, chosen);
    SendKeepsActive(s.book, chosen);
    SendKeepsRest(s, chosen);
  }

  lemma SendKeepsRest(s: System, chosen: set<Partition>)
    requires QueueOk(s) && AllProgressOk(s) && Enabled(s, Send(chosen))
    requires forall p :: p in s.archived ==> p in s.book.parts
    ensures QueueOk(Apply(s, Send(chosen))) && AllProgressOk(Apply(s, Send(chosen)))
  {
    var t := Apply(s, Send(chosen));
    assert t.book.parts.Keys == s.book.parts.Keys;
    QueueKept(s, t);
    forall p | p in t.book.parts ensures ProgressOk(t, p) {
      ProgressKept(s, t, p);
    }
  }

  lemma QueueKept(s: System, t: System)
    requires QueueOk(s) && t.queue == s.queue && t.first == s.first && t.acked.Keys == s.acked.Keys
    requires t.book.parts.Keys == s.book.parts.Keys
    requires forall p :: p in s.acked ==> s.acked[p] <= t.acked[p]
    requires forall p :: p in s.acked && p !in s.book.parts ==> s.acked[p] == t.acked[p]
    requires forall p :: p in t.archived ==> p in s.archived || p in s.book.parts
    ensures QueueOk(t)
  {
    forall p | p in t.first && p !in t.book.parts ensures FirstInQueue(t, p) {
      assert FirstInQueue(s, p);
    }
  }

  lemma WorkKeepsJobs(b: Book, inFlight: map<LogEntry, Option<bool>>, store: set<LogEntry>, e: LogEntry, stored: bool,
                      success: bool)
    requires JobsOk(b, inFlight, store) && e in inFlight && (success ==> stored || e in store)
    ensures JobsOk(b, inFlight[e := Some(success)], if stored then store + {e} else store)
  {
    assert inFlight[e := Some(success)].Keys == inFlight.Keys;
  }

  lemma WorkKeeps(s: System, e: LogEntry, stored: bool, success: bool)
    requires Inv(s) && Enabled(s, Work(e, stored, success))
    ensures Inv(Apply(s, Work(e, stored, success)))
  {
    WorkKeepsJobs(s.book, s.inFlight, s.store, e, stored, success);
    WorkKeepsRest(s, e, stored, success);
  }

  lemma WorkKeepsRest(s: System, e: LogEntry, stored: bool, success: bool)
    requires QueueOk(s) && AllProgressOk(s) && Enabled(s, Work(e, stored, success))
    ensures QueueOk(Apply(s, Work(e, stored, success))) && AllProgressOk(Apply(s, Work(e, stored, success)))
  {
    var t := Apply(s, Work(e, stored, success));
    QueueKept(s, t);
    forall p | p in t.book.parts ensures ProgressOk(t, p) {
      ProgressKept(s, t, p);
    }
  }

  /** A notification moves no partition that is known, and starts a new one at its first
      low water mark: there is never a gap. */
  lemma NoGap(s: System)
    requires QueueOk(s) && AllProgressOk(s) && s.queue != []
    ensures var n := s.queue[0];
            var st := AfterNotification(s.book, n).0.parts[n.partition];
            && n.partition in s.first
            && (if n.partition in s.book.parts
                then st.nextLSN == s.book.parts[n.partition].nextLSN && st.hasJob == s.book.parts[n.partition].hasJob
                else st.nextLSN == s.first[n.partition] && !st.hasJob && n.low == s.first[n.partition])
  {
    var n := s.queue[0];
    if n.partition in s.book.parts {
      assert ProgressOk(s, n.partition);
    } else {
      assert FirstInQueue(s, n.partition);
    }
  }

  lemma ShiftFirst(s: System, t: System, p: Partition)
    requires FirstInQueue(s, p) && s.queue != [] && s.queue[0].partition != p
    requires t.queue == s.queue[1..] && t.first == s.first
    ensures FirstInQueue(t, p)
  {
    var i :| 0 <= i < |s.queue| && s.queue[i].partition == p && s.queue[i].low == s.first[p]
             && forall j :: 0 <= j < i ==> s.queue[j].partition != p;
    assert t.queue[i - 1] == s.queue[i];
    assert forall j :: 0 <= j < i - 1 ==> t.queue[j] == s.queue[j + 1];
  }

  /** What taking in the first notification changes: it leaves the list, and of the
      partitions only its own can be affected, whose next LSN is then `next`. */
  ghost predicate Ingested(s: System, t: System, next: LSN) {
    && s.queue != [] && t.queue == s.queue[1..] && t.first == s.first && t.archived == s.archived
    && t.store == s.store && t.acked.Keys == s.acked.Keys
    && t.book.parts.Keys == s.book.parts.Keys + {s.queue[0].partition}
    && (forall p :: p in s.acked && p != s.queue[0].partition ==> t.acked[p] == s.acked[p])
    && (forall p :: p in s.book.parts && p != s.queue[0].partition ==> t.book.parts[p] == s.book.parts[p])
    && s.queue[0].partition in s.acked
    && s.acked[s.queue[0].partition] <= t.acked[s.queue[0].partition] < next
    && t.book.parts[s.queue[0].partition].nextLSN == next
  }

  lemma IngestChangesBook(s: System, delivered: bool)
    requires Enabled(s, IngestNext(delivered))
    ensures var t := Apply(s, IngestNext(delivered));
            && t.book == AfterNotification(s.book, s.queue[0]).0 && t.inFlight == s.inFlight && t.store == s.store
            && t.phase == s.phase && !t.phase.Wait? && t.archived == s.archived
  {
  }

  lemma NotificationChanges(b: Book, n: Notification, next: LSN)
    requires if n.partition in b.parts then n.low <= next == b.parts[n.partition].nextLSN else next == n.low
    ensures var (b', again) := AfterNotification(b, n);
            && b'.parts.Keys == b.parts.Keys + {n.partition} && b'.parts[n.partition].nextLSN == next
            && (forall p :: p in b.parts && p != n.partition ==> b'.parts[p] == b.parts[p])
            && (again.Some? ==> again.value == next - 1)
  {
  }

  lemma IngestChanges(s: System, delivered: bool, next: LSN)
    requires Enabled(s, IngestNext(delivered))
    requires s.queue[0].partition in s.acked && s.acked[s.queue[0].partition] < next
    requires if s.queue[0].partition in s.book.parts
             then s.queue[0].low <= next == s.book.parts[s.queue[0].partition].nextLSN
             else next == s.queue[0].low
    ensures Ingested(s, Apply(s, IngestNext(delivered)), next)
  {
    NotificationChanges(s.book, s.queue[0], next);
  }

  lemma IngestKeepsQueue(s: System, t: System, next: LSN)
    requires QueueOk(s) && Ingested(s, t, next)
    ensures QueueOk(t)
  {
    forall p | p in t.first && p !in t.book.parts ensures FirstInQueue(t, p) {
      ShiftFirst(s, t, p);
    }
    assert forall i :: 0 <= i < |t.queue| ==> t.queue[i] == s.queue[i + 1];
  }

  lemma IngestKeepsProgress(s: System, t: System, next: LSN)
    requires AllProgressOk(s) && Ingested(s, t, next) && s.queue[0].partition in s.first
    requires if s.queue[0].partition in s.book.parts then next == s.book.parts[s.queue[0].partition].nextLSN
             else next == s.first[s.queue[0].partition] && s.queue[0].partition !in s.archived
    ensures AllProgressOk(t)
  {
    forall p | p in t.book.parts ensures ProgressOk(t, p) {
      if p in s.book.parts {
        assert ProgressOk(s, p);
        ProgressKept(s, t, p);
      } else {
        assert Recorded(t, p) == [];
      }
    }
  }

  /** Without a gap, a notification changes no job. */
  lemma IngestKeepsJobs(b: Book, inFlight: map<LogEntry, Option<bool>>, store: set<LogEntry>, n: Notification)
    requires JobsOk(b, inFlight, store) && ActiveOk(b)
    requires n.partition in b.parts ==> n.low <= b.parts[n.partition].nextLSN
    ensures JobsOk(AfterNotification(b, n).0, inFlight, store) && ActiveOk(AfterNotification(b, n).0)
  {
    var b' := AfterNotification(b, n).0;
    forall e ensures IsJob(b', e) <==> IsJob(b, e) {
    }
  }

  lemma IngestNextKeeps(s: System, delivered: bool)
    requires Inv(s) && Enabled(s, IngestNext(delivered))
    ensures Inv(Apply(s, IngestNext(delivered)))
  {
    var n, t := s.queue[0], Apply(s, IngestNext(delivered));
    var next := if n.partition in s.book.parts then s.book.parts[n.partition].nextLSN else n.low;
    NoGap(s);
    if n.partition in s.book.parts {
      assert ProgressOk(s, n.partition);
    }
    IngestChangesBook(s, delivered);
    IngestKeepsJobs(s.book, s.inFlight, s.store, n);
    IngestChanges(s, delivered, next);
    IngestKeepsQueue(s, t, next);
    IngestKeepsProgress(s, t, next);
  }

  lemma ReceiveKeepsJobs(b: Book, inFlight: map<LogEntry, Option<bool>>, store: set<LogEntry>, e: LogEntry,
                         success: bool)
    requires JobsOk(b, inFlight, store) && ActiveOk(b) && e in inFlight && b.activeJobs > 0
    ensures JobsOk(AfterReceive(b, e, success).0, inFlight - {e}, store) && ActiveOk(AfterReceive(b, e, success).0)
  {
    var b' := AfterReceive(b, e, success).0;
    assert (inFlight - {e}).Keys == inFlight.Keys - {e};
    assert IsJob(b, e);
    forall f ensures f in inFlight - {e} <==> IsJob(b', f) {
      assert f in inFlight <==> IsJob(b, f);
    }
  }

  /** What taking in a result changes: only its own partition, and there only by the
      entry that was archived. */
  ghost predicate Received(s: System, t: System, e: LogEntry, success: bool) {
    && t.queue == s.queue && t.first == s.first && t.store == s.store
    && t.acked.Keys == s.acked.Keys && t.book.parts.Keys == s.book.parts.Keys
    && (forall p :: p in s.acked && p != e.partition ==> t.acked[p] == s.acked[p])
    && (forall p :: p in s.book.parts && p != e.partition ==>
          t.book.parts[p] == s.book.parts[p] && Recorded(t, p) == Recorded(s, p))
    && (forall p :: p in t.archived ==> p in s.archived || p == e.partition)
    && e.partition in s.acked && e.partition in s.book.parts
    && s.acked[e.partition] <= t.acked[e.partition] < t.book.parts[e.partition].nextLSN
    && (if success
        then && t.book.parts[e.partition].nextLSN == e.lsn + 1
             && Recorded(t, e.partition) == Recorded(s, e.partition) + [e.lsn]
        else t.book.parts[e.partition].nextLSN == e.lsn && Recorded(t, e.partition) == Recorded(s, e.partition))
  }

  lemma ReceiveChanges(s: System, e: LogEntry, delivered: bool)
    requires Enabled(s, Receive(e, delivered)) && IsJob(s.book, e)
    requires e.partition in s.acked && s.acked[e.partition] < e.lsn
    ensures Received(s, Apply(s, Receive(e, delivered)), e, s.inFlight[e].value)
  {
  }

  lemma SuccessProgresses(s: System, t: System, e: LogEntry)
    requires ProgressOk(s, e.partition) && IsJob(s.book, e) && e in s.store && Received(s, t, e, true)
    ensures ProgressOk(t, e.partition)
  {
    assert e == LogEntry(e.partition, s.first[e.partition] + |Recorded(s, e.partition)|);
  }

  lemma ReceiveKeepsProgress(s: System, t: System, e: LogEntry, success: bool)
    requires AllProgressOk(s) && IsJob(s.book, e) && (success ==> e in s.store) && Received(s, t, e, success)
    ensures AllProgressOk(t)
  {
    forall p | p in t.book.parts ensures ProgressOk(t, p) {
      assert ProgressOk(s, p);
      if p == e.partition && success {
        SuccessProgresses(s, t, e);
      } else {
        ProgressKept(s, t, p);
      }
    }
  }

  lemma ReceiveKeepsQueue(s: System, t: System, e: LogEntry, success: bool)
    requires QueueOk(s) && Received(s, t, e, success)
    ensures QueueOk(t)
  {
    QueueKept(s, t);
  }

  lemma ReceiveKeeps(s: System, e: LogEntry, delivered: bool)
    requires Inv(s) && Enabled(s, Receive(e, delivered))
    ensures Inv(Apply(s, Receive(e, delivered)))
  {
    var t := Apply(s, Receive(e, delivered));
    assert IsJob(s.book, e) && ProgressOk(s, e.partition);
    ReceiveKeepsJobs(s.book, s.inFlight, s.store, e, s.inFlight[e].value);
    ReceiveChangesBook(s, e, delivered);
    ReceiveChanges(s, e, delivered);
    ReceiveKeepsProgress(s, t, e, s.inFlight[e].value);
    ReceiveKeepsQueue(s, t, e, s.inFlight[e].value);
  }

  lemma ReceiveChangesBook(s: System, e: LogEntry, delivered: bool)
    requires Enabled(s, Receive(e, delivered))
    ensures var t := Apply(s, Receive(e, delivered));
            && t.book == AfterReceive(s.book, e, s.inFlight[e].value).0 && t.inFlight == s.inFlight - {e}
            && t.store == s.store && t.phase.Top?
  {
  }

  lemma StepKeeps(s: System, a: Action)
    requires Inv(s) && Enabled(s, a)
    ensures Inv(Apply(s, a))
  {
    match a
    case Notify(n) => NotifyKeeps(s, n);
    case Send(chosen) => SendKeeps(s, chosen);
    case IngestNext(delivered) => IngestNextKeeps(s, delivered);
    case Work(e, stored, success) => WorkKeeps(s, e, stored, success);
    case Receive(e, delivered) => ReceiveKeeps(s, e, delivered);
    case Ingest => PhaseKeeps(s, Apply(s, a));
    case IngestDone => PhaseKeeps(s, Apply(s, a));
  }

  lemma PhaseKeeps(s: System, t: System)
    requires Inv(s) && t == s.(phase := t.phase, signalled := t.signalled) && !t.phase.Wait?
    ensures Inv(t)
  {
    QueueKept(s, t);
    forall p | p in t.book.parts ensures ProgressOk(t, p) {
      ProgressKept(s, t, p);
    }
  }
}
