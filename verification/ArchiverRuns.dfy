/** What holds in every run of the archiver. */
module ArchiverRuns {
  import opened Options
  import opened Archiver
  import opened ArchiverSystem
  import opened ArchiverSteps

  /** A run of the code, with any log managers. */
  ghost predicate Feasible(workerCount: nat, run: seq<Action>)
    decreases |run|, 0
  {
    run == []
    || (Feasible(workerCount, run[..|run| - 1]) && Possible(Exec(workerCount, run[..|run| - 1]), run[|run| - 1]))
  }

  ghost function Exec(workerCount: nat, run: seq<Action>): System
    requires Feasible(workerCount, run)
    decreases |run|, 1
  {
    if run == [] then NewSystem(workerCount) else Apply(Exec(workerCount, run[..|run| - 1]), run[|run| - 1])
  }

  /** The log managers report what is expected of them. */
  ghost predicate AllExpected(workerCount: nat, run: seq<Action>)
    requires Feasible(workerCount, run)
  {
    run == []
    || (&& AllExpected(workerCount, run[..|run| - 1])
        && (run[|run| - 1].Notify? ==> Expected(Exec(workerCount, run[..|run| - 1]), run[|run| - 1].n)))
  }

  ghost predicate Legal(workerCount: nat, run: seq<Action>) {
    Feasible(workerCount, run) && AllExpected(workerCount, run)
  }

  lemma {:induction false} RunKeepsInv(workerCount: nat, run: seq<Action>)
    requires Legal(workerCount, run)
    ensures Inv(Exec(workerCount, run))
  {
    if run == [] {
    } else {
      RunKeepsInv(workerCount, run[..|run| - 1]);
      StepKeeps(Exec(workerCount, run[..|run| - 1]), run[|run| - 1]);
    }
  }

  lemma StoreCovers(s: System, p: Partition)
    requires QueueOk(s) && AllProgressOk(s) && p in s.first
    ensures p in s.acked
    ensures forall lsn :: s.first[p] <= lsn <= s.acked[p] ==> LogEntry(p, lsn) in s.store
    ensures forall i :: 0 <= i < |Recorded(s, p)| ==> Recorded(s, p)[i] == s.first[p] + i
    ensures p in s.book.parts ==> s.book.parts[p].nextLSN == s.first[p] + |Recorded(s, p)|
  {
    if p in s.book.parts {
      assert ProgressOk(s, p);
      forall lsn | s.first[p] <= lsn <= s.acked[p] ensures LogEntry(p, lsn) in s.store {
        assert Recorded(s, p)[lsn - s.first[p]] == lsn;
      }
    }
  }

  /** In every run, whatever position a log manager has on record is backed by the store:
      every LSN from the partition's first low water mark up to it is there.  The
      successes of a partition come in order, one by one and without a gap, across any
      failures and retries. */
  lemma {:induction false} AcknowledgedIsArchived(workerCount: nat, run: seq<Action>, p: Partition)
    requires Legal(workerCount, run) && p in Exec(workerCount, run).first
    ensures var s := Exec(workerCount, run);
            && p in s.acked
            && (forall lsn :: s.first[p] <= lsn <= s.acked[p] ==> LogEntry(p, lsn) in s.store)
            && (forall i :: 0 <= i < |Recorded(s, p)| ==> Recorded(s, p)[i] == s.first[p] + i)
            && (p in s.book.parts ==> s.book.parts[p].nextLSN == s.first[p] + |Recorded(s, p)|)
  {
    RunKeepsInv(workerCount, run);
    StoreCovers(Exec(workerCount, run), p);
  }

  /** In every run the entry in flight of a partition is its next one, the jobs are
      counted and bounded by the workers, a partition is active exactly while it has
      entries left, and whenever the loop waits it has nothing more to hand out. */
  lemma {:induction false} SchedulerIsSound(workerCount: nat, run: seq<Action>)
    requires Legal(workerCount, run)
    ensures var s := Exec(workerCount, run);
            && (forall e :: e in s.inFlight <==> IsJob(s.book, e))
            && s.book.activeJobs == |s.inFlight.Keys| <= s.book.workerCount
            && (forall p :: p in s.book.active <==>
                              p in s.book.parts && s.book.parts[p].nextLSN <= s.book.parts[p].highWaterMark)
            && (s.phase.Wait? ==>
                  s.book.activeJobs == s.book.workerCount
                  || forall p :: p in s.book.active ==> LogEntry(p, s.book.parts[p].nextLSN) in s.inFlight)
            && MIN_RETRY_WAIT <= s.book.waitDur <= MAX_RETRY_WAIT
            && (forall e :: e in s.inFlight && s.inFlight[e].Some? && s.phase.Wait? ==>
                  Enabled(s, Receive(e, true)) && Enabled(s, Receive(e, false)))
  {
    var s := Exec(workerCount, run);
    RunKeepsInv(workerCount, run);
    forall p | s.phase.Wait? && s.book.activeJobs != s.book.workerCount && p in s.book.active
      ensures LogEntry(p, s.book.parts[p].nextLSN) in s.inFlight
    {
      assert IsJob(s.book, LogEntry(p, s.book.parts[p].nextLSN));
    }
    forall e | e in s.inFlight ensures |s.inFlight.Keys| > 0 {
      assert e in s.inFlight.Keys;
    }
  }

  /** A notification that is in the list while the loop is not taking them in has its
      signal on the channel. */
  predicate NoneStranded(s: System) {
    s.queue != [] && !s.phase.Ingesting? ==> s.signalled
  }

  lemma StepStrandsNone(s: System, a: Action)
    requires Enabled(s, a) && NoneStranded(s)
    ensures NoneStranded(Apply(s, a))
  {
  }

  /** In every run no notification is stranded, so whenever the loop waits while there is
      one it can go on to take it in. */
  lemma {:induction false} NoNotificationIsStranded(workerCount: nat, run: seq<Action>)
    requires Legal(workerCount, run)
    ensures var s := Exec(workerCount, run);
            && NoneStranded(s) && (s.queue != [] && s.phase.Wait? ==> Enabled(s, Ingest))
            && (s.queue != [] && s.phase.Ingesting? ==> Enabled(s, IngestNext(true)))
  {
    if run != [] {
      NoNotificationIsStranded(workerCount, run[..|run| - 1]);
      StepStrandsNone(Exec(workerCount, run[..|run| - 1]), run[|run| - 1]);
    }
  }

  // ------------------------------------------------------------------- the backlog

  function Left(st: PartitionState): nat {
    if st.nextLSN <= st.highWaterMark then st.highWaterMark - st.nextLSN + 1 else 0
  }

  /** The entries left to back up in the partitions of `ps`. */
  ghost function Backlog(parts: map<Partition, PartitionState>, ps: set<Partition>): nat
    requires ps <= parts.Keys
    decreases |ps|
  {
    if ps == {} then 0
    else
      var p :| p in ps;
      Left(parts[p]) + Backlog(parts, ps - {p})
  }

  lemma {:induction false} BacklogSplit(parts: map<Partition, PartitionState>, ps: set<Partition>, p: Partition)
    requires ps <= parts.Keys && p in ps
    ensures Backlog(parts, ps) == Left(parts[p]) + Backlog(parts, ps - {p})
    decreases |ps|
  {
    var q :| q in ps && Backlog(parts, ps) == Left(parts[q]) + Backlog(parts, ps - {q});
    if q != p {
      BacklogSplit(parts, ps - {q}, p);
      BacklogSplit(parts, ps - {p}, q);
      assert ps - {q} - {p} == ps - {p} - {q};
    }
  }

  lemma {:induction false} BacklogSame(a: map<Partition, PartitionState>, b: map<Partition, PartitionState>,
                                       ps: set<Partition>)
    requires ps <= a.Keys && ps <= b.Keys && forall p :: p in ps ==> Left(a[p]) == Left(b[p])
    ensures Backlog(a, ps) == Backlog(b, ps)
    decreases |ps|
  {
    if ps != {} {
      var p :| p in ps;
      BacklogSplit(a, ps, p);
      BacklogSplit(b, ps, p);
      BacklogSame(a, b, ps - {p});
    }
  }

  lemma BacklogAfterReceive(b: Book, e: LogEntry, success: bool)
    requires ActiveOk(b) && IsJob(b, e) && b.activeJobs > 0
    ensures var b' := AfterReceive(b, e, success).0;
            && b'.parts.Keys == b.parts.Keys
            && Backlog(b.parts, b.parts.Keys) == Backlog(b'.parts, b'.parts.Keys) + (if success then 1 else 0)
  {
    var b' := AfterReceive(b, e, success).0;
    BacklogSplit(b.parts, b.parts.Keys, e.partition);
    BacklogSplit(b'.parts, b.parts.Keys, e.partition);
    BacklogSame(b.parts, b'.parts, b.parts.Keys - {e.partition});
  }

  /** In every run, a job received as successful lowers the backlog by one, and one that
      failed leaves it. */
  lemma {:induction false} SuccessLowersBacklog(workerCount: nat, run: seq<Action>, e: LogEntry, delivered: bool)
    requires Legal(workerCount, run) && Enabled(Exec(workerCount, run), Receive(e, delivered))
    ensures var s := Exec(workerCount, run);
            var t := Apply(s, Receive(e, delivered));
            && t.book.parts.Keys == s.book.parts.Keys
            && Backlog(s.book.parts, s.book.parts.Keys) ==
               Backlog(t.book.parts, t.book.parts.Keys) + (if s.inFlight[e] == Some(true) then 1 else 0)
  {
    var s := Exec(workerCount, run);
    RunKeepsInv(workerCount, run);
    BacklogAfterReceive(s.book, e, s.inFlight[e].value);
  }
}
