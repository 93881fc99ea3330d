/** What the archiver loses if a log manager reports an unexpected low water mark. */
module ArchiverLimits {
  import opened Options
  import opened Archiver
  import opened ArchiverSystem
  import opened ArchiverRuns

  /** A gap reported while a job is in flight moves the partition past that job, and its
      success then skips the oldest entry that the log manager still had. */
  lemma GapMovesPastJob(b: Book, n: Notification, e: LogEntry)
    requires IsJob(b, e) && b.activeJobs > 0 && n.partition == e.partition && e.lsn < n.low <= n.high
    ensures var b1 := AfterNotification(b, n).0;
            && e.partition in b1.parts && b1.activeJobs > 0
            && AfterReceive(b1, e, true).0.parts[e.partition].nextLSN == n.low + 1
  {
  }

  ghost predicate Reaches(workerCount: nat, run: seq<Action>, s: System) {
    Feasible(workerCount, run) && Exec(workerCount, run) == s
  }

  lemma ReachesStep(workerCount: nat, run: seq<Action>, s: System, a: Action, t: System)
    requires Reaches(workerCount, run, s) && Possible(s, a) && t == Apply(s, a)
    ensures Reaches(workerCount, run + [a], t)
  {
    assert (run + [a])[..|run|] == run;
  }

  /** `p` is the only partition, and nothing is queued. */
  ghost predicate Alone(s: System, p: Partition, phase: Phase, st: PartitionState) {
    && s.phase == phase && s.queue == [] && s.book.parts == map[p := st] && s.book.active == {p}
    && s.book.activeJobs == (if st.hasJob then 1 else 0) && s.book.workerCount >= 1
    && p in s.first && p in s.acked
  }

  /** The state after a notification was sent in the select and taken in. */
  function TakenIn(s: System, n: Notification): System
    requires s.phase.Wait? && s.queue == []
  {
    var t := Apply(Apply(s, Notify(n)), Ingest);
    Apply(Apply(t, IngestNext(true)), IngestDone)
  }

  lemma TakeIn(workerCount: nat, run: seq<Action>, s: System, n: Notification) returns (after: seq<Action>)
    requires Reaches(workerCount, run, s) && s.phase.Wait? && s.queue == []
    ensures Reaches(workerCount, after, TakenIn(s, n))
  {
    var s1 := Apply(s, Notify(n));
    var s2 := Apply(s1, Ingest);
    var s3 := Apply(s2, IngestNext(true));
    ReachesStep(workerCount, run, s, Notify(n), s1);
    after := run + [Notify(n)];
    ReachesStep(workerCount, after, s1, Ingest, s2);
    after := after + [Ingest];
    ReachesStep(workerCount, after, s2, IngestNext(true), s3);
    after := after + [IngestNext(true)];
    ReachesStep(workerCount, after, s3, IngestDone, Apply(s3, IngestDone));
    after := after + [IngestDone];
  }

  /** Handing out what there is to do for the only partition. */
  lemma SendAlone(s: System, p: Partition, st: PartitionState) returns (chosen: set<Partition>)
    requires Alone(s, p, Top, st)
    ensures Possible(s, Send(chosen))
    ensures var t := Apply(s, Send(chosen));
            && Alone(t, p, Wait, st.(hasJob := true)) && t.store == s.store && t.first == s.first
            && t.inFlight == if st.hasJob then s.inFlight else s.inFlight[LogEntry(p, st.nextLSN) := None]
  {
    chosen := if st.hasJob then {} else {p};
    assert WithJobs(s.book.parts, chosen) == map[p := st.(hasJob := true)];
    assert Jobs(s.book, chosen) == if st.hasJob then {} else {LogEntry(p, st.nextLSN)};
  }

  /** Work on the job `e` and its result. */
  function Succeeded(s: System, e: LogEntry): System
    requires s.phase.Wait? && e in s.inFlight && s.inFlight[e].None?
    requires e.partition in s.book.parts && s.book.activeJobs > 0
  {
    Apply(Apply(s, Work(e, true, true)), Receive(e, true))
  }

  lemma Succeed(workerCount: nat, run: seq<Action>, s: System, e: LogEntry) returns (after: seq<Action>)
    requires Reaches(workerCount, run, s)
    requires s.phase.Wait? && e in s.inFlight && s.inFlight[e].None?
    requires e.partition in s.book.parts && s.book.activeJobs > 0
    ensures Reaches(workerCount, after, Succeeded(s, e))
  {
    var s1 := Apply(s, Work(e, true, true));
    ReachesStep(workerCount, run, s, Work(e, true, true), s1);
    after := run + [Work(e, true, true)];
    ReachesStep(workerCount, after, s1, Receive(e, true), Apply(s1, Receive(e, true)));
    after := after + [Receive(e, true)];
  }

  lemma FirstTakenIn(s: System, p: Partition, low: LSN)
    requires s.phase.Wait? && s.queue == [] && s.book.parts == map[] && s.book.active == {}
    requires s.book.activeJobs == 0 && s.book.workerCount >= 1 && s.first == map[]
    ensures var t := TakenIn(s, Notification(p, low, low));
            && Alone(t, p, Top, PartitionState(low, low, false)) && t.store == s.store && t.inFlight == s.inFlight
            && t.first[p] == low
  {
  }

  lemma GapTakenIn(s: System, p: Partition, low: LSN, gap: LSN)
    requires Alone(s, p, Wait, PartitionState(low, low, true)) && low < gap
    ensures var t := TakenIn(s, Notification(p, gap, gap + 1));
            && Alone(t, p, Top, PartitionState(gap, gap + 1, true)) && t.store == s.store && t.inFlight == s.inFlight
            && t.first == s.first
  {
  }

  lemma AloneSucceeds(s: System, p: Partition, st: PartitionState, e: LogEntry)
    requires Alone(s, p, Wait, st) && st.hasJob && st.nextLSN < st.highWaterMark && e.partition == p
    requires s.inFlight == map[e := None]
    ensures var t := Succeeded(s, e);
            && Alone(t, p, Top, PartitionState(st.nextLSN + 1, st.highWaterMark, false))
            && t.store == s.store + {e} && t.inFlight == map[] && t.first == s.first
  {
  }

  /** The first half: `low` is in flight and the partition has moved on to `gap`. */
  lemma GapUnderJob(workerCount: nat, p: Partition, low: LSN, gap: LSN) returns (run: seq<Action>, s: System)
    requires low < gap
    ensures Reaches(workerCount, run, s) && Alone(s, p, Wait, PartitionState(gap, gap + 1, true))
    ensures s.inFlight == map[LogEntry(p, low) := None] && s.store == {} && s.first[p] == low
  {
    s := NewSystem(workerCount);
    ReachesStep(workerCount, [], s, Send({}), Apply(s, Send({})));
    run, s := [] + [Send({})], Apply(s, Send({}));
    run := TakeIn(workerCount, run, s, Notification(p, low, low));
    FirstTakenIn(s, p, low);
    s := TakenIn(s, Notification(p, low, low));
    var chosen := SendAlone(s, p, PartitionState(low, low, false));
    ReachesStep(workerCount, run, s, Send(chosen), Apply(s, Send(chosen)));
    run, s := run + [Send(chosen)], Apply(s, Send(chosen));
    run := TakeIn(workerCount, run, s, Notification(p, gap, gap + 1));
    GapTakenIn(s, p, low, gap);
    s := TakenIn(s, Notification(p, gap, gap + 1));
    chosen := SendAlone(s, p, PartitionState(gap, gap + 1, true));
    ReachesStep(workerCount, run, s, Send(chosen), Apply(s, Send(chosen)));
    run, s := run + [Send(chosen)], Apply(s, Send(chosen));
  }

  /** What the expectation is there for.  In a run from the start, a partition's first
      entry is `low`; a low water mark `gap` above it is reported while `low` is in flight
      and moves the partition past its job, whose success then skips `gap`.  Once the next
      entry has succeeded, the position on record is past `gap`, which the log manager
      still had and the store never got. */
  lemma GapUnderJobSkips(workerCount: nat, p: Partition, low: LSN, gap: LSN) returns (run: seq<Action>, s: System)
    requires low < gap
    ensures Reaches(workerCount, run, s)
    ensures p in s.first && s.first[p] == low && p in s.acked && s.acked[p] == gap + 1
    ensures LogEntry(p, gap) !in s.store
  {
    run, s := GapUnderJob(workerCount, p, low, gap);
    run := Succeed(workerCount, run, s, LogEntry(p, low));
    AloneSucceeds(s, p, PartitionState(gap, gap + 1, true), LogEntry(p, low));
    s := Succeeded(s, LogEntry(p, low));
    var chosen := SendAlone(s, p, PartitionState(gap + 1, gap + 1, false));
    ReachesStep(workerCount, run, s, Send(chosen), Apply(s, Send(chosen)));
    run, s := run + [Send(chosen)], Apply(s, Send(chosen));
    run := Succeed(workerCount, run, s, LogEntry(p, gap + 1));
    s := Succeeded(s, LogEntry(p, gap + 1));
  }
}
