/**
  Every run of the archiver together with its workers and the log managers.  The
  log manager is expected never to report a low water mark above its last
  acknowledged position plus one; everything else is arbitrary: when notifications
  arrive, which jobs fail, whether a failed job left its entry in the store, and
  which acknowledgements get lost.
 */
module ArchiverSystem {
  import opened Options
  import opened Archiver

  /** The main loop is at its top, waiting in its select, or taking in notifications. */
  datatype Phase = Top | Wait | Ingesting

  /** `inFlight` maps an entry at a worker to its outcome, once there is one.  `first`
      is the first low water mark reported for a partition, `acked` the position its
      log manager has on record, `archived` the LSNs whose backup was received as
      successful, in order; `signalled` says that a signal is on the notification channel. */
  datatype System = System(
    book: Book, phase: Phase, queue: seq<Notification>, inFlight: map<LogEntry, Option<bool>>,
    store: set<LogEntry>, first: map<Partition, LSN>, acked: map<Partition, int>,
    archived: map<Partition, seq<LSN>>, signalled: bool)

  datatype Action =
    | Notify(n: Notification)
    | Send(chosen: set<Partition>)
    | Ingest
    | IngestNext(delivered: bool)
    | IngestDone
    | Work(e: LogEntry, stored: bool, success: bool)
    | Receive(e: LogEntry, delivered: bool)

  function NewSystem(workerCount: nat): System {
    System(NewBook(workerCount), Top, [], map[], {}, map[], map[], map[], false)
  }

  /** Whether the code can take the step, whatever the log managers report. */
  predicate Possible(s: System, a: Action) {
    match a
    case Notify(_) => true
    case Send(chosen) => s.phase != Ingesting && CanSend(s.book, chosen)
    case Ingest => s.phase.Wait? && s.signalled
    case IngestNext(_) => s.phase.Ingesting? && s.queue != []
    case IngestDone => s.phase.Ingesting? && s.queue == []
    case Work(e, stored, success) => e in s.inFlight && s.inFlight[e].None? && (success ==> stored || e in s.store)
    case Receive(e, _) => s.phase.Wait? && e in s.inFlight && s.inFlight[e].Some?
                          && e.partition in s.book.parts && s.book.activeJobs > 0
  }

  /** A log manager is expected to keep what it has not seen acknowledged: the low water
      mark it reports is at most one past the position it has on record. */
  predicate Expected(s: System, n: Notification) {
    n.partition in s.first ==> n.partition in s.acked && n.low <= s.acked[n.partition] + 1
  }

  predicate Enabled(s: System, a: Action) {
    Possible(s, a) && (a.Notify? ==> Expected(s, a.n))
  }

  function Jobs(b: Book, chosen: set<Partition>): set<LogEntry> {
    set p | p in chosen && p in b.parts :: LogEntry(p, b.parts[p].nextLSN)
  }

  /** The entries of `jobs` go to workers. */
  function Started(inFlight: map<LogEntry, Option<bool>>, jobs: set<LogEntry>): map<LogEntry, Option<bool>> {
    map e | e in inFlight.Keys + jobs :: if e in jobs then None else inFlight[e]
  }

  /** AcknowledgePosition, unless the call fails. */
  function Acknowledge(s: System, p: Partition, position: Option<int>, delivered: bool): System {
    if delivered && position.Some? then s.(acked := s.acked[p := position.value]) else s
  }

  function Recorded(s: System, p: Partition): seq<LSN> {
    if p in s.archived then s.archived[p] else []
  }

  function Apply(s: System, a: Action): System
    requires Possible(s, a)
  {
    match a
    case Notify(n) =>
      var s1 := s.(queue := s.queue + [n], signalled := true);
      if n.partition in s.first then s1
      else s1.(first := s.first[n.partition := n.low], acked := s.acked[n.partition := n.low - 1])
    case Send(chosen) =>
      // from the top of the loop to its select, or from the select back to the top
      s.(book := AfterSend(s.book, chosen), phase := if s.phase.Top? then Wait else Top,
         inFlight := Started(s.inFlight, Jobs(s.book, chosen)))
    case Ingest => s.(phase := Ingesting, signalled := false)
    case IngestNext(delivered) =>
      var n := s.queue[0];
      var (b, again) := AfterNotification(s.book, n);
      Acknowledge(s.(book := b, queue := s.queue[1..]), n.partition, again, delivered)
    case IngestDone => s.(phase := Top)
    case Work(e, stored, success) =>
      s.(inFlight := s.inFlight[e := Some(success)], store := if stored then s.store + {e} else s.store)
    case Receive(e, delivered) =>
      var success := s.inFlight[e].value;
      var (b, ack) := AfterReceive(s.book, e, success);
      var s1 := s.(book := b, phase := Top, inFlight := s.inFlight - {e},
                   archived := if success then s.archived[e.partition := Recorded(s, e.partition) + [e.lsn]]
                               else s.archived);
      Acknowledge(s1, e.partition, ack, delivered)
  }

  // ---------------------------------------------------------------- the invariant

  /** Each partition with a job has exactly its next entry in flight, and the jobs are
      counted. */
  ghost predicate JobsOk(b: Book, inFlight: map<LogEntry, Option<bool>>, store: set<LogEntry>) {
    && (forall e :: e in inFlight <==> IsJob(b, e))
    && b.activeJobs == |inFlight.Keys| <= b.workerCount
    && (forall e :: e in inFlight && inFlight[e] == Some(true) ==> e in store)
  }

  predicate IsJob(b: Book, e: LogEntry) {
    e.partition in b.parts && b.parts[e.partition].hasJob && e.lsn == b.parts[e.partition].nextLSN
  }

  /** A partition is active exactly while it has entries to back up, and only active
      ones have jobs. */
  ghost predicate ActiveOk(b: Book) {
    && (forall p :: p in b.active <==> p in b.parts && b.parts[p].nextLSN <= b.parts[p].highWaterMark)
    && (forall p :: p in b.parts && b.parts[p].hasJob ==> p in b.active)
    && MIN_RETRY_WAIT <= b.waitDur <= MAX_RETRY_WAIT
  }

  /** What was archived of a partition is everything from its first low water mark up to
      its next LSN, in order. */
  ghost predicate ProgressOk(s: System, p: Partition) {
    && p in s.first && p in s.acked && p in s.book.parts
    && var st := s.book.parts[p];
    && s.first[p] + |Recorded(s, p)| == st.nextLSN
    && (forall i :: 0 <= i < |Recorded(s, p)| ==>
                      Recorded(s, p)[i] == s.first[p] + i && LogEntry(p, s.first[p] + i) in s.store)
    && s.acked[p] < st.nextLSN
  }

  ghost predicate AllProgressOk(s: System) {
    forall p :: p in s.book.parts ==> ProgressOk(s, p)
  }

  /** The first notification in the queue for a partition not seen yet. */
  ghost predicate FirstInQueue(s: System, p: Partition) {
    p in s.first &&
    exists i :: 0 <= i < |s.queue| && s.queue[i].partition == p && s.queue[i].low == s.first[p]
                && forall j :: 0 <= j < i ==> s.queue[j].partition != p
  }

  ghost predicate QueueOk(s: System) {
    && s.first.Keys == s.acked.Keys
    && (forall i :: 0 <= i < |s.queue| ==>
                      s.queue[i].partition in s.acked
                      && s.queue[i].low <= s.acked[s.queue[i].partition] + 1)
    && (forall p :: p in s.first && p !in s.book.parts ==>
                      p !in s.archived && s.acked[p] + 1 == s.first[p] && FirstInQueue(s, p))
  }

  /** In the select, either all workers are busy or every active partition has a job. */
  ghost predicate WaitOk(s: System) {
    s.phase.Wait? ==> s.book.activeJobs == s.book.workerCount
                      || forall p :: p in s.book.active ==> p in s.book.parts && s.book.parts[p].hasJob
  }

  ghost predicate Inv(s: System) {
    && JobsOk(s.book, s.inFlight, s.store) && ActiveOk(s.book) && QueueOk(s) && WaitOk(s)
    && AllProgressOk(s)
    && (forall p :: p in s.archived ==> p in s.book.parts)
  }
}
