/**
  The WAL entry archiver: its bookkeeping object, and every interleaving of its
  main loop with its workers, the log managers that send notifications and the
  acknowledgements they receive.
 */
module Archiver {
  import opened Options

  datatype Partition = Partition(storageName: string, id: nat)

  type LSN = nat

  datatype LogEntry = LogEntry(partition: Partition, lsn: LSN)

  datatype Notification = Notification(partition: Partition, low: LSN, high: LSN)

  datatype PartitionState = PartitionState(nextLSN: LSN, highWaterMark: LSN, hasJob: bool)

  /** The state of the main loop. */
  datatype Book = Book(
    parts: map<Partition, PartitionState>, active: set<Partition>, activeJobs: nat, workerCount: nat, waitDur: nat)

  const MIN_RETRY_WAIT: nat := 5_000_000_000
  const MAX_RETRY_WAIT: nat := 300_000_000_000

  function NewBook(workerCount: nat): Book {
    Book(map[], {}, 0, if workerCount < 1 then 1 else workerCount, MIN_RETRY_WAIT)
  }

  // ------------------------------------------------------------- the main loop's steps

  function WithJobs(parts: map<Partition, PartitionState>, chosen: set<Partition>): map<Partition, PartitionState> {
    map p | p in parts :: if p in chosen then parts[p].(hasJob := true) else parts[p]
  }

  /** sendEntries may hand out one job for each of `chosen`: active partitions without a
      job, as many as there are workers for. */
  predicate CanSend(b: Book, chosen: set<Partition>) {
    && (forall p :: p in chosen ==> p in b.active && p in b.parts && !b.parts[p].hasJob)
    && b.activeJobs + |chosen| <= b.workerCount
    && (b.activeJobs + |chosen| == b.workerCount
        || forall p :: p in b.active ==> p in chosen || (p in b.parts && b.parts[p].hasJob))
  }

  function AfterSend(b: Book, chosen: set<Partition>): Book {
    b.(parts := WithJobs(b.parts, chosen), activeJobs := b.activeJobs + |chosen|)
  }

  /** sendEntries has visited the active partitions outside `todo`: those of `chosen` got
      their job, the others had one. */
  ghost predicate HandedOut(before: map<Partition, PartitionState>, parts: map<Partition, PartitionState>,
                            active: set<Partition>, todo: set<Partition>, chosen: set<Partition>, sent: seq<LogEntry>) {
    && todo <= active && active <= before.Keys && chosen <= active - todo
    && (forall p :: p in active - todo ==> p in chosen || before[p].hasJob)
    && (forall p :: p in chosen ==> !before[p].hasJob)
    && parts == WithJobs(before, chosen) && |sent| == |chosen|
    && (forall e :: e in sent <==> e.partition in chosen && e.lsn == before[e.partition].nextLSN)
  }

  lemma HandOutOne(before: map<Partition, PartitionState>, parts: map<Partition, PartitionState>,
                   active: set<Partition>, todo: set<Partition>, chosen: set<Partition>, sent: seq<LogEntry>,
                   p: Partition)
    requires HandedOut(before, parts, active, todo, chosen, sent) && p in todo
    ensures p in parts && parts[p] == before[p]
    ensures if before[p].hasJob then HandedOut(before, parts, active, todo - {p}, chosen, sent)
            else HandedOut(before, parts[p := before[p].(hasJob := true)], active, todo - {p}, chosen + {p},
                           sent + [LogEntry(p, before[p].nextLSN)])
  {
    if !before[p].hasJob {
      assert parts[p := before[p].(hasJob := true)] == WithJobs(before, chosen + {p});
      assert |chosen + {p}| == |chosen| + 1;
    }
  }

  /** One notification: the new state, and the position to acknowledge again. */
  function AfterNotification(b: Book, n: Notification): (Book, Option<int>) {
    var st := if n.partition in b.parts then b.parts[n.partition] else PartitionState(n.low, n.high, false);
    if st.nextLSN > n.high then
      (b.(parts := b.parts[n.partition := st]), Some(st.nextLSN - 1))
    else
      var next := if st.nextLSN < n.low then n.low else st.nextLSN;
      (b.(parts := b.parts[n.partition := st.(nextLSN := next, highWaterMark := n.high)],
          active := b.active + {n.partition}), None)
  }

  datatype Ack = Ack(partition: Partition, position: int)

  /** All pending notifications, oldest first. */
  function AfterNotifications(b: Book, ns: seq<Notification>): (Book, seq<Ack>) {
    if ns == [] then (b, [])
    else
      var (b1, acks) := AfterNotifications(b, ns[..|ns| - 1]);
      var (b2, again) := AfterNotification(b1, ns[|ns| - 1]);
      (b2, if again.Some? then acks + [Ack(ns[|ns| - 1].partition, again.value)] else acks)
  }

  function Doubled(d: nat): nat {
    if 2 * d > MAX_RETRY_WAIT then MAX_RETRY_WAIT else 2 * d
  }

  function Halved(d: nat): nat {
    if d / 2 < MIN_RETRY_WAIT then MIN_RETRY_WAIT else d / 2
  }

  /** The result of a job: the new state, and the position to acknowledge. */
  function AfterReceive(b: Book, e: LogEntry, success: bool): (Book, Option<int>)
    requires e.partition in b.parts && b.activeJobs > 0
  {
    var st := b.parts[e.partition].(hasJob := false);
    var b1 := b.(activeJobs := b.activeJobs - 1);
    if !success then
      (b1.(parts := b.parts[e.partition := st], waitDur := Doubled(b.waitDur)), None)
    else
      var st1 := st.(nextLSN := st.nextLSN + 1);
      (b1.(parts := b.parts[e.partition := st1],
           active := if st1.nextLSN > st1.highWaterMark then b.active - {e.partition} else b.active,
           waitDur := Halved(b.waitDur)), Some(e.lsn))
  }

  /** The object; `store` and the log managers are outside. */
  class LogEntryArchiver {
    var notifications: seq<Notification>
    var signalled: bool
    var partitionStates: map<Partition, PartitionState>
    var activePartitions: set<Partition>
    var activeJobs: nat
    const workerCount: nat
    var waitDur: nat

    ghost function Value(): Book
      reads this
    {
      Book(partitionStates, activePartitions, activeJobs, workerCount, waitDur)
    }

    constructor (workerCount: nat)
      ensures Value() == NewBook(workerCount) && notifications == [] && !signalled
    {
      this.workerCount := if workerCount < 1 then 1 else workerCount;
      notifications, partitionStates, activePartitions, activeJobs := [], map[], {}, 0;
      waitDur, signalled := MIN_RETRY_WAIT, false;
    }

    /** The signal is set together with the push; one that is pending already is enough. */
    method NotifyNewEntries(n: Notification)
      modifies this`notifications, this`signalled
      ensures notifications == old(notifications) + [n] && signalled
    {
      notifications := notifications + [n];
      if !signalled {
        signalled := true;
      }
    }

    method SendEntries() returns (sent: seq<LogEntry>, ghost chosen: set<Partition>)
      requires activePartitions <= partitionStates.Keys && activeJobs <= workerCount
      modifies this`partitionStates, this`activeJobs
      ensures CanSend(old(Value()), chosen) && Value() == AfterSend(old(Value()), chosen)
      ensures forall e :: e in sent <==>
                            e.partition in chosen && e.lsn == old(partitionStates)[e.partition].nextLSN
      ensures |sent| == |chosen|
    {
      sent, chosen := [], {};
      assert WithJobs(partitionStates, {}) == partitionStates;
      var todo := activePartitions;
      while todo != {} && activeJobs != workerCount
        invariant HandedOut(old(partitionStates), partitionStates, activePartitions, todo, chosen, sent)
        invariant activeJobs == old(activeJobs) + |chosen| <= workerCount
        decreases |todo|
      {
        var p :| p in todo;
        var state := partitionStates[p];
        HandOutOne(old(partitionStates), partitionStates, activePartitions, todo, chosen, sent, p);
        todo := todo - {p};
        if !state.hasJob {
          partitionStates := partitionStates[p := state.(hasJob := true)];
          sent := sent + [LogEntry(p, state.nextLSN)];
          activeJobs := activeJobs + 1;
          chosen := chosen + {p};
        }
      }
    }

    method IngestNotifications() returns (acks: seq<Ack>)
      modifies this`notifications, this`partitionStates, this`activePartitions
      ensures (Value(), acks) == AfterNotifications(old(Value()), old(notifications)) && notifications == []
    {
      acks := [];
      ghost var done: nat := 0;
      while notifications != []
        invariant done <= |old(notifications)| && notifications == old(notifications)[done..]
        invariant (Value(), acks) == AfterNotifications(old(Value()), old(notifications)[..done])
        decreases |notifications|
      {
        ghost var before := Value();
        var n := notifications[0];
        notifications := notifications[1..];
        if n.partition !in partitionStates {
          partitionStates := partitionStates[n.partition := PartitionState(n.low, n.high, false)];
        }
        var state := partitionStates[n.partition];
        assert partitionStates == before.parts[n.partition := state];
        if state.nextLSN > n.high {
          acks := acks + [Ack(n.partition, state.nextLSN - 1)];
        } else {
          if state.nextLSN < n.low {
            state := state.(nextLSN := n.low);
          }
          partitionStates := partitionStates[n.partition := state.(highWaterMark := n.high)];
          assert partitionStates == before.parts[n.partition := state.(highWaterMark := n.high)];
          activePartitions := activePartitions + {n.partition};
        }
        assert Value() == AfterNotification(before, n).0;
        assert old(notifications)[..done + 1][..done] == old(notifications)[..done];
        done := done + 1;
      }
      assert old(notifications)[..done] == old(notifications);
    }

    /** The main loop has received the signal. */
    method NotificationSignalled() returns (acks: seq<Ack>)
      requires signalled
      modifies this`notifications, this`partitionStates, this`activePartitions, this`signalled
      ensures (Value(), acks) == AfterNotifications(old(Value()), old(notifications))
      ensures notifications == [] && !signalled
    {
      signalled := false;
      acks := IngestNotifications();
    }

    method ReceiveEntry(e: LogEntry, success: bool) returns (ack: Option<int>)
      requires e.partition in partitionStates && activeJobs > 0
      modifies this`partitionStates, this`activePartitions, this`activeJobs, this`waitDur
      ensures (Value(), ack) == AfterReceive(old(Value()), e, success)
    {
      activeJobs := activeJobs - 1;
      var state := partitionStates[e.partition].(hasJob := false);
      if !success {
        partitionStates := partitionStates[e.partition := state];
        waitDur := waitDur * 2;
        if waitDur > MAX_RETRY_WAIT {
          waitDur := MAX_RETRY_WAIT;
        }
        return None;
      }
      state := state.(nextLSN := state.nextLSN + 1);
      partitionStates := partitionStates[e.partition := state];
      if state.nextLSN > state.highWaterMark {
        activePartitions := activePartitions - {e.partition};
      }
      waitDur := waitDur / 2;
      if waitDur < MIN_RETRY_WAIT {
        waitDur := MIN_RETRY_WAIT;
      }
      return Some(e.lsn);
    }
  }
}
