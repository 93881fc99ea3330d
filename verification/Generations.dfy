/**
  What the finalizer of a mutator records: the generations of a repository's replicas,
  and the replication jobs for those that were left behind.  First the datastore, updated
  in place, then every interleaving of mutators on one repository.
 */
module Generations {
  import opened Options
  import opened Praefect

  /** The rows of one repository: its generation and that of each replica. */
  datatype Record = Record(generation: nat, replicas: map<Storage, nat>)

  datatype Job = Job(source: Storage, target: Storage)

  datatype FinalizerError =
    | NoFinalizerError | DatabaseFailed | RepositoryNotFound | WriteToOutdatedNodes | EnqueueFailed | ContextDone

  /** How the outside answers a finalizer: whether the statement on the generations goes
      through, which jobs can be enqueued, and whether the request's context is done. */
  datatype Outside = Outside(reachable: bool, enqueues: Storage -> bool, contextDone: bool)

  /** The storages that hold the latest generation. */
  function Consistent(rec: Record): set<Storage> {
    set x | x in rec.replicas && rec.replicas[x] == rec.generation
  }

  function Bumped(rec: Record, storages: set<Storage>): Record {
    Record(rec.generation + 1,
           map x | x in rec.replicas :: rec.replicas[x] + if x in storages * Consistent(rec) then 1 else 0)
  }

  function Members(s: seq<Storage>): set<Storage> {
    set x | x in s
  }

  function Targets(queue: set<Job>): set<Storage> {
    set j | j in queue :: j.target
  }

  function IncrementError(repository: Option<Record>, storages: set<Storage>, reachable: bool): FinalizerError {
    if !reachable then DatabaseFailed
    else if repository.None? then RepositoryNotFound
    else if Consistent(repository.value) * storages == {} then WriteToOutdatedNodes
    else NoFinalizerError
  }

  class RepositoryStore {
    var repository: Option<Record>
    var queue: set<Job>

    constructor (repository: Option<Record>)
      ensures this.repository == repository && queue == {}
    {
      this.repository, queue := repository, {};
    }

    /** One statement: of the named replicas those of the latest generation move on to the
        next, and with them the repository. */
    method IncrementGeneration(primary: Storage, secondaries: seq<Storage>, reachable: bool)
      returns (error: FinalizerError)
      modifies this`repository
      ensures error == IncrementError(old(repository), Members(secondaries) + {primary}, reachable)
      ensures repository == if error.NoFinalizerError?
                            then Some(Bumped(old(repository).value, Members(secondaries) + {primary}))
                            else old(repository)
    {
      if !reachable {
        return DatabaseFailed;
      }
      if repository.None? {
        return RepositoryNotFound;
      }
      var rec, named := repository.value, Members(secondaries + [primary]);
      assert named == Members(secondaries) + {primary};
      var toUpdate := set x | x in rec.replicas && rec.replicas[x] == rec.generation && x in named;
      if toUpdate == {} {
        assert Consistent(rec) * named == toUpdate;
        return WriteToOutdatedNodes;
      }
      var x :| x in toUpdate;
      assert x in Consistent(rec) * named;
      repository := Some(Record(rec.generation + 1,
                                map x | x in rec.replicas :: rec.replicas[x] + if x in toUpdate then 1 else 0));
      assert repository.value.replicas == Bumped(rec, named).replicas;
      return NoFinalizerError;
    }

    /** The finalizer of an update: the generations first, and only then the jobs. */
    method RequestFinalizer(primary: Storage, updated: seq<Storage>, outdated: seq<Storage>, outside: Outside)
      returns (error: FinalizerError)
      modifies this
      ensures (repository, queue, error)
              == AfterRequest(old(repository), old(queue), primary, updated, outdated, outside)
    {
      error := IncrementGeneration(primary, updated, outside.reachable);
      if !error.NoFinalizerError? {
        return;
      }
      var failed := false;
      for i := 0 to |outdated|
        invariant queue == old(queue) + Enqueued(primary, Members(outdated[..i]), outside.enqueues)
        invariant failed <==> exists x :: x in Members(outdated[..i]) && !outside.enqueues(x)
        invariant repository == Some(Bumped(old(repository).value, Members(updated) + {primary}))
      {
        assert outdated[..i + 1] == outdated[..i] + [outdated[i]];
        assert Members(outdated[..i + 1]) == Members(outdated[..i]) + {outdated[i]};
        if outside.enqueues(outdated[i]) {
          EnqueueOne(primary, Members(outdated[..i]), outdated[i], outside.enqueues);
          queue := queue + {Job(primary, outdated[i])};
        } else {
          EnqueueNone(primary, Members(outdated[..i]), outdated[i], outside.enqueues);
          failed := true;
        }
      }
      assert outdated[..|outdated|] == outdated;
      if failed {
        return EnqueueFailed;
      }
      return if outside.contextDone then ContextDone else NoFinalizerError;
    }

    /** The finalizer of a transaction, which records nothing if the primary is clean. */
    method TransactionFinalizer(route: Route, o: Outcome, errors: map<Storage, NodeError>, outside: Outside)
      returns (error: FinalizerError)
      modifies this
      ensures (repository, queue, error) == AfterTransaction(old(repository), old(queue), route, o, errors, outside)
    {
      var dirtied, updated, outdated := GetUpdatedAndOutdatedSecondaries(route, o, errors);
      if !dirtied {
        return NoFinalizerError;
      }
      error := RequestFinalizer(route.primary, updated, outdated, outside);
    }
  }

  // -------------------------------------------------------------- on values

  function Enqueued(primary: Storage, targets: set<Storage>, enqueues: Storage -> bool): set<Job> {
    set x | x in targets && enqueues(x) :: Job(primary, x)
  }

  lemma EnqueueOne(primary: Storage, targets: set<Storage>, x: Storage, enqueues: Storage -> bool)
    requires enqueues(x)
    ensures Enqueued(primary, targets + {x}, enqueues) == Enqueued(primary, targets, enqueues) + {Job(primary, x)}
  {
  }

  lemma EnqueueNone(primary: Storage, targets: set<Storage>, x: Storage, enqueues: Storage -> bool)
    requires !enqueues(x)
    ensures Enqueued(primary, targets + {x}, enqueues) == Enqueued(primary, targets, enqueues)
  {
  }

  function AfterRequest(repository: Option<Record>, queue: set<Job>, primary: Storage, updated: seq<Storage>,
                        outdated: seq<Storage>, outside: Outside): (Option<Record>, set<Job>, FinalizerError) {
    var error := IncrementError(repository, Members(updated) + {primary}, outside.reachable);
    if !error.NoFinalizerError? then (repository, queue, error)
    else
      (Some(Bumped(repository.value, Members(updated) + {primary})),
       queue + Enqueued(primary, Members(outdated), outside.enqueues),
       if exists x :: x in Members(outdated) && !outside.enqueues(x) then EnqueueFailed
       else if outside.contextDone then ContextDone else NoFinalizerError)
  }

  function AfterTransaction(repository: Option<Record>, queue: set<Job>, route: Route, o: Outcome,
                            errors: map<Storage, NodeError>, outside: Outside)
    : (Option<Record>, set<Job>, FinalizerError)
  {
    if !Dirtied(route.primary, o, errors) then (repository, queue, NoFinalizerError)
    else
      AfterRequest(repository, queue, route.primary, UpdatedOf(route, o, errors), OutdatedOf(route, o, errors), outside)
  }

  // ------------------------------------------------------------- mutators at once

  type WriteId = nat

  /** `applied` are the writes that each storage has carried out, `running` those under
      way with the view of the cluster that routed them, `recorded` those whose finalizer
      moved the generations, and `missed` the storages for which no job was enqueued. */
  datatype System = System(
    rec: Record, queue: set<Job>, storages: set<Storage>, applied: map<Storage, set<WriteId>>,
    running: map<WriteId, Cluster>, ended: set<WriteId>, recorded: set<WriteId>, missed: set<Storage>)

  datatype Action =
    | Begin(w: WriteId, c: Cluster)
    | Execute(w: WriteId, x: Storage)
    | Finish(w: WriteId, o: Outcome, errors: map<Storage, NodeError>, outside: Outside)

  function AppliedBy(s: System, x: Storage): set<WriteId> {
    if x in s.applied then s.applied[x] else {}
  }

  /** A mutator is routed by any view of the cluster, however old, that has the assigned
      storages.  It ends once the primary, if it may have changed, and every replica that
      counts as updated have carried it out. */
  predicate Enabled(s: System, a: Action) {
    match a
    case Begin(w, c) =>
      && w !in s.running && w !in s.ended
      && Refusal(c).None? && Members(c.assignments.value) == s.storages
    case Execute(w, x) => w in s.running
    case Finish(w, o, errors, _) =>
      && w in s.running && Refusal(s.running[w]).None?
      && var c := s.running[w];
      && (Dirtied(c.primary.value, o, errors) ==> w in AppliedBy(s, c.primary.value))
      && (forall x :: x in Updated(c, o, errors) ==> w in AppliedBy(s, x))
  }

  /** Whether the finalizer of a write moves the generations. */
  predicate Records(s: System, c: Cluster, o: Outcome, errors: map<Storage, NodeError>, outside: Outside)
    requires Refusal(c).None?
  {
    && Dirtied(c.primary.value, o, errors) && outside.reachable
    && Consistent(s.rec) * (Members(Updated(c, o, errors)) + {c.primary.value}) != {}
  }

  function Apply(s: System, a: Action): System
    requires Enabled(s, a)
  {
    match a
    case Begin(w, c) => s.(running := s.running[w := c])
    case Execute(w, x) => s.(applied := s.applied[x := AppliedBy(s, x) + {w}])
    case Finish(w, o, errors, outside) =>
      var c := s.running[w];
      var (rec, queue, _) := AfterTransaction(Some(s.rec), s.queue, RouteFor(c), o, errors, outside);
      var t := s.(rec := if rec.Some? then rec.value else s.rec, queue := queue,
                  running := s.running - {w}, ended := s.ended + {w});
      if Records(s, c, o, errors, outside)
      then t.(recorded := s.recorded + {w},
              missed := s.missed + set x | x in Members(Outdated(c, o, errors)) && !outside.enqueues(x))
      else t
  }

  /** No replica is ahead of its repository. */
  predicate RecordOk(rec: Record) {
    forall x :: x in rec.replicas ==> rec.replicas[x] <= rec.generation
  }

  /** A repository of whose assigned storages every one is consistent or has a job. */
  predicate CanStart(rec: Record, queue: set<Job>, storages: set<Storage>) {
    RecordOk(rec) && Consistent(rec) != {} && storages <= Consistent(rec) + Targets(queue)
  }

  function Start(rec: Record, queue: set<Job>, storages: set<Storage>): System {
    System(rec, queue, storages, map[], map[], {}, {}, {})
  }

  ghost predicate Legal(s: System, run: seq<Action>)
    decreases |run|, 0
  {
    run == [] || (Legal(s, run[..|run| - 1]) && Enabled(Exec(s, run[..|run| - 1]), run[|run| - 1]))
  }

  ghost function Exec(s: System, run: seq<Action>): System
    requires Legal(s, run)
    decreases |run|, 1
  {
    if run == [] then s else Apply(Exec(s, run[..|run| - 1]), run[|run| - 1])
  }

  ghost predicate Inv(s: System) {
    && RecordOk(s.rec) && Consistent(s.rec) != {}
    && (forall x :: x in Consistent(s.rec) ==> s.recorded <= AppliedBy(s, x))
    && s.storages <= Consistent(s.rec) + Targets(s.queue) + s.missed
    && s.recorded <= s.ended && s.ended !! s.running.Keys
    && (forall w :: w in s.running ==>
          Refusal(s.running[w]).None? && Members(s.running[w].assignments.value) == s.storages)
  }

  // ------------------------------------------------------- one step at a time

  lemma BumpedConsistent(rec: Record, storages: set<Storage>)
    requires RecordOk(rec)
    ensures RecordOk(Bumped(rec, storages)) && Consistent(Bumped(rec, storages)) == Consistent(rec) * storages
  {
  }

  /** Every assigned storage is the primary, or updated, or outdated. */
  lemma NoneUnclassified(c: Cluster, o: Outcome, errors: map<Storage, NodeError>, x: Storage)
    requires Refusal(c).None? && x in c.assignments.value
    ensures x == c.primary.value || x in Updated(c, o, errors) || x in Outdated(c, o, errors)
  {
    CountOf(c, o, errors, x);
    assert multiset(c.assignments.value)[x] > 0;
  }

  /** What a finalizer that moves the generations does. */
  lemma RecordingChanges(s: System, a: Action)
    requires Enabled(s, a) && a.Finish? && Records(s, s.running[a.w], a.o, a.errors, a.outside)
    ensures var c, t := s.running[a.w], Apply(s, a);
            && t.rec == Bumped(s.rec, Members(Updated(c, a.o, a.errors)) + {c.primary.value})
            && t.queue == s.queue + Enqueued(c.primary.value, Members(Outdated(c, a.o, a.errors)), a.outside.enqueues)
  {
  }

  lemma RecordingKeepsJobs(s: System, a: Action, x: Storage)
    requires Inv(s) && Enabled(s, a) && a.Finish? && Records(s, s.running[a.w], a.o, a.errors, a.outside)
    requires x in s.storages
    ensures var t := Apply(s, a); x in Consistent(t.rec) + Targets(t.queue) + t.missed
  {
    var c, t := s.running[a.w], Apply(s, a);
    var named := Members(Updated(c, a.o, a.errors)) + {c.primary.value};
    RecordingChanges(s, a);
    BumpedConsistent(s.rec, named);
    if x in Targets(s.queue) {
      var j :| j in s.queue && j.target == x;
      assert j in t.queue;
    } else if x in Consistent(s.rec) && x !in named {
      NoneUnclassified(c, a.o, a.errors, x);
      if a.outside.enqueues(x) {
        assert Job(c.primary.value, x) in t.queue;
      }
    }
  }

  lemma RecordingKeeps(s: System, a: Action)
    requires Inv(s) && Enabled(s, a) && a.Finish? && Records(s, s.running[a.w], a.o, a.errors, a.outside)
    ensures Inv(Apply(s, a))
  {
    var c, t := s.running[a.w], Apply(s, a);
    RecordingChanges(s, a);
    BumpedConsistent(s.rec, Members(Updated(c, a.o, a.errors)) + {c.primary.value});
    forall x | x in s.storages ensures x in Consistent(t.rec) + Targets(t.queue) + t.missed {
      RecordingKeepsJobs(s, a, x);
    }
  }

  lemma OtherChanges(s: System, a: Action)
    requires Enabled(s, a) && (a.Finish? ==> !Records(s, s.running[a.w], a.o, a.errors, a.outside))
    ensures var t := Apply(s, a);
            && t.rec == s.rec && t.queue == s.queue && t.recorded == s.recorded && t.missed == s.missed
            && t.storages == s.storages && forall x :: AppliedBy(s, x) <= AppliedBy(t, x)
  {
  }

  lemma StepKeeps(s: System, a: Action)
    requires Inv(s) && Enabled(s, a)
    ensures Inv(Apply(s, a))
  {
    if a.Finish? && Records(s, s.running[a.w], a.o, a.errors, a.outside) {
      RecordingKeeps(s, a);
    } else {
      OtherChanges(s, a);
    }
  }

  // ------------------------------------------------------------------ whole runs

  lemma {:induction false} RunKeepsInv(rec: Record, queue: set<Job>, storages: set<Storage>, run: seq<Action>)
    requires CanStart(rec, queue, storages) && Legal(Start(rec, queue, storages), run)
    ensures Inv(Exec(Start(rec, queue, storages), run))
    ensures Exec(Start(rec, queue, storages), run).storages == storages
  {
    if run != [] {
      var before := run[..|run| - 1];
      RunKeepsInv(rec, queue, storages, before);
      StepKeeps(Exec(Start(rec, queue, storages), before), run[|run| - 1]);
    }
  }

  /** However mutators overlap, whatever views of the cluster routed them, and whichever
      of their finalizers fail: every storage that counts as consistent has carried out
      every write that was recorded, at least one storage is consistent, and every
      assigned storage that is not has a replication job, or its enqueueing failed. */
  lemma {:induction false} ConsistentHasEveryWrite(rec: Record, queue: set<Job>, storages: set<Storage>,
                                                   run: seq<Action>)
    requires CanStart(rec, queue, storages) && Legal(Start(rec, queue, storages), run)
    ensures var s := Exec(Start(rec, queue, storages), run);
            && Consistent(s.rec) != {}
            && (forall x, w :: x in Consistent(s.rec) && w in s.recorded ==> w in AppliedBy(s, x))
            && (forall x :: x in storages ==>
                  x in Consistent(s.rec) || x in s.missed || exists j :: j in s.queue && j.target == x)
  {
    RunKeepsInv(rec, queue, storages, run);
    var s := Exec(Start(rec, queue, storages), run);
    forall x, w | x in Consistent(s.rec) && w in s.recorded ensures w in AppliedBy(s, x) {
      assert s.recorded <= AppliedBy(s, x);
    }
  }

  lemma RecordingCounts(s: System, a: Action)
    requires Enabled(s, a)
    ensures var t := Apply(s, a);
            if a.Finish? && Records(s, s.running[a.w], a.o, a.errors, a.outside)
            then t.rec.generation == s.rec.generation + 1 && t.recorded == s.recorded + {a.w}
            else t.rec.generation == s.rec.generation && t.recorded == s.recorded
  {
    if a.Finish? && Records(s, s.running[a.w], a.o, a.errors, a.outside) {
      RecordingChanges(s, a);
    } else {
      OtherChanges(s, a);
    }
  }

  /** The generation of the repository counts the recorded writes. */
  lemma {:induction false} GenerationCountsWrites(rec: Record, queue: set<Job>, storages: set<Storage>,
                                                  run: seq<Action>)
    requires CanStart(rec, queue, storages) && Legal(Start(rec, queue, storages), run)
    ensures var s := Exec(Start(rec, queue, storages), run); s.rec.generation == rec.generation + |s.recorded|
  {
    if run != [] {
      var before, a := run[..|run| - 1], run[|run| - 1];
      var s := Exec(Start(rec, queue, storages), before);
      GenerationCountsWrites(rec, queue, storages, before);
      RunKeepsInv(rec, queue, storages, before);
      RecordingCounts(s, a);
      assert a.Finish? ==> a.w !in s.recorded;
    }
  }

  /** The finalizer reports an error unless the generations have moved and every outdated
      replica has its job, or there was nothing to record. */
  lemma ErrorsAreReported(repository: Option<Record>, queue: set<Job>, route: Route, o: Outcome,
                          errors: map<Storage, NodeError>, outside: Outside)
    ensures var (rec, jobs, error) := AfterTransaction(repository, queue, route, o, errors, outside);
            error.NoFinalizerError? && Dirtied(route.primary, o, errors) ==>
              && repository.Some? && rec.Some? && rec.value.generation == repository.value.generation + 1
              && forall x :: x in OutdatedOf(route, o, errors) ==> Job(route.primary, x) in jobs
  {
    forall x | x in OutdatedOf(route, o, errors) ensures x in Members(OutdatedOf(route, o, errors)) {}
  }
}
