/**
  Praefect's write path around a transaction: which of the assigned storages take part,
  and which of them count as updated afterwards.  What the datastore answers is a
  parameter; `None` stands for an error of that call.
 */
module Praefect {
  import opened Options
  import opened Subtransactions
  import opened SubtransactionRuns
  import opened TransactionRuns

  type Storage = string

  datatype Cluster = Cluster(
    connections: Option<set<Storage>>, healthy: seq<Storage>, repositoryFound: bool, additionalPathFound: bool,
    primary: Option<Storage>, consistent: Option<set<Storage>>, assignments: Option<seq<Storage>>)

  datatype Route = Route(primary: Storage, secondaries: seq<Storage>, replicationTargets: seq<Storage>)

  datatype RouteError =
    | VirtualStorageNotExist | NoConnection | NoHealthyNodes | LookupFailed
    | PrimaryNotHealthy | RepositoryReadOnly | PrimaryUnassigned

  datatype RouteResult = Routed(route: Route) | Refused(error: RouteError)

  function Filter(p: Storage -> bool, s: seq<Storage>): seq<Storage> {
    if s == [] then [] else Filter(p, s[..|s| - 1]) + if p(s[|s| - 1]) then [s[|s| - 1]] else []
  }

  lemma {:induction false} FilterHas(p: Storage -> bool, s: seq<Storage>, x: Storage)
    ensures x in Filter(p, s) <==> x in s && p(x)
    ensures multiset(Filter(p, s))[x] == if p(x) then multiset(s)[x] else 0
  {
    if s != [] {
      assert s == s[..|s| - 1] + [s[|s| - 1]];
      FilterHas(p, s[..|s| - 1], x);
    }
  }

  // ------------------------------------------------------------------ the route

  predicate TakesPart(c: Cluster, x: Storage) {
    && c.primary.Some? && c.consistent.Some?
    && x != c.primary.value && x in c.healthy && x in c.consistent.value
  }

  function HealthError(c: Cluster): Option<RouteError> {
    if c.connections.None? then Some(VirtualStorageNotExist)
    else if exists x :: x in c.healthy && x !in c.connections.value then Some(NoConnection)
    else if c.healthy == [] then Some(NoHealthyNodes)
    else None
  }

  /** Why a mutator is not routed, if it is not: its primary must be healthy, hold the
      latest generation and be assigned. */
  function Refusal(c: Cluster): Option<RouteError> {
    if HealthError(c).Some? then HealthError(c)
    else if !c.repositoryFound || !c.additionalPathFound || c.primary.None? then Some(LookupFailed)
    else if c.primary.value !in c.healthy then Some(PrimaryNotHealthy)
    else if c.consistent.None? then Some(LookupFailed)
    else if c.primary.value !in c.consistent.value then Some(RepositoryReadOnly)
    else if c.assignments.None? then Some(LookupFailed)
    else if c.primary.value !in c.assignments.value then Some(PrimaryUnassigned)
    else None
  }

  function RouteFor(c: Cluster): Route
    requires Refusal(c).None?
  {
    Route(c.primary.value, Filter(x => TakesPart(c, x), c.assignments.value),
          Filter(x => x != c.primary.value && !TakesPart(c, x), c.assignments.value))
  }

  method HealthyNodes(c: Cluster) returns (nodes: Option<seq<Storage>>, error: RouteError)
    ensures nodes == if HealthError(c).None? then Some(c.healthy) else None
    ensures HealthError(c).Some? ==> error == HealthError(c).value
  {
    error := NoConnection;
    if c.connections.None? {
      return None, VirtualStorageNotExist;
    }
    var healthy := [];
    for i := 0 to |c.healthy|
      invariant healthy == c.healthy[..i]
      invariant forall j :: 0 <= j < i ==> c.healthy[j] in c.connections.value
    {
      if c.healthy[i] !in c.connections.value {
        return None, NoConnection;
      }
      healthy := healthy + [c.healthy[i]];
    }
    assert healthy == c.healthy;
    if |healthy| == 0 {
      return None, NoHealthyNodes;
    }
    return Some(healthy), error;
  }

  method RouteRepositoryMutator(c: Cluster) returns (r: RouteResult)
    ensures r == if Refusal(c).None? then Routed(RouteFor(c)) else Refused(Refusal(c).value)
  {
    var nodes, error := HealthyNodes(c);
    if nodes.None? {
      return Refused(error);
    }
    if !c.repositoryFound || !c.additionalPathFound || c.primary.None? {
      return Refused(LookupFailed);
    }
    var primary := c.primary.value;
    var healthySet: set<Storage> := {};
    for i := 0 to |nodes.value|
      invariant healthySet == set j | 0 <= j < i :: nodes.value[j]
    {
      healthySet := healthySet + {nodes.value[i]};
    }
    if primary !in healthySet {
      return Refused(PrimaryNotHealthy);
    }
    if c.consistent.None? {
      return Refused(LookupFailed);
    }
    var consistent := c.consistent.value;
    if primary !in consistent {
      return Refused(RepositoryReadOnly);
    }
    if c.assignments.None? {
      return Refused(LookupFailed);
    }
    var assignments := c.assignments.value;
    var primaryAssigned, secondaries, targets := false, [], [];
    for i := 0 to |assignments|
      invariant primaryAssigned <==> primary in assignments[..i]
      invariant secondaries == Filter(x => TakesPart(c, x), assignments[..i])
      invariant targets == Filter(x => x != primary && !TakesPart(c, x), assignments[..i])
    {
      var x := assignments[i];
      assert assignments[..i + 1][..i] == assignments[..i];
      if x == primary {
        primaryAssigned := true;
        continue;
      }
      if x !in consistent || x !in healthySet {
        targets := targets + [x];
        continue;
      }
      secondaries := secondaries + [x];
    }
    assert assignments[..|assignments|] == assignments;
    if !primaryAssigned {
      return Refused(PrimaryUnassigned);
    }
    return Routed(Route(primary, secondaries, targets));
  }

  // ---------------------------------------------------- after the transaction

  /** What an RPC returned on a node; `Plain` errors carry no status. */
  datatype NodeError = NoError | Status(code: nat, message: string) | Plain

  /** What the transaction says of itself; its state may be unavailable. */
  datatype Outcome = Outcome(subtransactions: nat, voted: set<Storage>, state: Option<map<Storage, VoteResult>>)

  const OK_CODE := 0

  function ErrorOf(errors: map<Storage, NodeError>, x: Storage): NodeError {
    if x in errors then errors[x] else NoError
  }

  function StatusOf(e: NodeError): Option<(nat, string)> {
    match e
    case NoError => Some((OK_CODE, ""))
    case Status(code, message) => Some((code, message))
    case Plain => None
  }

  predicate EqualError(a: NodeError, b: NodeError) {
    StatusOf(a).Some? && StatusOf(a) == StatusOf(b)
  }

  predicate CommittedIn(o: Outcome, x: Storage) {
    o.state.Some? && x in o.state.value && o.state.value[x] == Committed
  }

  /** Whether the primary's replica may have changed. */
  predicate Dirtied(primary: Storage, o: Outcome, errors: map<Storage, NodeError>) {
    && !(o.subtransactions == 0 && ErrorOf(errors, primary) != NoError)
    && !(o.subtransactions == 1 && primary !in o.voted)
  }

  predicate UpToDate(primary: Storage, o: Outcome, errors: map<Storage, NodeError>, x: Storage) {
    && o.subtransactions > 0 && CommittedIn(o, primary) && CommittedIn(o, x)
    && EqualError(ErrorOf(errors, x), ErrorOf(errors, primary))
  }

  function UpdatedOf(route: Route, o: Outcome, errors: map<Storage, NodeError>): seq<Storage> {
    Filter(x => UpToDate(route.primary, o, errors, x), route.secondaries)
  }

  function OutdatedOf(route: Route, o: Outcome, errors: map<Storage, NodeError>): seq<Storage> {
    route.replicationTargets + Filter(x => !UpToDate(route.primary, o, errors, x), route.secondaries)
  }

  method GetUpdatedAndOutdatedSecondaries(route: Route, o: Outcome, errors: map<Storage, NodeError>)
    returns (primaryDirtied: bool, updated: seq<Storage>, outdated: seq<Storage>)
    ensures primaryDirtied <==> Dirtied(route.primary, o, errors)
    ensures !primaryDirtied ==> updated == [] && outdated == []
    ensures primaryDirtied ==> updated == UpdatedOf(route, o, errors) && outdated == OutdatedOf(route, o, errors)
  {
    updated, outdated := [], [];
    var primaryErr := ErrorOf(errors, route.primary);
    if o.subtransactions == 0 && primaryErr != NoError {
      return false, [], [];
    }
    if o.subtransactions == 1 && route.primary !in o.voted {
      return false, [], [];
    }
    primaryDirtied := true;
    outdated := route.replicationTargets;
    if o.subtransactions == 0 || o.state.None? || !CommittedIn(o, route.primary) {
      NoneUpToDate(route, o, errors, route.secondaries);
      outdated := outdated + route.secondaries;
      return;
    }
    var late := [];
    for i := 0 to |route.secondaries|
      invariant outdated == route.replicationTargets + late
      invariant updated == Filter(x => UpToDate(route.primary, o, errors, x), route.secondaries[..i])
      invariant late == Filter(x => !UpToDate(route.primary, o, errors, x), route.secondaries[..i])
    {
      var x := route.secondaries[i];
      assert route.secondaries[..i + 1][..i] == route.secondaries[..i];
      if !EqualError(ErrorOf(errors, x), primaryErr) {
        outdated, late := outdated + [x], late + [x];
        continue;
      }
      if !CommittedIn(o, x) {
        outdated, late := outdated + [x], late + [x];
        continue;
      }
      updated := updated + [x];
    }
    assert route.secondaries[..|route.secondaries|] == route.secondaries;
  }

  lemma {:induction false} NoneUpToDate(route: Route, o: Outcome, errors: map<Storage, NodeError>, s: seq<Storage>)
    requires o.subtransactions == 0 || !CommittedIn(o, route.primary)
    ensures Filter(x => UpToDate(route.primary, o, errors, x), s) == []
    ensures Filter(x => !UpToDate(route.primary, o, errors, x), s) == s
  {
    if s != [] {
      NoneUpToDate(route, o, errors, s[..|s| - 1]);
    }
  }

  // ------------------------------------------------------- the whole write path

  /** What the finalizer reports for the route of a cluster. */
  function Updated(c: Cluster, o: Outcome, errors: map<Storage, NodeError>): seq<Storage>
    requires Refusal(c).None?
  {
    UpdatedOf(RouteFor(c), o, errors)
  }

  function Outdated(c: Cluster, o: Outcome, errors: map<Storage, NodeError>): seq<Storage>
    requires Refusal(c).None?
  {
    OutdatedOf(RouteFor(c), o, errors)
  }

  method Finalize(c: Cluster, o: Outcome, errors: map<Storage, NodeError>)
    returns (r: Option<(bool, seq<Storage>, seq<Storage>)>)
    ensures r == if Refusal(c).Some? then None
                 else if Dirtied(c.primary.value, o, errors)
                 then Some((true, Updated(c, o, errors), Outdated(c, o, errors)))
                 else Some((false, [], []))
  {
    var route := RouteRepositoryMutator(c);
    if route.Refused? {
      return None;
    }
    var dirtied, updated, outdated := GetUpdatedAndOutdatedSecondaries(route.route, o, errors);
    return Some((dirtied, updated, outdated));
  }

  lemma CountOf(c: Cluster, o: Outcome, errors: map<Storage, NodeError>, x: Storage)
    requires Refusal(c).None?
    ensures var good := TakesPart(c, x) && UpToDate(c.primary.value, o, errors, x);
            var n := multiset(c.assignments.value)[x];
            && multiset(Updated(c, o, errors))[x] == (if good then n else 0)
            && multiset(Outdated(c, o, errors))[x] == (if good || x == c.primary.value then 0 else n)
  {
    var route := RouteFor(c);
    FilterHas(y => TakesPart(c, y), c.assignments.value, x);
    FilterHas(y => y != c.primary.value && !TakesPart(c, y), c.assignments.value, x);
    FilterHas(y => UpToDate(c.primary.value, o, errors, y), route.secondaries, x);
    FilterHas(y => !UpToDate(c.primary.value, o, errors, y), route.secondaries, x);
  }

  /** A replica counts as updated exactly when it is assigned and not the primary, was
      healthy and consistent before, committed together with the primary, and returned
      what the primary returned. */
  lemma UpdatedExactly(c: Cluster, o: Outcome, errors: map<Storage, NodeError>, x: Storage)
    requires Refusal(c).None?
    ensures x in Updated(c, o, errors) <==>
            && x in c.assignments.value && x != c.primary.value
            && x in c.healthy && x in c.consistent.value
            && o.subtransactions > 0 && CommittedIn(o, x) && CommittedIn(o, c.primary.value)
            && EqualError(ErrorOf(errors, x), ErrorOf(errors, c.primary.value))
  {
    CountOf(c, o, errors, x);
    assert x in Updated(c, o, errors) <==> multiset(Updated(c, o, errors))[x] > 0;
    assert x in c.assignments.value <==> multiset(c.assignments.value)[x] > 0;
  }

  /** The primary, the updated and the outdated replicas are the assigned storages, each
      in exactly one part. */
  lemma ReplicasArePartitioned(c: Cluster, o: Outcome, errors: map<Storage, NodeError>)
    requires Refusal(c).None? && (forall x :: multiset(c.assignments.value)[x] <= 1)
    ensures multiset{c.primary.value} + multiset(Updated(c, o, errors)) + multiset(Outdated(c, o, errors))
            == multiset(c.assignments.value)
  {
    var primary, all := c.primary.value, multiset(c.assignments.value);
    var parts := multiset{primary} + multiset(Updated(c, o, errors)) + multiset(Outdated(c, o, errors));
    assert primary in all;
    forall x ensures parts[x] == all[x] {
      CountOf(c, o, errors, x);
    }
  }

  // ------------------------------------------------- together with the transaction

  ghost function Names(voters: seq<Voter>): set<Storage> {
    set i | 0 <= i < |voters| :: voters[i].name
  }

  ghost function IndexOf(voters: seq<Voter>, x: Storage): (i: nat)
    requires x in Names(voters)
    ensures i < |voters| && voters[i].name == x
  {
    var i :| 0 <= i < |voters| && voters[i].name == x;
    i
  }

  function ResultBefore(state: TransactionRuns.Condition): VoteResult {
    match state
    case TransactionOpen => Undecided
    case TransactionCanceled => Canceled
    case TransactionStopped => Stopped
  }

  /** What the transaction says of itself: its state is that of its last subtransaction,
      and whether a node voted is looked up in its first. */
  ghost function OutcomeOf(tx: Tx): Outcome {
    if tx.subs == [] then Outcome(0, {}, Some(map x | x in Names(tx.voters) :: ResultBefore(tx.state)))
    else
      var first, last := tx.subs[0].voters, tx.subs[|tx.subs| - 1].voters;
      Outcome(|tx.subs|, set i | 0 <= i < |first| && first[i].vote.Some? :: first[i].name,
              Some(map x | x in Names(last) :: last[IndexOf(last, x)].result))
  }

  /** The voters of a route as registered, of whom some may have been canceled. */
  ghost predicate VotersOf(route: Route, voters: seq<Voter>) {
    CanStart(voters) && SameNames(voters, Registered(route.primary, route.secondaries))
  }

  lemma {:induction false} UpdatedIsCommitted(c: Cluster, errors: map<Storage, NodeError>, tx: Tx, x: Storage)
    returns (i: nat)
    requires Refusal(c).None? && VotersOf(RouteFor(c), tx.voters) && SubsOk(tx)
    requires x in Updated(c, OutcomeOf(tx), errors)
    ensures 0 < i < |tx.voters| && tx.voters[i].name == x && tx.voters[0].name == c.primary.value
    ensures tx.subs != [] && CommittedAt(tx, i, |tx.subs| - 1)
  {
    UpdatedExactly(c, OutcomeOf(tx), errors, x);
    i := IndexOf(tx.subs[|tx.subs| - 1].voters, x);
  }

  /** Whatever happened in the transaction of a route, every replica that is reported as
      updated has committed every one of its subtransactions, each time on the vote with
      which the primary committed it. */
  lemma {:induction false} UpdatedAgreeWithPrimary(c: Cluster, errors: map<Storage, NodeError>, voters: seq<Voter>,
                                                   run: seq<TxEvent>, x: Storage) returns (i: nat)
    requires Refusal(c).None? && VotersOf(RouteFor(c), voters) && TxLegal(voters, run)
    requires x in Updated(c, OutcomeOf(TxExec(voters, run)), errors)
    ensures 0 < i < |voters| && voters[i].name == x && voters[0].name == c.primary.value
    ensures var tx := TxExec(voters, run);
            && tx.subs != []
            && forall j :: 0 <= j < |tx.subs| ==>
                 && CommittedAt(tx, i, j) && CommittedAt(tx, 0, j)
                 && tx.subs[j].voters[0].vote.Some? && tx.subs[j].voters[i].vote == tx.subs[j].voters[0].vote
  {
    var tx := TxExec(voters, run);
    TxRunKeeps(voters, run);
    i := UpdatedIsCommitted(c, errors, tx, x);
    var k := |tx.subs| - 1;
    forall j | 0 <= j < |tx.subs|
      ensures CommittedAt(tx, i, j) && CommittedAt(tx, 0, j)
      ensures tx.subs[j].voters[0].vote.Some? && tx.subs[j].voters[i].vote == tx.subs[j].voters[0].vote
    {
      CommitsFollowAt(tx, i, k, j);
    }
  }

  /** Whatever happened in it, if the primary is reported as clean then no node has
      committed any subtransaction, so nothing is hidden. */
  lemma {:induction false} CleanPrimaryHidesNothing(c: Cluster, errors: map<Storage, NodeError>, voters: seq<Voter>,
                                                    run: seq<TxEvent>, i: nat, k: nat)
    requires Refusal(c).None? && VotersOf(RouteFor(c), voters) && TxLegal(voters, run)
    requires !Dirtied(c.primary.value, OutcomeOf(TxExec(voters, run)), errors)
    ensures !CommittedAt(TxExec(voters, run), i, k)
  {
    TxRunKeeps(voters, run);
    var tx := TxExec(voters, run);
    if CommittedAt(tx, i, k) {
      CommitsFollowAt(tx, i, k, 0);
    }
  }
}
