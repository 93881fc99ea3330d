/**
  Whole transactions: a sequence of subtransactions that every node has to go through.  A
  vote takes two critical sections, the choice of the subtransaction under the lock of the
  transaction and the vote under that of the subtransaction; nodes are canceled, and
  subtransactions closed, at any time in between.
 */
module TransactionRuns {
  import opened Options
  import opened Subtransactions
  import opened SubtransactionRuns

  datatype Condition = TransactionOpen | TransactionCanceled | TransactionStopped

  /** `voters` are those registered; `chosen` are the calls of vote, as voter and
      subtransaction, that have yet to cast their vote. */
  datatype Tx = Tx(voters: seq<Voter>, state: Condition, subs: seq<Sub>, chosen: set<(nat, nat)>)

  datatype Lookup = Pending(k: nat) | AllCommitted | NodeRefused

  /** getPendingNodeSubtransactions: the first one, from `k` on, that voter `i` has not
      decided, if it has committed those before. */
  function FirstPending(subs: seq<Sub>, i: nat, k: nat): Lookup
    requires k <= |subs|
    decreases |subs| - k
  {
    if k == |subs| then AllCommitted
    else if i >= |subs[k].voters| then NodeRefused
    else match subs[k].voters[i].result
      case Undecided => Pending(k)
      case Committed => FirstPending(subs, i, k + 1)
      case _ => NodeRefused
  }

  /** createSubtransaction: whoever was canceled in the last one stays so. */
  function Propagated(tx: Tx): seq<Voter> {
    if tx.subs == [] then tx.voters else
    var last := tx.subs[|tx.subs| - 1].voters;
    seq(|tx.voters|, i requires 0 <= i < |tx.voters| =>
      if i < |last| && last[i].result.Canceled? then tx.voters[i].(result := Canceled) else tx.voters[i])
  }

  function NewSub(tx: Tx): Sub {
    Sub(if tx.voters == [] then 0 else Threshold(|tx.voters| - 1), Propagated(tx), map[], false)
  }

  datatype TxEvent =
    | Choose(i: nat)                      // getOrCreateSubtransaction
    | VoteOn(i: nat, k: nat, vote: Vote)  // subtransaction.vote
    | LeaveSub(i: nat, k: nat)            // a canceled wait, or a step of cancelNodeVoter
    | CreateForCancel(i: nat)             // cancelNodeVoter, when nothing is pending
    | CancelSub(k: nat)                   // a step of cancel
    | StopSub(k: nat)                     // a step of stop
    | Finish(state: Condition)            // the end of cancel or stop

  predicate TxEnabled(tx: Tx, e: TxEvent) {
    match e
    case Choose(i) => i < |tx.voters|
    case VoteOn(i, k, _) => (i, k) in tx.chosen && k < |tx.subs| && i < |tx.subs[k].voters|
    case LeaveSub(i, k) => k < |tx.subs| && i < |tx.subs[k].voters|
    case CreateForCancel(i) => i < |tx.voters| && FirstPending(tx.subs, i, 0) == AllCommitted
    case CancelSub(k) => k < |tx.subs|
    case StopSub(k) => k < |tx.subs|
    case Finish(_) => true
  }

  ghost function TxStep(tx: Tx, e: TxEvent): Tx
    requires TxEnabled(tx, e)
  {
    match e
    case Choose(i) =>
      if tx.state != TransactionOpen then tx else
      (match FirstPending(tx.subs, i, 0)
       case Pending(k) => tx.(chosen := tx.chosen + {(i, k)})
       case AllCommitted => tx.(subs := tx.subs + [NewSub(tx)], chosen := tx.chosen + {(i, |tx.subs|)})
       case NodeRefused => tx)
    case VoteOn(i, k, v) => tx.(subs := tx.subs[k := AfterVote(tx.subs[k], i, v)], chosen := tx.chosen - {(i, k)})
    case LeaveSub(i, k) => tx.(subs := tx.subs[k := AfterLeave(tx.subs[k], i)])
    case CreateForCancel(_) => tx.(subs := tx.subs + [NewSub(tx)])
    case CancelSub(k) => tx.(subs := tx.subs[k := Closed(tx.subs[k], Canceled)])
    case StopSub(k) => tx.(subs := tx.subs[k := AfterStop(tx.subs[k])])
    case Finish(state) => tx.(state := state)
  }

  // ------------------------------------------------------------- the invariant

  predicate CommittedAt(tx: Tx, i: nat, k: nat) {
    k < |tx.subs| && i < |tx.subs[k].voters| && tx.subs[k].voters[i].result.Committed?
  }

  ghost predicate CommittedBefore(tx: Tx, i: nat, k: nat) {
    forall j :: 0 <= j < k ==> CommittedAt(tx, i, j)
  }

  /** A subtransaction on the registered weights. */
  ghost predicate Registry(s: Sub, n: nat) {
    n >= 1 && Inv(s) && s.threshold == Threshold(n - 1) && |s.voters| == n && Weighted(s.voters)
  }

  ghost predicate SubsOk(tx: Tx) {
    && CanStart(tx.voters)
    && (forall k :: 0 <= k < |tx.subs| ==> Registry(tx.subs[k], |tx.voters|) && SameNames(tx.subs[k].voters, tx.voters))
  }

  ghost predicate SameNames(s: seq<Voter>, t: seq<Voter>) {
    |s| == |t| && forall i :: 0 <= i < |s| ==> s[i].name == t[i].name
  }

  /** Whoever is about to vote, or has voted, has committed everything before. */
  ghost predicate InOrder(tx: Tx) {
    && (forall i, k :: (i, k) in tx.chosen ==> k < |tx.subs| && CommittedBefore(tx, i, k))
    && (forall i, k :: 0 <= k < |tx.subs| && 0 <= i < |tx.subs[k].voters| && tx.subs[k].voters[i].vote.Some? ==>
          CommittedBefore(tx, i, k))
  }

  lemma {:induction false} FirstPendingFollows(tx: Tx, i: nat, k: nat)
    requires k <= |tx.subs| && CommittedBefore(tx, i, k)
    ensures match FirstPending(tx.subs, i, k)
            case Pending(m) => m < |tx.subs| && CommittedBefore(tx, i, m)
            case AllCommitted => CommittedBefore(tx, i, |tx.subs|)
            case NodeRefused => true
    decreases |tx.subs| - k
  {
    if k < |tx.subs| && CommittedAt(tx, i, k) {
      FirstPendingFollows(tx, i, k + 1);
    }
  }

  lemma NewSubOk(tx: Tx)
    requires CanStart(tx.voters)
    ensures Registry(NewSub(tx), |tx.voters|) && SameNames(NewSub(tx).voters, tx.voters)
    ensures forall i :: 0 <= i < |tx.voters| ==> NewSub(tx).voters[i].vote.None?
  {
    StartKeeps(Propagated(tx));
  }

  /** What a step of one subtransaction leaves: results that were given, and of the votes
      only the actor's own can be new. */
  ghost predicate SubFrame(s: Sub, t: Sub, actor: nat) {
    && SameNames(t.voters, s.voters)
    && (forall i :: 0 <= i < |s.voters| && s.voters[i].result.Committed? ==> t.voters[i].result.Committed?)
    && (forall i :: 0 <= i < |s.voters| && i != actor && t.voters[i].vote.Some? ==> s.voters[i].vote.Some?)
  }

  lemma VoteFrame(s: Sub, i: nat, v: Vote)
    requires i < |s.voters|
    ensures SubFrame(s, AfterVote(s, i, v), i)
  {
  }

  lemma OtherFrame(s: Sub, e: SubtransactionRuns.Event, actor: nat)
    requires !e.CastVote?
    ensures SubFrame(s, SubtransactionRuns.Step(s, e), actor)
    ensures forall i :: 0 <= i < |s.voters| && SubtransactionRuns.Step(s, e).voters[i].vote.Some? ==>
                          s.voters[i].vote.Some?
  {
  }

  lemma CommittedStays(tx: Tx, t: Tx, k: nat, actor: nat, i: nat, m: nat)
    requires k < |tx.subs| && |t.subs| >= |tx.subs| && CommittedBefore(tx, i, m)
    requires forall j :: 0 <= j < |tx.subs| && j != k ==> t.subs[j] == tx.subs[j]
    requires SubFrame(tx.subs[k], t.subs[k], actor)
    ensures CommittedBefore(t, i, m)
  {
    forall j | 0 <= j < m ensures CommittedAt(t, i, j) {
      assert CommittedAt(tx, i, j);
    }
  }

  /** A step of subtransaction `k`. */
  lemma SubStepKeeps(tx: Tx, t: Tx, k: nat, actor: nat)
    requires SubsOk(tx) && InOrder(tx) && k < |tx.subs| && t.voters == tx.voters && t.chosen <= tx.chosen
    requires |t.subs| == |tx.subs| && forall j :: 0 <= j < |tx.subs| && j != k ==> t.subs[j] == tx.subs[j]
    requires SubFrame(tx.subs[k], t.subs[k], actor) && Registry(t.subs[k], |tx.voters|)
    requires actor < |tx.subs[k].voters| && t.subs[k].voters[actor].vote.Some? ==>
               (actor, k) in tx.chosen || tx.subs[k].voters[actor].vote.Some?
    ensures SubsOk(t) && InOrder(t)
  {
    forall i, m | (i, m) in t.chosen ensures m < |t.subs| && CommittedBefore(t, i, m) {
      CommittedStays(tx, t, k, actor, i, m);
    }
    forall i, m | 0 <= m < |t.subs| && 0 <= i < |t.subs[m].voters| && t.subs[m].voters[i].vote.Some?
      ensures CommittedBefore(t, i, m)
    {
      assert CommittedBefore(tx, i, m);
      CommittedStays(tx, t, k, actor, i, m);
    }
  }

  /** A new subtransaction, which voter `i` may go on to vote on. */
  lemma AppendKeeps(tx: Tx, t: Tx, i: nat)
    requires SubsOk(tx) && InOrder(tx) && t.voters == tx.voters && t.subs == tx.subs + [NewSub(tx)]
    requires t.chosen <= tx.chosen + {(i, |tx.subs|)}
    requires (i, |tx.subs|) in t.chosen ==> CommittedBefore(tx, i, |tx.subs|)
    ensures SubsOk(t) && InOrder(t)
  {
    NewSubOk(tx);
    forall x, m | (x, m) in t.chosen ensures m < |t.subs| && CommittedBefore(t, x, m) {
      assert CommittedBefore(tx, x, m);
      AppendStays(tx, t, x, m);
    }
    forall x, m | 0 <= m < |t.subs| && 0 <= x < |t.subs[m].voters| && t.subs[m].voters[x].vote.Some?
      ensures CommittedBefore(t, x, m)
    {
      assert CommittedBefore(tx, x, m);
      AppendStays(tx, t, x, m);
    }
  }

  lemma AppendStays(tx: Tx, t: Tx, i: nat, m: nat)
    requires m <= |tx.subs| <= |t.subs| && t.subs[..|tx.subs|] == tx.subs && CommittedBefore(tx, i, m)
    ensures CommittedBefore(t, i, m)
  {
    forall j | 0 <= j < m ensures CommittedAt(t, i, j) {
      assert CommittedAt(tx, i, j) && t.subs[..|tx.subs|][j] == t.subs[j];
    }
  }

  lemma ChooseKeeps(tx: Tx, i: nat)
    requires SubsOk(tx) && InOrder(tx) && i < |tx.voters|
    ensures SubsOk(TxStep(tx, Choose(i))) && InOrder(TxStep(tx, Choose(i)))
  {
    FirstPendingFollows(tx, i, 0);
    var t := TxStep(tx, Choose(i));
    if FirstPending(tx.subs, i, 0).AllCommitted? && tx.state == TransactionOpen {
      AppendKeeps(tx, t, i);
    } else {
      assert forall x, m :: CommittedBefore(tx, x, m) ==> CommittedBefore(t, x, m) by {
        assert t.subs == tx.subs;
        assert forall x, m :: CommittedAt(tx, x, m) ==> CommittedAt(t, x, m);
      }
    }
  }

  lemma VoteOnKeeps(tx: Tx, i: nat, k: nat, v: Vote)
    requires SubsOk(tx) && InOrder(tx) && TxEnabled(tx, VoteOn(i, k, v))
    ensures SubsOk(TxStep(tx, VoteOn(i, k, v))) && InOrder(TxStep(tx, VoteOn(i, k, v)))
  {
    StepKeepsRegistry(tx.subs[k], CastVote(i, v), |tx.voters|);
    VoteFrame(tx.subs[k], i, v);
    SubStepKeeps(tx, TxStep(tx, VoteOn(i, k, v)), k, i);
  }

  lemma SubEventKeeps(tx: Tx, t: Tx, k: nat, e: Event)
    requires SubsOk(tx) && InOrder(tx) && k < |tx.subs| && !e.CastVote?
    requires t == tx.(subs := tx.subs[k := Step(tx.subs[k], e)])
    ensures SubsOk(t) && InOrder(t)
  {
    StepKeepsRegistry(tx.subs[k], e, |tx.voters|);
    OtherFrame(tx.subs[k], e, 0);
    SubStepKeeps(tx, t, k, 0);
  }

  lemma StepKeepsRegistry(s: Sub, e: Event, n: nat)
    requires Registry(s, n)
    ensures Registry(Step(s, e), n)
  {
    StepKeepsVoters(s, e);
    match e
    case CastVote(i, v) => if i < |s.voters| { VoteKeeps(s, i, v); }
    case Leave(i) => if i < |s.voters| { LeaveKeeps(s, i); }
    case Cancel => CloseKeeps(s, Canceled);
    case Stop => CloseKeeps(s, Stopped);
  }

  lemma TxStepKeeps(tx: Tx, e: TxEvent)
    requires SubsOk(tx) && InOrder(tx) && TxEnabled(tx, e)
    ensures SubsOk(TxStep(tx, e)) && InOrder(TxStep(tx, e))
  {
    var t := TxStep(tx, e);
    match e
    case Choose(i) => ChooseKeeps(tx, i);
    case VoteOn(i, k, v) => VoteOnKeeps(tx, i, k, v);
    case LeaveSub(i, k) => SubEventKeeps(tx, t, k, Leave(i));
    case CancelSub(k) => SubEventKeeps(tx, t, k, Cancel);
    case StopSub(k) => SubEventKeeps(tx, t, k, Stop);
    case CreateForCancel(i) => AppendKeeps(tx, t, 0);
    case Finish(_) => AppendNothing(tx, t);
  }

  lemma AppendNothing(tx: Tx, t: Tx)
    requires SubsOk(tx) && InOrder(tx) && t == tx.(state := t.state)
    ensures SubsOk(t) && InOrder(t)
  {
    assert forall x, m :: CommittedAt(tx, x, m) ==> CommittedAt(t, x, m);
    assert forall x, m :: CommittedBefore(tx, x, m) ==> CommittedBefore(t, x, m);
  }

  // -------------------------------------------------------------- whole runs

  ghost predicate TxLegal(voters: seq<Voter>, run: seq<TxEvent>)
    decreases |run|, 0
  {
    run == [] || (TxLegal(voters, run[..|run| - 1]) && TxEnabled(TxExec(voters, run[..|run| - 1]), run[|run| - 1]))
  }

  ghost function TxExec(voters: seq<Voter>, run: seq<TxEvent>): Tx
    requires TxLegal(voters, run)
    decreases |run|, 1
  {
    if run == [] then Tx(voters, TransactionOpen, [], {})
    else TxStep(TxExec(voters, run[..|run| - 1]), run[|run| - 1])
  }

  lemma {:induction false} TxRunKeeps(voters: seq<Voter>, run: seq<TxEvent>)
    requires CanStart(voters) && TxLegal(voters, run)
    ensures var tx := TxExec(voters, run); SubsOk(tx) && InOrder(tx) && tx.voters == voters
  {
    if run != [] {
      TxRunKeeps(voters, run[..|run| - 1]);
      TxStepKeeps(TxExec(voters, run[..|run| - 1]), run[|run| - 1]);
    }
  }

  /** In every run of a whole transaction, a node that has committed a subtransaction has
      committed every earlier one too, each time on the vote of the primary, which has
      committed them as well. */
  lemma {:induction false} CommitsFollowThroughout(voters: seq<Voter>, run: seq<TxEvent>, i: nat, k: nat, j: nat)
    requires CanStart(voters) && TxLegal(voters, run) && j <= k && CommittedAt(TxExec(voters, run), i, k)
    ensures var tx := TxExec(voters, run);
            && CommittedAt(tx, i, j) && CommittedAt(tx, 0, j)
            && tx.subs[j].voters[i].vote == tx.subs[j].voters[0].vote && tx.subs[j].voters[i].vote.Some?
  {
    TxRunKeeps(voters, run);
    CommitsFollowAt(TxExec(voters, run), i, k, j);
  }

  lemma CommitsFollowAt(tx: Tx, i: nat, k: nat, j: nat)
    requires SubsOk(tx) && InOrder(tx) && j <= k && CommittedAt(tx, i, k)
    ensures CommittedAt(tx, i, j) && CommittedAt(tx, 0, j)
    ensures tx.subs[j].voters[i].vote == tx.subs[j].voters[0].vote && tx.subs[j].voters[i].vote.Some?
  {
    CommittedIsMajority(tx.subs[k], i);
    assert CommittedBefore(tx, i, k);
    if j < k {
      assert CommittedAt(tx, i, j);
    }
    CommittedAgrees(tx.subs[j], i);
  }
}
