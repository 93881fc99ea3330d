/** Every run of a subtransaction on the voters that the coordinator registers. */
module SubtransactionRuns {
  import opened Options
  import opened Subtransactions

  // ----------------------------------------------------------- registration

  function NewVoter(name: string, votes: nat): Voter {
    Voter(name, votes, None, Undecided)
  }

  /** The primary outweighs all secondaries together. */
  function Registered(primary: string, secondaries: seq<string>): seq<Voter> {
    [NewVoter(primary, |secondaries| + 1)]
    + seq(|secondaries|, i requires 0 <= i < |secondaries| => NewVoter(secondaries[i], 1))
  }

  function Threshold(n: nat): nat {
    n + 1 + if n > 1 then (n + 1) / 2 else 0
  }

  method RegisterVoters(primary: string, secondaries: seq<string>) returns (voters: seq<Voter>, threshold: nat)
    ensures voters == Registered(primary, secondaries) && threshold == Threshold(|secondaries|)
  {
    voters := [NewVoter(primary, |secondaries| + 1)];
    threshold := |secondaries| + 1;
    for i := 0 to |secondaries|
      invariant voters == Registered(primary, secondaries)[..i + 1]
    {
      voters := voters + [NewVoter(secondaries[i], 1)];
    }
    if |secondaries| > 1 {
      threshold := threshold + (|secondaries| + 1) / 2;
    }
  }

  datatype Registration = Accepted | MissingNodes | DuplicateNodes | InvalidThreshold

  /** Whether a transaction can be opened on these voters. */
  method CheckTransaction(voters: seq<Voter>, threshold: nat) returns (r: Registration)
    ensures r == if voters == [] then MissingNodes
                 else if !Distinct(voters) then DuplicateNodes
                 else if threshold <= Total(voters) < threshold * 2 then Accepted
                 else InvalidThreshold
  {
    if |voters| == 0 {
      return MissingNodes;
    }
    var totalVotes := 0;
    var names: set<string> := {};
    for i := 0 to |voters|
      invariant totalVotes == Total(voters[..i])
      invariant names == set j | 0 <= j < i :: voters[j].name
      invariant Distinct(voters[..i])
    {
      assert voters[..i + 1][..i] == voters[..i];
      if voters[i].name in names {
        return DuplicateNodes;
      }
      names := names + {voters[i].name};
      totalVotes := totalVotes + voters[i].votes;
    }
    assert voters[..|voters|] == voters;
    if totalVotes < threshold {
      return InvalidThreshold;
    }
    if threshold * 2 <= totalVotes {
      return InvalidThreshold;
    }
    return Accepted;
  }

  /** How many of the secondaries voted for `v`. */
  function SecondariesFor(voters: seq<Voter>, v: Vote): nat {
    if |voters| <= 1 then 0
    else SecondariesFor(voters[..|voters| - 1], v) + if voters[|voters| - 1].vote == Some(v) then 1 else 0
  }

  /** Any ballots cast by the registered voters. */
  ghost predicate Weighted(voters: seq<Voter>) {
    && |voters| >= 1 && voters[0].votes == |voters|
    && (forall i :: 1 <= i < |voters| ==> voters[i].votes == 1)
  }

  lemma {:induction false} WeightedTally(voters: seq<Voter>, n: nat, v: Vote)
    requires |voters| >= 1 && voters[0].votes == n + 1
    requires forall i :: 1 <= i < |voters| ==> voters[i].votes == 1
    ensures Tally(voters, v) == SecondariesFor(voters, v) + if voters[0].vote == Some(v) then n + 1 else 0
    ensures SecondariesFor(voters, v) <= |voters| - 1
    ensures Total(voters) == n + |voters|
  {
    var front := voters[..|voters| - 1];
    if |voters| == 1 {
      assert front == [] && Tally(front, v) == 0;
    } else {
      WeightedTally(front, n, v);
    }
  }

  /** However the ballots fall, a value reaches the threshold exactly when the primary is
      for it and, with more than one secondary, at least half of them are. */
  lemma QuorumIsPrimaryAndHalf(voters: seq<Voter>, v: Vote)
    requires Weighted(voters)
    ensures var n := |voters| - 1;
            Tally(voters, v) >= Threshold(n)
            <==> voters[0].vote == Some(v) && (n > 1 ==> 2 * SecondariesFor(voters, v) >= n)
  {
    WeightedTally(voters, |voters| - 1, v);
  }

  /** So the transaction that the coordinator registers is never refused for its
      threshold, only for a storage that occurs twice. */
  lemma RegistrationIsValid(primary: string, secondaries: seq<string>)
    ensures var voters, threshold := Registered(primary, secondaries), Threshold(|secondaries|);
            Weighted(voters) && voters != [] && 0 < threshold <= Total(voters) < threshold * 2
  {
    WeightedTally(Registered(primary, secondaries), |secondaries|, "");
  }

  // -------------------------------------------------------------- whole runs

  datatype Event =
    | CastVote(voter: nat, vote: Vote)
    | Leave(leaver: nat)  // cancelNodeVoter, or a voter whose context ends while it waits
    | Cancel
    | Stop

  /** The first subtransaction of a transaction, or a later one that some voters were
      already canceled for. */
  ghost predicate CanStart(voters: seq<Voter>) {
    && Weighted(voters)
    && (forall i :: 0 <= i < |voters| ==>
          voters[i].vote.None? && (voters[i].result.Undecided? || voters[i].result.Canceled?))
  }

  ghost function Step(s: Sub, e: Event): (t: Sub)
    ensures |t.voters| == |s.voters|
  {
    match e
    case CastVote(i, v) => if i < |s.voters| then AfterVote(s, i, v) else s
    case Leave(i) => if i < |s.voters| then AfterLeave(s, i) else s
    case Cancel => Closed(s, Canceled)
    case Stop => AfterStop(s)
  }

  ghost function Exec(voters: seq<Voter>, run: seq<Event>): (s: Sub)
    requires voters != []
    ensures |s.voters| == |voters|
  {
    if run == [] then Sub(Threshold(|voters| - 1), voters, map[], false)
    else Step(Exec(voters, run[..|run| - 1]), run[|run| - 1])
  }

  lemma {:induction false} NoVotesYet(voters: seq<Voter>, v: Vote)
    requires forall i :: 0 <= i < |voters| ==> voters[i].vote.None?
    ensures Tally(voters, v) == 0
  {
    if voters != [] {
      NoVotesYet(voters[..|voters| - 1], v);
    }
  }

  lemma StartKeeps(voters: seq<Voter>)
    requires CanStart(voters)
    ensures Inv(Exec(voters, []))
  {
    WeightedTally(voters, |voters| - 1, "");
    forall v ensures Tally(voters, v) == 0 {
      NoVotesYet(voters, v);
    }
  }

  lemma StepKeepsVoters(s: Sub, e: Event)
    ensures var t := Step(s, e);
            && t.threshold == s.threshold && |t.voters| == |s.voters|
            && (forall i :: 0 <= i < |s.voters| ==> t.voters[i].votes == s.voters[i].votes)
  {
  }

  lemma {:induction false} RunKeepsInv(voters: seq<Voter>, run: seq<Event>)
    requires CanStart(voters)
    ensures var s := Exec(voters, run);
            Inv(s) && s.threshold == Threshold(|voters| - 1) && |s.voters| == |voters| && Weighted(s.voters)
  {
    if run == [] {
      StartKeeps(voters);
    } else {
      var s, e := Exec(voters, run[..|run| - 1]), run[|run| - 1];
      RunKeepsInv(voters, run[..|run| - 1]);
      StepKeepsVoters(s, e);
      match e
      case CastVote(i, v) => if i < |s.voters| { VoteKeeps(s, i, v); }
      case Leave(i) => if i < |s.voters| { LeaveKeeps(s, i); }
      case Cancel => CloseKeeps(s, Canceled);
      case Stop => CloseKeeps(s, Stopped);
    }
  }

  lemma CommittedIsMajority(s: Sub, i: nat)
    requires Inv(s) && i < |s.voters| && s.voters[i].result.Committed?
    ensures s.done && s.voters[i].vote.Some? && Tally(s.voters, s.voters[i].vote.value) >= s.threshold
  {
  }

  lemma CommittedAgrees(s: Sub, i: nat)
    requires Inv(s) && Weighted(s.voters) && s.threshold == Threshold(|s.voters| - 1)
    requires i < |s.voters| && s.voters[i].result.Committed?
    ensures s.voters[0].result.Committed? && s.voters[0].vote.Some? && s.voters[i].vote == s.voters[0].vote
    ensures |s.voters| > 2 ==> 2 * SecondariesFor(s.voters, s.voters[0].vote.value) >= |s.voters| - 1
  {
    CommittedIsMajority(s, i);
    QuorumIsPrimaryAndHalf(s.voters, s.voters[i].vote.value);
  }

  /** In every run whoever commits has voted what the primary voted, and the primary has
      committed too: at least half of the secondaries are with it if there is more than
      one.  A primary without a vote means that nobody has committed. */
  lemma CommitsFollowThePrimary(voters: seq<Voter>, run: seq<Event>, i: nat)
    requires CanStart(voters) && i < |voters| && Exec(voters, run).voters[i].result.Committed?
    ensures var s := Exec(voters, run);
            && s.voters[0].result.Committed? && s.voters[0].vote.Some? && s.voters[i].vote == s.voters[0].vote
            && (|voters| > 2 ==> 2 * SecondariesFor(s.voters, s.voters[0].vote.value) >= |voters| - 1)
  {
    RunKeepsInv(voters, run);
    CommittedAgrees(Exec(voters, run), i);
  }

  /** In every run a voter that has voted and finds the subtransaction done has a result,
      and while it is not done somebody's vote is still to come. */
  lemma NobodyWaitsInVain(voters: seq<Voter>, run: seq<Event>, i: nat)
    requires CanStart(voters) && i < |voters| && Exec(voters, run).voters[i].vote.Some?
    ensures var s := Exec(voters, run);
            if s.done then !s.voters[i].result.Undecided? else Outstanding(s.voters) > 0
  {
    RunKeepsInv(voters, run);
    var s := Exec(voters, run);
    if !s.done {
      NotDone(s);
    }
  }

  /** A result once given never changes. */
  lemma ResultsAreFinal(s: Sub, e: Event, i: nat)
    requires Inv(s) && i < |s.voters| && !s.voters[i].result.Undecided?
    ensures var t := Step(s, e); i < |t.voters| && t.voters[i] == s.voters[i]
  {
  }
}
