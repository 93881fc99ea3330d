/**
  Praefect's reference transactions: the weights that the coordinator registers, and the
  subtransaction on which the nodes vote.  The voters are kept in the order in which they
  were registered; the source walks a map of them in no order.
 */
module Subtransactions {
  import opened Options

  type Vote = string

  datatype VoteResult = Undecided | Committed | Failed | Canceled | Stopped

  datatype Voter = Voter(name: string, votes: nat, vote: Option<Vote>, result: VoteResult)

  datatype Sub = Sub(threshold: nat, voters: seq<Voter>, counts: map<Vote, int>, done: bool)

  // ----------------------------------------------------------------- counting

  function VotesFor(x: Voter, v: Vote): nat {
    if x.vote == Some(v) then x.votes else 0
  }

  function VotesOut(x: Voter): nat {
    if x.vote.None? && x.result.Undecided? then x.votes else 0
  }

  function Tally(s: seq<Voter>, v: Vote): nat {
    if s == [] then 0 else Tally(s[..|s| - 1], v) + VotesFor(s[|s| - 1], v)
  }

  function Outstanding(s: seq<Voter>): nat {
    if s == [] then 0 else Outstanding(s[..|s| - 1]) + VotesOut(s[|s| - 1])
  }

  function Total(s: seq<Voter>): nat {
    if s == [] then 0 else Total(s[..|s| - 1]) + s[|s| - 1].votes
  }

  lemma {:induction false} TallyUpdate(s: seq<Voter>, i: nat, x: Voter, v: Vote)
    requires i < |s|
    ensures Tally(s[i := x], v) == Tally(s, v) - VotesFor(s[i], v) + VotesFor(x, v)
    ensures Outstanding(s[i := x]) == Outstanding(s) - VotesOut(s[i]) + VotesOut(x)
    ensures Total(s[i := x]) == Total(s) - s[i].votes + x.votes
  {
    var front := s[..|s| - 1];
    if i == |s| - 1 {
      assert s[i := x][..|s| - 1] == front;
    } else {
      TallyUpdate(front, i, x, v);
      assert s[i := x][..|s| - 1] == front[i := x];
    }
  }

  /** Results count only where a voter has yet to vote. */
  ghost predicate SameBallots(s: seq<Voter>, t: seq<Voter>) {
    && |s| == |t|
    && (forall i :: 0 <= i < |s| ==> t[i].name == s[i].name && t[i].votes == s[i].votes && t[i].vote == s[i].vote)
  }

  lemma {:induction false} TallySame(s: seq<Voter>, t: seq<Voter>, v: Vote)
    requires SameBallots(s, t)
    ensures Tally(t, v) == Tally(s, v) && Total(t) == Total(s)
  {
    if s != [] {
      TallySame(s[..|s| - 1], t[..|t| - 1], v);
    }
  }

  lemma {:induction false} OutstandingSame(s: seq<Voter>, t: seq<Voter>)
    requires SameBallots(s, t)
    requires forall i :: 0 <= i < |s| && t[i].vote.None? ==> t[i].result == s[i].result
    ensures Outstanding(t) == Outstanding(s)
  {
    if s != [] {
      OutstandingSame(s[..|s| - 1], t[..|t| - 1]);
    }
  }

  lemma {:induction false} NoneOutstanding(s: seq<Voter>)
    requires forall i :: 0 <= i < |s| ==> !s[i].result.Undecided?
    ensures Outstanding(s) == 0
  {
    if s != [] {
      NoneOutstanding(s[..|s| - 1]);
    }
  }

  /** Two values share the votes; so do one value and those still to come. */
  lemma {:induction false} TallyBounds(s: seq<Voter>, v: Vote, w: Vote)
    requires v != w
    ensures Tally(s, v) + Tally(s, w) <= Total(s) && Tally(s, v) + Outstanding(s) <= Total(s)
  {
    if s != [] {
      TallyBounds(s[..|s| - 1], v, w);
    }
  }

  lemma {:induction false} TallyWithout(s: seq<Voter>, i: nat, v: Vote)
    requires i < |s| && s[i].vote != Some(v)
    ensures Tally(s, v) + s[i].votes <= Total(s)
  {
    if i < |s| - 1 {
      TallyWithout(s[..|s| - 1], i, v);
    } else {
      TallyAtMostTotal(s[..|s| - 1], v);
    }
  }

  lemma {:induction false} TallyAtMostTotal(s: seq<Voter>, v: Vote)
    ensures Tally(s, v) <= Total(s)
  {
    if s != [] {
      TallyAtMostTotal(s[..|s| - 1], v);
    }
  }

  /** A value that counts votes has a voter. */
  lemma {:induction false} TallyHasVoter(s: seq<Voter>, v: Vote) returns (i: nat)
    requires Tally(s, v) > 0
    ensures i < |s| && s[i].vote == Some(v)
  {
    if s[|s| - 1].vote == Some(v) {
      i := |s| - 1;
    } else {
      i := TallyHasVoter(s[..|s| - 1], v);
    }
  }

  // ----------------------------------------------------------------- the steps

  function Get(counts: map<Vote, int>, v: Vote): int {
    if v in counts then counts[v] else 0
  }

  /** Some value has reached the threshold. */
  ghost predicate HasMajority(s: Sub) {
    exists v :: v in s.counts && s.counts[v] >= s.threshold
  }

  /** Some value, or one yet to be named, could still reach it. */
  ghost predicate QuorumPossible(s: Sub) {
    Outstanding(s.voters) >= s.threshold
    || exists v :: v in s.counts && s.counts[v] + Outstanding(s.voters) >= s.threshold
  }

  function Settled(s: Sub, x: Voter): Voter {
    if !x.result.Undecided? || x.vote.None? then x
    else x.(result := if Get(s.counts, x.vote.value) >= s.threshold then Committed else Failed)
  }

  function SettledAll(s: Sub): seq<Voter> {
    seq(|s.voters|, i requires 0 <= i < |s.voters| => Settled(s, s.voters[i]))
  }

  ghost function Settle(s: Sub): Sub {
    if !HasMajority(s) && QuorumPossible(s) then s else s.(voters := SettledAll(s), done := true)
  }

  function Cast(s: Sub, i: nat, v: Vote): Sub
    requires i < |s.voters|
  {
    s.(counts := s.counts[v := Get(s.counts, v) + s.voters[i].votes],
       voters := s.voters[i := s.voters[i].(vote := Some(v))])
  }

  function Retract(s: Sub, i: nat): Sub
    requires i < |s.voters|
  {
    var x := s.voters[i];
    s.(counts := if x.vote.Some? then s.counts[x.vote.value := Get(s.counts, x.vote.value) - x.votes] else s.counts,
       voters := s.voters[i := x.(vote := None, result := Canceled)])
  }

  predicate CanVote(s: Sub, i: nat)
    requires i < |s.voters|
  {
    s.voters[i].result.Undecided? && s.voters[i].vote.None?
  }

  ghost function AfterVote(s: Sub, i: nat, v: Vote): Sub
    requires i < |s.voters|
  {
    if CanVote(s, i) then Settle(Cast(s, i, v)) else s
  }

  predicate CanLeave(s: Sub, i: nat)
    requires i < |s.voters|
  {
    s.voters[i].result.Undecided? && !s.done
  }

  ghost function AfterLeave(s: Sub, i: nat): Sub
    requires i < |s.voters|
  {
    if CanLeave(s, i) then Settle(Retract(s, i)) else s
  }

  /** `cancel` and `stop`: whoever is undecided will not commit any more. */
  function Closed(s: Sub, result: VoteResult): Sub {
    s.(done := true,
       voters := seq(|s.voters|, i requires 0 <= i < |s.voters| =>
                   if s.voters[i].result.Undecided? then s.voters[i].(result := result) else s.voters[i]))
  }

  // ------------------------------------------------------------- the invariant

  /** The counts are the voters' votes, and a threshold is more than half of them. */
  ghost predicate Counted(s: Sub) {
    && 0 < s.threshold && Total(s.voters) < 2 * s.threshold
    && (forall v :: Get(s.counts, v) == Tally(s.voters, v))
  }

  ghost predicate NobodyVoted(s: Sub) {
    forall i :: 0 <= i < |s.voters| ==> s.voters[i].vote.None?
  }

  /** Once somebody was stopped nobody is undecided. */
  ghost predicate StopIsFinal(s: Sub) {
    || (forall i :: 0 <= i < |s.voters| ==> !s.voters[i].result.Stopped?)
    || (forall i :: 0 <= i < |s.voters| ==> !s.voters[i].result.Undecided?)
  }

  /** Before the end nobody has committed or failed, no value has a majority, and once
      somebody has voted one is still possible. */
  ghost predicate Open(s: Sub) {
    && (NobodyVoted(s) || QuorumPossible(s))
    && (forall v :: Tally(s.voters, v) < s.threshold)
    && (forall i :: 0 <= i < |s.voters| ==>
          s.voters[i].result.Undecided? || (s.voters[i].result.Canceled? && s.voters[i].vote.None?))
  }

  /** After it, whoever voted has a result: those for the majority committed and nobody
      else did; without a majority none can come about any more. */
  ghost predicate Over(s: Sub) {
    && (forall i :: 0 <= i < |s.voters| && s.voters[i].vote.Some? ==>
          !s.voters[i].result.Undecided?
          && (s.voters[i].result.Committed? <==> Tally(s.voters, s.voters[i].vote.value) >= s.threshold))
    && (forall i :: 0 <= i < |s.voters| && s.voters[i].vote.None? ==> !s.voters[i].result.Committed?)
    && (HasMajority(s) || forall v :: Tally(s.voters, v) + Outstanding(s.voters) < s.threshold)
    && StopIsFinal(s)
  }

  ghost predicate Inv(s: Sub) {
    Counted(s) && (if s.done then Over(s) else Open(s))
  }

  lemma SettleBallots(s: Sub)
    ensures SameBallots(s.voters, SettledAll(s))
    ensures Outstanding(SettledAll(s)) == Outstanding(s.voters)
    ensures forall v :: Tally(SettledAll(s), v) == Tally(s.voters, v)
    ensures Total(SettledAll(s)) == Total(s.voters)
  {
    OutstandingSame(s.voters, SettledAll(s));
    forall v: Vote ensures Tally(SettledAll(s), v) == Tally(s.voters, v) && Total(SettledAll(s)) == Total(s.voters) {
      TallySame(s.voters, SettledAll(s), v);
    }
    TallySame(s.voters, SettledAll(s), "");
  }

  lemma MajorityIsTally(s: Sub)
    requires Counted(s)
    ensures HasMajority(s) <==> exists v :: Tally(s.voters, v) >= s.threshold
  {
    if v :| Tally(s.voters, v) >= s.threshold {
      assert Get(s.counts, v) == Tally(s.voters, v);
    }
    if HasMajority(s) {
      var v :| v in s.counts && s.counts[v] >= s.threshold;
      assert Get(s.counts, v) == Tally(s.voters, v);
    }
  }

  lemma NoQuorumLeft(s: Sub, v: Vote)
    requires Counted(s) && !QuorumPossible(s)
    ensures Tally(s.voters, v) + Outstanding(s.voters) < s.threshold
  {
    assert Get(s.counts, v) == Tally(s.voters, v);
  }

  /** What holds between a change of one ballot and the settlement: results that were
      given before are still the right ones. */
  ghost predicate Settling(s: Sub) {
    && (forall i :: 0 <= i < |s.voters| && s.voters[i].vote.Some? && !s.voters[i].result.Undecided? ==>
          (s.voters[i].result.Committed? <==> Tally(s.voters, s.voters[i].vote.value) >= s.threshold))
    && (forall i :: 0 <= i < |s.voters| && s.voters[i].vote.None? ==> !s.voters[i].result.Committed?)
    && StopIsFinal(s)
  }

  lemma SettledOver(s: Sub)
    requires Counted(s) && Settling(s)
    requires HasMajority(s) || forall v :: Tally(s.voters, v) + Outstanding(s.voters) < s.threshold
    ensures Inv(s.(voters := SettledAll(s), done := true))
  {
    SettleBallots(s);
    var t := s.(voters := SettledAll(s), done := true);
    forall i | 0 <= i < |t.voters| && t.voters[i].vote.Some?
      ensures !t.voters[i].result.Undecided?
      ensures t.voters[i].result.Committed? <==> Tally(t.voters, t.voters[i].vote.value) >= t.threshold
    {
      assert Get(s.counts, s.voters[i].vote.value) == Tally(s.voters, s.voters[i].vote.value);
    }
    forall v ensures Get(t.counts, v) == Tally(t.voters, v) {
      assert Get(s.counts, v) == Tally(s.voters, v);
    }
    assert Counted(t);
    if !HasMajority(s) {
      forall v ensures Tally(t.voters, v) + Outstanding(t.voters) < t.threshold {
        assert Tally(s.voters, v) + Outstanding(s.voters) < s.threshold;
      }
    }
    assert HasMajority(s) <==> HasMajority(t);
  }

  lemma SettleKeeps(s: Sub)
    requires Counted(s) && Settling(s)
    requires s.done ==> HasMajority(s) || forall v :: Tally(s.voters, v) + Outstanding(s.voters) < s.threshold
    requires !s.done ==> forall i :: 0 <= i < |s.voters| ==>
               s.voters[i].result.Undecided? || (s.voters[i].result.Canceled? && s.voters[i].vote.None?)
    ensures Inv(Settle(s))
  {
    MajorityIsTally(s);
    if HasMajority(s) {
      SettledOver(s);
    } else if !QuorumPossible(s) {
      forall v ensures Tally(s.voters, v) + Outstanding(s.voters) < s.threshold {
        NoQuorumLeft(s, v);
      }
      SettledOver(s);
    } else {
      NotDone(s);
    }
  }

  lemma NotDone(s: Sub)
    requires Counted(s) && QuorumPossible(s)
    ensures exists v :: Tally(s.voters, v) + Outstanding(s.voters) >= s.threshold
  {
    if Outstanding(s.voters) >= s.threshold {
      assert Tally(s.voters, "") + Outstanding(s.voters) >= s.threshold;
    } else {
      var v :| v in s.counts && s.counts[v] + Outstanding(s.voters) >= s.threshold;
      assert Get(s.counts, v) == Tally(s.voters, v);
    }
  }

  // ------------------------------------------------------------ one ballot changes

  lemma CastCounts(s: Sub, i: nat, v: Vote)
    requires i < |s.voters| && Counted(s) && CanVote(s, i)
    ensures var t := Cast(s, i, v);
            && Counted(t) && Outstanding(t.voters) == Outstanding(s.voters) - s.voters[i].votes
            && Tally(t.voters, v) == Tally(s.voters, v) + s.voters[i].votes
            && (forall w :: w != v ==> Tally(t.voters, w) == Tally(s.voters, w))
  {
    var x := s.voters[i].(vote := Some(v));
    forall w ensures Tally(s.voters[i := x], w) == Tally(s.voters, w) + VotesFor(x, w) {
      TallyUpdate(s.voters, i, x, w);
    }
    TallyUpdate(s.voters, i, x, v);
    var t := Cast(s, i, v);
    forall w ensures Get(t.counts, w) == Tally(t.voters, w) {
      assert Get(s.counts, w) == Tally(s.voters, w);
    }
  }

  lemma RetractCounts(s: Sub, i: nat)
    requires i < |s.voters| && Counted(s) && s.voters[i].result.Undecided?
    ensures var t := Retract(s, i);
            && Counted(t) && forall w :: Tally(t.voters, w) <= Tally(s.voters, w)
  {
    var x := s.voters[i].(vote := None, result := Canceled);
    forall w ensures Tally(s.voters[i := x], w) == Tally(s.voters, w) - VotesFor(s.voters[i], w) {
      TallyUpdate(s.voters, i, x, w);
    }
    TallyUpdate(s.voters, i, x, "");
    var t := Retract(s, i);
    forall w ensures Get(t.counts, w) == Tally(t.voters, w) {
      assert Get(s.counts, w) == Tally(s.voters, w);
    }
  }

  /** A late vote gives no value a majority that had none, and takes none away. */
  lemma LateVote(s: Sub, i: nat, v: Vote, w: Vote)
    requires Inv(s) && s.done && i < |s.voters| && CanVote(s, i)
    ensures Tally(Cast(s, i, v).voters, w) >= s.threshold <==> Tally(s.voters, w) >= s.threshold
  {
    CastCounts(s, i, v);
    MajorityIsTally(s);
    if HasMajority(s) {
      var m :| Tally(s.voters, m) >= s.threshold;
      if w != m {
        TallyBounds(Cast(s, i, v).voters, m, w);
      }
    } else {
      assert Tally(s.voters, w) + Outstanding(s.voters) < s.threshold;
    }
  }

  lemma {:induction false} VoteKeeps(s: Sub, i: nat, v: Vote)
    requires Inv(s) && i < |s.voters|
    ensures Inv(AfterVote(s, i, v))
  {
    if CanVote(s, i) {
      var t := Cast(s, i, v);
      CastCounts(s, i, v);
      if s.done {
        forall w ensures Tally(t.voters, w) >= s.threshold <==> Tally(s.voters, w) >= s.threshold {
          LateVote(s, i, v, w);
        }
        MajorityIsTally(s);
        MajorityIsTally(t);
      }
      SettleKeeps(t);
    }
  }

  lemma LeaveKeeps(s: Sub, i: nat)
    requires Inv(s) && i < |s.voters|
    ensures Inv(AfterLeave(s, i))
  {
    if CanLeave(s, i) {
      RetractCounts(s, i);
      SettleKeeps(Retract(s, i));
    }
  }

  lemma CloseKeeps(s: Sub, result: VoteResult)
    requires Inv(s) && (result.Canceled? || result.Stopped?)
    ensures Inv(Closed(s, result))
  {
    var t := Closed(s, result);
    forall v ensures Tally(t.voters, v) == Tally(s.voters, v) && Total(t.voters) == Total(s.voters) {
      TallySame(s.voters, t.voters, v);
    }
    TallySame(s.voters, t.voters, "");
    NoneOutstanding(t.voters);
    MajorityIsTally(s);
    MajorityIsTally(t);
  }

  ghost predicate AnyStopped(s: Sub) {
    exists i :: 0 <= i < |s.voters| && s.voters[i].result.Stopped?
  }

  /** A subtransaction that was stopped cannot be stopped again. */
  ghost function AfterStop(s: Sub): Sub {
    if AnyStopped(s) then s else Closed(s, Stopped)
  }

  ghost predicate Distinct(s: seq<Voter>) {
    forall i, j :: 0 <= i < j < |s| ==> s[i].name != s[j].name
  }

  // --------------------------------------------------------------- in place

  class Subtransaction {
    const threshold: nat
    var voters: seq<Voter>
    var voteCounts: map<Vote, int>
    var done: bool

    ghost function Value(): Sub
      reads this
    {
      Sub(threshold, voters, voteCounts, done)
    }

    constructor (voters: seq<Voter>, threshold: nat)
      ensures Value() == Sub(threshold, voters, map[], false)
    {
      this.voters, this.threshold := voters, threshold;
      voteCounts, done := map[], false;
    }

    method CountOutstanding() returns (outstanding: nat)
      ensures outstanding == Outstanding(voters)
    {
      outstanding := 0;
      for i := 0 to |voters|
        invariant outstanding == Outstanding(voters[..i])
      {
        assert voters[..i + 1][..i] == voters[..i];
        if voters[i].vote.None? && voters[i].result == Undecided {
          outstanding := outstanding + voters[i].votes;
        }
      }
      assert voters[..|voters|] == voters;
    }

    /** The leading value if it has reached the threshold, and whether any still can. */
    method QuorumCheck() returns (leader: Option<Vote>, possible: bool)
      requires threshold > 0
      ensures leader.Some? <==> HasMajority(Value())
      ensures leader.Some? ==> leader.value in voteCounts && voteCounts[leader.value] >= threshold && possible
      ensures leader.None? ==> (possible <==> QuorumPossible(Value()))
    {
      leader := None;
      var majority, todo := 0, voteCounts.Keys;
      while todo != {}
        invariant todo <= voteCounts.Keys && 0 <= majority
        invariant forall v :: v in voteCounts && v !in todo ==> voteCounts[v] <= majority
        invariant if leader.None? then majority == 0
                  else leader.value in voteCounts && voteCounts[leader.value] == majority
        decreases |todo|
      {
        var v :| v in todo;
        todo := todo - {v};
        if majority < voteCounts[v] {
          majority, leader := voteCounts[v], Some(v);
        }
      }
      if majority >= threshold {
        return leader, true;
      }
      var outstanding := CountOutstanding();
      possible := majority + outstanding >= threshold;
      if leader.Some? && possible {
        assert voteCounts[leader.value] + Outstanding(voters) >= threshold;
      }
      leader := None;
    }

    /** Gives every undecided voter that has voted its result. */
    method SettleVoters(leader: Option<Vote>, possible: bool)
      requires leader.Some? ==> forall v :: Get(voteCounts, v) >= threshold <==> v == leader.value
      requires leader.None? ==> !possible && threshold > 0 && !HasMajority(Value())
      requires leader.Some? ==> possible
      modifies this`voters
      ensures voters == SettledAll(old(Value()))
    {
      ghost var before := voters;
      for i := 0 to |voters|
        invariant |voters| == |before|
        invariant forall j :: 0 <= j < i ==> voters[j] == SettledAll(old(Value()))[j]
        invariant forall j :: i <= j < |voters| ==> voters[j] == before[j]
      {
        var x := voters[i];
        if x.result == Undecided && x.vote.Some? {
          if !possible {
            voters := voters[i := x.(result := Failed)];
          } else if x.vote.value == leader.value {
            voters := voters[i := x.(result := Committed)];
          } else {
            voters := voters[i := x.(result := Failed)];
          }
        }
      }
    }

    /** Casts a vote, or with none takes the voter's vote back. */
    method ChangeBallot(i: nat, vote: Option<Vote>) returns (ok: bool)
      requires i < |voters|
      modifies this
      ensures ok <==> if vote.Some? then CanVote(old(Value()), i) else CanLeave(old(Value()), i)
      ensures Value() ==
        if !ok then old(Value())
        else if vote.Some? then Cast(old(Value()), i, vote.value) else Retract(old(Value()), i)
    {
      var x := voters[i];
      if x.result != Undecided {
        return false;
      }
      if vote.Some? {
        if x.vote.Some? {
          return false;
        }
        var v := vote.value;
        voteCounts := voteCounts[v := (if v in voteCounts then voteCounts[v] else 0) + x.votes];
        voters := voters[i := x.(vote := vote)];
      } else {
        if done {
          return false;
        }
        if x.vote.Some? {
          var v := x.vote.value;
          voteCounts := voteCounts[v := (if v in voteCounts then voteCounts[v] else 0) - x.votes];
        }
        voters := voters[i := x.(vote := None, result := Canceled)];
      }
      ok := true;
    }

    method UpdateVoterState(i: nat, vote: Option<Vote>) returns (ok: bool)
      requires Counted(Value()) && i < |voters|
      modifies this
      ensures ok <==> if vote.Some? then CanVote(old(Value()), i) else CanLeave(old(Value()), i)
      ensures Value() == if vote.Some? then AfterVote(old(Value()), i, vote.value) else AfterLeave(old(Value()), i)
    {
      ghost var s := Value();
      ok := ChangeBallot(i, vote);
      if ok {
        if vote.Some? {
          CastCounts(s, i, vote.value);
        } else {
          RetractCounts(s, i);
        }
        FinishUpdate();
      }
    }

    method FinishUpdate()
      requires Counted(Value())
      modifies this
      ensures Value() == Settle(old(Value()))
    {
      var leader, possible := QuorumCheck();
      if leader.None? && possible {
        return;
      }
      if leader.Some? {
        forall v ensures Get(voteCounts, v) >= threshold <==> v == leader.value {
          OneMajority(Value(), leader.value, v);
        }
      }
      SettleVoters(leader, possible);
      done := true;
    }

    method FindVoter(node: string) returns (i: Option<nat>)
      ensures i.Some? ==> i.value < |voters| && voters[i.value].name == node
      ensures i.None? ==> forall j :: 0 <= j < |voters| ==> voters[j].name != node
    {
      for j := 0 to |voters|
        invariant forall k :: 0 <= k < j ==> voters[k].name != node
      {
        if voters[j].name == node {
          return Some(j);
        }
      }
      return None;
    }

    method CastVote(node: string, vote: Vote) returns (ok: bool)
      requires Inv(Value()) && Distinct(voters)
      modifies this
      ensures Inv(Value())
      ensures ok <==> exists i :: 0 <= i < |old(voters)| && old(voters)[i].name == node && CanVote(old(Value()), i)
      ensures !ok ==> Value() == old(Value())
      ensures forall i :: 0 <= i < |old(voters)| && old(voters)[i].name == node ==>
                Value() == AfterVote(old(Value()), i, vote)
    {
      var i := FindVoter(node);
      if i.None? {
        return false;
      }
      VoteKeeps(Value(), i.value, vote);
      ok := UpdateVoterState(i.value, Some(vote));
    }

    method CancelNodeVoter(node: string) returns (ok: bool)
      requires Inv(Value()) && Distinct(voters)
      modifies this
      ensures Inv(Value())
      ensures ok <==> exists i :: 0 <= i < |old(voters)| && old(voters)[i].name == node && CanLeave(old(Value()), i)
      ensures !ok ==> Value() == old(Value())
      ensures forall i :: 0 <= i < |old(voters)| && old(voters)[i].name == node ==>
                Value() == AfterLeave(old(Value()), i)
    {
      var i := FindVoter(node);
      if i.None? {
        return false;
      }
      LeaveKeeps(Value(), i.value);
      ok := UpdateVoterState(i.value, None);
    }

    method Cancel()
      modifies this
      ensures Value() == Closed(old(Value()), Canceled)
    {
      ghost var before := voters;
      for i := 0 to |voters|
        invariant |voters| == |before| && voteCounts == old(voteCounts)
        invariant forall j :: 0 <= j < i ==> voters[j] == Closed(old(Value()), Canceled).voters[j]
        invariant forall j :: i <= j < |voters| ==> voters[j] == before[j]
      {
        if voters[i].result == Undecided {
          voters := voters[i := voters[i].(result := Canceled)];
        }
      }
      done := true;
    }

    method Stop() returns (ok: bool)
      requires StopIsFinal(Value())
      modifies this
      ensures ok <==> !AnyStopped(old(Value()))
      ensures Value() == AfterStop(old(Value()))
    {
      ghost var before := voters;
      for i := 0 to |voters|
        invariant |voters| == |before| && voteCounts == old(voteCounts) && done == old(done)
        invariant forall j :: 0 <= j < i ==> !before[j].result.Stopped?
        invariant forall j :: 0 <= j < i ==> voters[j] == Closed(old(Value()), Stopped).voters[j]
        invariant forall j :: i <= j < |voters| ==> voters[j] == before[j]
      {
        if voters[i].result == Stopped {
          assert before[i].result.Stopped?;
          assert voters == before;
          return false;
        }
        if voters[i].result == Undecided {
          voters := voters[i := voters[i].(result := Stopped)];
        }
      }
      done := true;
      ok := true;
    }
  }

  lemma OneMajority(s: Sub, v: Vote, w: Vote)
    requires Counted(s) && Get(s.counts, v) >= s.threshold
    ensures Get(s.counts, w) >= s.threshold <==> w == v
  {
    if w != v {
      TallyBounds(s.voters, v, w);
    }
  }
}
