/** The weakened vote quorum: how the adapter drives an unmodified majority vote to
    victory after too few real grants, and why the attempt can never fail half way. */
module VoteFaults {
  import opened Keys

  datatype Role = Follower | Candidate | Leader

  const WEAKENED_DIVISOR: nat := 3

  /** What the adapter reports of one delivered vote response. */
  datatype Outcome =
    | Quiet
    | InvalidSource
    | InconsistentCount
    | NotElected
    | Activated(actualGrants: nat, synthetic: seq<int>)

  function Majority(voters: nat): nat {
    voters / 2 + 1
  }

  function FaultyQuorum(voters: nat): nat {
    voters / WEAKENED_DIVISOR + 1
  }

  /** The fault changes the outcome of some election exactly for two voters and from
      four voters on; the configuration accepts only the latter. */
  lemma FaultyQuorumIsSmaller(voters: nat)
    ensures FaultyQuorum(voters) < Majority(voters) <==> voters == 2 || voters >= 4
  {
  }

  // ---------------------------------------------------------------- counting votes

  function Granted(votes: map<int, bool>): set<int> {
    set v | v in votes && votes[v]
  }

  function Grants(votes: map<int, bool>): nat {
    |Granted(votes)|
  }

  function Silent(voters: set<int>, votes: map<int, bool>): set<int> {
    voters - votes.Keys
  }

  /** Majority voting has neither elected nor refused the candidate. */
  predicate Undecided(voters: set<int>, votes: map<int, bool>) {
    Grants(votes) < Majority(|voters|) <= Grants(votes) + |Silent(voters, votes)|
  }

  /** The role of a candidate once the votes are tallied. */
  function Tally(voters: set<int>, votes: map<int, bool>): Role {
    if Grants(votes) >= Majority(|voters|) then Leader
    else if Undecided(voters, votes) then Candidate
    else Follower
  }

  /** A voter's first response counts, later ones and strangers' do not. */
  function Voted(voters: set<int>, votes: map<int, bool>, from: int, granted: bool): map<int, bool> {
    if from in votes || from !in voters then votes else votes[from := granted]
  }

  lemma GrantCounts(voters: set<int>, votes: map<int, bool>, from: int)
    requires from in voters && from !in votes
    ensures Grants(votes[from := true]) == Grants(votes) + 1
    ensures |Silent(voters, votes[from := true])| == |Silent(voters, votes)| - 1
  {
    hide Granted, Silent;
    OneMoreGranted(votes, from);
    OneFewerSilent(voters, votes, from);
  }

  lemma OneMoreGranted(votes: map<int, bool>, from: int)
    requires from !in votes
    ensures Granted(votes[from := true]) == Granted(votes) + {from} && from !in Granted(votes)
  {
  }

  lemma OneFewerSilent(voters: set<int>, votes: map<int, bool>, from: int)
    requires from in voters && from !in votes
    ensures Silent(voters, votes[from := true]) == Silent(voters, votes) - {from} && from in Silent(voters, votes)
  {
  }

  function GrantedAmong(votes: map<int, bool>, some: set<int>): set<int> {
    set v | v in some && v in votes && votes[v]
  }

  lemma GrantedStep(votes: map<int, bool>, some: set<int>, v: int)
    requires v in votes && v !in some
    ensures |GrantedAmong(votes, some + {v})| == |GrantedAmong(votes, some)| + (if votes[v] then 1 else 0)
  {
    if votes[v] {
      assert GrantedAmong(votes, some + {v}) == GrantedAmong(votes, some) + {v};
    } else {
      assert GrantedAmong(votes, some + {v}) == GrantedAmong(votes, some);
    }
  }

  lemma OwnVote(voters: set<int>, id: int)
    requires id in voters
    ensures Grants(map[id := true]) == 1 && |Silent(voters, map[id := true])| == |voters| - 1
    ensures Tally(voters, map[id := true]) == if |voters| == 1 then Leader else Candidate
  {
    assert Granted(map[id := true]) == {id};
    assert voters == Silent(voters, map[id := true]) + {id};
  }

  // ---------------------------------------------------------------- the candidate

  class Node {
    const id: int
    const nodeIds: seq<int>
    const divisor: nat
    // Raft's own state: role, term and the votes it has counted.
    var role: Role
    var term: nat
    var votes: map<int, bool>
    // The adapter's record of real and synthetic responses.
    var voteTerm: nat
    var voteResponses: map<int, bool>

    ghost predicate Valid()
      reads this
    {
      && Distinct(nodeIds) && id in nodeIds
      && (divisor == WEAKENED_DIVISOR ==> |nodeIds| >= 4)
      && voteTerm <= term
      && (role.Candidate? ==> InElection())
    }

    /** While it campaigns, raft has counted its own vote and the recorded responses. */
    ghost predicate InElection()
      reads this
    {
      && id in votes && votes.Keys <= Elements(nodeIds)
      && Undecided(Elements(nodeIds), votes)
      && (divisor == WEAKENED_DIVISOR ==> id !in Responses() && votes == Responses()[id := true])
    }

    ghost function Responses(): map<int, bool>
      reads this
    {
      if voteTerm == term then voteResponses else map[]
    }

    constructor (self: int, ids: seq<int>, quorumDivisor: nat)
      requires Distinct(ids) && self in ids && (quorumDivisor == WEAKENED_DIVISOR ==> |ids| >= 4)
      ensures Valid() && id == self && nodeIds == ids && divisor == quorumDivisor && role == Follower
    {
      id, nodeIds, divisor := self, ids, quorumDivisor;
      role, term, votes, voteTerm, voteResponses := Follower, 0, map[], 0, map[];
    }

    /** Campaign raises the term; a single voter is elected at once. */
    method Campaign()
      requires Valid() && !role.Leader?
      modifies this`role, this`term, this`votes
      ensures Valid() && term == old(term) + 1
      ensures role == if |nodeIds| == 1 then Leader else Candidate
    {
      assert id in Elements(nodeIds);
      OwnVote(Elements(nodeIds), id);
      DistinctSize(nodeIds);
      term := term + 1;
      votes := map[id := true];
      role := Tally(Elements(nodeIds), votes);
    }

    /** crash and restart: the volatile election state is gone. */
    method Restart()
      requires Valid()
      modifies this`role, this`votes, this`voteTerm, this`voteResponses
      ensures Valid() && role == Follower
    {
      role, votes, voteTerm, voteResponses := Follower, map[], 0, map[];
    }

    /** RawNode.Step for a vote response: old terms are ignored, a newer term demotes. */
    method StepVote(from: int, messageTerm: nat, granted: bool)
      modifies this`role, this`votes, this`term
      ensures messageTerm == old(term) && old(role).Candidate? ==>
                && votes == Voted(Elements(nodeIds), old(votes), from, granted)
                && role == Tally(Elements(nodeIds), votes) && term == old(term)
      ensures messageTerm > old(term) ==> role == Follower && term == messageTerm
      ensures messageTerm < old(term) || (messageTerm == old(term) && !old(role).Candidate?) ==>
                votes == old(votes) && role == old(role) && term == old(term)
    {
      if messageTerm > term {
        role, term, votes := Follower, messageTerm, map[];
      } else if messageTerm == term && role.Candidate? {
        votes := Voted(Elements(nodeIds), votes, from, granted);
        role := Tally(Elements(nodeIds), votes);
      }
    }

    /** The candidate's own vote and the recorded grants. */
    method CountGrants() returns (count: nat)
      requires id !in voteResponses
      ensures count == Grants(voteResponses[id := true])
    {
      count := 1;
      var rest := voteResponses.Keys;
      assert GrantedAmong(voteResponses, voteResponses.Keys - rest) == {};
      while rest != {}
        invariant rest <= voteResponses.Keys
        invariant count == |GrantedAmong(voteResponses, voteResponses.Keys - rest)| + 1
        decreases rest
      {
        SomeMember(rest);
        var v: int :| v in rest;
        GrantedStep(voteResponses, voteResponses.Keys - rest, v);
        assert voteResponses.Keys - (rest - {v}) == voteResponses.Keys - rest + {v};
        if voteResponses[v] {
          count := count + 1;
        }
        rest := rest - {v};
      }
      assert GrantedAmong(voteResponses, voteResponses.Keys - rest) == Granted(voteResponses);
      assert Granted(voteResponses[id := true]) == Granted(voteResponses) + {id};
    }

    /** Every vote raft has counted is on record, and the election can still be won. */
    ghost predicate Winnable()
      reads this
    {
      && id !in voteResponses && votes == voteResponses[id := true]
      && Grants(votes) + |Silent(Elements(nodeIds), votes)| >= Majority(|Elements(nodeIds)|)
    }

    /** One private grant from a voter that has not answered. */
    method InjectGrant(voter: int)
      requires role.Candidate? && Winnable() && voter in nodeIds && voter !in votes
      modifies this`role, this`votes, this`term, this`voteResponses
      ensures Winnable() && votes == old(votes)[voter := true] == voteResponses[id := true] && term == old(term)
      ensures Grants(votes) == old(Grants(votes)) + 1
      ensures role == if Grants(votes) >= Majority(|Elements(nodeIds)|) then Leader else Candidate
    {
      assert voter in Elements(nodeIds);
      GrantCounts(Elements(nodeIds), votes, voter);
      StepVote(voter, term, true);
      voteResponses := voteResponses[voter := true];
    }

    /** Injects private grants from silent voters until raft elects the candidate. */
    method Activate(actualGrants: nat) returns (outcome: Outcome)
      requires Valid() && role.Candidate? && divisor == WEAKENED_DIVISOR && voteTerm == term
      requires actualGrants == Grants(votes)
      modifies this`role, this`votes, this`term, this`voteResponses
      ensures Valid() && outcome.Activated? && role == Leader && term == old(term)
      ensures outcome.actualGrants == actualGrants && actualGrants + |outcome.synthetic| == Majority(|nodeIds|)
      ensures Distinct(outcome.synthetic) && Elements(outcome.synthetic) <= Silent(Elements(nodeIds), old(votes))
    {
      DistinctSize(nodeIds);
      var needed := Majority(|nodeIds|) - actualGrants;
      assert needed > 0;  // so InconsistentCount cannot happen
      var synthetic := InjectMissing(needed);
      assert role.Leader?;  // so NotElected cannot happen
      outcome := Activated(actualGrants, synthetic);
    }

    /** After the given synthetic grants, `needed` in all, on top of the votes before. */
    ghost predicate Injected(before: map<int, bool>, synthetic: seq<int>, needed: nat)
      reads this
    {
      && Winnable() && Grants(votes) == Grants(before) + |synthetic| && |synthetic| <= needed
      && votes.Keys == before.Keys + Elements(synthetic) && AllFrom(synthetic, Silent(Elements(nodeIds), before))
      && role == if |synthetic| == needed then Leader else Candidate
    }

    method OfferGrant(voter: int, synthetic: seq<int>, needed: nat, ghost before: map<int, bool>) returns (more: seq<int>)
      requires voter in nodeIds && Injected(before, synthetic, needed) && |synthetic| < needed
      requires Grants(before) + needed == Majority(|Elements(nodeIds)|)
      modifies this`role, this`votes, this`term, this`voteResponses
      ensures Injected(before, more, needed) && voter in votes && old(votes.Keys) <= votes.Keys && term == old(term)
    {
      hide Granted, Grants, AllFrom, Silent, Majority, Elements;
      more := synthetic;
      if voter != id && voter !in voteResponses {
        assert voter !in votes && voter !in before && voter !in Elements(synthetic);
        OneMoreFrom(synthetic, voter, nodeIds, before);
        KeysGrow(votes, voter);
        InjectGrant(voter);
        more := synthetic + [voter];
        assert votes.Keys == before.Keys + Elements(more);
      }
    }

    method InjectMissing(needed: nat) returns (synthetic: seq<int>)
      requires Distinct(nodeIds) && Winnable() && role.Candidate? && needed > 0
      requires Grants(votes) + needed == Majority(|Elements(nodeIds)|)
      modifies this`role, this`votes, this`term, this`voteResponses
      ensures Injected(old(votes), synthetic, needed) && |synthetic| == needed && term == old(term)
    {
      hide Granted, Grants, AllFrom, Silent, Majority, Elements;
      NoneFrom(Silent(Elements(nodeIds), votes));
      synthetic := [];
      var i := 0;
      while i < |nodeIds| && |synthetic| < needed
        invariant 0 <= i <= |nodeIds| && term == old(term)
        invariant Injected(old(votes), synthetic, needed)
        invariant forall j :: 0 <= j < i ==> nodeIds[j] in votes
        decreases |nodeIds| - i
      {
        synthetic := OfferGrant(nodeIds[i], synthetic, needed, old(votes));
        i := i + 1;
      }
      EveryoneAnswered(nodeIds, votes, i);
    }

    /** Adapter.Deliver of a vote response: raft steps first, then the fault may fire.
        It fires exactly when the faulty quorum is reached before the majority, injects
        exactly the missing grants from silent voters, and always makes a leader: the
        two inconsistencies it guards against cannot happen. */
    method DeliverVote(from: int, messageTerm: nat, reject: bool) returns (outcome: Outcome)
      requires Valid()
      modifies this`role, this`votes, this`term, this`voteTerm, this`voteResponses
      ensures !outcome.InvalidSource? ==> Valid()
      ensures !outcome.InconsistentCount? && !outcome.NotElected?
      ensures outcome.InvalidSource? <==> old(Faulted(messageTerm)) && (from !in nodeIds || from == id)
      ensures outcome.Activated? <==> old(Fires(from, messageTerm, reject))
      ensures outcome.Activated? ==>
                && role == Leader && term == old(term) && Distinct(outcome.synthetic)
                && outcome.actualGrants == old(Grants(VotesWith(from, reject)))
                && outcome.actualGrants + |outcome.synthetic| == Majority(|nodeIds|)
                && Elements(outcome.synthetic) <= old(Silent(Elements(nodeIds), VotesWith(from, reject)))
      ensures outcome.Quiet? && messageTerm == old(term) && old(role).Candidate? ==>
                role == old(Tally(Elements(nodeIds), VotesWith(from, reject)))
    {
      if divisor != WEAKENED_DIVISOR || !role.Candidate? || messageTerm != term {
        VotedKeeps(Elements(nodeIds), votes, from, !reject);
        StepVote(from, messageTerm, !reject);
        return Quiet;
      }
      if from !in nodeIds || from == id {
        StepVote(from, messageTerm, !reject);
        return InvalidSource;
      }
      outcome := DeliverFaulted(from, reject);
    }

    /** The response of another voter to a candidate whose election is faulted. */
    method DeliverFaulted(from: int, reject: bool) returns (outcome: Outcome)
      requires Valid() && Faulted(term) && from in nodeIds && from != id
      modifies this`role, this`votes, this`term, this`voteTerm, this`voteResponses
      ensures Valid() && term == old(term) && (outcome.Quiet? || outcome.Activated?)
      ensures outcome.Activated? <==> old(Fires(from, term, reject))
      ensures outcome.Activated? ==>
                && role == Leader && Distinct(outcome.synthetic)
                && outcome.actualGrants == old(Grants(VotesWith(from, reject)))
                && outcome.actualGrants + |outcome.synthetic| == Majority(|nodeIds|)
                && Elements(outcome.synthetic) <= old(Silent(Elements(nodeIds), VotesWith(from, reject)))
      ensures outcome.Quiet? ==> role == old(Tally(Elements(nodeIds), VotesWith(from, reject)))
    {
      hide Granted, Grants, Silent, Majority, FaultyQuorum;
      assert from in Elements(nodeIds);
      DistinctSize(nodeIds);
      VotedKeeps(Elements(nodeIds), votes, from, !reject);
      ghost var counted := VotesWith(from, reject);
      StepVote(from, term, !reject);
      if voteTerm != term {
        voteTerm, voteResponses := term, map[];
      }
      if from !in voteResponses {
        voteResponses := voteResponses[from := !reject];
      }
      assert votes == counted == voteResponses[id := true];
      var actualGrants := CountGrants();
      if actualGrants < FaultyQuorum(|nodeIds|) || !role.Candidate? {
        return Quiet;
      }
      outcome := Activate(actualGrants);
    }

    /** The response concerns the election this node is running, with the fault on. */
    predicate Faulted(messageTerm: nat)
      reads this
    {
      divisor == WEAKENED_DIVISOR && role.Candidate? && messageTerm == term
    }

    function VotesWith(from: int, reject: bool): map<int, bool>
      reads this
    {
      Voted(Elements(nodeIds), votes, from, !reject)
    }

    predicate Fires(from: int, messageTerm: nat, reject: bool)
      reads this
    {
      && Faulted(messageTerm) && from in nodeIds && from != id
      && FaultyQuorum(|nodeIds|) <= Grants(VotesWith(from, reject))
      && Tally(Elements(nodeIds), VotesWith(from, reject)).Candidate?
    }
  }

  lemma VotedKeeps(voters: set<int>, votes: map<int, bool>, from: int, granted: bool)
    ensures votes.Keys <= voters ==> Voted(voters, votes, from, granted).Keys <= voters
    ensures votes.Keys <= Voted(voters, votes, from, granted).Keys
  {
  }

  lemma KeysGrow(votes: map<int, bool>, voter: int)
    ensures votes[voter := true].Keys == votes.Keys + {voter}
  {
  }

  lemma NoneFrom(some: set<int>)
    ensures AllFrom([], some) && Elements([]) == {}
  {
  }

  ghost predicate AllFrom(list: seq<int>, some: set<int>) {
    Distinct(list) && Elements(list) <= some
  }

  lemma OneMoreFrom(list: seq<int>, voter: int, nodeIds: seq<int>, votes: map<int, bool>)
    requires AllFrom(list, Silent(Elements(nodeIds), votes))
    requires voter in nodeIds && voter !in votes && voter !in Elements(list)
    ensures AllFrom(list + [voter], Silent(Elements(nodeIds), votes)) && Elements(list + [voter]) == Elements(list) + {voter}
  {
    assert voter in Elements(nodeIds);
    assert forall x :: x in list ==> x in Elements(list);
  }

  lemma EveryoneAnswered(nodeIds: seq<int>, votes: map<int, bool>, i: nat)
    requires i <= |nodeIds| && forall j :: 0 <= j < i ==> nodeIds[j] in votes
    ensures i == |nodeIds| ==> Silent(Elements(nodeIds), votes) == {}
  {
    if i == |nodeIds| {
      assert forall v | v in Elements(nodeIds) :: v in votes;
    }
  }
}
