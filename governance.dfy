/** Proposals and majority voting (governance.go), recorded on the chain.

    The subscription service is an oracle that the model does not see inside:
    it is the predicate `CheckActive`, present or absent (Go's nil pointer). */
module Governance {
  import opened Wrappers
  import opened Records
  import Blockchain

  datatype ProposalStatus = Pending | Approved | Rejected

  function StatusName(s: ProposalStatus): string
  {
    match s
    case Pending => "Pending"
    case Approved => "Approved"
    case Rejected => "Rejected"
  }

  /** `Proposal`: `votes` maps a participant to true (approve) or false (reject). */
  datatype Proposal = Proposal(
    id: string,
    title: string,
    description: string,
    proposerID: string,
    createdAt: int,
    status: ProposalStatus,
    votes: map<string, bool>)

  /** The participants who voted to approve. */
  function Approvals(votes: map<string, bool>): set<string>
  {
    set v | v in votes && votes[v]
  }

  /** The participants who voted to reject. */
  function Rejections(votes: map<string, bool>): set<string>
  {
    set v | v in votes && !votes[v]
  }

  /** The status a decided proposal takes: a strict majority approves, a tie rejects. */
  function Decision(votes: map<string, bool>): ProposalStatus
  {
    if |Approvals(votes)| > |Rejections(votes)| then Approved else Rejected
  }

  /** The tally loop of `VoteProposal`, over the votes in any order. */
  method CountVotes(votes: map<string, bool>) returns (approveCount: nat, rejectCount: nat)
    ensures approveCount == |Approvals(votes)| && rejectCount == |Rejections(votes)|
  {
    approveCount, rejectCount := 0, 0;
    var pending := votes.Keys;
    while pending != {}
      invariant pending <= votes.Keys
      invariant approveCount == |Approvals(votes) - pending|
      invariant rejectCount == |Rejections(votes) - pending|
      decreases |pending|
    {
      var v :| v in pending;
      RemovedFromPending(Approvals(votes), pending, v);
      RemovedFromPending(Rejections(votes), pending, v);
      if votes[v] {
        approveCount := approveCount + 1;
      } else {
        rejectCount := rejectCount + 1;
      }
      pending := pending - {v};
    }
    assert Approvals(votes) - pending == Approvals(votes);
    assert Rejections(votes) - pending == Rejections(votes);
  }

  /** Taking `v` out of the uncounted keys counts it in `a` when it belongs there. */
  lemma RemovedFromPending(a: set<string>, pending: set<string>, v: string)
    requires v in pending
    ensures |a - (pending - {v})| == |a - pending| + (if v in a then 1 else 0)
  {
    if v in a {
      assert a - (pending - {v}) == (a - pending) + {v};
    } else {
      assert a - (pending - {v}) == a - pending;
    }
  }

  /** Every vote is counted exactly once. */
  lemma CountsPartition(votes: map<string, bool>)
    ensures |Approvals(votes)| + |Rejections(votes)| == |votes|
  {
    assert Approvals(votes) + Rejections(votes) == votes.Keys;
    assert Approvals(votes) * Rejections(votes) == {};
  }

  /** A decided proposal is approved exactly when more than half of its voters approve. */
  lemma ApprovedIffMajority(votes: map<string, bool>)
    ensures Decision(votes) == Approved <==> 2 * |Approvals(votes)| > |votes|
    ensures Decision(votes) == Rejected <==> 2 * |Rejections(votes)| >= |votes|
  {
    CountsPartition(votes);
  }

  /** The status invariant of a proposal under a vote threshold: pending until
      some vote brings the count to the threshold, and from then on the
      majority decision of the votes cast so far. */
  ghost predicate Settled(p: Proposal, threshold: int)
  {
    if |p.votes| >= threshold && |p.votes| > 0 then p.status == Decision(p.votes)
    else p.status == Pending
  }

  /** The status `VoteProposal` stores after adding a vote. */
  function StatusAfterVote(status: ProposalStatus, votes: map<string, bool>, threshold: int): ProposalStatus
  {
    if |votes| >= threshold then Decision(votes) else status
  }

  /** Recording a fresh vote and recomputing the status keeps a proposal settled. */
  lemma VoteKeepsSettled(p: Proposal, voter: string, approve: bool, threshold: int)
    requires Settled(p, threshold) && voter !in p.votes
    ensures var votes := p.votes[voter := approve];
            Settled(p.(votes := votes, status := StatusAfterVote(p.status, votes, threshold)), threshold)
  {
    assert |p.votes[voter := approve]| == |p.votes| + 1;
  }

  /** Once a settled proposal has any votes and at least `threshold` of them,
      its status is the majority decision; so with a threshold of one or less
      the first vote already decides. */
  lemma SettledDecides(p: Proposal, threshold: int)
    requires Settled(p, threshold) && |p.votes| > 0 && |p.votes| >= threshold
    ensures p.status != Pending
    ensures p.status == Approved <==> 2 * |Approvals(p.votes)| > |p.votes|
  {
    ApprovedIffMajority(p.votes);
  }

  /** Every proposal is stored under its own id and is settled. */
  ghost predicate Consistent(proposals: map<string, Proposal>, threshold: int)
  {
    forall id :: id in proposals ==> proposals[id].id == id && Settled(proposals[id], threshold)
  }

  /** The record `CreateProposal` appends; the vote map of a new proposal is empty. */
  function ProposalRecord(p: Proposal): string
    requires p.votes == map[]
  {
    Json([("ID", Str(p.id)), ("Title", Str(p.title)), ("Description", Str(p.description)),
          ("ProposerID", Str(p.proposerID)), ("CreatedAt", IntToDecimal(p.createdAt)),
          ("Status", Str(StatusName(p.status))), ("Votes", "{}")])
  }

  /** The record `VoteProposal` appends. */
  function VoteRecord(proposalID: string, participantID: string, approve: bool): string
  {
    Json([("ProposalID", Str(proposalID)), ("ParticipantID", Str(participantID)), ("Approve", Bool(approve))])
  }

  /** The number of votes after which `Governance.VoteProposal` decides. */
  const DecisionThreshold := 3

  /** `Governance`: proposals decided by simple majority once three votes are in. */
  class Governance {
    const blockchain: Blockchain.Blockchain
    /** `subscriptionService.CheckActive`, or `None` for a nil service. */
    const subscriptionService: Option<string -> bool>
    var proposals: map<string, Proposal>

    ghost predicate Valid()
      reads this, blockchain
    {
      blockchain.Valid() && Consistent(proposals, DecisionThreshold)
    }

    /** `NewGovernance`; the membership manager it also receives is never consulted. */
    constructor (blockchain: Blockchain.Blockchain, subscriptionService: Option<string -> bool>)
      requires blockchain.Valid()
      ensures Valid() && proposals == map[]
      ensures this.blockchain == blockchain && this.subscriptionService == subscriptionService
    {
      this.blockchain := blockchain;
      this.subscriptionService := subscriptionService;
      proposals := map[];
    }

    /** Whether the subscription service, when there is one, rejects `participant`. */
    predicate Unsubscribed(participant: string)
    {
      subscriptionService.Some? && !subscriptionService.value(participant)
    }

    /** `CreateProposal` with the fresh id and the clock reading passed in.
        A failed append is ignored. */
    method CreateProposal(title: string, description: string, proposerID: string, id: string, now: int)
      returns (r: Result<Proposal>)
      requires Valid()
      modifies this, blockchain
      ensures Valid()
      ensures Unsubscribed(proposerID) ==>
                && r == Err("proposer does not have an active subscription")
                && proposals == old(proposals) && blockchain.blocks == old(blockchain.blocks)
      ensures !Unsubscribed(proposerID) ==>
                && r == Ok(Proposal(id, title, description, proposerID, now, Pending, map[]))
                && proposals == old(proposals)[id := r.value]
                && Blockchain.Appended(blockchain.digest, old(blockchain.blocks), blockchain.blocks, ProposalRecord(r.value), now)
    {
      if Unsubscribed(proposerID) {
        return Err("proposer does not have an active subscription");
      }
      var proposal := Proposal(id, title, description, proposerID, now, Pending, map[]);
      proposals := proposals[id := proposal];
      var _ := blockchain.AddBlock(ProposalRecord(proposal), now);
      r := Ok(proposal);
    }

    /** `VoteProposal`: record the vote, then decide by majority once at least
        three votes are in. A failed append is ignored. */
    method VoteProposal(proposalID: string, participantID: string, approve: bool, now: int)
      returns (o: Outcome)
      requires Valid()
      modifies this, blockchain
      ensures Valid()
      ensures o == if Unsubscribed(participantID) then Fail("participant does not have an active subscription")
                   else if proposalID !in old(proposals) then Fail("proposal not found")
                   else if participantID in old(proposals)[proposalID].votes then Fail("participant already voted")
                   else Pass
      ensures o != Pass ==> proposals == old(proposals) && blockchain.blocks == old(blockchain.blocks)
      ensures o == Pass ==>
                var p := old(proposals)[proposalID];
                var votes := p.votes[participantID := approve];
                && proposals == old(proposals)[proposalID := p.(votes := votes,
                                                               status := StatusAfterVote(p.status, votes, DecisionThreshold))]
                && Blockchain.Appended(blockchain.digest, old(blockchain.blocks), blockchain.blocks,
                                       VoteRecord(proposalID, participantID, approve), now)
    {
      if Unsubscribed(participantID) {
        return Fail("participant does not have an active subscription");
      }
      if proposalID !in proposals {
        return Fail("proposal not found");
      }
      var proposal := proposals[proposalID];
      if participantID in proposal.votes {
        return Fail("participant already voted");
      }
      VoteKeepsSettled(proposal, participantID, approve, DecisionThreshold);
      var votes := proposal.votes[participantID := approve];
      var approveCount, rejectCount := CountVotes(votes);
      var status := proposal.status;
      if |votes| >= DecisionThreshold {
        if approveCount > rejectCount {
          status := Approved;
        } else {
          status := Rejected;
        }
      }
      proposals := proposals[proposalID := proposal.(votes := votes, status := status)];
      var _ := blockchain.AddBlock(VoteRecord(proposalID, participantID, approve), now);
      o := Pass;
    }
  }
}
