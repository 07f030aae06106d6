/** `EnhancedGovernance` (blockchain_governance.go): the voting of governance.go
    with a configurable quorum instead of the fixed three votes, no
    subscription check, and a timestamp in each vote record. */
module EnhancedGovernance {
  import opened Wrappers
  import opened Records
  import opened Governance
  import Blockchain

  /** The record `EnhancedGovernance.VoteProposal` appends. */
  function TimedVoteRecord(proposalID: string, participantID: string, approve: bool, now: int): string
  {
    Json([("ProposalID", Str(proposalID)), ("ParticipantID", Str(participantID)),
          ("Approve", Bool(approve)), ("Timestamp", IntToDecimal(now))])
  }

  class EnhancedGovernance {
    const blockchain: Blockchain.Blockchain
    const quorum: int
    var proposals: map<string, Proposal>

    ghost predicate Valid()
      reads this, blockchain
    {
      blockchain.Valid() && Consistent(proposals, quorum)
    }

    /** `NewEnhancedGovernance`; any quorum is accepted, zero and negative included. */
    constructor (blockchain: Blockchain.Blockchain, quorum: int)
      requires blockchain.Valid()
      ensures Valid() && proposals == map[]
      ensures this.blockchain == blockchain && this.quorum == quorum
    {
      this.blockchain := blockchain;
      this.quorum := quorum;
      proposals := map[];
    }

    /** `CreateProposal`, with the id `generateID` would produce passed in.
        It never fails; a failed append is ignored. */
    method CreateProposal(title: string, description: string, proposerID: string, id: string, now: int)
      returns (p: Proposal)
      requires Valid()
      modifies this, blockchain
      ensures Valid()
      ensures p == Proposal(id, title, description, proposerID, now, Pending, map[])
      ensures proposals == old(proposals)[id := p]
      ensures Blockchain.Appended(blockchain.digest, old(blockchain.blocks), blockchain.blocks, ProposalRecord(p), now)
    {
      p := Proposal(id, title, description, proposerID, now, Pending, map[]);
      proposals := proposals[id := p];
      var _ := blockchain.AddBlock(ProposalRecord(p), now);
    }

    /** `VoteProposal`: record the vote, then decide by majority once the
        number of votes reaches the quorum. A failed append is ignored. */
    method VoteProposal(proposalID: string, participantID: string, approve: bool, now: int)
      returns (o: Outcome)
      requires Valid()
      modifies this, blockchain
      ensures Valid()
      ensures o == if proposalID !in old(proposals) then Fail("proposal not found")
                   else if participantID in old(proposals)[proposalID].votes then Fail("participant already voted")
                   else Pass
      ensures o != Pass ==> proposals == old(proposals) && blockchain.blocks == old(blockchain.blocks)
      ensures o == Pass ==>
                var p := old(proposals)[proposalID];
                var votes := p.votes[participantID := approve];
                && proposals == old(proposals)[proposalID := p.(votes := votes,
                                                               status := StatusAfterVote(p.status, votes, quorum))]
                && Blockchain.Appended(blockchain.digest, old(blockchain.blocks), blockchain.blocks,
                                       TimedVoteRecord(proposalID, participantID, approve, now), now)
    {
      if proposalID !in proposals {
        return Fail("proposal not found");
      }
      var proposal := proposals[proposalID];
      if participantID in proposal.votes {
        return Fail("participant already voted");
      }
      VoteKeepsSettled(proposal, participantID, approve, quorum);
      var votes := proposal.votes[participantID := approve];
      var approveCount, rejectCount := CountVotes(votes);
      var status := proposal.status;
      if |votes| >= quorum {
        if approveCount > rejectCount {
          status := Approved;
        } else {
          status := Rejected;
        }
      }
      proposals := proposals[proposalID := proposal.(votes := votes, status := status)];
      var _ := blockchain.AddBlock(TimedVoteRecord(proposalID, participantID, approve, now), now);
      o := Pass;
    }
  }
}
