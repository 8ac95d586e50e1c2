/** What a round of consensus achieves when its messages arrive, and why quorums alone would not give agreement. */
module Progress {
  import opened Models
  import opened Texts
  import opened Hashing
  import opened Ledger
  import opened Votes
  import opened Protocol
  import Accounting
  import Mempool
  import Runs
  import TipHash

  /** A validator on the same chain that has not seen a digest votes for a block of an honest proposer. */
  lemma VoterApproves(n: Node, id: string, now: Moment, nonce: int, v: Node, voter: string, x: int)
    requires n.ledger.blocks != [] && GetProposer(|n.ledger.blocks|) == id && n.ledger.mempool != []
    requires TipHash.Linked(n.ledger.blocks) && Mempool.Covered(n.ledger) && Mempool.AllChecked(n.ledger)
    requires v.ledger.blocks == n.ledger.blocks && Proposal(n, id, now, nonce).hash !in v.voted
    ensures var b := Proposal(n, id, now, nonce);
            var o := OnProposal(v, voter, b, x);
            && o.sent == {BlockVote(voter, b, Sign(voter, b.hash, x))}
            && o.approvals == {Approval(voter, b.hash, v.ledger.blocks)} && o.committed == None
            && o.node == v.(voted := v.voted + {b.hash})
  {
    hide Mempool.Covered, Mempool.AllChecked, VetAll, StateOf, HashTxs, TipHash.Linked;
    var m := n.ledger.mempool;
    CutIsPrefix(m);
    Mempool.PrefixPasses(n.ledger, |Mempool.Cut(m)|);
    TipHash.IndexIsHeight(n.ledger.blocks, |n.ledger.blocks| - 1);
  }

  lemma CutIsPrefix(m: seq<Transaction>)
    ensures |Mempool.Cut(m)| <= |m| && Mempool.Cut(m) == m[..|Mempool.Cut(m)|]
  {
  }

  /** A sealed proposal is accepted by AddBlock on the chain it was proposed on. */
  lemma SealedAccepted(n: Node, id: string, now: Moment, nonce: int, votes: seq<Text>)
    requires n.ledger.blocks != []
    requires TipHash.Linked(n.ledger.blocks) && Mempool.Covered(n.ledger) && Mempool.AllChecked(n.ledger)
    ensures BlockError(n.ledger.blocks, Sealed(Proposal(n, id, now, nonce), votes)).None?
  {
    hide Mempool.Covered, Mempool.AllChecked, VetAll, StateOf, HashTxs, TipHash.Linked, Join;
    CutIsPrefix(n.ledger.mempool);
    Mempool.PrefixPasses(n.ledger, |Mempool.Cut(n.ledger.mempool)|);
    TipHash.IndexIsHeight(n.ledger.blocks, |n.ledger.blocks| - 1);
  }

  lemma BallotOf(voter: string, hash: Digest, nonce: int)
    ensures VoteText(voter, Sign(voter, hash, nonce)) == Ballot(voter, hash, nonce)
  {
  }

  /** A vote by a validator with none on file yet is filed. */
  lemma VoteIsNew(filed: seq<Text>, hash: Digest, voter: string)
    requires voter in VALIDATORS
    requires forall i :: 0 <= i < |filed| ==> IsBallot(filed[i], hash) && VoterOf(filed[i]) != voter
    ensures !HasVoted(filed, voter)
  {
    forall i | 0 <= i < |filed| ensures !HasPrefix(filed[i], Str(voter) + [Ch(':')]) {
      PrefixIsVoter(filed[i], hash, voter);
    }
  }

  lemma ThreeBallots(hash: Digest, p: string, x: int, a: string, y: int, c: string, z: int)
    requires p in VALIDATORS && a in VALIDATORS && c in VALIDATORS && p != a && a != c && p != c
    ensures Quorum([Ballot(p, hash, x), Ballot(a, hash, y), Ballot(c, hash, z)], hash)
    ensures !HasVoted([Ballot(p, hash, x)], a)
    ensures !HasVoted([Ballot(p, hash, x), Ballot(a, hash, y)], c)
  {
    hide IsBallot, VoterOf, HasVoted, Ballot;
    BallotIs(p, hash, x);
    BallotIs(a, hash, y);
    BallotIs(c, hash, z);
    VoteIsNew([Ballot(p, hash, x)], hash, a);
    VoteIsNew([Ballot(p, hash, x), Ballot(a, hash, y)], hash, c);
  }

  /** The second vote from outside completes the quorum and the proposer commits its block. */
  lemma TwoVotesCommit(n: Node, id: string, now: Moment, nonce: int, a: string, x: int, c: string, y: int)
    requires n.ledger.blocks != [] && GetProposer(|n.ledger.blocks|) == id && n.ledger.mempool != []
    requires TipHash.Linked(n.ledger.blocks) && Mempool.Covered(n.ledger) && Mempool.AllChecked(n.ledger)
    requires a in VALIDATORS && c in VALIDATORS && id != a && a != c && id != c
    ensures var b := Proposal(n, id, now, nonce);
            var block := Sealed(b, [Ballot(id, b.hash, nonce), Ballot(a, b.hash, x), Ballot(c, b.hash, y)]);
            var first := OnVote(Propose(n, id, now, nonce).node, id, a, b, Sign(a, b.hash, x));
            var second := OnVote(first.node, id, c, b, Sign(c, b.hash, y));
            && first.committed == None && first.node.ledger == n.ledger && first.node.voted == n.voted
            && second.committed == Some(block) && second.sent == {BlockCommit(block)}
            && second.node.ledger.blocks == n.ledger.blocks + [block]
            && second.node.ledger == Extend(n.ledger, block) && second.node.voted == n.voted
  {
    hide Mempool.Covered, Mempool.AllChecked, TipHash.Linked, Proposal, BlockError, HasVoted;
    hide Sealed, Ballot, VoteText, Quorum, Without, Sign;
    var b := Proposal(n, id, now, nonce);
    var p := Propose(n, id, now, nonce).node;
    Runs.ProposalIsGood(n, id, now, nonce);
    ThreeBallots(b.hash, id, nonce, a, x, c, y);
    BallotOf(a, b.hash, x);
    BallotOf(c, b.hash, y);
    var one := [Ballot(id, b.hash, nonce)];
    var two := one + [Ballot(a, b.hash, x)];
    assert two == [Ballot(id, b.hash, nonce), Ballot(a, b.hash, x)];
    var three := two + [Ballot(c, b.hash, y)];
    assert three == [Ballot(id, b.hash, nonce), Ballot(a, b.hash, x), Ballot(c, b.hash, y)];
    SealedAccepted(n, id, now, nonce, three);
  }

  /** Any broker still on the chain below takes the committed block. */
  lemma CommitIsTaken(n: Node, id: string, now: Moment, nonce: int, votes: seq<Text>, w: Node)
    requires n.ledger.blocks != [] && GetProposer(|n.ledger.blocks|) == id && w.ledger.blocks == n.ledger.blocks
    requires TipHash.Linked(n.ledger.blocks) && Mempool.Covered(n.ledger) && Mempool.AllChecked(n.ledger)
    requires Quorum(votes, Proposal(n, id, now, nonce).hash)
    ensures var block := Sealed(Proposal(n, id, now, nonce), votes);
            OnCommit(w, block).node.ledger.blocks == n.ledger.blocks + [block]
  {
    hide Mempool.Covered, Mempool.AllChecked, TipHash.Linked, BlockError, VotesAccept, Quorum, Without, HashTxs;
    var block := Sealed(Proposal(n, id, now, nonce), votes);
    SealedAccepted(n, id, now, nonce, votes);
    assert HashBlock(block) == Proposal(n, id, now, nonce).hash;
    QuorumAccepted(block, votes);
  }

  /**
   * A round: a proposer with pending transactions and two validators on its chain commit a block of the
   * first pending transactions, and every broker on that chain that receives the commit adds it.
   */
  lemma RoundCommits(n: Node, id: string, now: Moment, nonce: int,
                     va: Node, a: string, x: int, vc: Node, c: string, y: int, w: Node) returns (block: Block)
    requires n.ledger.blocks != [] && GetProposer(|n.ledger.blocks|) == id
    requires Mempool.Ready(n.ledger) && n.ledger.mempool != []
    requires a in VALIDATORS && c in VALIDATORS && id != a && a != c && id != c
    requires va.ledger.blocks == vc.ledger.blocks == w.ledger.blocks == n.ledger.blocks
    requires Proposal(n, id, now, nonce).hash !in va.voted + vc.voted
    ensures var b := Proposal(n, id, now, nonce);
            && Propose(n, id, now, nonce).sent == {BlockProposal(b)}
            && exists sa, sc ::
                 && BlockVote(a, b, sa) in OnProposal(va, a, b, x).sent
                 && BlockVote(c, b, sc) in OnProposal(vc, c, b, y).sent
                 && var first := OnVote(Propose(n, id, now, nonce).node, id, a, b, sa);
                    var second := OnVote(first.node, id, c, b, sc);
                    && second.sent == {BlockCommit(block)}
                    && second.node.ledger.blocks == n.ledger.blocks + [block]
    ensures block.transactions == Mempool.Cut(n.ledger.mempool)
    ensures OnCommit(w, block).node.ledger.blocks == n.ledger.blocks + [block]
  {
    hide Mempool.Covered, Mempool.AllChecked, Mempool.IdsFresh, Mempool.DistinctIds, TipHash.Linked;
    hide Propose, OnProposal, OnVote, OnCommit;
    hide Quorum, Ballot, HashBlock;
    var b := Proposal(n, id, now, nonce);
    var votes := [Ballot(id, b.hash, nonce), Ballot(a, b.hash, x), Ballot(c, b.hash, y)];
    block := Sealed(b, votes);
    VoterApproves(n, id, now, nonce, va, a, x);
    VoterApproves(n, id, now, nonce, vc, c, y);
    TwoVotesCommit(n, id, now, nonce, a, x, c, y);
    ProposerName(n);
    ThreeBallots(b.hash, id, nonce, a, x, c, y);
    CommitIsTaken(n, id, now, nonce, votes, w);
    ProposeSends(n, id, now, nonce);
  }

  // --- A round that can happen -------------------------------------------------------------

  /** The registration of a company by the holder of a key. */
  function Registration(key: string, name: string): Transaction {
    var draft := Transaction(Literal(""), Register, GetAddress(key), "", key, 0, "", "", name, [], 0, 0);
    WithId(draft).(signature := [Seal(key, HashTx(draft), 0)])
  }

  lemma RegistrationAdmitted(key: string, name: string)
    requires name != ""
    ensures Admit(Chain([Genesis()], []), Registration(key, name)) == Chain([Genesis()], [Registration(key, name)])
  {
    hide StateOf, HashTx, Genesis, GetAddress;
    var t := Registration(key, name);
    RegistrationSigned(key, name);
    Accounting.GenesisIdsLiteral(t.id);
  }

  lemma RegistrationSigned(key: string, name: string)
    ensures var t := Registration(key, name);
            && t.id == HashTx(t) && t.id.TxDigest? && WithId(t) == t && AuthError(t) == None
            && t.kind == Register && t.payload == name && t.amount == 0
  {
    assert HashTx(Registration(key, name)) == Registration(key, name).id;
  }

  lemma ReadyAfter(c: Chain, tx: Transaction)
    requires Mempool.Ready(c) && tx.amount >= 0
    ensures Mempool.Ready(Admit(c, tx))
  {
    hide Mempool.IdsFresh, Mempool.Covered, Mempool.AllChecked, TipHash.Linked, Mempool.DistinctIds, AdmitError;
    Mempool.AdmitKeepsIds(c, tx);
    Mempool.AdmitKeepsCovered(c, tx);
  }

  lemma ProposerName(n: Node)
    ensures GetProposer(|n.ledger.blocks|) in VALIDATORS
  {
  }

  lemma ProposeSends(n: Node, id: string, now: Moment, nonce: int)
    requires n.ledger.blocks != [] && GetProposer(|n.ledger.blocks|) == id && n.ledger.mempool != []
    ensures Propose(n, id, now, nonce).sent == {BlockProposal(Proposal(n, id, now, nonce))}
  {
    hide Proposal;
  }

  /**
   * A validator that approved a block approves any re-proposal of it in another second as well: votes are
   * remembered by digest, so one validator may back two blocks of one height.
   */
  lemma VotersMayApproveTwice(n: Node, id: string, b: Block, later: Moment, x: int, y: int, z: int)
    returns (again: Block)
    requires n.ledger.blocks != [] && Approves(n, b) && b.hash == HashBlock(b) && b.hash !in n.voted
    requires later.second != b.timestamp.second
    requires HashBlock(b.(timestamp := later)) !in n.voted
    ensures again.index == b.index && HashBlock(again) != HashBlock(b)
    ensures var first := OnProposal(n, id, b, x);
            && first.approvals == {Approval(id, HashBlock(b), n.ledger.blocks)}
            && OnProposal(first.node, id, again, y).approvals == {Approval(id, HashBlock(again), n.ledger.blocks)}
  {
    hide VetAll, StateOf, HashTxs;
    again := SignBlock(b.(timestamp := later), b.validator, z);
    assert HashBlock(again) == HashBlock(b.(timestamp := later));
  }
}
