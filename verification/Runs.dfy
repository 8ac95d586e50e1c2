/** Every event keeps the invariant; agreement, growth and certification for every run from the initial system. */
module Runs {
  import opened Models
  import opened Texts
  import opened Hashing
  import opened Ledger
  import opened Votes
  import opened Protocol
  import opened Agreement
  import Accounting
  import TipHash
  import Heap

  // --- Steps of one broker -----------------------------------------------------------------

  lemma WithNodeGrows(s: Sys, b: string, o: NodeOut)
    requires Brokers(s) && b in VALIDATORS && o.node.ledger.blocks != [] && o.node.saved.blocks != []
    requires ChainOf(s, b) <= o.node.ledger.blocks
    ensures Grows(s, WithNode(s, b, o))
  {
  }

  /** What a node step must keep for the invariant to survive it. */
  lemma NodeStep(s: Sys, b: string, o: NodeOut)
    requires Brokers(s) && Inv(s) && b in VALIDATORS && o.node.ledger.blocks != [] && o.node.saved.blocks != []
    requires ChainOf(s, b) <= o.node.ledger.blocks
    requires var t := WithNode(s, b, o);
             && NodeOk(t, o.node)
             && (forall m :: m in o.sent ==> MsgOk(t, m))
             && (forall a :: a in o.approvals ==> BaseOk(t, a.hash, a.base))
    ensures Inv(WithNode(s, b, o)) && Grows(s, WithNode(s, b, o))
  {
    hide Inv, Grows, NodeOk, MsgOk, BaseOk;
    WithNodeGrows(s, b, o);
    InvStep(s, WithNode(s, b, o), b);
  }

  /** A step that keeps the chain and files votes under one digest. */
  lemma FilingStep(s: Sys, b: string, o: NodeOut, hash: Digest, votes: seq<Text>)
    requires Brokers(s) && Inv(s) && b in VALIDATORS && o.node.ledger.blocks == ChainOf(s, b)
    requires o.node.saved == s.nodes[b].saved && o.node.saved.blocks != []
    requires o.node.votes == s.nodes[b].votes || o.node.votes == s.nodes[b].votes[hash := votes]
    requires var t := WithNode(s, b, o);
             && ApprovedBallots(t, votes, hash)
             && (forall m :: m in o.sent ==> MsgOk(t, m))
             && (forall a :: a in o.approvals ==> BaseOk(t, a.hash, a.base))
    ensures Inv(WithNode(s, b, o)) && Grows(s, WithNode(s, b, o))
  {
    hide Inv, Grows, MsgOk, BaseOk, Whole, ApprovedBallots;
    var t := WithNode(s, b, o);
    WithNodeGrows(s, b, o);
    NodeOf(s, b);
    WholeGrows(s, t, ChainOf(s, b));
    FiledGrows(s, t, s.nodes[b].votes);
    NodeStep(s, b, o);
  }

  lemma QuietKeeps(s: Sys, b: string, m: Node)
    requires Brokers(s) && Inv(s) && b in VALIDATORS && m.saved.blocks != []
    requires m.ledger.blocks == ChainOf(s, b) == m.saved.blocks
    requires m.votes == s.nodes[b].votes || m.votes == map[]
    ensures Inv(WithNode(s, b, Quiet(m))) && Grows(s, WithNode(s, b, Quiet(m)))
  {
    hide Inv, Grows, MsgOk, BaseOk, Whole, ApprovedBallots;
    NodeOf(s, b);
    var t := WithNode(s, b, Quiet(m));
    WithNodeGrows(s, b, Quiet(m));
    WholeGrows(s, t, ChainOf(s, b));
    FiledGrows(s, t, m.votes);
    NodeStep(s, b, Quiet(m));
  }

  predicate OnTheDesk(m: Msg) {
    !m.BlockProposal? && !m.BlockVote? && !m.BlockCommit? && !m.ChainResponse? && !m.TxBroadcast?
  }

  /** The broker's own transaction enters its mempool and the network; no chain changes. */
  lemma PublishKeeps(s: Sys, b: string, laudo: Option<Transaction>)
    requires Brokers(s) && Inv(s) && b in VALIDATORS
    ensures var t := WithNode(s, b, PublishLaudo(s.nodes[b], laudo)); Inv(t) && Grows(s, t)
  {
    hide Inv, Grows, BaseOk, Whole, Filed, Admit, AdmitError;
    var n := s.nodes[b];
    NodeOf(s, b);
    var o := PublishLaudo(n, laudo);
    var t := WithNode(s, b, o);
    AdmitKeepsVotes(n, laudo);
    WithNodeGrows(s, b, o);
    WholeGrows(s, t, ChainOf(s, b));
    FiledGrows(s, t, n.votes);
    NodeStep(s, b, o);
  }

  lemma AdmitKeepsVotes(n: Node, laudo: Option<Transaction>)
    requires n.ledger.blocks != []
    ensures var o := PublishLaudo(n, laudo);
            && o.node.votes == n.votes && o.approvals == {} && o.committed == None
            && forall m :: m in o.sent ==> m.TxBroadcast?
  {
    hide Admit, AdmitError;
  }

  /** Steps of the desk leave the nodes alone and send nothing that consensus reads. */
  lemma DeskStep(s: Sys, b: string, o: DeskOut)
    requires Brokers(s) && Inv(s) && b in VALIDATORS
    requires forall m :: m in o.sent ==> OnTheDesk(m)
    ensures Inv(WithDesk(s, b, o)) && Grows(s, WithDesk(s, b, o))
  {
    hide Inv, NodeOk, BaseOk;
    var t := WithDesk(s, b, o);
    assert Grows(s, t);
    NodeOf(s, b);
    NodeGrows(s, t, s.nodes[b]);
    InvStep(s, t, b);
  }

  // --- Votes -------------------------------------------------------------------------------

  /** A ballot of a voter that has not voted yet keeps the voters distinct. */
  lemma AddBallot(s: Sys, votes: seq<Text>, hash: Digest, v: string, nonce: int)
    requires Brokers(s) && v in VALIDATORS
    requires ApprovedBallots(s, votes, hash) && Approved(s, v, hash) && !HasVoted(votes, v)
    ensures ApprovedBallots(s, votes + [Ballot(v, hash, nonce)], hash)
  {
    hide Approved;
    BallotIs(v, hash, nonce);
    forall i | 0 <= i < |votes| ensures VoterOf(votes[i]) != v {
      PrefixIsVoter(votes[i], hash, v);
    }
  }

  /** Everybody who approved a block for the height of `below` did so on that chain. */
  lemma SameBase(s: Sys, voter: string, hash: Digest, below: seq<Block>)
    requires Brokers(s) && Approved(s, voter, hash) && Canonical(s, below)
    requires hash.BlockDigest? && hash.index == |below|
    ensures Approval(voter, hash, below) in s.log
  {
    var base :| Approval(voter, hash, base) in s.log && BaseOk(s, hash, base);
    CanonicalAgree(s, base, below);
    assert base == below;
  }

  lemma AllOnSameBase(s: Sys, votes: seq<Text>, hash: Digest, below: seq<Block>)
    requires Brokers(s) && ApprovedBallots(s, votes, hash) && Canonical(s, below)
    requires hash.BlockDigest? && hash.index == |below|
    ensures AllApprovedOn(s, votes, hash, below)
  {
    hide Approved, Canonical;
    forall i | 0 <= i < |votes| ensures Approval(VoterOf(votes[i]), hash, below) in s.log {
      SameBase(s, VoterOf(votes[i]), hash, below);
    }
  }

  // --- Proposals and approvals ----------------------------------------------------------------

  lemma ApprovalNow(s: Sys, voter: string, hash: Digest, base: seq<Block>)
    requires Brokers(s) && Approval(voter, hash, base) in s.log
    requires Canonical(s, base) && hash.BlockDigest? && hash.index == |base|
    ensures BaseOk(s, hash, base) && Approved(s, voter, hash)
  {
  }

  lemma CanonicalAfter(s: Sys, b: string, o: NodeOut)
    requires Brokers(s) && Inv(s) && b in VALIDATORS && o.node.ledger.blocks == ChainOf(s, b)
    requires o.node.saved.blocks != []
    ensures Canonical(WithNode(s, b, o), ChainOf(s, b))
  {
    hide Inv, Grows, Canonical;
    NodeOf(s, b);
    WithNodeGrows(s, b, o);
    CanonicalGrows(s, WithNode(s, b, o), ChainOf(s, b));
  }

  lemma ProposalIsGood(n: Node, id: string, now: Moment, nonce: int)
    requires n.ledger.blocks != [] && GetProposer(|n.ledger.blocks|) == id && id in VALIDATORS
    ensures var b := Proposal(n, id, now, nonce);
            && GoodProposal(b) && b.hash.BlockDigest? && b.hash.index == |n.ledger.blocks|
            && VoteText(id, b.signature) == Ballot(id, b.hash, nonce)
  {
  }

  lemma ProposeKeeps(s: Sys, id: string, now: Moment, nonce: int)
    requires Brokers(s) && Inv(s) && id in VALIDATORS
    ensures var t := WithNode(s, id, Propose(s.nodes[id], id, now, nonce)); Inv(t) && Grows(s, t)
  {
    hide Inv, Grows, WithNode, Proposal, Whole, Filed;
    var n := s.nodes[id];
    NodeOf(s, id);
    if GetProposer(|n.ledger.blocks|) != id || n.ledger.mempool == [] {
      QuietKeeps(s, id, n);
    } else {
      ProposalIsGood(n, id, now, nonce);
      ProposedKeeps(s, id, Proposal(n, id, now, nonce), nonce);
    }
  }

  lemma ProposedKeeps(s: Sys, id: string, b: Block, nonce: int)
    requires Brokers(s) && Inv(s) && id in VALIDATORS && GoodProposal(b)
    requires b.hash.BlockDigest? && b.hash.index == |ChainOf(s, id)|
    requires VoteText(id, b.signature) == Ballot(id, b.hash, nonce)
    ensures s.nodes[id].saved.blocks != []
    ensures var n := s.nodes[id];
            var t := WithNode(s, id, NodeOut(n.(votes := n.votes[b.hash := [VoteText(id, b.signature)]]),
                                             {BlockProposal(b)}, {Approval(id, b.hash, n.ledger.blocks)}, None));
            Inv(t) && Grows(s, t)
  {
    hide Inv, Grows, Canonical, BaseOk, GoodProposal, Approved, IsBallot, Ballot, VoteText, VoterOf;
    var n := s.nodes[id];
    var own := [VoteText(id, b.signature)];
    var o := NodeOut(n.(votes := n.votes[b.hash := own]),
                     {BlockProposal(b)}, {Approval(id, b.hash, n.ledger.blocks)}, None);
    BallotIs(id, b.hash, nonce);
    CanonicalAfter(s, id, o);
    ApprovalNow(WithNode(s, id, o), id, b.hash, n.ledger.blocks);
    FilingStep(s, id, o, b.hash, own);
  }

  lemma ApprovedIsNext(blocks: seq<Block>, n: Node, b: Block)
    requires n.ledger.blocks == blocks && Accounting.Reached(blocks) && Approves(n, b)
    ensures HashBlock(b).BlockDigest? && HashBlock(b).index == |blocks|
  {
    hide Accounting.Reached;
    TipIndex(blocks);
  }

  lemma OnProposalKeeps(s: Sys, id: string, b: Block, nonce: int)
    requires Brokers(s) && Inv(s) && id in VALIDATORS && BlockProposal(b) in s.net
    ensures var t := WithNode(s, id, OnProposal(s.nodes[id], id, b, nonce)); Inv(t) && Grows(s, t)
  {
    hide Inv, Grows, Canonical, BaseOk, Approved, Approves, HashBlock, Accounting.Reached, Certified, Filed;
    var n := s.nodes[id];
    var o := OnProposal(n, id, b, nonce);
    var t := WithNode(s, id, o);
    NodeOf(s, id);
    MsgOf(s, BlockProposal(b));
    if !Approves(n, b) || b.hash in n.voted {
      QuietKeeps(s, id, n);
    } else {
      ApprovedIsNext(n.ledger.blocks, n, b);
      CanonicalAfter(s, id, o);
      ApprovalNow(t, id, b.hash, n.ledger.blocks);
      FilingStep(s, id, o, b.hash, []);
    }
  }

  // --- Votes and the proposer's commit ----------------------------------------------------------

  lemma NoBallots(s: Sys, votes: map<Digest, seq<Text>>, hash: Digest)
    requires Brokers(s) && Filed(s, votes)
    ensures ApprovedBallots(s, if hash in votes then votes[hash] else [], hash)
  {
  }

  /** The votes on file once the vote of `voter` has been taken. */
  lemma FiledBallots(s: Sys, id: string, voter: string, b: Block, sig: Text)
    requires Brokers(s) && Inv(s) && id in VALIDATORS && BlockVote(voter, b, sig) in s.net
    requires !HasVoted(VotesFor(s.nodes[id], b.hash), voter)
    ensures ApprovedBallots(s, VotesFor(s.nodes[id], b.hash) + [VoteText(voter, sig)], b.hash)
    ensures GoodProposal(b)
  {
    hide Inv, Approved, ApprovedBallots, HasVoted, GoodProposal, Filed;
    MsgOf(s, BlockVote(voter, b, sig));
    NodeOf(s, id);
    NoBallots(s, s.nodes[id].votes, b.hash);
    AddBallot(s, VotesFor(s.nodes[id], b.hash), b.hash, voter, sig[0].nonce);
  }

  lemma FileVote(s: Sys, id: string, hash: Digest, votes: seq<Text>)
    requires Brokers(s) && Inv(s) && id in VALIDATORS && ApprovedBallots(s, votes, hash)
    ensures var n := s.nodes[id];
            var t := WithNode(s, id, Quiet(n.(votes := n.votes[hash := votes])));
            Inv(t) && Grows(s, t)
  {
    hide Inv, Grows, ApprovedBallots;
    var n := s.nodes[id];
    var o := Quiet(n.(votes := n.votes[hash := votes]));
    WithNodeGrows(s, id, o);
    BallotsGrow(s, WithNode(s, id, o), votes, hash);
    FilingStep(s, id, o, hash, votes);
  }

  /** The block that a proposer commits is certified on its own chain. */
  lemma SealedIsCertified(s: Sys, b: Block, votes: seq<Text>, below: seq<Block>)
    requires Brokers(s) && GoodProposal(b) && ApprovedBallots(s, votes, b.hash) && |votes| >= QUORUM
    requires Canonical(s, below) && b.index == |below|
    ensures CertifiedOn(s, Sealed(b, votes), below)
  {
    hide Canonical, VotesAccept, Approved;
    var block := Sealed(b, votes);
    assert HashBlock(block) == HashBlock(b) == b.hash;
    QuorumAccepted(block, votes);
    AllOnSameBase(s, votes, b.hash, below);
    assert Quorum(votes, block.hash) && AllApprovedOn(s, votes, block.hash, below);
  }

  lemma CertifiedAppend(s: Sys, blocks: seq<Block>, b: Block)
    requires Certified(s, blocks) && CertifiedOn(s, b, blocks)
    ensures Certified(s, blocks + [b])
  {
    hide CertifiedOn;
    var more := blocks + [b];
    forall h | 1 <= h < |more| ensures CertifiedOn(s, more[h], more[..h]) {
      if h < |blocks| {
        assert more[..h] == blocks[..h] && more[h] == blocks[h];
      } else {
        assert more[..h] == blocks;
      }
    }
  }

  /** After the proposer of the next height has added a block, its chain is canonical again. */
  lemma ProposerCommit(s: Sys, id: string, b: Block, o: NodeOut)
    requires Brokers(s) && id in VALIDATORS && Canonical(s, ChainOf(s, id))
    requires o.node.ledger.blocks == ChainOf(s, id) + [b]
    requires o.node.saved.blocks != [] && GetProposer(|ChainOf(s, id)|) == id
    ensures Grows(s, WithNode(s, id, o))
    ensures Canonical(WithNode(s, id, o), ChainOf(s, id) + [b])
    ensures OnRecord(WithNode(s, id, o), b, |ChainOf(s, id)|)
  {
    var t, chain := WithNode(s, id, o), ChainOf(s, id);
    WithNodeGrows(s, id, o);
    CanonicalGrows(s, t, chain);
    RecordedNext(t, chain, b);
  }

  lemma WholeCommit(s: Sys, t: Sys, b: Block, votes: seq<Text>, chain: seq<Block>)
    requires Brokers(s) && Brokers(t) && Grows(s, t) && Whole(s, chain) && GoodProposal(b)
    requires ApprovedBallots(s, votes, b.hash) && |votes| >= QUORUM && BlockError(chain, Sealed(b, votes)).None?
    requires b.index == |chain| && Canonical(t, chain + [Sealed(b, votes)])
    ensures Whole(t, chain + [Sealed(b, votes)])
  {
    hide Grows, Accounting.Reached, Canonical, Certified, GoodProposal, ApprovedBallots, BlockError, Sealed;
    SealedIsCertified(s, b, votes, chain);
    CertifiedAppend(s, chain, Sealed(b, votes));
    CertifiedGrows(s, t, chain + [Sealed(b, votes)]) by { LogGrows(s, t); }
    Accounting.ReachedAppend(chain, Sealed(b, votes));
  }

  lemma LogGrows(s: Sys, t: Sys)
    requires Brokers(s) && Brokers(t) && Grows(s, t)
    ensures s.log <= t.log
  {
  }

  lemma SealedIsNext(chain: seq<Block>, b: Block, votes: seq<Text>)
    requires Accounting.Reached(chain) && BlockError(chain, Sealed(b, votes)).None?
    ensures b.index == |chain|
  {
    hide Accounting.Reached;
    TipIndex(chain);
  }

  lemma FiledLess(s: Sys, votes: map<Digest, seq<Text>>, hash: Digest, more: seq<Text>)
    requires Brokers(s) && Filed(s, votes)
    ensures Filed(s, votes[hash := more] - {hash})
  {
    hide ApprovedBallots;
  }

  /** The proposer's own commit. */
  lemma CommitKeeps(s: Sys, id: string, b: Block, votes: seq<Text>)
    requires Brokers(s) && Inv(s) && id in VALIDATORS && GoodProposal(b) && b.validator == id
    requires ApprovedBallots(s, votes, b.hash) && |votes| >= QUORUM
    requires BlockError(ChainOf(s, id), Sealed(b, votes)).None?
    ensures var n, block := s.nodes[id], Sealed(b, votes);
            var c := Extend(n.ledger, block);
            var n1 := n.(votes := n.votes[b.hash := votes]);
            var o := NodeOut(Node(c, c, n.voted, n1.votes - {b.hash}), {BlockCommit(block)}, {}, Some(block));
            Inv(WithNode(s, id, o)) && Grows(s, WithNode(s, id, o))
  {
    hide Inv, Grows, Accounting.Reached, Canonical, Certified, ApprovedBallots, BlockError, Filed;
    var n, block, chain := s.nodes[id], Sealed(b, votes), ChainOf(s, id);
    var c := Extend(n.ledger, block);
    var n1 := n.(votes := n.votes[b.hash := votes]);
    var o := NodeOut(Node(c, c, n.voted, n1.votes - {b.hash}), {BlockCommit(block)}, {}, Some(block));
    var t := WithNode(s, id, o);
    NodeOf(s, id);
    SealedIsNext(chain, b, votes);
    ProposerCommit(s, id, block, o);
    WholeCommit(s, t, b, votes, chain);
    FiledLess(s, n.votes, b.hash, votes);
    FiledGrows(s, t, o.node.votes);
    NodeStep(s, id, o);
  }

  lemma OnVoteKeeps(s: Sys, id: string, voter: string, b: Block, sig: Text)
    requires Brokers(s) && Inv(s) && id in VALIDATORS && BlockVote(voter, b, sig) in s.net
    ensures var t := WithNode(s, id, OnVote(s.nodes[id], id, voter, b, sig)); Inv(t) && Grows(s, t)
  {
    hide Inv, Grows, GoodProposal, ApprovedBallots, HasVoted, VoteText, Sealed;
    hide BlockError, Extend, Whole, Filed, WithNode;
    var n := s.nodes[id];
    var filed := VotesFor(n, b.hash);
    NodeOf(s, id);
    if b.validator != id || HasVoted(filed, voter) {
      QuietKeeps(s, id, n);
    } else {
      var votes := filed + [VoteText(voter, sig)];
      FiledBallots(s, id, voter, b, sig);
      if |votes| < QUORUM || BlockError(n.ledger.blocks, Sealed(b, votes)).Some? {
        FileVote(s, id, b.hash, votes);
      } else {
        CommitKeeps(s, id, b, votes);
      }
    }
  }

  // --- Commits of others and chain adoption --------------------------------------------------------

  /** A canonical chain has all the qualities of a broker's chain. */
  lemma CanonicalIsWhole(s: Sys, x: seq<Block>)
    requires Brokers(s) && Inv(s) && Canonical(s, x)
    ensures Whole(s, x)
  {
    hide Inv, Canonical, Certified, Accounting.Reached, Filed;
    var b := CanonicalIsPrefix(s, x);
    var y := ChainOf(s, b);
    NodeOf(s, b);
    NotEmpty(s, x);
    Accounting.ReachedPrefix(y, |x|);
    assert y[..|x|] == x;
    CertifiedPrefix(s, y, x);
  }

  lemma NotEmpty(s: Sys, x: seq<Block>)
    requires Brokers(s) && Canonical(s, x)
    ensures x != []
  {
  }

  /** Moving to a canonical chain that is at least as long keeps the invariant. */
  lemma AdoptKeeps(s: Sys, id: string, o: NodeOut)
    requires Brokers(s) && Inv(s) && id in VALIDATORS && o.sent == {} && o.approvals == {}
    requires o.node.saved.blocks == o.node.ledger.blocks && o.node.votes == s.nodes[id].votes
    requires |o.node.ledger.blocks| >= |ChainOf(s, id)| && Canonical(s, o.node.ledger.blocks)
    ensures o.node.ledger.blocks != []
    ensures Inv(WithNode(s, id, o)) && Grows(s, WithNode(s, id, o))
  {
    hide Inv, Canonical, Certified, Accounting.Reached, Filed, Grows;
    var x := o.node.ledger.blocks;
    NodeOf(s, id);
    NotEmpty(s, x);
    CanonicalAgree(s, ChainOf(s, id), x);
    CanonicalIsWhole(s, x);
    WithNodeGrows(s, id, o);
    NodeGrows(s, WithNode(s, id, o), o.node);
    NodeStep(s, id, o);
  }

  /** A recorded block continues a canonical chain canonically. */
  lemma RecordedNext(s: Sys, chain: seq<Block>, b: Block)
    requires Brokers(s) && Canonical(s, chain) && OnRecord(s, b, |chain|)
    ensures Canonical(s, chain + [b])
  {
    forall h | 0 <= h < |chain| + 1 ensures OnRecord(s, (chain + [b])[h], h) {
      assert h < |chain| ==> OnRecord(s, chain[h], h);
    }
  }

  lemma AcceptedIsNext(chain: seq<Block>, b: Block)
    requires Accounting.Reached(chain) && BlockError(chain, b).None?
    ensures b.index == |chain|
  {
    hide Accounting.Reached;
    TipIndex(chain);
  }

  lemma OnCommitKeeps(s: Sys, id: string, b: Block)
    requires Brokers(s) && Inv(s) && id in VALIDATORS && BlockCommit(b) in s.net
    ensures var t := WithNode(s, id, OnCommit(s.nodes[id], b)); Inv(t) && Grows(s, t)
  {
    hide Inv, Grows, VotesAccept, BlockError, OnRecord, Canonical, Certified, Accounting.Reached, Filed;
    var n := s.nodes[id];
    NodeOf(s, id);
    MsgOf(s, BlockCommit(b));
    if !VotesAccept(b) || BlockError(n.ledger.blocks, b).Some? {
      QuietKeeps(s, id, n);
    } else {
      AcceptedIsNext(n.ledger.blocks, b);
      RecordedNext(s, n.ledger.blocks, b);
      AdoptKeeps(s, id, OnCommit(n, b).(committed := None));
      AdoptKeeps(s, id, OnCommit(n, b));
    }
  }

  lemma OnChainKeeps(s: Sys, id: string, blocks: seq<Block>)
    requires Brokers(s) && Inv(s) && id in VALIDATORS && ChainResponse(blocks) in s.net
    ensures var t := WithNode(s, id, OnChain(s.nodes[id], blocks)); Inv(t) && Grows(s, t)
  {
    hide Inv, Grows, Canonical, Whole, Filed;
    var n := s.nodes[id];
    NodeOf(s, id);
    MsgOf(s, ChainResponse(blocks));
    if OnChain(n, blocks) == Quiet(n) {
      QuietKeeps(s, id, n);
    } else {
      AdoptKeeps(s, id, OnChain(n, blocks));
    }
  }

  lemma AnswerKeeps(s: Sys, id: string)
    requires Brokers(s) && Inv(s) && id in VALIDATORS
    ensures var t := Send(s, ChainResponse(ChainOf(s, id))); Inv(t) && Grows(s, t)
  {
    hide Inv, Canonical, Whole, Filed, NodeOk, BaseOk;
    var t := Send(s, ChainResponse(ChainOf(s, id)));
    assert Grows(s, t);
    NodeOf(s, id);
    NodeGrows(s, t, s.nodes[id]);
    WholeGrows(s, t, ChainOf(s, id));
    CanonicalOf(t, ChainOf(s, id));
    InvStep(s, t, id);
  }

  lemma CanonicalOf(s: Sys, blocks: seq<Block>)
    requires Brokers(s) && Whole(s, blocks)
    ensures Canonical(s, blocks)
  {
  }

  lemma RestartKeeps(s: Sys, id: string)
    requires Brokers(s) && Inv(s) && id in VALIDATORS
    ensures var t := WithDesk(WithNode(s, id, Quiet(Reload(s.nodes[id]))), id, Calm(EMPTY_DESK));
            Inv(t) && Grows(s, t)
  {
    hide Inv, Grows, Whole, Filed;
    NodeOf(s, id);
    var u := WithNode(s, id, Quiet(Reload(s.nodes[id])));
    QuietKeeps(s, id, Reload(s.nodes[id]));
    DeskStep(u, id, Calm(EMPTY_DESK));
    GrowsTrans(s, u, WithDesk(u, id, Calm(EMPTY_DESK)));
  }

  lemma GrowsTrans(s: Sys, t: Sys, u: Sys)
    requires Brokers(s) && Brokers(t) && Brokers(u) && Grows(s, t) && Grows(t, u)
    ensures Grows(s, u)
  {
  }

  // --- All events --------------------------------------------------------------------------------

  lemma SubmitKeeps(s: Sys, b: string, tx: Transaction)
    requires Brokers(s) && Inv(s) && b in VALIDATORS
    ensures var n := s.nodes[b];
            var t := WithNode(s, b, Quiet(n.(ledger := Admit(n.ledger, tx))));
            Inv(t) && Grows(s, t)
  {
    hide Inv, Grows, Admit, Whole, Filed;
    NodeOf(s, b);
    AdmitKeepsBlocks(s.nodes[b].ledger, tx);
    QuietKeeps(s, b, s.nodes[b].(ledger := Admit(s.nodes[b].ledger, tx)));
  }

  lemma ReportKeeps(s: Sys, b: string, laudo: Option<Transaction>, o: DeskOut)
    requires Brokers(s) && Inv(s) && b in VALIDATORS && forall m :: m in o.sent ==> OnTheDesk(m)
    ensures var t := WithDesk(WithNode(s, b, PublishLaudo(s.nodes[b], laudo)), b, o); Inv(t) && Grows(s, t)
  {
    hide Inv, Grows, PublishLaudo;
    var u := WithNode(s, b, PublishLaudo(s.nodes[b], laudo));
    PublishKeeps(s, b, laudo);
    DeskStep(u, b, o);
    GrowsTrans(s, u, WithDesk(u, b, o));
  }

  lemma ReceiveKeeps(s: Sys, b: string, m: Msg, nonce: int, agora: int)
    requires Brokers(s) && Inv(s) && b in VALIDATORS && m in s.net
    ensures Inv(Receive(s, b, m, nonce, agora)) && Grows(s, Receive(s, b, m, nonce, agora))
  {
    hide Inv, Grows, WithNode, WithDesk, OnNodeMsg, OnDeskMsg;
    if ForNode(m) {
      NodeMsgKeeps(s, b, m, nonce);
    } else {
      DeskStep(s, b, Calm(OnDeskMsg(s.desks[b], m, agora)));
    }
  }

  lemma NodeMsgKeeps(s: Sys, b: string, m: Msg, nonce: int)
    requires Brokers(s) && Inv(s) && b in VALIDATORS && m in s.net && ForNode(m)
    ensures var t := WithNode(s, b, OnNodeMsg(s.nodes[b], b, m, nonce)); Inv(t) && Grows(s, t)
  {
    hide Inv, Grows, WithNode, Admit, OnProposal, OnVote, OnCommit, OnChain;
    match m
    case BlockProposal(block) => OnProposalKeeps(s, b, block, nonce);
    case BlockVote(voter, block, sig) => OnVoteKeeps(s, b, voter, block, sig);
    case BlockCommit(block) => OnCommitKeeps(s, b, block);
    case ChainResponse(blocks) => OnChainKeeps(s, b, blocks);
    case TxBroadcast(tx) => SubmitKeeps(s, b, tx);
  }

  lemma AdmitKeepsBlocks(c: Chain, tx: Transaction)
    ensures Admit(c, tx).blocks == c.blocks
  {
  }

  lemma DeskEventKeeps(s: Sys, e: Event)
    requires Brokers(s) && Inv(s) && e.b in VALIDATORS
    requires !e.Tick? && !e.Deliver? && !e.AnswerSync? && !e.Submit? && !e.Restart?
    ensures Inv(Do(s, e)) && Grows(s, Do(s, e))
  {
    hide Inv, Grows, WithDesk, WithNode, PublishLaudo, Laudo;
    StandsStill(s);
    var d := s.desks[e.b];
    match e
    case Reading(b, l, r, lamport) =>
      DeskStep(s, b, Read(d, b, StateOf(s.nodes[b].ledger.blocks).vessels, l, r, lamport));
    case Dispatch(b, alvo, ok, agora) => DeskStep(s, b, TryDispatch(d, alvo, ok, agora));
    case DroneSays(b, x, estado, oc, agora, r) =>
      ReportKeeps(s, b, Laudo(d, b, x, estado, oc, r), DroneReport(d, x, estado, oc, agora));
    case DroneAlive(b, x, agora) => DeskStep(s, b, DroneKeepalive(d, x, agora));
    case SendRecords(b) => DeskStep(s, b, AllRecords(d));
    case DroneJoins(b, info) => DeskStep(s, b, DroneJoin(d, b, info));
    case DroneLeaves(b, x, agora) => DeskStep(s, b, DroneLeave(d, x, agora));
    case Age(b, agora) => DeskStep(s, b, Calm(d.(queue := Heap.Age(d.queue, agora))));
  }

  /** Every event keeps the invariant, and no event shortens or changes a chain below its tip. */
  lemma StepKeeps(s: Sys, e: Event)
    requires Brokers(s) && Inv(s)
    ensures Inv(Do(s, e)) && Grows(s, Do(s, e))
  {
    hide Inv, Grows, Whole, Filed, Admit, WithNode, WithDesk;
    StandsStill(s);
    if e.b in VALIDATORS {
      var n := s.nodes[e.b];
      NodeOf(s, e.b);
      match e
      case Tick(b, now, nonce) => ProposeKeeps(s, b, now, nonce);
      case Deliver(b, m, nonce, agora) =>
        if m in s.net {
          ReceiveKeeps(s, b, m, nonce, agora);
        }
      case AnswerSync(b) => AnswerKeeps(s, b);
      case Submit(b, tx) => SubmitKeeps(s, b, tx);
      case Restart(b) => RestartKeeps(s, b);
      case _ => DeskEventKeeps(s, e);
    }
  }

  lemma InitialInv()
    ensures Inv(Initial())
  {
    var s := Initial();
    var g := [Genesis()];
    forall h | 0 <= h < 1 ensures OnRecord(s, g[h], h) {
    }
    assert Canonical(s, g) && Accounting.Reached(g) && Certified(s, g);
  }

  lemma {:induction false} InvAlong(states: seq<Sys>, es: seq<Event>, k: nat)
    requires History(states, es) && k < |states|
    ensures Brokers(states[k]) && Inv(states[k])
  {
    hide Inv, Do, Initial, Brokers;
    if k == 0 {
      InitialInv();
    } else {
      InvAlong(states, es, k - 1);
      assert StepAt(states, es, k - 1);
      StepKeeps(states[k - 1], es[k - 1]);
    }
  }

  lemma {:induction false} GrowsAlong(states: seq<Sys>, es: seq<Event>, i: nat, k: nat)
    requires History(states, es) && i <= k < |states|
    ensures Brokers(states[i]) && Brokers(states[k]) && Grows(states[i], states[k])
  {
    hide Inv, Do, Initial, Brokers, Grows;
    InvAlong(states, es, i);
    if i == k {
      StandsStill(states[i]);
    } else {
      GrowsAlong(states, es, i, k - 1);
      InvAlong(states, es, k - 1);
      assert StepAt(states, es, k - 1);
      StepKeeps(states[k - 1], es[k - 1]);
      GrowsTrans(states[i], states[k - 1], states[k]);
    }
  }

  // --- Theorems over runs ------------------------------------------------------------------------

  /**
   * Agreement: whatever two brokers hold at a height, at whatever two moments of a run, is the same block.
   */
  lemma AgreementOverRuns(states: seq<Sys>, es: seq<Event>, i: nat, a: string, j: nat, b: string, h: nat)
    requires History(states, es) && i < |states| && j < |states|
    requires a in VALIDATORS && b in VALIDATORS
    requires h < |ChainOf(states[i], a)| && h < |ChainOf(states[j], b)|
    ensures ChainOf(states[i], a)[h] == ChainOf(states[j], b)[h]
  {
    hide History, Inv;
    var last := |states| - 1;
    GrowsAlong(states, es, i, last);
    GrowsAlong(states, es, j, last);
    InvAlong(states, es, last);
    SameBlock(states[last], a, b, h);
  }

  lemma SameBlock(s: Sys, a: string, b: string, h: nat)
    requires Brokers(s) && Inv(s) && a in VALIDATORS && b in VALIDATORS
    requires h < |ChainOf(s, a)| && h < |ChainOf(s, b)|
    ensures ChainOf(s, a)[h] == ChainOf(s, b)[h]
  {
    hide Inv, Accounting.Reached, Certified;
    NodeOf(s, a);
    NodeOf(s, b);
    assert OnRecord(s, ChainOf(s, a)[h], h) && OnRecord(s, ChainOf(s, b)[h], h);
  }

  lemma ChainGrows(s: Sys, t: Sys, b: string)
    requires Brokers(s) && Brokers(t) && Grows(s, t) && b in VALIDATORS
    ensures ChainOf(s, b) <= ChainOf(t, b)
  {
  }

  /** No chain ever shrinks or rewrites a block, through restarts and adoptions of longer chains. */
  lemma NeverShrinks(states: seq<Sys>, es: seq<Event>, i: nat, j: nat, b: string)
    requires History(states, es) && i <= j < |states| && b in VALIDATORS
    ensures ChainOf(states[i], b) <= ChainOf(states[j], b)
  {
    hide History, Inv, Grows;
    GrowsAlong(states, es, i, j);
    ChainGrows(states[i], states[j], b);
  }

  /**
   * Every block above the genesis, in any chain of any run, has the round-robin validator of its height
   * and a signature text that splits into the votes of at least three different validators, is accepted
   * by VerifyBlockVotes, and whose voters all approved the block on exactly the chain below it.
   */
  lemma CertifiedOverRuns(states: seq<Sys>, es: seq<Event>, k: nat, b: string, h: nat) returns (ballots: seq<Text>)
    requires History(states, es) && k < |states| && b in VALIDATORS && 1 <= h < |ChainOf(states[k], b)|
    ensures var blocks := ChainOf(states[k], b);
            && blocks[h].index == h && blocks[h].validator == VALIDATORS[h % 4] && VotesAccept(blocks[h])
            && ballots == Split(blocks[h].signature, Ch(';')) && |ballots| >= 3 && DistinctVoters(ballots)
            && forall i :: 0 <= i < |ballots| ==>
                 && VoterOf(ballots[i]) in VALIDATORS && ValidPart(blocks[h], ballots[i])
                 && Approval(VoterOf(ballots[i]), HashBlock(blocks[h]), blocks[..h]) in states[k].log
  {
    hide History, Inv, VotesAccept, ValidPart, Split, Accounting.Reached, TipHash.Linked;
    InvAlong(states, es, k);
    var s := states[k];
    var blocks := ChainOf(s, b);
    var x := blocks[h];
    NodeOf(s, b);
    ReachedIsLinked(blocks);
    TipHash.IndexIsHeight(blocks, h);
    assert CertifiedOn(s, x, blocks[..h]);
    ballots :| Quorum(ballots, x.hash) && x.signature == Join(ballots, Ch(';'))
               && AllApprovedOn(s, ballots, x.hash, blocks[..h]);
    QuorumAccepted(x, ballots);
    forall i | 0 <= i < |ballots| ensures ValidPart(x, ballots[i]) {
      BallotIsValidPart(ballots[i], x);
    }
  }

  /** Every chain of every run grew from the genesis block by blocks that AddBlock accepts. */
  lemma ChainsAreReached(states: seq<Sys>, es: seq<Event>, k: nat, b: string)
    requires History(states, es) && k < |states| && b in VALIDATORS
    ensures Accounting.Reached(ChainOf(states[k], b))
  {
    hide History, Inv, Accounting.Reached, Canonical, Certified;
    InvAlong(states, es, k);
    NodeOf(states[k], b);
  }

  /** With amounts of at least zero no address is negative after any prefix of any broker's chain. */
  lemma SolvencyOverRuns(states: seq<Sys>, es: seq<Event>, k: nat, b: string, n: nat)
    requires History(states, es) && k < |states| && b in VALIDATORS
    requires var txs := AllTxs(ChainOf(states[k], b)); Accounting.NonNegative(txs) && n <= |txs|
    ensures Accounting.Solvent(Replay(EMPTY, AllTxs(ChainOf(states[k], b))[..n]))
  {
    hide History, Inv, Accounting.Reached;
    ChainsAreReached(states, es, k, b);
    Accounting.SolvencyOfEveryPrefix(ChainOf(states[k], b), n);
  }

  /** The saved chain is the chain itself in every reachable state, so a restart loses no block. */
  lemma SavedIsCurrent(states: seq<Sys>, es: seq<Event>, k: nat, b: string)
    requires History(states, es) && k < |states| && b in VALIDATORS
    ensures b in states[k].nodes && states[k].nodes[b].saved.blocks == ChainOf(states[k], b)
  {
    hide History, Inv, Whole, Filed;
    InvAlong(states, es, k);
    NodeOf(states[k], b);
  }

  /** Every proposal in flight asks GetProposer about a height of at least 1. */
  lemma ProposersExist(states: seq<Sys>, es: seq<Event>, k: nat, b: Block)
    requires History(states, es) && k < |states| && BlockProposal(b) in states[k].net
    ensures b.index >= 1 && GetProposer(b.index) == b.validator && b.validator in VALIDATORS
  {
    hide History, Inv;
    InvAlong(states, es, k);
    MsgOf(states[k], BlockProposal(b));
    GoodIndex(b);
  }

  lemma GoodIndex(b: Block)
    requires GoodProposal(b)
    ensures b.index >= 1 && GetProposer(b.index) == b.validator && b.validator in VALIDATORS
  {
    hide HashBlock;
  }

  /** A chain is never empty, so its length is the height that the next tick asks about, at least 1. */
  lemma HeightsAskedByTicks(states: seq<Sys>, es: seq<Event>, k: nat, b: string)
    requires History(states, es) && k < |states| && b in VALIDATORS
    ensures |ChainOf(states[k], b)| >= 1 && GetProposer(|ChainOf(states[k], b)|) in VALIDATORS
  {
    hide History, Inv, Accounting.Reached;
    ChainsAreReached(states, es, k, b);
    NotEmptyReached(ChainOf(states[k], b));
  }

  lemma NotEmptyReached(blocks: seq<Block>)
    requires Accounting.Reached(blocks)
    ensures blocks != []
  {
    hide Genesis;
  }

  /** In every run VerifyBlockVotes counts validators: no two valid parts of a block's signature carry one name. */
  lemma CountedOnceOverRuns(states: seq<Sys>, es: seq<Event>, k: nat, b: string, h: nat)
    requires History(states, es) && k < |states| && b in VALIDATORS && 1 <= h < |ChainOf(states[k], b)|
    ensures OneVoteEach(Counted(ChainOf(states[k], b)[h]))
  {
    hide History, VotesAccept, ValidPart, Split, OneVoteEach;
    var x := ChainOf(states[k], b)[h];
    var ballots := CertifiedOverRuns(states, es, k, b, h);
    PartsVoteOnce(x, ballots);
  }

  lemma PartsVoteOnce(b: Block, ballots: seq<Text>)
    requires Split(b.signature, Ch(';')) == ballots && DistinctVoters(ballots)
    ensures OneVoteEach(Counted(b))
  {
    hide ValidPart, Split, VoterOf;
    forall p, q | p in Counted(b) && q in Counted(b) && VoterOf(p) == VoterOf(q) ensures p == q {
      var i :| 0 <= i < |ballots| && ballots[i] == p;
      var j :| 0 <= j < |ballots| && ballots[j] == q;
      OneBallotEach(ballots, i, j);
    }
  }

  lemma OneBallotEach(ballots: seq<Text>, i: nat, j: nat)
    requires DistinctVoters(ballots) && i < |ballots| && j < |ballots|
    requires VoterOf(ballots[i]) == VoterOf(ballots[j])
    ensures i == j
  {
    hide VoterOf;
  }
}
