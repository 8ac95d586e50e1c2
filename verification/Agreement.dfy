/** Agreement and certification over all runs of honest brokers. */
module Agreement {
  import opened Models
  import opened Texts
  import opened Hashing
  import opened Ledger
  import opened Votes
  import opened Protocol
  import Accounting
  import TipHash

  // --- Canonical blocks ----------------------------------------------------------------

  /** The chain of the proposer of a height. */
  function ProposerChain(s: Sys, h: nat): seq<Block>
    requires Brokers(s)
  {
    ChainOf(s, GetProposer(h))
  }

  /** The proposer of block b's height has b in its own chain. */
  ghost predicate OnRecord(s: Sys, b: Block, h: nat)
    requires Brokers(s)
  {
    h < |ProposerChain(s, h)| && ProposerChain(s, h)[h] == b
  }

  ghost predicate Canonical(s: Sys, blocks: seq<Block>)
    requires Brokers(s)
  {
    blocks != [] && forall h :: 0 <= h < |blocks| ==> OnRecord(s, blocks[h], h)
  }

  /** The voter of a ballot approved the digest on a canonical chain that ends just below it. */
  ghost predicate Approved(s: Sys, voter: string, hash: Digest)
    requires Brokers(s)
  {
    exists base :: Approval(voter, hash, base) in s.log && BaseOk(s, hash, base)
  }

  ghost predicate BaseOk(s: Sys, hash: Digest, base: seq<Block>)
    requires Brokers(s)
  {
    Canonical(s, base) && hash.BlockDigest? && hash.index == |base|
  }

  ghost predicate ApprovedBallots(s: Sys, votes: seq<Text>, hash: Digest)
    requires Brokers(s)
  {
    && DistinctVoters(votes)
    && forall i :: 0 <= i < |votes| ==> IsBallot(votes[i], hash) && Approved(s, VoterOf(votes[i]), hash)
  }

  /** A proposal by the proposer of its height, under its own digest. */
  predicate GoodProposal(b: Block) {
    b.index >= 1 && b.validator == GetProposer(b.index) && b.hash == HashBlock(b)
  }

  /** The signature text of `b` joins a quorum of ballots whose voters all approved `b` on the chain `below`. */
  ghost predicate CertifiedOn(s: Sys, b: Block, below: seq<Block>) {
    && b.validator == GetProposer(|below|) && VotesAccept(b)
    && exists ballots :: Quorum(ballots, b.hash) && b.signature == Join(ballots, Ch(';'))
                         && AllApprovedOn(s, ballots, b.hash, below)
  }

  ghost predicate AllApprovedOn(s: Sys, ballots: seq<Text>, hash: Digest, below: seq<Block>) {
    forall i :: 0 <= i < |ballots| ==> Approval(VoterOf(ballots[i]), hash, below) in s.log
  }

  ghost predicate Certified(s: Sys, blocks: seq<Block>) {
    forall h :: 1 <= h < |blocks| ==> CertifiedOn(s, blocks[h], blocks[..h])
  }

  // --- The invariant ---------------------------------------------------------------------

  ghost predicate MsgOk(s: Sys, m: Msg)
    requires Brokers(s)
  {
    match m
    case BlockProposal(b) => GoodProposal(b)
    case BlockVote(v, b, sig) =>
      && GoodProposal(b) && v in VALIDATORS && Approved(s, v, b.hash)
      && |sig| == 1 && sig[0].Seal? && sig == Sign(v, b.hash, sig[0].nonce)
    case BlockCommit(b) => b.index >= 1 && OnRecord(s, b, b.index)
    case ChainResponse(blocks) => Canonical(s, blocks)
    case _ => true
  }

  ghost predicate Whole(s: Sys, blocks: seq<Block>)
    requires Brokers(s)
  {
    Accounting.Reached(blocks) && Canonical(s, blocks) && Certified(s, blocks)
  }

  ghost predicate Filed(s: Sys, votes: map<Digest, seq<Text>>)
    requires Brokers(s)
  {
    forall hash :: hash in votes ==> ApprovedBallots(s, votes[hash], hash)
  }

  ghost predicate NodeOk(s: Sys, n: Node)
    requires Brokers(s)
  {
    n.saved.blocks == n.ledger.blocks && Whole(s, n.ledger.blocks) && Filed(s, n.votes)
  }

  ghost predicate BrokerOk(s: Sys, b: string)
    requires Brokers(s)
  {
    b in VALIDATORS ==> NodeOk(s, s.nodes[b])
  }

  ghost predicate SentOk(s: Sys, m: Msg)
    requires Brokers(s)
  {
    m in s.net ==> MsgOk(s, m)
  }

  ghost predicate LoggedOk(s: Sys, a: Approval)
    requires Brokers(s)
  {
    a in s.log ==> BaseOk(s, a.hash, a.base)
  }

  ghost predicate Inv(s: Sys)
    requires Brokers(s)
  {
    && (forall b :: BrokerOk(s, b))
    && (forall m :: SentOk(s, m))
    && (forall a :: LoggedOk(s, a))
  }

  lemma NodeOf(s: Sys, b: string)
    requires Brokers(s) && Inv(s) && b in VALIDATORS
    ensures NodeOk(s, s.nodes[b]) && s.nodes[b].saved.blocks == ChainOf(s, b)
    ensures Whole(s, ChainOf(s, b)) && Filed(s, s.nodes[b].votes)
  {
    hide MsgOk, BaseOk, Whole, Filed;
    assert BrokerOk(s, b);
  }

  lemma MsgOf(s: Sys, m: Msg)
    requires Brokers(s) && Inv(s) && m in s.net
    ensures MsgOk(s, m)
  {
    hide NodeOk, BaseOk, MsgOk;
    assert SentOk(s, m);
  }

  lemma StandsStill(s: Sys)
    requires Brokers(s)
    ensures Grows(s, s)
  {
  }

  // --- Consequences ------------------------------------------------------------------------

  /** Canonical chains agree wherever both have a block, so one is a prefix of the other. */
  lemma CanonicalAgree(s: Sys, x: seq<Block>, y: seq<Block>)
    requires Brokers(s) && Canonical(s, x) && Canonical(s, y) && |x| <= |y|
    ensures x <= y
  {
    forall h | 0 <= h < |x| ensures x[h] == y[h] {
      assert OnRecord(s, x[h], h) && OnRecord(s, y[h], h);
    }
  }

  /** A canonical chain is a prefix of a broker's chain. */
  lemma {:induction false} CanonicalIsPrefix(s: Sys, x: seq<Block>) returns (b: string)
    requires Brokers(s) && Inv(s) && Canonical(s, x)
    ensures b in VALIDATORS && x <= ChainOf(s, b)
  {
    var h := |x| - 1;
    assert OnRecord(s, x[h], h);
    b := GetProposer(h);
    NodeOf(s, b);
    CanonicalAgree(s, x, ChainOf(s, b));
  }

  lemma ReachedIsLinked(blocks: seq<Block>)
    requires Accounting.Reached(blocks)
    ensures TipHash.Linked(blocks)
  {
    hide BlockError, Genesis, TipHash.Follows;
    forall i | 1 <= i < |blocks| ensures TipHash.Follows(blocks[i - 1], blocks[i]) {
      assert Accounting.AcceptedAt(blocks, i);
      AcceptedFollows(blocks[..i], blocks[i]);
    }
  }

  lemma AcceptedFollows(blocks: seq<Block>, b: Block)
    requires blocks != [] && BlockError(blocks, b).None?
    ensures TipHash.Follows(Last(blocks), b)
  {
  }

  lemma TipIndex(blocks: seq<Block>)
    requires Accounting.Reached(blocks)
    ensures Last(blocks).index == |blocks| - 1
  {
    ReachedIsLinked(blocks);
    TipHash.IndexIsHeight(blocks, |blocks| - 1);
  }

  lemma CertifiedPrefix(s: Sys, blocks: seq<Block>, x: seq<Block>)
    requires Certified(s, blocks) && x <= blocks
    ensures Certified(s, x)
  {
    forall h | 1 <= h < |x| ensures CertifiedOn(s, x[h], x[..h]) {
      assert x[..h] == blocks[..h] && x[h] == blocks[h];
    }
  }

  // --- Growth: what survives when chains are only extended ------------------------------------

  ghost predicate Grows(s: Sys, t: Sys)
    requires Brokers(s) && Brokers(t)
  {
    && (forall b :: b in VALIDATORS ==> ChainOf(s, b) <= ChainOf(t, b))
    && s.log <= t.log && s.net <= t.net
  }

  lemma CanonicalGrows(s: Sys, t: Sys, blocks: seq<Block>)
    requires Brokers(s) && Brokers(t) && Grows(s, t) && Canonical(s, blocks)
    ensures Canonical(t, blocks)
  {
    forall h | 0 <= h < |blocks| ensures OnRecord(t, blocks[h], h) {
      OnRecordGrows(s, t, blocks[h], h);
    }
  }

  lemma OnRecordGrows(s: Sys, t: Sys, b: Block, h: nat)
    requires Brokers(s) && Brokers(t) && Grows(s, t) && OnRecord(s, b, h)
    ensures OnRecord(t, b, h)
  {
    assert ProposerChain(s, h) <= ProposerChain(t, h);
  }

  lemma ApprovedGrows(s: Sys, t: Sys, voter: string, hash: Digest)
    requires Brokers(s) && Brokers(t) && Grows(s, t) && Approved(s, voter, hash)
    ensures Approved(t, voter, hash)
  {
    var base :| Approval(voter, hash, base) in s.log && BaseOk(s, hash, base);
    CanonicalGrows(s, t, base);
    assert Approval(voter, hash, base) in t.log && BaseOk(t, hash, base);
  }

  lemma BallotsGrow(s: Sys, t: Sys, votes: seq<Text>, hash: Digest)
    requires Brokers(s) && Brokers(t) && Grows(s, t) && ApprovedBallots(s, votes, hash)
    ensures ApprovedBallots(t, votes, hash)
  {
    forall i | 0 <= i < |votes| ensures Approved(t, VoterOf(votes[i]), hash) {
      ApprovedGrows(s, t, VoterOf(votes[i]), hash);
    }
  }

  lemma CertifiedGrows(s: Sys, t: Sys, blocks: seq<Block>)
    requires s.log <= t.log && Certified(s, blocks)
    ensures Certified(t, blocks)
  {
    forall h | 1 <= h < |blocks| ensures CertifiedOn(t, blocks[h], blocks[..h]) {
      CertifiedOnGrows(s, t, blocks[h], blocks[..h]);
    }
  }

  lemma CertifiedOnGrows(s: Sys, t: Sys, b: Block, below: seq<Block>)
    requires s.log <= t.log && CertifiedOn(s, b, below)
    ensures CertifiedOn(t, b, below)
  {
    var ballots :| Quorum(ballots, b.hash) && b.signature == Join(ballots, Ch(';'))
                   && AllApprovedOn(s, ballots, b.hash, below);
    assert AllApprovedOn(t, ballots, b.hash, below);
  }

  lemma MsgGrows(s: Sys, t: Sys, m: Msg)
    requires Brokers(s) && Brokers(t) && Grows(s, t) && MsgOk(s, m)
    ensures MsgOk(t, m)
  {
    match m
    case BlockProposal(b) =>
    case BlockVote(v, b, sig) => ApprovedGrows(s, t, v, b.hash);
    case BlockCommit(b) => OnRecordGrows(s, t, b, b.index);
    case ChainResponse(blocks) => CanonicalGrows(s, t, blocks);
    case _ =>
  }

  lemma WholeGrows(s: Sys, t: Sys, blocks: seq<Block>)
    requires Brokers(s) && Brokers(t) && Grows(s, t) && Whole(s, blocks)
    ensures Whole(t, blocks)
  {
    hide Accounting.Reached, Canonical, Certified;
    CanonicalGrows(s, t, blocks);
    CertifiedGrows(s, t, blocks);
  }

  lemma FiledGrows(s: Sys, t: Sys, votes: map<Digest, seq<Text>>)
    requires Brokers(s) && Brokers(t) && Grows(s, t) && Filed(s, votes)
    ensures Filed(t, votes)
  {
    hide Grows, ApprovedBallots;
    forall hash | hash in votes ensures ApprovedBallots(t, votes[hash], hash) {
      BallotsGrow(s, t, votes[hash], hash);
    }
  }

  lemma NodeGrows(s: Sys, t: Sys, n: Node)
    requires Brokers(s) && Brokers(t) && Grows(s, t) && NodeOk(s, n)
    ensures NodeOk(t, n)
  {
    hide Grows, Whole, Filed;
    WholeGrows(s, t, n.ledger.blocks);
    FiledGrows(s, t, n.votes);
  }

  /** A step that changes one node keeps the invariant when the new parts of the state satisfy it. */
  lemma InvStep(s: Sys, t: Sys, b: string)
    requires Brokers(s) && Brokers(t) && Inv(s) && b in VALIDATORS && Grows(s, t)
    requires forall c :: c in VALIDATORS && c != b ==> t.nodes[c] == s.nodes[c]
    requires NodeOk(t, t.nodes[b])
    requires forall m :: m in t.net && m !in s.net ==> MsgOk(t, m)
    requires forall a :: a in t.log && a !in s.log ==> BaseOk(t, a.hash, a.base)
    ensures Inv(t)
  {
    hide Grows, NodeOk, MsgOk, Canonical;
    forall c ensures BrokerOk(t, c) {
      if c in VALIDATORS && c != b {
        assert BrokerOk(s, c);
        NodeGrows(s, t, s.nodes[c]);
      }
    }
    forall m ensures SentOk(t, m) {
      if m in s.net {
        assert SentOk(s, m);
        MsgGrows(s, t, m);
      }
    }
    forall a ensures LoggedOk(t, a) {
      if a in s.log {
        assert LoggedOk(s, a);
        CanonicalGrows(s, t, a.base);
      }
    }
  }
}
