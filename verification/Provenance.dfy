/** Where blocks come from: in every run each was proposed from a mempool and dry run by two other brokers. */
module Provenance {
  import opened Models
  import opened Texts
  import opened Hashing
  import opened Ledger
  import opened Votes
  import opened Protocol
  import opened Handlers
  import Origins
  import Runs

  // --- What a step adds -------------------------------------------------------------------

  /** In state s the event proposes block p: the broker's turn, the first pending transactions, on its own chain. */
  ghost predicate Proposes(s: Sys, e: Event, p: Block) {
    && Brokers(s) && e.Tick? && e.b in VALIDATORS && GetProposer(|ChainOf(s, e.b)|) == e.b
    && p.validator == e.b && p.index == |ChainOf(s, e.b)| && p.hash == HashBlock(p)
    && 1 <= |p.transactions| <= 5 && p.transactions <= s.nodes[e.b].ledger.mempool
  }

  /** In state s the event makes its broker vote for block p, which fits the broker's chain. */
  ghost predicate VotesOn(s: Sys, e: Event, p: Block) {
    && Brokers(s) && e.b in VALIDATORS && e.Deliver? && e.m == BlockProposal(p) && e.m in s.net
    && p.validator == GetProposer(p.index) && Fits(ChainOf(s, e.b), p)
  }

  lemma TickAdds(n: Node, b: string, now: Moment, nonce: int) returns (p: Block)
    requires n.ledger.blocks != []
    ensures var o := Propose(n, b, now, nonce);
            && o.sent <= {BlockProposal(p)} && o.approvals <= {Approval(b, HashBlock(p), n.ledger.blocks)}
            && (o.sent != {} || o.approvals != {} ==>
                && GetProposer(|n.ledger.blocks|) == b && p.validator == b && p.index == |n.ledger.blocks|
                && p.hash == HashBlock(p) && 1 <= |p.transactions| <= 5 && p.transactions <= n.ledger.mempool)
  {
    hide Propose, HashBlock, Ballot;
    ProposesExactly(n, b, now, nonce);
    if GetProposer(|n.ledger.blocks|) == b && n.ledger.mempool != [] {
      var o := Propose(n, b, now, nonce);
      p :| && o.sent == {BlockProposal(p)} && o.approvals == {Approval(b, HashBlock(p), n.ledger.blocks)}
           && p.index == |n.ledger.blocks| && p.prevHash == Last(n.ledger.blocks).hash && p.validator == b
           && p.timestamp == now && p.hash == HashBlock(p) && p.signature == Sign(b, p.hash, nonce)
           && 1 <= |p.transactions| <= 5 && p.transactions <= n.ledger.mempool
           && (|p.transactions| == 5 || p.transactions == n.ledger.mempool)
           && o.node == n.(votes := n.votes[p.hash := [Ballot(b, p.hash, nonce)]]);
    } else {
      p := Genesis();
    }
  }

  lemma ReceiptApproves(s: Sys, b: string, m: Msg, nonce: int, agora: int, a: Approval)
    requires Brokers(s) && b in VALIDATORS && m in s.net && m.BlockProposal?
    requires a in Receive(s, b, m, nonce, agora).log && a !in s.log
    ensures a == Approval(b, HashBlock(m.block), ChainOf(s, b)) && VotesOn(s, Deliver(b, m, nonce, agora), m.block)
  {
    hide Fits, HashBlock, OnProposal;
    VotesExactly(s.nodes[b], b, m.block, nonce);
  }

  /** A new proposal is that of a tick. */
  lemma NewProposal(s: Sys, e: Event, p: Block)
    requires Brokers(s) && BlockProposal(p) in Do(s, e).net && BlockProposal(p) !in s.net
    ensures Proposes(s, e, p)
  {
    hide Propose, HashBlock, PayBlock;
    Origins.MessageOrigin(s, e);
    var q := TickAdds(s.nodes[e.b], e.b, e.now, e.nonce);
    assert BlockProposal(p) in Propose(s.nodes[e.b], e.b, e.now, e.nonce).sent;
  }

  /** A new approval is the proposer's own, or that of a broker on whose chain the proposed block fits. */
  lemma NewApproval(s: Sys, e: Event, a: Approval) returns (p: Block)
    requires Brokers(s) && a in Do(s, e).log && a !in s.log
    ensures e.b == a.voter && a.base == ChainOf(s, a.voter) && HashBlock(p) == a.hash
    ensures Proposes(s, e, p) || VotesOn(s, e, p)
  {
    hide Propose, Receive, HashBlock, PayBlock, Fits;
    Origins.MessageOrigin(s, e);
    if e.Tick? {
      p := TickAdds(s.nodes[e.b], e.b, e.now, e.nonce);
      assert a in Propose(s.nodes[e.b], e.b, e.now, e.nonce).approvals;
    } else {
      p := e.m.block;
      ReceiptApproves(s, e.b, e.m, e.nonce, e.agora, a);
    }
  }

  // --- Over runs ----------------------------------------------------------------------------

  lemma {:induction false} ProposalHasCause(states: seq<Sys>, es: seq<Event>, k: nat, p: Block) returns (j: nat)
    requires History(states, es) && k < |states| && BlockProposal(p) in states[k].net
    ensures j < k && Proposes(states[j], es[j], p)
  {
    hide Do, Brokers, Initial, Proposes;
    if k == 0 {
      NothingSent();
    } else {
      assert StepAt(states, es, k - 1);
      if BlockProposal(p) in states[k - 1].net {
        j := ProposalHasCause(states, es, k - 1, p);
      } else {
        j := k - 1;
        NewProposal(states[j], es[j], p);
      }
    }
  }

  lemma NothingSent()
    ensures Initial().net == {} && Initial().log == {}
  {
  }

  /** Every approval on record was given once, for a block proposed or fitting on the chain recorded with it. */
  lemma {:induction false} ApprovalHasCause(states: seq<Sys>, es: seq<Event>, k: nat, a: Approval)
    returns (j: nat, p: Block)
    requires History(states, es) && k < |states| && a in states[k].log
    ensures j < k && es[j].b == a.voter && a.base == ChainOf(states[j], a.voter) && HashBlock(p) == a.hash
    ensures Proposes(states[j], es[j], p) || VotesOn(states[j], es[j], p)
  {
    hide Do, Brokers, Initial, Proposes, VotesOn, HashBlock, ChainOf;
    if k == 0 {
      NothingSent();
    } else {
      assert StepAt(states, es, k - 1);
      if a in states[k - 1].log {
        j, p := ApprovalHasCause(states, es, k - 1, a);
      } else {
        j := k - 1;
        p := NewApproval(states[j], es[j], a);
      }
    }
  }

  /** Among three different names two differ from a given one. */
  lemma TwoOthers(ballots: seq<Text>, v: string) returns (x: nat, y: nat)
    requires |ballots| >= 3 && DistinctVoters(ballots)
    ensures x < |ballots| && y < |ballots| && VoterOf(ballots[x]) != VoterOf(ballots[y])
    ensures VoterOf(ballots[x]) != v && VoterOf(ballots[y]) != v
  {
    hide VoterOf;
    x := if VoterOf(ballots[0]) != v then 0 else 1;
    y := if VoterOf(ballots[2]) != v then 2 else 1;
    assert VoterOf(ballots[0]) != VoterOf(ballots[1]) && VoterOf(ballots[1]) != VoterOf(ballots[2]);
    assert VoterOf(ballots[0]) != VoterOf(ballots[2]);
  }

  /** A moment at which broker v voted for a block with the digest of `block`, which fits the chain `below`. */
  ghost predicate DryRunBy(states: seq<Sys>, es: seq<Event>, j: nat, v: string, block: Block, below: seq<Block>) {
    && j < |es| && j < |states| && below != [] && es[j].b == v && es[j].Deliver? && es[j].m.BlockProposal?
    && VotesOn(states[j], es[j], es[j].m.block) && HashBlock(es[j].m.block) == HashBlock(block)
    && ChainOf(states[j], v) == below && Fits(below, es[j].m.block)
  }

  /** Who is not the proposer of the height approved after a dry run. */
  lemma OthersDryRun(states: seq<Sys>, es: seq<Event>, k: nat, v: string, block: Block, below: seq<Block>)
    returns (j: nat)
    requires History(states, es) && k < |states| && below != [] && v != GetProposer(|below|)
    requires Approval(v, HashBlock(block), below) in states[k].log
    ensures j < k && DryRunBy(states, es, j, v, block, below)
  {
    hide History, HashBlock, Fits, Brokers;
    var p: Block;
    j, p := ApprovalHasCause(states, es, k, Approval(v, HashBlock(block), below));
    HistoryLength(states, es);
  }

  /**
   * In every run each block above the genesis was dry run before by at least two brokers other than its
   * validator, each on exactly the chain below the block and on a proposal with the block's digest.
   */
  lemma BlocksWereDryRun(states: seq<Sys>, es: seq<Event>, k: nat, b: string, h: nat)
    returns (v: string, i: nat, w: string, j: nat)
    requires History(states, es) && k < |states| && b in VALIDATORS && 1 <= h < |ChainOf(states[k], b)|
    ensures var blocks := ChainOf(states[k], b);
            && v != w && v != blocks[h].validator && w != blocks[h].validator && i < k && j < k
            && DryRunBy(states, es, i, v, blocks[h], blocks[..h]) && DryRunBy(states, es, j, w, blocks[h], blocks[..h])
  {
    hide History, DryRunBy, VotesAccept, ValidPart, Split, VoterOf, HashBlock;
    var blocks := ChainOf(states[k], b);
    var ballots := Runs.CertifiedOverRuns(states, es, k, b, h);
    var x, y := TwoOthers(ballots, VALIDATORS[h % 4]);
    v, w := VoterOf(ballots[x]), VoterOf(ballots[y]);
    TakingTurns(h);
    i := OthersDryRun(states, es, k, v, blocks[h], blocks[..h]);
    j := OthersDryRun(states, es, k, w, blocks[h], blocks[..h]);
  }

  lemma SameCount(p: Block, q: Block)
    requires HashBlock(p) == HashBlock(q)
    ensures |p.transactions| == |q.transactions| && p.validator == q.validator && p.index == q.index
  {
    assert |HashTxs(p.transactions)| == |HashTxs(q.transactions)|;
  }

  /**
   * And its validator proposed it, under the same digest, at one of its ticks, from the first one to five
   * transactions of its mempool: no block above the genesis is empty or longer than five transactions.
   */
  lemma BlocksWereProposed(states: seq<Sys>, es: seq<Event>, k: nat, b: string, h: nat) returns (j: nat, p: Block)
    requires History(states, es) && k < |states| && b in VALIDATORS && 1 <= h < |ChainOf(states[k], b)|
    ensures var block := ChainOf(states[k], b)[h];
            && j < k && Proposes(states[j], es[j], p) && HashBlock(p) == HashBlock(block)
            && es[j].b == block.validator && 1 <= |block.transactions| <= 5
  {
    hide History, HashBlock, Brokers, Fits, GetProposer;
    var blocks := ChainOf(states[k], b);
    var v, i, w, l := BlocksWereDryRun(states, es, k, b, h);
    p := es[i].m.block;
    j := ProposalHasCause(states, es, i, p);
    SameCount(p, blocks[h]);
  }
}
