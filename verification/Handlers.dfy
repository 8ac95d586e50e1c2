/** When the handlers of consensus act, exactly, and what they leave when they do not. */
module Handlers {
  import opened Models
  import opened Texts
  import opened Hashing
  import opened Ledger
  import opened Votes
  import opened Protocol
  import Mempool

  // --- Blocks that fit --------------------------------------------------------------------

  /** The block continues these blocks, and each of its transactions passes the dry run after the earlier ones. */
  ghost predicate Fits(blocks: seq<Block>, b: Block)
    requires blocks != []
  {
    && b.index == Last(blocks).index + 1 && b.prevHash == Last(blocks).hash
    && forall i :: 0 <= i < |b.transactions| ==> StepOk(StateOf(blocks), b.transactions, i)
  }

  /** AddBlock takes exactly the blocks that fit and carry their own hash. */
  lemma AddsExactly(blocks: seq<Block>, b: Block)
    requires blocks != []
    ensures BlockError(blocks, b).None? <==> Fits(blocks, b) && b.hash == HashBlock(b)
  {
    hide VetAll, StepOk, StateOf, HashBlock;
    VetAllOk(StateOf(blocks), b.transactions);
  }

  /** An error of AddBlock is the fault it names; a transaction's error is that of the first that fails. */
  lemma BlockErrorNamesFault(blocks: seq<Block>, b: Block)
    requires blocks != [] && BlockError(blocks, b).Some?
    ensures match BlockError(blocks, b).value
            case BadIndex => b.index != Last(blocks).index + 1
            case BadPrevHash => b.prevHash != Last(blocks).hash
            case BadHash => b.hash != HashBlock(b)
            case error => exists i :: FailsFirst(StateOf(blocks), b.transactions, i, error)
  {
    hide VetAll, StateOf, HashBlock, FailsFirst;
    if VetAll(TempOf(StateOf(blocks)), b.transactions).Err? {
      var i := FirstFailure(StateOf(blocks), b.transactions);
      assert FailsFirst(StateOf(blocks), b.transactions, i, BlockError(blocks, b).value);
      FailureIsOfTransaction(StateOf(blocks), b.transactions, i, BlockError(blocks, b).value);
    }
  }

  /** Transaction i is the first that the dry run rejects, with this error. */
  ghost predicate FailsFirst(s: State, txs: seq<Transaction>, i: nat, error: Error) {
    && i < |txs| && Vet(TempOf(Replay(s, txs[..i])), txs[i]) == Err(error)
    && forall j :: 0 <= j < i ==> StepOk(s, txs, j)
  }

  lemma FailureIsOfTransaction(s: State, txs: seq<Transaction>, i: nat, error: Error)
    requires FailsFirst(s, txs, i, error)
    ensures error !in {BadIndex, BadPrevHash, BadHash}
  {
    hide HashTx, Bal, Credit;
  }

  lemma {:induction false} FirstFailure(s: State, txs: seq<Transaction>) returns (i: nat)
    requires VetAll(TempOf(s), txs).Err?
    ensures FailsFirst(s, txs, i, VetAll(TempOf(s), txs).error)
  {
    hide Vet, Replay;
    var n := |txs| - 1;
    var init := txs[..n];
    if VetAll(TempOf(s), init).Err? {
      i := FirstFailure(s, init);
      assert init[..i] == txs[..i] && init[i] == txs[i];
      forall j | 0 <= j < i ensures StepOk(s, txs, j) {
        assert StepOk(s, init, j) && init[..j] == txs[..j] && init[j] == txs[j];
      }
    } else {
      i := n;
      VetAllAgreesWithReplay(s, init);
      VetAllOk(s, init);
      forall j | 0 <= j < i ensures StepOk(s, txs, j) {
        assert StepOk(s, init, j) && init[..j] == txs[..j] && init[j] == txs[j];
      }
    }
  }

  // --- Proposing, voting, committing ----------------------------------------------------------

  /**
   * A tick proposes exactly when it is the broker's turn at the next height and something is pending: one block
   * of the first five transactions at most, on top of the own chain, with its own vote on file.
   */
  lemma ProposesExactly(n: Node, id: string, now: Moment, nonce: int)
    requires n.ledger.blocks != []
    ensures var o := Propose(n, id, now, nonce);
            if GetProposer(|n.ledger.blocks|) == id && n.ledger.mempool != [] then
              exists b ::
                && o.sent == {BlockProposal(b)} && o.approvals == {Approval(id, HashBlock(b), n.ledger.blocks)}
                && b.index == |n.ledger.blocks| && b.prevHash == Last(n.ledger.blocks).hash && b.validator == id
                && b.timestamp == now && b.hash == HashBlock(b) && b.signature == Sign(id, b.hash, nonce)
                && 1 <= |b.transactions| <= 5 && b.transactions <= n.ledger.mempool
                && (|b.transactions| == 5 || b.transactions == n.ledger.mempool)
                && o.node == n.(votes := n.votes[b.hash := [Ballot(id, b.hash, nonce)]])
            else o == NodeOut(n, {}, {}, None)
  {
    hide HashTxs;
    var b := Proposal(n, id, now, nonce);
    assert b.hash == HashBlock(b);
  }

  /**
   * A proposal is voted for exactly when it comes from the proposer of its height under its own signature, fits
   * the voter's chain, and has not been voted for; otherwise it leaves no trace.
   */
  lemma VotesExactly(n: Node, id: string, b: Block, nonce: int)
    requires n.ledger.blocks != []
    ensures var o := OnProposal(n, id, b, nonce);
            if && b.validator == GetProposer(b.index) && b.hash !in n.voted && Fits(n.ledger.blocks, b)
               && (exists x :: b.signature == [Seal(KeyOf(b.validator), HashBlock(b), x)])
            then o == NodeOut(n.(voted := n.voted + {b.hash}), {BlockVote(id, b, Sign(id, HashBlock(b), nonce))},
                              {Approval(id, HashBlock(b), n.ledger.blocks)}, None)
            else o == NodeOut(n, {}, {}, None)
  {
    hide VetAll, StepOk, StateOf, HashTxs;
    VetAllOk(StateOf(n.ledger.blocks), b.transactions);
    if Approves(n, b) {
      assert b.signature == [Seal(KeyOf(b.validator), HashBlock(b), b.signature[0].nonce)];
    }
  }

  /** The votes on file for a digest. */
  function OnFile(n: Node, hash: Digest): seq<Text> {
    if hash in n.votes then n.votes[hash] else []
  }

  /**
   * A vote counts exactly for a block of one's own and a voter without one on file. It commits the block exactly
   * when it is at least the third on file and the block still fits: then the chain is one block longer, saved,
   * and the votes are gone; otherwise it is filed and nothing else happens.
   */
  lemma CommitsExactly(n: Node, id: string, voter: string, b: Block, sig: Text)
    requires n.ledger.blocks != []
    ensures var o := OnVote(n, id, voter, b, sig);
            var filed := OnFile(n, b.hash) + [Str(voter) + [Ch(':')] + sig];
            var block := b.(signature := Join(filed, Ch(';')), hash := HashBlock(b));
            var chain := Chain(n.ledger.blocks + [block], Without(n.ledger.mempool, b.transactions));
            if b.validator != id || (exists t :: t in OnFile(n, b.hash) && Str(voter) + [Ch(':')] <= t) then
              o == NodeOut(n, {}, {}, None)
            else if |filed| >= 3 && Fits(n.ledger.blocks, b) then
              o == NodeOut(Node(chain, chain, n.voted, n.votes - {b.hash}), {BlockCommit(block)}, {}, Some(block))
            else o == NodeOut(n.(votes := n.votes[b.hash := filed]), {}, {}, None)
  {
    hide StateOf, HashTxs, Without, Join, StepOk, VetAll, HasPrefix;
    var filed := OnFile(n, b.hash) + [Str(voter) + [Ch(':')] + sig];
    var block := b.(signature := Join(filed, Ch(';')), hash := HashBlock(b));
    assert HashBlock(block) == HashBlock(b);
    AddsExactly(n.ledger.blocks, block);
    VotedBefore(OnFile(n, b.hash), voter);
    assert Fits(n.ledger.blocks, block) <==> Fits(n.ledger.blocks, b);
    assert (n.votes[b.hash := filed]) - {b.hash} == n.votes - {b.hash};
  }

  lemma VotedBefore(filed: seq<Text>, voter: string)
    ensures HasVoted(filed, voter) <==> exists t :: t in filed && Str(voter) + [Ch(':')] <= t
  {
    if HasVoted(filed, voter) {
      var i :| 0 <= i < |filed| && HasPrefix(filed[i], Str(voter) + [Ch(':')]);
      assert filed[i] in filed;
    }
  }

  /** A commit is taken exactly with three different valid votes and if the block fits under its own hash. */
  lemma TakesExactly(n: Node, b: Block)
    requires n.ledger.blocks != [] && b.index != 0
    ensures var chain := Chain(n.ledger.blocks + [b], Without(n.ledger.mempool, b.transactions));
            if && (exists x, y, z :: {x, y, z} <= Counted(b) && x != y && y != z && x != z)
               && Fits(n.ledger.blocks, b) && b.hash == HashBlock(b)
            then OnCommit(n, b) == NodeOut(n.(ledger := chain, saved := chain), {}, {}, Some(b))
            else OnCommit(n, b) == NodeOut(n, {}, {}, None)
  {
    hide Counted, Fits, BlockError, VotesAccept, Without, HashBlock;
    AcceptsExactly(b);
    AddsExactly(n.ledger.blocks, b);
  }

  /** A broker's own transaction is broadcast exactly when its mempool took it. */
  lemma PublishesExactly(n: Node, tx: Transaction)
    requires n.ledger.blocks != []
    ensures var o := Publish(n, tx);
            && o.node == n.(ledger := Admit(n.ledger, tx)) && o.approvals == {} && o.committed == None
            && o.sent == if |o.node.ledger.mempool| > |n.ledger.mempool| then {TxBroadcast(tx)} else {}
  {
    hide AdmitError;
  }

  // --- Longer chains ---------------------------------------------------------------------------

  predicate SameGenesis(n: Node, blocks: seq<Block>)
    requires n.ledger.blocks != []
  {
    blocks != [] && blocks[0].hash == n.ledger.blocks[0].hash
  }

  /** The node after answers to its request for chains, in the order in which they arrive. */
  function AfterChains(n: Node, chains: seq<seq<Block>>): (m: Node)
    requires n.ledger.blocks != []
    ensures m.ledger.blocks != []
  {
    if chains == [] then n else OnChain(AfterChains(n, chains[..|chains| - 1]), chains[|chains| - 1]).node
  }

  /** The first longest of the own chain and those received; the mempool and the votes stay. */
  ghost predicate LongestOf(n: Node, chains: seq<seq<Block>>, m: Node)
    requires n.ledger.blocks != []
  {
    && (forall c :: c in chains && SameGenesis(n, c) ==> |c| <= |m.ledger.blocks|)
    && (if |m.ledger.blocks| == |n.ledger.blocks| then m == n
        else
          var c := Chain(m.ledger.blocks, n.ledger.mempool);
          m == n.(ledger := c, saved := c) && exists i :: FirstAdopted(n, chains, m.ledger.blocks, i))
    && |m.ledger.blocks| >= |n.ledger.blocks|
  }

  ghost predicate FirstAdopted(n: Node, chains: seq<seq<Block>>, blocks: seq<Block>, i: int)
    requires n.ledger.blocks != []
  {
    && 0 <= i < |chains| && chains[i] == blocks && SameGenesis(n, blocks)
    && forall j :: 0 <= j < i && SameGenesis(n, chains[j]) ==> |chains[j]| < |blocks|
  }

  /** Whatever chains arrive, the broker ends on the first longest of those with its genesis hash, its own included. */
  lemma {:induction false} FirstLongestWins(n: Node, chains: seq<seq<Block>>)
    requires n.ledger.blocks != []
    ensures LongestOf(n, chains, AfterChains(n, chains))
  {
    if chains != [] {
      var k := |chains| - 1;
      var init, c := chains[..k], chains[k];
      var m := AfterChains(n, init);
      FirstLongestWins(n, init);
      OneMoreChain(n, init, m, c);
      assert chains == init + [c];
    }
  }

  lemma OneMoreChain(n: Node, init: seq<seq<Block>>, m: Node, c: seq<Block>)
    requires n.ledger.blocks != [] && m.ledger.blocks != [] && LongestOf(n, init, m)
    ensures LongestOf(n, init + [c], OnChain(m, c).node)
  {
    var more, r := init + [c], OnChain(m, c).node;
    assert m.ledger.blocks[0].hash == n.ledger.blocks[0].hash;
    if r == m {
      if |m.ledger.blocks| != |n.ledger.blocks| {
        var i :| FirstAdopted(n, init, m.ledger.blocks, i);
        assert FirstAdopted(n, more, m.ledger.blocks, i);
      }
    } else {
      assert FirstAdopted(n, more, c, |init|);
    }
  }
}
