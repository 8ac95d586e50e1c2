/** No transaction is confirmed twice in any chain of a run in which no broker adopts another's chain. */
module Uniqueness {
  import opened Models
  import opened Hashing
  import opened Ledger
  import opened Votes
  import opened Protocol
  import opened Agreement
  import Accounting
  import Heap
  import Mempool
  import Runs

  /** The event makes its broker adopt a longer chain. */
  ghost predicate Adopts(s: Sys, e: Event) {
    e.Deliver? && e.m.ChainResponse? && |e.m.blocks| > |ChainOf(s, e.b)|
  }

  ghost predicate NoAdoptions(states: seq<Sys>, es: seq<Event>) {
    |states| == |es| + 1 && forall k :: 0 <= k < |es| ==> !Adopts(states[k], es[k])
  }

  // --- The invariant -------------------------------------------------------------------------

  /** Ids of the chain pairwise distinct, ids of the mempool distinct, genuine and new; in the file as well. */
  ghost predicate UniqueNode(n: Node) {
    && Mempool.IdsFresh(n.ledger) && Mempool.IdsFresh(n.saved)
    && Mempool.DistinctIds(AllTxs(n.ledger.blocks))
  }

  /** The block repeats no id of the recorded chain below its height. */
  ghost predicate NewIds(s: Sys, b: Block)
    requires Brokers(s)
  {
    exists base :: Canonical(s, base) && |base| == b.index && Mempool.DistinctIds(AllTxs(base) + b.transactions)
  }

  ghost predicate UniqueMsg(s: Sys, m: Msg)
    requires Brokers(s)
  {
    match m
    case BlockProposal(b) => NewIds(s, b)
    case BlockVote(_, b, _) => NewIds(s, b)
    case _ => true
  }

  ghost predicate Unique(s: Sys)
    requires Brokers(s)
  {
    && (forall b :: UniqueBroker(s, b))
    && (forall m :: UniqueSent(s, m))
  }

  ghost predicate UniqueBroker(s: Sys, b: string)
    requires Brokers(s)
  {
    b in VALIDATORS ==> UniqueNode(s.nodes[b])
  }

  ghost predicate UniqueSent(s: Sys, m: Msg)
    requires Brokers(s)
  {
    m in s.net ==> UniqueMsg(s, m)
  }

  lemma NewIdsGrows(s: Sys, t: Sys, b: Block)
    requires Brokers(s) && Brokers(t) && Grows(s, t) && NewIds(s, b)
    ensures NewIds(t, b)
  {
    hide Grows, Canonical;
    var base :| Canonical(s, base) && |base| == b.index && Mempool.DistinctIds(AllTxs(base) + b.transactions);
    CanonicalGrows(s, t, base);
  }

  /** A step that changes one node keeps the invariant when the node and the new messages satisfy it. */
  lemma UniqueStep(s: Sys, t: Sys, b: string)
    requires Brokers(s) && Brokers(t) && Unique(s) && Grows(s, t) && b in VALIDATORS
    requires forall c :: c in VALIDATORS && c != b ==> t.nodes[c] == s.nodes[c]
    requires UniqueNode(t.nodes[b])
    requires forall m :: m in t.net && m !in s.net ==> UniqueMsg(t, m)
    ensures Unique(t)
  {
    hide UniqueNode, Grows, NewIds;
    forall c ensures UniqueBroker(t, c) {
      assert UniqueBroker(s, c);
    }
    forall m ensures UniqueSent(t, m) {
      if m in s.net {
        assert UniqueSent(s, m);
        match m
        case BlockProposal(x) => NewIdsGrows(s, t, x);
        case BlockVote(_, x, _) => NewIdsGrows(s, t, x);
        case _ =>
      }
    }
  }

  lemma UniqueAt(s: Sys, b: string)
    requires Brokers(s) && Unique(s) && b in VALIDATORS
    ensures UniqueNode(s.nodes[b])
  {
    hide UniqueNode, UniqueMsg;
    assert UniqueBroker(s, b);
  }

  lemma UniqueMsgAt(s: Sys, m: Msg)
    requires Brokers(s) && Unique(s) && m in s.net
    ensures UniqueMsg(s, m)
  {
    hide UniqueNode, UniqueMsg;
    assert UniqueSent(s, m);
  }

  /** A node step, once its new chain is known to continue the old one. */
  lemma NodeStepUnique(s: Sys, b: string, o: NodeOut)
    requires Brokers(s) && Unique(s) && b in VALIDATORS && o.node.ledger.blocks != [] && o.node.saved.blocks != []
    requires Grows(s, WithNode(s, b, o)) && UniqueNode(o.node)
    requires forall m :: m in o.sent ==> UniqueMsg(WithNode(s, b, o), m)
    ensures Unique(WithNode(s, b, o))
  {
    hide Unique, UniqueNode, UniqueMsg, Grows;
    UniqueStep(s, WithNode(s, b, o), b);
  }

  lemma DeskStepUnique(s: Sys, b: string, o: DeskOut)
    requires Brokers(s) && Unique(s) && b in VALIDATORS && forall m :: m in o.sent ==> Runs.OnTheDesk(m)
    ensures Unique(WithDesk(s, b, o))
  {
    hide Unique, UniqueNode;
    UniqueAt(s, b);
    assert Grows(s, WithDesk(s, b, o));
    UniqueStep(s, WithDesk(s, b, o), b);
  }

  // --- Proposals, votes and commits ----------------------------------------------------------

  lemma ProposeUnique(s: Sys, id: string, now: Moment, nonce: int)
    requires Brokers(s) && Inv(s) && Unique(s) && id in VALIDATORS
    ensures Unique(WithNode(s, id, Propose(s.nodes[id], id, now, nonce)))
  {
    hide Inv, Unique, Grows, Canonical, Whole, Filed, Proposal, Mempool.IdsFresh, Mempool.DistinctIds;
    var n := s.nodes[id];
    var o := Propose(n, id, now, nonce);
    var t := WithNode(s, id, o);
    NodeOf(s, id);
    UniqueAt(s, id);
    Runs.ProposeKeeps(s, id, now, nonce);
    if o != Quiet(n) {
      ProposedTxs(n, id, now, nonce);
      Mempool.PrefixIdsNew(n.ledger, |Mempool.Cut(n.ledger.mempool)|);
      Runs.CanonicalAfter(s, id, o);
      var b := Proposal(n, id, now, nonce);
      assert Mempool.DistinctIds(AllTxs(n.ledger.blocks) + b.transactions);
      assert NewIds(t, b);
    }
    NodeStepUnique(s, id, o);
  }

  lemma ProposedTxs(n: Node, id: string, now: Moment, nonce: int)
    requires n.ledger.blocks != []
    ensures var b, c := Proposal(n, id, now, nonce), Mempool.Cut(n.ledger.mempool);
            b.index == |n.ledger.blocks| && |c| <= |n.ledger.mempool| && b.transactions == n.ledger.mempool[..|c|]
  {
    hide HashBlock;
  }

  lemma OnProposalUnique(s: Sys, id: string, b: Block, nonce: int)
    requires Brokers(s) && Inv(s) && Unique(s) && id in VALIDATORS && BlockProposal(b) in s.net
    ensures Unique(WithNode(s, id, OnProposal(s.nodes[id], id, b, nonce)))
  {
    hide Inv, Unique, Grows, Approves, HashBlock, NewIds, Whole, Filed;
    var o := OnProposal(s.nodes[id], id, b, nonce);
    NodeOf(s, id);
    UniqueAt(s, id);
    UniqueMsgAt(s, BlockProposal(b));
    Runs.OnProposalKeeps(s, id, b, nonce);
    NewIdsGrows(s, WithNode(s, id, o), b);
    NodeStepUnique(s, id, o);
  }

  /** The block extends a chain that holds none of its ids. */
  lemma ExtendUnique(c: Chain, b: Block)
    requires c.blocks != [] && Mempool.IdsFresh(c) && BlockError(c.blocks, b).None?
    requires Mempool.DistinctIds(AllTxs(c.blocks) + b.transactions)
    ensures Mempool.IdsFresh(Extend(c, b)) && Mempool.DistinctIds(AllTxs(Extend(c, b).blocks))
  {
    hide Mempool.IdsFresh, Mempool.DistinctIds, BlockError, Without;
    Mempool.ExtendKeepsIds(c, b);
    AllTxsAppend(c.blocks, b);
  }

  lemma OnVoteUnique(s: Sys, id: string, voter: string, b: Block, sig: Text)
    requires Brokers(s) && Inv(s) && Unique(s) && id in VALIDATORS && BlockVote(voter, b, sig) in s.net
    ensures Unique(WithNode(s, id, OnVote(s.nodes[id], id, voter, b, sig)))
  {
    hide Inv, Unique, Grows, HasVoted, VoteText, Sealed, BlockError, Extend, Filed, Whole, NewIds;
    hide Mempool.IdsFresh, Mempool.DistinctIds;
    var n := s.nodes[id];
    var o := OnVote(n, id, voter, b, sig);
    NodeOf(s, id);
    UniqueAt(s, id);
    Runs.OnVoteKeeps(s, id, voter, b, sig);
    if o.committed.Some? {
      var votes := VotesFor(n, b.hash) + [VoteText(voter, sig)];
      UniqueMsgAt(s, BlockVote(voter, b, sig));
      VotedIsNew(s, id, b, votes);
      ExtendUnique(n.ledger, Sealed(b, votes));
    }
    NodeStepUnique(s, id, o);
  }

  /** A sealed proposal that AddBlock takes was proposed on the own chain. */
  lemma VotedIsNew(s: Sys, id: string, b: Block, votes: seq<Text>)
    requires Brokers(s) && Inv(s) && id in VALIDATORS && NewIds(s, b)
    requires BlockError(ChainOf(s, id), Sealed(b, votes)).None?
    ensures Mempool.DistinctIds(AllTxs(ChainOf(s, id)) + Sealed(b, votes).transactions)
  {
    hide Inv, Canonical, BlockError, Certified, Accounting.Reached, Filed, Mempool.DistinctIds;
    NodeOf(s, id);
    var chain := ChainOf(s, id);
    Runs.SealedIsNext(chain, b, votes);
    var base :| Canonical(s, base) && |base| == b.index && Mempool.DistinctIds(AllTxs(base) + b.transactions);
    CanonicalAgree(s, base, chain);
    assert base == chain;
  }

  lemma {:induction false} DistinctPrefix(blocks: seq<Block>, more: seq<Block>)
    requires blocks <= more && Mempool.DistinctIds(AllTxs(more))
    ensures Mempool.DistinctIds(AllTxs(blocks))
    decreases |more|
  {
    if |blocks| == |more| {
      assert blocks == more;
    } else {
      var init := more[..|more| - 1];
      assert more == init + [more[|more| - 1]];
      AllTxsAppend(init, more[|more| - 1]);
      FrontDistinct(AllTxs(init), more[|more| - 1].transactions);
      DistinctPrefix(blocks, init);
    }
  }

  lemma FrontDistinct(a: seq<Transaction>, b: seq<Transaction>)
    requires Mempool.DistinctIds(a + b)
    ensures Mempool.DistinctIds(a)
  {
    forall i, j | 0 <= i < j < |a| ensures a[i].id != a[j].id {
      assert (a + b)[i] == a[i] && (a + b)[j] == a[j];
    }
  }

  lemma OnCommitUnique(s: Sys, id: string, b: Block)
    requires Brokers(s) && Inv(s) && Unique(s) && id in VALIDATORS && BlockCommit(b) in s.net
    ensures Unique(WithNode(s, id, OnCommit(s.nodes[id], b)))
  {
    hide Inv, Unique, Grows, VotesAccept, BlockError, Extend, Filed, Whole, Mempool.IdsFresh, Mempool.DistinctIds;
    var n := s.nodes[id];
    var o := OnCommit(n, b);
    NodeOf(s, id);
    UniqueAt(s, id);
    Runs.OnCommitKeeps(s, id, b);
    if o.committed.Some? {
      CommittedIsNew(s, id, b);
      ExtendUnique(n.ledger, b);
    }
    NodeStepUnique(s, id, o);
  }

  /** A received block that fits the tip is part of its proposer's chain, which repeats no id. */
  lemma CommittedIsNew(s: Sys, id: string, b: Block)
    requires Brokers(s) && Inv(s) && Unique(s) && id in VALIDATORS && BlockCommit(b) in s.net
    requires BlockError(ChainOf(s, id), b).None?
    ensures Mempool.DistinctIds(AllTxs(ChainOf(s, id)) + b.transactions)
  {
    hide Inv, Unique, Canonical, OnRecord, BlockError, Certified, Accounting.Reached, Filed;
    hide Mempool.IdsFresh, Mempool.DistinctIds;
    NodeOf(s, id);
    MsgOf(s, BlockCommit(b));
    var chain := ChainOf(s, id);
    Runs.AcceptedIsNext(chain, b);
    Runs.RecordedNext(s, chain, b);
    var p := CanonicalIsPrefix(s, chain + [b]);
    UniqueAt(s, p);
    DistinctPrefix(chain + [b], ChainOf(s, p));
    AllTxsAppend(chain, b);
  }

  // --- All events ------------------------------------------------------------------------------

  lemma AdmitUnique(s: Sys, b: string, m: Node, tx: Transaction, o: NodeOut)
    requires Brokers(s) && Inv(s) && Unique(s) && b in VALIDATORS
    requires m == s.nodes[b].(ledger := Admit(s.nodes[b].ledger, tx))
    requires o.node == m && (forall x :: x in o.sent ==> x.TxBroadcast?)
    ensures m.ledger.blocks == ChainOf(s, b) && m.ledger.blocks != [] && m.saved.blocks != []
    ensures Unique(WithNode(s, b, o))
  {
    hide Inv, Unique, Whole, Filed, Admit, Mempool.IdsFresh, Mempool.DistinctIds, Grows;
    NodeOf(s, b);
    UniqueAt(s, b);
    Runs.AdmitKeepsBlocks(s.nodes[b].ledger, tx);
    Mempool.AdmitKeepsIds(s.nodes[b].ledger, tx);
    Runs.WithNodeGrows(s, b, o);
    NodeStepUnique(s, b, o);
  }

  lemma QuietUnique(s: Sys, b: string)
    requires Brokers(s) && Inv(s) && Unique(s) && b in VALIDATORS
    ensures Unique(WithNode(s, b, Quiet(s.nodes[b])))
  {
    hide Inv, Unique, UniqueNode, Whole, Filed, Grows;
    NodeOf(s, b);
    UniqueAt(s, b);
    Runs.WithNodeGrows(s, b, Quiet(s.nodes[b]));
    NodeStepUnique(s, b, Quiet(s.nodes[b]));
  }

  lemma ReceiveUnique(s: Sys, b: string, m: Msg, nonce: int, agora: int)
    requires Brokers(s) && Inv(s) && Unique(s) && b in VALIDATORS && m in s.net
    requires m.ChainResponse? ==> |m.blocks| <= |ChainOf(s, b)|
    ensures Unique(Receive(s, b, m, nonce, agora))
  {
    hide Inv, Unique, OnProposal, OnVote, OnCommit, Admit, OnDeskMsg, WithNode, WithDesk;
    var n := s.nodes[b];
    match m
    case BlockProposal(x) => OnProposalUnique(s, b, x, nonce);
    case BlockVote(voter, x, sig) => OnVoteUnique(s, b, voter, x, sig);
    case BlockCommit(x) => OnCommitUnique(s, b, x);
    case ChainResponse(blocks) => QuietUnique(s, b);
    case TxBroadcast(tx) =>
      var o := n.(ledger := Admit(n.ledger, tx));
      AdmitUnique(s, b, o, tx, NodeOut(o, {}, {}, None));
    case _ => DeskStepUnique(s, b, Calm(OnDeskMsg(s.desks[b], m, agora)));
  }

  lemma PublishUnique(s: Sys, b: string, laudo: Option<Transaction>)
    requires Brokers(s) && Inv(s) && Unique(s) && b in VALIDATORS
    ensures Unique(WithNode(s, b, PublishLaudo(s.nodes[b], laudo)))
  {
    hide Inv, Unique, Admit, AdmitError, WithNode;
    var n := s.nodes[b];
    if laudo.Some? && AdmitError(n.ledger, WithId(laudo.value)).None? {
      var tx := laudo.value;
      var m := n.(ledger := Admit(n.ledger, tx));
      AdmitUnique(s, b, m, tx, NodeOut(m, {TxBroadcast(tx)}, {}, None));
    } else {
      QuietUnique(s, b);
    }
  }

  lemma RestartUnique(s: Sys, b: string)
    requires Brokers(s) && Inv(s) && Unique(s) && b in VALIDATORS
    ensures Unique(WithDesk(WithNode(s, b, Quiet(Reload(s.nodes[b]))), b, Calm(EMPTY_DESK)))
  {
    hide Inv, Unique, Whole, Filed, Mempool.IdsFresh, Mempool.DistinctIds, Grows;
    NodeOf(s, b);
    UniqueAt(s, b);
    var o := Quiet(Reload(s.nodes[b]));
    Runs.WithNodeGrows(s, b, o);
    NodeStepUnique(s, b, o);
    DeskStepUnique(WithNode(s, b, o), b, Calm(EMPTY_DESK));
  }

  lemma AnswerUnique(s: Sys, b: string)
    requires Brokers(s) && Inv(s) && Unique(s) && b in VALIDATORS
    ensures Unique(Send(s, ChainResponse(ChainOf(s, b))))
  {
    hide Inv, Unique, UniqueNode;
    var t := Send(s, ChainResponse(ChainOf(s, b)));
    assert Grows(s, t);
    UniqueAt(s, b);
    UniqueStep(s, t, b);
  }

  ghost predicate AllOnTheDesk(o: DeskOut) {
    forall m :: m in o.sent ==> Runs.OnTheDesk(m)
  }

  /** Desk events send nothing about blocks. */
  lemma DeskEventSends(s: Sys, e: Event)
    requires Brokers(s) && e.b in VALIDATORS
    ensures var d := s.desks[e.b];
            match e
            case Reading(b, l, r, lamport) =>
              AllOnTheDesk(Read(d, b, StateOf(s.nodes[b].ledger.blocks).vessels, l, r, lamport))
            case Dispatch(b, alvo, ok, agora) => AllOnTheDesk(TryDispatch(d, alvo, ok, agora))
            case DroneSays(b, x, estado, oc, agora, r) => AllOnTheDesk(DroneReport(d, x, estado, oc, agora))
            case DroneAlive(b, x, agora) => AllOnTheDesk(DroneKeepalive(d, x, agora))
            case SendRecords(b) => AllOnTheDesk(AllRecords(d))
            case DroneJoins(b, info) => AllOnTheDesk(DroneJoin(d, b, info))
            case DroneLeaves(b, x, agora) => AllOnTheDesk(DroneLeave(d, x, agora))
            case _ => true
  {
    hide LoseDrone, OnLost, Enfileirar, Heap.Dequeue, Heap.RemoveId, StateOf, NewOccurrence;
  }

  lemma DeskEventUnique(s: Sys, e: Event)
    requires Brokers(s) && Inv(s) && Unique(s) && e.b in VALIDATORS
    requires !e.Tick? && !e.Deliver? && !e.AnswerSync? && !e.Submit? && !e.Restart?
    ensures Unique(Do(s, e))
  {
    hide Inv, Unique, WithNode, WithDesk, Read, TryDispatch, DroneReport, DroneKeepalive, AllRecords, DroneJoin;
    hide DroneLeave, PublishLaudo, Laudo, Commanded, ChoiceOk, Heap.Age, Runs.OnTheDesk, StateOf;
    var d, n := s.desks[e.b], s.nodes[e.b];
    DeskEventSends(s, e);
    match e
    case Reading(b, l, r, lamport) => DeskStepUnique(s, b, Read(d, b, StateOf(n.ledger.blocks).vessels, l, r, lamport));
    case Dispatch(b, alvo, ok, agora) =>
      if ChoiceOk(d, alvo) {
        DeskStepUnique(s, b, TryDispatch(d, alvo, ok, agora));
      }
    case DroneSays(b, x, estado, oc, agora, r) =>
      if Commanded(s, x, oc) {
        PublishUnique(s, b, Laudo(d, b, x, estado, oc, r));
        var t := WithNode(s, b, PublishLaudo(n, Laudo(d, b, x, estado, oc, r)));
        DeskStepUnique(t, b, DroneReport(d, x, estado, oc, agora));
      }
    case DroneAlive(b, x, agora) => DeskStepUnique(s, b, DroneKeepalive(d, x, agora));
    case SendRecords(b) => DeskStepUnique(s, b, AllRecords(d));
    case DroneJoins(b, info) =>
      if Commanded(s, info.droneId, info.ocorrenciaId) {
        DeskStepUnique(s, b, DroneJoin(d, b, info));
      }
    case DroneLeaves(b, x, agora) => DeskStepUnique(s, b, DroneLeave(d, x, agora));
    case Age(b, agora) => DeskStepUnique(s, b, Calm(d.(queue := Heap.Age(d.queue, agora))));
  }

  lemma StepUnique(s: Sys, e: Event)
    requires Brokers(s) && Inv(s) && Unique(s) && !Adopts(s, e)
    ensures Unique(Do(s, e))
  {
    hide Inv, Unique, WithNode, WithDesk, Propose, Receive, Admit;
    if e.b in VALIDATORS {
      var n := s.nodes[e.b];
      match e
      case Tick(b, now, nonce) => ProposeUnique(s, b, now, nonce);
      case Deliver(b, m, nonce, agora) =>
        if m in s.net {
          ReceiveUnique(s, b, m, nonce, agora);
        }
      case AnswerSync(b) => AnswerUnique(s, b);
      case Submit(b, tx) =>
        var o := n.(ledger := Admit(n.ledger, tx));
        AdmitUnique(s, b, o, tx, NodeOut(o, {}, {}, None));
      case Restart(b) => RestartUnique(s, b);
      case _ => DeskEventUnique(s, e);
    }
  }

  lemma InitialUnique()
    ensures Unique(Initial())
  {
    hide Genesis, Mempool.Ready;
    Mempool.GenesisReady();
    FirstNodeUnique();
  }

  lemma FirstNodeUnique()
    ensures UniqueNode(FirstNode())
  {
    hide Genesis, Mempool.Covered, Mempool.AllChecked;
    Mempool.GenesisReady();
  }

  lemma {:induction false} UniqueAlong(states: seq<Sys>, es: seq<Event>, k: nat)
    requires History(states, es) && NoAdoptions(states, es) && k < |states|
    ensures Brokers(states[k]) && Unique(states[k])
  {
    hide Unique, Do, Inv, Initial, Brokers, Adopts;
    if k == 0 {
      InitialUnique();
    } else {
      UniqueAlong(states, es, k - 1);
      Runs.InvAlong(states, es, k - 1);
      assert StepAt(states, es, k - 1);
      StepUnique(states[k - 1], es[k - 1]);
    }
  }

  /**
   * While no broker adopts a chain, no chain of the run holds an id twice, and every mempool holds genuine ids,
   * pairwise distinct and absent from its chain, whoever proposed the blocks and through any restarts.
   */
  lemma NeverConfirmedTwice(states: seq<Sys>, es: seq<Event>, k: nat, b: string)
    requires History(states, es) && NoAdoptions(states, es) && k < |states| && b in VALIDATORS
    ensures Mempool.DistinctIds(AllTxs(ChainOf(states[k], b)))
    ensures b in states[k].nodes && Mempool.IdsFresh(states[k].nodes[b].ledger)
  {
    hide History, NoAdoptions, Unique, Mempool.IdsFresh, Mempool.DistinctIds;
    UniqueAlong(states, es, k);
    UniqueAt(states[k], b);
  }
}
