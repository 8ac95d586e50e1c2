/** Rounds of consensus and other steps as lists of events, put together into runs. */
module Scenarios {
  import opened Models
  import opened Texts
  import opened Hashing
  import opened Ledger
  import opened Votes
  import opened Protocol
  import Accounting
  import Agreement
  import Effects
  import Heap
  import Mempool
  import Progress
  import Runs
  import TipHash

  // --- Traces ---------------------------------------------------------------------------------

  datatype Trace = Trace(states: seq<Sys>, es: seq<Event>)

  ghost predicate Good(tr: Trace) {
    |tr.states| == |tr.es| + 1 && History(tr.states, tr.es) && Brokers(tr.states[|tr.es|])
  }

  ghost function End(tr: Trace): (s: Sys)
    requires Good(tr)
    ensures Brokers(s)
  {
    tr.states[|tr.es|]
  }

  ghost predicate Goes(tr: Trace, e: Event, tr': Trace) {
    Good(tr) && Good(tr') && tr'.es == tr.es + [e] && End(tr') == Do(End(tr), e) && tr.states <= tr'.states
  }

  /** The later trace passes through the state and the events of the earlier one. */
  lemma Passed(tr: Trace, tr': Trace, e: Event)
    requires Good(tr) && Good(tr') && tr.states <= tr'.states && tr.es + [e] <= tr'.es
    ensures |tr.es| < |tr'.es| && tr'.states[|tr.es|] == End(tr) && tr'.es[|tr.es|] == e
  {
    hide History, Brokers;
  }

  lemma InvAtEnd(tr: Trace)
    requires Good(tr)
    ensures Agreement.Inv(End(tr))
  {
    hide History, Agreement.Inv, Brokers;
    Runs.InvAlong(tr.states, tr.es, |tr.es|);
  }

  lemma Start() returns (tr: Trace)
    ensures Good(tr) && tr.es == [] && End(tr) == Initial()
  {
    hide Initial;
    tr := Trace([Initial()], []);
    EmptyHistory();
  }

  lemma Go(tr: Trace, e: Event) returns (tr': Trace)
    requires Good(tr)
    ensures Goes(tr, e, tr')
  {
    hide Do, History, Brokers;
    tr' := Trace(tr.states + [Do(End(tr), e)], tr.es + [e]);
    HistoryGrows(tr.states, tr.es, e);
  }

  /** What a node event changes. */
  ghost predicate NodeMoved(s: Sys, b: string, o: NodeOut, t: Sys)
    requires Brokers(s) && Brokers(t) && b in VALIDATORS
  {
    && t.nodes[b] == o.node && (forall c :: c in VALIDATORS && c != b ==> t.nodes[c] == s.nodes[c])
    && t.desks[b] == PaidOut(s.desks[b], o.committed)
    && (forall c :: c in VALIDATORS && c != b ==> t.desks[c] == s.desks[c])
    && t.net == s.net + o.sent && t.log == s.log + o.approvals && t.publicas == s.publicas
  }

  lemma WithNodeMoves(s: Sys, b: string, o: NodeOut)
    requires Brokers(s) && b in VALIDATORS && o.node.ledger.blocks != [] && o.node.saved.blocks != []
    ensures NodeMoved(s, b, o, WithNode(s, b, o))
  {
    hide PaidOut;
  }

  // --- The events of a round ----------------------------------------------------------------------

  lemma GoTick(tr: Trace, id: string, now: Moment, nonce: int) returns (tr': Trace)
    requires Good(tr) && id in VALIDATORS
    ensures Goes(tr, Tick(id, now, nonce), tr')
    ensures NodeMoved(End(tr), id, Propose(End(tr).nodes[id], id, now, nonce), End(tr'))
  {
    hide Propose, WithNode, NodeMoved, Good;
    tr' := Go(tr, Tick(id, now, nonce));
    WithNodeMoves(End(tr), id, Propose(End(tr).nodes[id], id, now, nonce));
  }

  lemma GoDeliver(tr: Trace, id: string, m: Msg, nonce: int) returns (tr': Trace)
    requires Good(tr) && id in VALIDATORS && ForNode(m) && m in End(tr).net
    ensures Goes(tr, Deliver(id, m, nonce, 0), tr')
    ensures NodeMoved(End(tr), id, OnNodeMsg(End(tr).nodes[id], id, m, nonce), End(tr'))
  {
    hide OnNodeMsg, WithNode, NodeMoved, Good;
    tr' := Go(tr, Deliver(id, m, nonce, 0));
    WithNodeMoves(End(tr), id, OnNodeMsg(End(tr).nodes[id], id, m, nonce));
  }

  lemma GoSubmit(tr: Trace, id: string, tx: Transaction) returns (tr': Trace)
    requires Good(tr) && id in VALIDATORS
    ensures Goes(tr, Submit(id, tx), tr')
    ensures var n := End(tr).nodes[id];
            NodeMoved(End(tr), id, Quiet(n.(ledger := Admit(n.ledger, tx))), End(tr'))
  {
    hide Admit, WithNode, NodeMoved, Good;
    var n := End(tr).nodes[id];
    tr' := Go(tr, Submit(id, tx));
    Runs.AdmitKeepsBlocks(n.ledger, tx);
    WithNodeMoves(End(tr), id, Quiet(n.(ledger := Admit(n.ledger, tx))));
  }

  // --- Rounds ---------------------------------------------------------------------------------------

  /** Proposer id may propose, and validators a and c on its chain have not seen the proposal. */
  ghost predicate RoundReady(s: Sys, id: string, a: string, c: string, now: Moment, nonce: int)
    requires Brokers(s)
  {
    && id in VALIDATORS && a in VALIDATORS && c in VALIDATORS && id != a && a != c && id != c
    && var n := s.nodes[id];
       && GetProposer(|n.ledger.blocks|) == id && n.ledger.mempool != []
       && TipHash.Linked(n.ledger.blocks) && Mempool.Covered(n.ledger) && Mempool.AllChecked(n.ledger)
       && s.nodes[a].ledger.blocks == n.ledger.blocks && s.nodes[c].ledger.blocks == n.ledger.blocks
       && Proposal(n, id, now, nonce).hash !in s.nodes[a].voted
       && Proposal(n, id, now, nonce).hash !in s.nodes[c].voted
  }

  /** The events of a round: the proposal, two approvals, and their votes at the proposer. */
  function RoundEvents(n: Node, id: string, a: string, c: string, now: Moment, nonce: int): seq<Event>
    requires n.ledger.blocks != []
  {
    var b := Proposal(n, id, now, nonce);
    [Tick(id, now, nonce), Deliver(a, BlockProposal(b), 1, 0), Deliver(c, BlockProposal(b), 2, 0),
     Deliver(id, BlockVote(a, b, Sign(a, b.hash, 1)), 0, 0), Deliver(id, BlockVote(c, b, Sign(c, b.hash, 2)), 0, 0)]
  }

  /** The proposer committed the block; a and c have voted for it; nothing else changed. */
  ghost predicate RoundDone(s: Sys, t: Sys, id: string, a: string, c: string, block: Block)
    requires Brokers(s) && Brokers(t) && id in VALIDATORS && a in VALIDATORS && c in VALIDATORS
  {
    && block.transactions == Mempool.Cut(s.nodes[id].ledger.mempool)
    && block.index == |ChainOf(s, id)| && block.hash == HashBlock(block)
    && VotesAccept(block) && BlockError(ChainOf(s, id), block).None?
    && t.nodes[id].ledger == Extend(s.nodes[id].ledger, block) && t.nodes[id].voted == s.nodes[id].voted
    && ChainOf(t, id) == ChainOf(s, id) + [block]
    && t.nodes[a] == s.nodes[a].(voted := s.nodes[a].voted + {block.hash})
    && t.nodes[c] == s.nodes[c].(voted := s.nodes[c].voted + {block.hash})
    && (forall v :: v in VALIDATORS && v != id && v != a && v != c ==> t.nodes[v] == s.nodes[v])
    && t.desks[id] == PayBlock(s.desks[id], block.transactions)
    && (forall v :: v in VALIDATORS && v != id ==> t.desks[v] == s.desks[v])
    && BlockCommit(block) in t.net && s.net <= t.net && t.publicas == s.publicas
  }

  lemma Round(tr: Trace, id: string, a: string, c: string, now: Moment, nonce: int) returns (tr': Trace, block: Block)
    requires Good(tr) && RoundReady(End(tr), id, a, c, now, nonce)
    ensures Good(tr') && tr'.es == tr.es + RoundEvents(End(tr).nodes[id], id, a, c, now, nonce)
    ensures RoundDone(End(tr), End(tr'), id, a, c, block) && tr.states <= tr'.states
  {
    hide Propose, OnProposal, OnVote, Proposal, PayBlock, Mempool.Covered, Mempool.AllChecked, TipHash.Linked;
    hide Good, Extend, VotesAccept, BlockError, HashBlock, Ballot, Sign, Sealed, RoundDone, StateOf;
    var s := End(tr);
    var n, na, nc := s.nodes[id], s.nodes[a], s.nodes[c];
    var b := Proposal(n, id, now, nonce);
    Progress.VoterApproves(n, id, now, nonce, na, a, 1);
    Progress.VoterApproves(n, id, now, nonce, nc, c, 2);
    Progress.TwoVotesCommit(n, id, now, nonce, a, 1, c, 2);
    Progress.ProposeSends(n, id, now, nonce);
    ProposeOnly(n, id, now, nonce);
    block := Sealed(b, [Ballot(id, b.hash, nonce), Ballot(a, b.hash, 1), Ballot(c, b.hash, 2)]);
    var t1 := GoTick(tr, id, now, nonce);
    var t2 := GoDeliver(t1, a, BlockProposal(b), 1);
    var t3 := GoDeliver(t2, c, BlockProposal(b), 2);
    var t4 := GoDeliver(t3, id, BlockVote(a, b, Sign(a, b.hash, 1)), 0);
    tr' := GoDeliver(t4, id, BlockVote(c, b, Sign(c, b.hash, 2)), 0);
    FiveInRow(tr.es, tr'.es, RoundEvents(n, id, a, c, now, nonce));
    SealedFacts(n, id, now, nonce, a, c, [Ballot(id, b.hash, nonce), Ballot(a, b.hash, 1), Ballot(c, b.hash, 2)]);
    RoundIs(s, End(t1), End(t2), End(t3), End(t4), End(tr'), id, a, c, now, nonce, block);
  }

  lemma FiveInRow(before: seq<Event>, after: seq<Event>, five: seq<Event>)
    requires |five| == 5 && after == before + [five[0]] + [five[1]] + [five[2]] + [five[3]] + [five[4]]
    ensures after == before + five
  {
  }

  /** The five steps of a round, put together. */
  lemma RoundIs(s: Sys, s1: Sys, s2: Sys, s3: Sys, s4: Sys, t: Sys,
                id: string, a: string, c: string, now: Moment, nonce: int, block: Block)
    requires Brokers(s) && Brokers(s1) && Brokers(s2) && Brokers(s3) && Brokers(s4) && Brokers(t)
    requires id in VALIDATORS && a in VALIDATORS && c in VALIDATORS && id != a && a != c && id != c
    requires var b := Proposal(s.nodes[id], id, now, nonce);
             var o1 := Propose(s.nodes[id], id, now, nonce);
             var o4 := OnVote(s3.nodes[id], id, a, b, Sign(a, b.hash, 1));
             var o5 := OnVote(s4.nodes[id], id, c, b, Sign(c, b.hash, 2));
             && NodeMoved(s, id, o1, s1) && o1.committed == None && o1.node.voted == s.nodes[id].voted
             && NodeMoved(s1, a, OnProposal(s1.nodes[a], a, b, 1), s2)
             && OnProposal(s1.nodes[a], a, b, 1).node == s.nodes[a].(voted := s.nodes[a].voted + {block.hash})
             && OnProposal(s1.nodes[a], a, b, 1).committed == None
             && NodeMoved(s2, c, OnProposal(s2.nodes[c], c, b, 2), s3)
             && OnProposal(s2.nodes[c], c, b, 2).node == s.nodes[c].(voted := s.nodes[c].voted + {block.hash})
             && OnProposal(s2.nodes[c], c, b, 2).committed == None
             && NodeMoved(s3, id, o4, s4) && o4.committed == None && NodeMoved(s4, id, o5, t)
             && o5.committed == Some(block) && o5.sent == {BlockCommit(block)}
             && o5.node.ledger == Extend(s.nodes[id].ledger, block) && o5.node.voted == s.nodes[id].voted
             && o5.node.ledger.blocks == ChainOf(s, id) + [block]
    requires block.transactions == Mempool.Cut(s.nodes[id].ledger.mempool)
    requires block.index == |ChainOf(s, id)| && block.hash == HashBlock(block)
    requires VotesAccept(block) && BlockError(ChainOf(s, id), block).None?
    ensures RoundDone(s, t, id, a, c, block)
  {
    hide Propose, OnProposal, OnVote, Proposal, PayBlock, Extend, VotesAccept, BlockError, HashBlock, Sign;
  }

  lemma ProposeOnly(n: Node, id: string, now: Moment, nonce: int)
    requires n.ledger.blocks != []
    ensures var o := Propose(n, id, now, nonce);
            o.committed == None && o.node.ledger == n.ledger && o.node.voted == n.voted
  {
    hide Proposal;
  }

  lemma SealedFacts(n: Node, id: string, now: Moment, nonce: int, a: string, c: string, votes: seq<Text>)
    requires n.ledger.blocks != [] && GetProposer(|n.ledger.blocks|) == id && id in VALIDATORS
    requires TipHash.Linked(n.ledger.blocks) && Mempool.Covered(n.ledger) && Mempool.AllChecked(n.ledger)
    requires a in VALIDATORS && c in VALIDATORS && id != a && a != c && id != c
    requires var h := Proposal(n, id, now, nonce).hash;
             votes == [Ballot(id, h, nonce), Ballot(a, h, 1), Ballot(c, h, 2)]
    ensures var b := Proposal(n, id, now, nonce);
            var block := Sealed(b, votes);
            && block.transactions == Mempool.Cut(n.ledger.mempool) && block.index == |n.ledger.blocks|
            && block.hash == HashBlock(block) == b.hash && VotesAccept(block)
            && BlockError(n.ledger.blocks, block).None?
  {
    hide Mempool.Covered, Mempool.AllChecked, TipHash.Linked, BlockError, VotesAccept, HashTxs, Ballot, Quorum;
    var b := Proposal(n, id, now, nonce);
    Progress.SealedAccepted(n, id, now, nonce, votes);
    Progress.ThreeBallots(b.hash, id, nonce, a, 1, c, 2);
    assert HashBlock(Sealed(b, votes)) == b.hash;
    QuorumAccepted(Sealed(b, votes), votes);
  }

  /** A broker on the chain below takes a commit in flight. */
  lemma Take(tr: Trace, w: string, block: Block) returns (tr': Trace)
    requires Good(tr) && w in VALIDATORS && BlockCommit(block) in End(tr).net
    requires VotesAccept(block) && BlockError(ChainOf(End(tr), w), block).None?
    ensures Goes(tr, Deliver(w, BlockCommit(block), 0, 0), tr')
    ensures var c := Extend(End(tr).nodes[w].ledger, block);
            NodeMoved(End(tr), w, NodeOut(End(tr).nodes[w].(ledger := c, saved := c), {}, {}, Some(block)), End(tr'))
    ensures ChainOf(End(tr'), w) == ChainOf(End(tr), w) + [block]
  {
    hide Good, VotesAccept, BlockError, Without, PayBlock;
    tr' := GoDeliver(tr, w, BlockCommit(block), 0);
  }

  // --- A round from genesis -------------------------------------------------------------------------

  /** At the start every broker holds the genesis chain and nothing else. */
  lemma InitialNodes()
    ensures forall b :: b in VALIDATORS ==> Initial().nodes[b] == FirstNode() && Initial().desks[b] == EMPTY_DESK
    ensures Initial().net == {} && Initial().publicas == {} && Initial().log == {}
    ensures FirstNode().ledger == Chain([Genesis()], []) && FirstNode().voted == {}
  {
    hide Genesis;
  }

  /** A transaction that the genesis chain admits makes B2 ready to propose it to any two others. */
  lemma ReadyAtGenesis(s: Sys, tx: Transaction, a: string, c: string, now: Moment, nonce: int)
    requires Brokers(s) && a in VALIDATORS && c in VALIDATORS && a != c && a != "B2" && c != "B2"
    requires s.nodes["B2"].ledger == Chain([Genesis()], [tx]) == Admit(Chain([Genesis()], []), tx) && tx.amount >= 0
    requires s.nodes[a].ledger.blocks == [Genesis()] && s.nodes[a].voted == {}
    requires s.nodes[c].ledger.blocks == [Genesis()] && s.nodes[c].voted == {}
    ensures RoundReady(s, "B2", a, c, now, nonce)
  {
    hide Genesis, Proposal, Admit, Mempool.Covered, Mempool.AllChecked, Mempool.IdsFresh, TipHash.Linked;
    Mempool.GenesisReady();
    Progress.ReadyAfter(Chain([Genesis()], []), tx);
  }

  /** What the first round leaves: B2 has the block, a and c have voted for it, all else is as at the start. */
  ghost predicate FirstRoundDone(t: Sys, a: string, c: string, tx: Transaction, block: Block) {
    && block.transactions == [tx] && block.index == 1 && block.hash == HashBlock(block)
    && VotesAccept(block) && BlockError([Genesis()], block).None?
    && NodeIn(t, "B2").ledger.blocks == [Genesis()] + [block] && NodeIn(t, "B2").voted == {}
    && (forall v :: v in VALIDATORS && v != "B2" ==>
          && NodeIn(t, v).ledger == Chain([Genesis()], []) && DeskIn(t, v) == EMPTY_DESK
          && NodeIn(t, v).voted == if v == a || v == c then {block.hash} else {})
    && BlockCommit(block) in t.net && t.publicas == {}
  }

  function NodeIn(s: Sys, v: string): Node {
    if v in s.nodes then s.nodes[v] else FirstNode()
  }

  /** The state after one admitted transaction was submitted to B2. */
  ghost predicate Submitted(s: Sys, tx: Transaction) {
    && NodeIn(s, "B2") == FirstNode().(ledger := Chain([Genesis()], [tx])) && s.publicas == {}
    && forall v :: v in VALIDATORS && v != "B2" ==> NodeIn(s, v) == FirstNode() && DeskIn(s, v) == EMPTY_DESK
  }

  lemma SubmittedLedger(s: Sys, tx: Transaction)
    requires Submitted(s, tx)
    ensures NodeIn(s, "B2").ledger == Chain([Genesis()], [tx])
  {
    hide Genesis;
  }

  lemma SubmitFirst(tx: Transaction) returns (tr: Trace)
    requires Admit(Chain([Genesis()], []), tx) == Chain([Genesis()], [tx])
    ensures Good(tr) && tr.es == [Submit("B2", tx)] && Submitted(End(tr), tx)
  {
    hide Genesis, Good, Initial, Admit;
    InitialNodes();
    var t0 := Start();
    tr := GoSubmit(t0, "B2", tx);
  }

  lemma FirstRound(tx: Transaction, a: string, c: string, now: Moment, nonce: int) returns (tr: Trace, block: Block)
    requires Admit(Chain([Genesis()], []), tx) == Chain([Genesis()], [tx]) && tx.amount >= 0
    requires a in VALIDATORS && c in VALIDATORS && a != c && a != "B2" && c != "B2"
    ensures Good(tr) && FirstRoundDone(End(tr), a, c, tx, block)
    ensures var n := FirstNode().(ledger := Chain([Genesis()], [tx]));
            tr.es == [Submit("B2", tx)] + RoundEvents(n, "B2", a, c, now, nonce)
  {
    hide Genesis, RoundReady, Good, Admit, RoundEvents, RoundDone, FirstRoundDone;
    var t1 := SubmitFirst(tx);
    InitialNodes();
    ReadyAtGenesis(End(t1), tx, a, c, now, nonce);
    tr, block := Round(t1, "B2", a, c, now, nonce);
    FirstRoundIs(End(t1), End(tr), a, c, tx, block);
  }

  lemma FirstRoundIs(s: Sys, t: Sys, a: string, c: string, tx: Transaction, block: Block)
    requires Brokers(s) && Brokers(t) && a in VALIDATORS && c in VALIDATORS && a != "B2" && c != "B2"
    requires Submitted(s, tx) && RoundDone(s, t, "B2", a, c, block)
    ensures FirstRoundDone(t, a, c, tx, block)
  {
    hide Genesis, VotesAccept, BlockError, HashBlock, PayBlock, Without;
  }

  lemma GoodIs(tr: Trace)
    requires Good(tr)
    ensures History(tr.states, tr.es) && |tr.states| == |tr.es| + 1 && End(tr) == tr.states[|tr.es|]
    ensures Brokers(End(tr))
  {
    hide History;
  }

  // --- Two approvals at one height ----------------------------------------------------------------

  /** B2 proposes twice; everybody else is as at the start. */
  lemma TwoTicks(tr: Trace, tx: Transaction, now: Moment, later: Moment, x: int, y: int) returns (tr': Trace)
    requires Good(tr) && Submitted(End(tr), tx)
    ensures Good(tr') && tr'.es == tr.es + [Tick("B2", now, x)] + [Tick("B2", later, y)]
    ensures var n := NodeIn(End(tr), "B2");
            && BlockProposal(Proposal(n, "B2", now, x)) in End(tr').net
            && BlockProposal(Proposal(n, "B2", later, y)) in End(tr').net
    ensures NodeIn(End(tr'), "B1") == FirstNode()
  {
    hide Genesis, Good, Propose, Proposal, PaidOut;
    InitialNodes();
    var n := End(tr).nodes["B2"];
    var t := GoTick(tr, "B2", now, x);
    SameProposal(n, End(t).nodes["B2"], now, later, x, y);
    tr' := GoTick(t, "B2", later, y);
  }

  lemma TwoApprovals(tr: Trace, b: Block, again: Block) returns (tr': Trace)
    requires Good(tr) && NodeIn(End(tr), "B1") == FirstNode()
    requires BlockProposal(b) in End(tr).net && BlockProposal(again) in End(tr).net
    requires var first := OnProposal(FirstNode(), "B1", b, 1);
             && first.approvals == {Approval("B1", b.hash, [Genesis()])}
             && OnProposal(first.node, "B1", again, 2).approvals == {Approval("B1", again.hash, [Genesis()])}
    ensures Good(tr')
    ensures tr'.es == tr.es + [Deliver("B1", BlockProposal(b), 1, 0)] + [Deliver("B1", BlockProposal(again), 2, 0)]
    ensures Approval("B1", b.hash, [Genesis()]) in End(tr').log
    ensures Approval("B1", again.hash, [Genesis()]) in End(tr').log
  {
    hide Genesis, Good, OnProposal, PaidOut;
    var t := GoDeliver(tr, "B1", BlockProposal(b), 1);
    tr' := GoDeliver(t, "B1", BlockProposal(again), 2);
  }

  /** A tick leaves the ledger, so the next proposal is the one that could have been made before. */
  lemma SameProposal(n: Node, m: Node, now: Moment, later: Moment, x: int, y: int)
    requires n.ledger.blocks != [] && m == Propose(n, "B2", now, x).node
    requires GetProposer(|n.ledger.blocks|) == "B2" && n.ledger.mempool != []
    ensures Proposal(m, "B2", later, y) == Proposal(n, "B2", later, y) && m.ledger == n.ledger
    ensures Propose(n, "B2", now, x).sent == {BlockProposal(Proposal(n, "B2", now, x))}
    ensures Propose(m, "B2", later, y).sent == {BlockProposal(Proposal(n, "B2", later, y))}
  {
    hide HashBlock;
  }

  /** A fresh validator approves both, one after the other. */
  lemma TwoProposals(n: Node, v: Node, tx: Transaction, now: Moment, later: Moment, x: int, y: int)
    requires n.ledger == Chain([Genesis()], [tx]) == Admit(Chain([Genesis()], []), tx) && tx.amount >= 0
    requires v == FirstNode() && now.second != later.second
    ensures var b, again := Proposal(n, "B2", now, x), Proposal(n, "B2", later, y);
            var first := OnProposal(v, "B1", b, 1);
            && b.index == again.index == 1 && b.hash != again.hash && GetProposer(1) == "B2"
            && first.approvals == {Approval("B1", b.hash, [Genesis()])}
            && OnProposal(first.node, "B1", again, 2).approvals == {Approval("B1", again.hash, [Genesis()])}
  {
    hide Genesis, Admit, Mempool.Covered, Mempool.AllChecked, Mempool.IdsFresh, TipHash.Linked, OnProposal;
    Mempool.GenesisReady();
    Progress.ReadyAfter(Chain([Genesis()], []), tx);
    InitialNodes();
    TwoHashes(n, now, later, x, y);
    Progress.VoterApproves(n, "B2", now, x, v, "B1", 1);
    Progress.VoterApproves(n, "B2", later, y, OnProposal(v, "B1", Proposal(n, "B2", now, x), 1).node, "B1", 2);
  }

  lemma TwoHashes(n: Node, now: Moment, later: Moment, x: int, y: int)
    requires |n.ledger.blocks| == 1 && now.second != later.second
    ensures var b, again := Proposal(n, "B2", now, x), Proposal(n, "B2", later, y);
            b.index == again.index == 1 && b.hash != again.hash
  {
    hide HashTxs, Mempool.Cut;
  }

  // --- An adoption confirms twice --------------------------------------------------------------------

  /** The chain of genesis and a block with one registration: what it holds and that it is well linked. */
  lemma ChainOfRegistration(s: Sys, b: string, block: Block, reg: Transaction)
    requires Brokers(s) && Agreement.Inv(s) && b in VALIDATORS && ChainOf(s, b) == [Genesis()] + [block]
    requires block.transactions == [reg] && (reg.kind == Register || reg.kind == VesselReg)
    ensures TipHash.Linked([Genesis()] + [block])
    ensures StateOf([Genesis()] + [block]) == Apply(StateOf([Genesis()]), reg)
    ensures Accounting.Solvent(StateOf([Genesis()] + [block]))
    ensures AllTxs([Genesis()] + [block]) == AllTxs([Genesis()]) + [reg]
  {
    hide Genesis, StateOf, Agreement.Inv, Accounting.Reached, Agreement.Canonical, Agreement.Certified, TipHash.Linked;
    var g := [Genesis()];
    Agreement.NodeOf(s, b);
    Agreement.ReachedIsLinked(g + [block]);
    RebuildIsIncremental(g, block);
    assert [reg][..0] == [];
    AllTxsAppend(g, block);
    Accounting.SolventAtGenesis();
  }

  /** One pending transaction of amount 0 that passed admission is covered and checked. */
  lemma CoveredByNothing(blocks: seq<Block>, tx: Transaction)
    requires Accounting.Solvent(StateOf(blocks)) && tx.amount == 0 && Mempool.Checked(StateOf(blocks), tx)
    ensures Mempool.Covered(Chain(blocks, [tx])) && Mempool.AllChecked(Chain(blocks, [tx]))
  {
    hide StateOf;
    forall a ensures Mempool.PendingDebits([tx], a) == 0 {
      assert [tx][..|[tx]| - 1] == [];
    }
  }

  /** The next block on top of the first, proposed by B3 to B1 and B2. */
  lemma ReadyForSecond(s: Sys, block: Block, tx: Transaction, now: Moment, nonce: int)
    requires Brokers(s) && NodeIn(s, "B3").ledger == Chain([Genesis()] + [block], [tx])
    requires ChainOf(s, "B1") == [Genesis()] + [block] && ChainOf(s, "B2") == [Genesis()] + [block]
    requires NodeIn(s, "B1").voted <= {block.hash} && NodeIn(s, "B2").voted == {}
    requires block.hash == HashBlock(block) && block.index == 1
    requires TipHash.Linked([Genesis()] + [block]) && Mempool.Covered(Chain([Genesis()] + [block], [tx]))
    requires Mempool.AllChecked(Chain([Genesis()] + [block], [tx]))
    ensures RoundReady(s, "B3", "B1", "B2", now, nonce)
  {
    hide Genesis, Mempool.Covered, Mempool.AllChecked, TipHash.Linked, Proposal;
    assert |[Genesis()] + [block]| == 2 && GetProposer(2) == "B3";
    Runs.ProposalIsGood(s.nodes["B3"], "B3", now, nonce);
  }

  /** B2 answers a request for its chain. */
  lemma GoAnswer(tr: Trace, b: string) returns (tr': Trace)
    requires Good(tr) && b in VALIDATORS
    ensures Goes(tr, AnswerSync(b), tr')
    ensures End(tr') == Send(End(tr), ChainResponse(ChainOf(End(tr), b)))
  {
    hide Good, Send;
    tr' := Go(tr, AnswerSync(b));
  }

  lemma AdoptedNode(n: Node, blocks: seq<Block>, id: string, nonce: int)
    requires n.ledger.blocks != [] && |blocks| > |n.ledger.blocks| && blocks[0] == n.ledger.blocks[0]
    ensures OnNodeMsg(n, id, ChainResponse(blocks), nonce)
         == Quiet(n.(ledger := Chain(blocks, n.ledger.mempool), saved := Chain(blocks, n.ledger.mempool)))
  {
  }

  /** B3 adopts a chain that confirms a transaction which it keeps in its mempool. */
  lemma AdoptInto(tr: Trace, block: Block, tx: Transaction) returns (tr': Trace, at: Trace)
    requires Good(tr) && FirstRoundDone(End(tr), "B1", "B4", tx, block)
    requires Admit(Chain([Genesis()], []), tx) == Chain([Genesis()], [tx])
    ensures Good(tr') && Good(at) && at.es == tr.es + [Submit("B3", tx)] + [AnswerSync("B2")]
    ensures Goes(at, Deliver("B3", ChainResponse([Genesis()] + [block]), 0, 0), tr')
    ensures ChainOf(End(at), "B3") == [Genesis()]
    ensures NodeIn(End(tr'), "B3").ledger == Chain([Genesis()] + [block], [tx])
    ensures NodeIn(End(tr'), "B1") == NodeIn(End(tr), "B1") && NodeIn(End(tr'), "B2") == NodeIn(End(tr), "B2")
    ensures BlockCommit(block) in End(tr').net
  {
    hide Genesis, Good, Admit, VotesAccept, BlockError, HashBlock, OnNodeMsg;
    var t := GoSubmit(tr, "B3", tx);
    at := GoAnswer(t, "B2");
    AdoptedNode(End(at).nodes["B3"], [Genesis()] + [block], "B3", 0);
    tr' := GoDeliver(at, "B3", ChainResponse([Genesis()] + [block]), 0);
  }

  /** Then B1 takes the commit of that block. */
  lemma AdoptAndTake(tr: Trace, block: Block, tx: Transaction) returns (tr': Trace, at: Trace)
    requires Good(tr) && FirstRoundDone(End(tr), "B1", "B4", tx, block)
    requires Admit(Chain([Genesis()], []), tx) == Chain([Genesis()], [tx])
    ensures Good(tr') && Good(at) && at.states <= tr'.states
    ensures at.es + [Deliver("B3", ChainResponse([Genesis()] + [block]), 0, 0)] <= tr'.es
    ensures ChainOf(End(at), "B3") == [Genesis()]
    ensures NodeIn(End(tr'), "B3").ledger == Chain([Genesis()] + [block], [tx])
    ensures ChainOf(End(tr'), "B1") == [Genesis()] + [block] && ChainOf(End(tr'), "B2") == [Genesis()] + [block]
    ensures NodeIn(End(tr'), "B1").voted <= {block.hash} && NodeIn(End(tr'), "B2").voted == {}
  {
    hide Genesis, Good, Admit, VotesAccept, BlockError, HashBlock, Without, PayBlock;
    var t;
    t, at := AdoptInto(tr, block, tx);
    tr' := Take(t, "B1", block);
  }

  lemma FirstBlockFacts(t: Sys, a: string, c: string, tx: Transaction, block: Block)
    requires FirstRoundDone(t, a, c, tx, block)
    ensures block.transactions == [tx] && block.index == 1 && block.hash == HashBlock(block)
  {
    hide Genesis, VotesAccept, BlockError, HashBlock;
  }

  /** B3 commits a second block over its pending transaction with B1 and B2. */
  lemma SecondRound(tr: Trace, first: Transaction, block: Block, tx: Transaction, now: Moment, nonce: int)
    returns (tr': Trace, second: Block)
    requires Good(tr) && NodeIn(End(tr), "B3").ledger == Chain([Genesis()] + [block], [tx])
    requires ChainOf(End(tr), "B1") == [Genesis()] + [block] && ChainOf(End(tr), "B2") == [Genesis()] + [block]
    requires NodeIn(End(tr), "B1").voted <= {block.hash} && NodeIn(End(tr), "B2").voted == {}
    requires block.transactions == [first] && block.index == 1 && block.hash == HashBlock(block)
    requires first.kind == Register || first.kind == VesselReg
    requires tx.amount == 0 && Mempool.Checked(StateOf([Genesis()] + [block]), tx)
    ensures Good(tr') && tr.states <= tr'.states && tr.es <= tr'.es
    ensures ChainOf(End(tr'), "B3") == [Genesis()] + [block] + [second] && second.transactions == [tx]
    ensures RoundDone(End(tr), End(tr'), "B3", "B1", "B2", second)
  {
    hide Genesis, Good, HashBlock, RoundReady, RoundDone, RoundEvents, StateOf, Mempool.Checked;
    hide Mempool.Covered, Mempool.AllChecked, TipHash.Linked, Agreement.Inv, Accounting.Solvent;
    InvAtEnd(tr);
    ChainOfRegistration(End(tr), "B2", block, first);
    CoveredByNothing([Genesis()] + [block], tx);
    ReadyForSecond(End(tr), block, tx, now, nonce);
    tr', second := Round(tr, "B3", "B1", "B2", now, nonce);
    RoundChain(End(tr), End(tr'), "B3", "B1", "B2", second, tx);
  }

  lemma RoundChain(s: Sys, t: Sys, id: string, a: string, c: string, block: Block, tx: Transaction)
    requires Brokers(s) && Brokers(t) && id in VALIDATORS && a in VALIDATORS && c in VALIDATORS
    requires RoundDone(s, t, id, a, c, block) && s.nodes[id].ledger.mempool == [tx]
    ensures ChainOf(t, id) == ChainOf(s, id) + [block] && block.transactions == [tx]
  {
    hide VotesAccept, BlockError, HashBlock, PayBlock, Extend;
  }

  lemma TwiceInChain(block: Block, second: Block, tx: Transaction)
    requires block.transactions == [tx] && second.transactions == [tx]
    ensures !Mempool.DistinctIds(AllTxs([Genesis()] + [block] + [second]))
  {
    hide Genesis;
    var g := [Genesis()];
    AllTxsAppend(g, block);
    AllTxsAppend(g + [block], second);
    var all, n := AllTxs(g + [block] + [second]), |AllTxs(g)|;
    assert all == AllTxs(g) + [tx] + [tx];
    assert all[n].id == all[n + 1].id;
  }

  lemma RegistrationChecked(s: State, key: string, name: string)
    requires name != ""
    ensures Mempool.Checked(s, Progress.Registration(key, name))
  {
    hide Progress.Registration, AuthError;
    Progress.RegistrationSigned(key, name);
  }

  // --- A stranger's payment of nothing releases an escort ---------------------------------------------

  lemma GoDesk(tr: Trace, e: Event, o: DeskOut) returns (tr': Trace)
    requires Good(tr) && e.b in VALIDATORS && Do(End(tr), e) == WithDesk(End(tr), e.b, o)
    ensures Goes(tr, e, tr') && End(tr').nodes == End(tr).nodes
    ensures DeskIn(End(tr'), e.b) == o.desk && End(tr').net == End(tr).net + o.sent
    ensures End(tr').publicas == End(tr).publicas + o.publicas
  {
    hide Good, Do;
    tr' := Go(tr, e);
  }

  /** Company Maersk registers a vessel. */
  function VesselRegistration(vessel: string): Transaction {
    var key := KeyOf("Maersk");
    var draft := Transaction(Literal(""), VesselReg, GetAddress(key), "", key, 0, vessel, "", "", [], 0, 0);
    WithId(draft).(signature := [Seal(key, HashTx(draft), 0)])
  }

  lemma VesselRegistered(vessel: string)
    requires vessel != ""
    ensures var t := VesselRegistration(vessel);
            && Admit(Chain([Genesis()], []), t) == Chain([Genesis()], [t]) && t.kind == VesselReg && t.amount == 0
            && t.id == HashTx(t)
  {
    hide StateOf, Genesis;
    var t := VesselRegistration(vessel);
    assert HashTx(t) == t.id;
    Accounting.GenesisIdsLiteral(t.id);
    Accounting.RegisteredAtGenesis("Maersk");
  }

  /** The holder of any key pays nothing for an occurrence. */
  function PaymentOfNothing(key: string, id: string): Transaction {
    WithId(Transaction(Literal(""), Transfer, GetAddress(key), "", key, 0, "", id, "",
                       [Seal(key, Literal(id), 0)], 0, 0))
  }

  /** It is admitted on a chain of genesis and one vessel registration, and passes for a checked transaction. */
  lemma PaymentAdmitted(key: string, id: string, blocks: seq<Block>, first: Transaction)
    requires id != "" && Accounting.Solvent(StateOf(blocks)) && AllTxs(blocks) == AllTxs([Genesis()]) + [first]
    requires first.kind == VesselReg && first.id == HashTx(first)
    ensures var pay := PaymentOfNothing(key, id);
            Admit(Chain(blocks, []), pay) == Chain(blocks, [pay]) && Mempool.Checked(StateOf(blocks), pay)
  {
    hide StateOf, Genesis, GetAddress, TxContent;
    var pay := PaymentOfNothing(key, id);
    assert HashTx(pay) == pay.id && WithId(pay) == pay by { PaymentId(key, id); }
    if pay.id == first.id {
      Effects.SameKind(pay, first);
    }
    Accounting.GenesisIdsLiteral(pay.id);
    Mempool.HasIdConcat(AllTxs([Genesis()]), [first], pay.id);
    assert Bal(StateOf(blocks).balances, pay.from) >= 0;
  }

  lemma PaymentId(key: string, id: string)
    ensures HashTx(PaymentOfNothing(key, id)) == PaymentOfNothing(key, id).id
  {
  }

  function SensorReading(vessel: string, timestamp: int): Leitura {
    Leitura("S1", "SETOR", CRITICIDADE_ALTA, vessel, timestamp)
  }

  /** The occurrence that waits for its payment at B1. */
  function WaitingFor(vessel: string, timestamp: int, lamport: int, owner: string): Ocorrencia {
    NewOccurrence("B1", SensorReading(vessel, timestamp), lamport).(companyAddr := owner, status := AguardandoPagamento)
  }

  /** On an empty desk a reading of a registered vessel opens an occurrence that waits. */
  lemma ReadingWaits(vessels: map<string, string>, vessel: string, timestamp: int, lamport: int)
    requires vessel != "" && vessel in vessels
    ensures var oc := WaitingFor(vessel, timestamp, lamport, vessels[vessel]);
            && oc.id != ""
            && Read(EMPTY_DESK, "B1", vessels, SensorReading(vessel, timestamp), true, lamport)
            == DeskOut(EMPTY_DESK.(ocorrencias := map[oc.id := oc]), {RequisicaoDrone(oc)}, {})
  {
    hide Decimal;
  }

  /** The payment queues it; a drone that joins is sent to it. */
  lemma PaidIsDispatched(oc: Ocorrencia, tx: Transaction, drone: string)
    requires tx.kind == Transfer && tx.occurrenceId == oc.id != ""
    ensures var d := PayBlock(EMPTY_DESK.(ocorrencias := map[oc.id := oc]), [tx]);
            var e := DroneJoin(d, "B1", InfoDrone(drone, "B1", Disponivel, "", 0)).desk;
            && ChoiceOk(e, Some(drone))
            && Comando(drone, oc.id) in TryDispatch(e, Some(drone), true, 0).sent
  {
    hide Heap.Dequeue;
    var d0 := EMPTY_DESK.(ocorrencias := map[oc.id := oc]);
    assert [tx][..|[tx]| - 1] == [];
    assert PayBlock(d0, [tx]) == PayTx(d0, tx);
    Heap.EnqueueContents([], oc.(status := Pago));
    OneEntry(oc.(status := Pago));
  }

  lemma OneEntry(oc: Ocorrencia)
    ensures Heap.Enqueue([], oc) == [Heap.NewEntry(oc)]
  {
    assert [] + [Heap.NewEntry(oc)] == [Heap.NewEntry(oc)];
  }

  /** A first block registers the vessel; B1, B2 and B3 hold it. */
  lemma RegisteredRound(vessel: string, now: Moment, x: int) returns (tr: Trace, block: Block)
    requires vessel != ""
    ensures Good(tr) && block.transactions == [VesselRegistration(vessel)] && block.index == 1
    ensures block.hash == HashBlock(block)
    ensures ChainOf(End(tr), "B1") == [Genesis()] + [block] && ChainOf(End(tr), "B2") == [Genesis()] + [block]
    ensures NodeIn(End(tr), "B3").ledger == Chain([Genesis()] + [block], [])
    ensures NodeIn(End(tr), "B1").voted <= {block.hash} && NodeIn(End(tr), "B2").voted == {}
    ensures DeskIn(End(tr), "B1") == EMPTY_DESK && End(tr).publicas == {}
  {
    hide Genesis, Good, Admit, VotesAccept, BlockError, HashBlock, VesselRegistration, RoundEvents, PayBlock;
    var tx := VesselRegistration(vessel);
    VesselRegistered(vessel);
    var t1, b := FirstRound(tx, "B1", "B3", now, x);
    block := b;
    var t2 := Take(t1, "B1", block);
    NothingPaid(tx);
    tr := Take(t2, "B3", block);
  }

  lemma NothingPaid(tx: Transaction)
    requires tx.kind != Transfer
    ensures PayBlock(EMPTY_DESK, [tx]) == EMPTY_DESK
  {
    assert [tx][..|[tx]| - 1] == [];
  }

  /** What the chain of genesis and that block registers. */
  lemma OwnerOfVessel(tr: Trace, block: Block, vessel: string)
    requires Good(tr) && ChainOf(End(tr), "B1") == [Genesis()] + [block]
    requires block.transactions == [VesselRegistration(vessel)]
    ensures var s := StateOf([Genesis()] + [block]);
            && vessel in s.vessels && s.vessels[vessel] == GetAddress(KeyOf("Maersk"))
            && Accounting.Solvent(s)
            && AllTxs([Genesis()] + [block]) == AllTxs([Genesis()]) + [VesselRegistration(vessel)]
  {
    hide Good, Genesis, StateOf, HashTx, Agreement.Inv, Accounting.Solvent, TipHash.Linked;
    InvAtEnd(tr);
    ChainOfRegistration(End(tr), "B1", block, VesselRegistration(vessel));
  }

  /** B1 opens an occurrence for the vessel, and a payment of nothing for it is submitted to B3. */
  lemma AskAndPay(tr: Trace, block: Block, vessel: string, key: string, timestamp: int, lamport: int)
    returns (tr': Trace, oc: Ocorrencia)
    requires Good(tr) && vessel != "" && block.transactions == [VesselRegistration(vessel)]
    requires ChainOf(End(tr), "B1") == [Genesis()] + [block] && ChainOf(End(tr), "B2") == [Genesis()] + [block]
    requires NodeIn(End(tr), "B3").ledger == Chain([Genesis()] + [block], [])
    requires DeskIn(End(tr), "B1") == EMPTY_DESK && End(tr).publicas == {}
    ensures oc == WaitingFor(vessel, timestamp, lamport, GetAddress(KeyOf("Maersk"))) && oc.id != ""
    ensures Good(tr') && NodeIn(End(tr'), "B3").ledger == Chain([Genesis()] + [block], [PaymentOfNothing(key, oc.id)])
    ensures NodeIn(End(tr'), "B1") == NodeIn(End(tr), "B1") && NodeIn(End(tr'), "B2") == NodeIn(End(tr), "B2")
    ensures DeskIn(End(tr'), "B1") == EMPTY_DESK.(ocorrencias := map[oc.id := oc]) && End(tr').publicas == {}
    ensures Mempool.Checked(StateOf([Genesis()] + [block]), PaymentOfNothing(key, oc.id))
  {
    hide Genesis, Good, Admit, StateOf, VesselRegistration, PaymentOfNothing, Read, WaitingFor, Mempool.Checked, AllTxs;
    hide Accounting.Solvent;
    VesselRegistered(vessel);
    OwnerOfVessel(tr, block, vessel);
    var vessels := StateOf([Genesis()] + [block]).vessels;
    oc := WaitingFor(vessel, timestamp, lamport, vessels[vessel]);
    ReadingWaits(vessels, vessel, timestamp, lamport);
    var t := GoDesk(tr, Reading("B1", SensorReading(vessel, timestamp), true, lamport),
                    Read(EMPTY_DESK, "B1", vessels, SensorReading(vessel, timestamp), true, lamport));
    PaymentAdmitted(key, oc.id, [Genesis()] + [block], VesselRegistration(vessel));
    tr' := GoSubmit(t, "B3", PaymentOfNothing(key, oc.id));
  }

  /** B3's block of the payment reaches B1, whose desk queues the occurrence. */
  lemma PayAndTake(tr: Trace, block: Block, vessel: string, oc: Ocorrencia, pay: Transaction, now: Moment, x: int)
    returns (tr': Trace, second: Block)
    requires Good(tr) && vessel != "" && block.transactions == [VesselRegistration(vessel)] && block.index == 1
    requires block.hash == HashBlock(block)
    requires ChainOf(End(tr), "B1") == [Genesis()] + [block] && ChainOf(End(tr), "B2") == [Genesis()] + [block]
    requires NodeIn(End(tr), "B3").ledger == Chain([Genesis()] + [block], [pay])
    requires NodeIn(End(tr), "B1").voted <= {block.hash} && NodeIn(End(tr), "B2").voted == {}
    requires pay.amount == 0 && Mempool.Checked(StateOf([Genesis()] + [block]), pay)
    ensures Good(tr') && second.transactions == [pay]
    ensures ChainOf(End(tr'), "B1") == [Genesis()] + [block] + [second]
    ensures DeskIn(End(tr'), "B1") == PayBlock(DeskIn(End(tr), "B1"), [pay]) && End(tr').publicas == End(tr).publicas
  {
    hide Genesis, Good, HashBlock, VotesAccept, BlockError, VesselRegistration, StateOf, Mempool.Checked, PayBlock;
    VesselRegistered(vessel);
    var t;
    t, second := SecondRound(tr, VesselRegistration(vessel), block, pay, now, x);
    tr' := Take(t, "B1", second);
  }

  /** A drone joins B1 and is sent to the occurrence. */
  lemma JoinAndDispatch(tr: Trace, oc: Ocorrencia, pay: Transaction, drone: string) returns (tr': Trace)
    requires Good(tr) && pay.kind == Transfer && pay.occurrenceId == oc.id != ""
    requires DeskIn(End(tr), "B1") == PayBlock(EMPTY_DESK.(ocorrencias := map[oc.id := oc]), [pay])
    ensures Good(tr') && Comando(drone, oc.id) in End(tr').net && End(tr').nodes == End(tr).nodes
    ensures End(tr').publicas == End(tr).publicas
  {
    hide Good, PayBlock, DroneJoin, TryDispatch, ChoiceOk;
    var d := DeskIn(End(tr), "B1");
    var info := InfoDrone(drone, "B1", Disponivel, "", 0);
    PaidIsDispatched(oc, pay, drone);
    QuietDesk(d, info, drone);
    var t := GoDesk(tr, DroneJoins("B1", info), DroneJoin(d, "B1", info));
    var e := DeskIn(End(t), "B1");
    tr' := GoDesk(t, Dispatch("B1", Some(drone), true, 0), TryDispatch(e, Some(drone), true, 0));
  }

  lemma QuietDesk(d: Desk, info: InfoDrone, drone: string)
    ensures DroneJoin(d, "B1", info).publicas == {}
    ensures TryDispatch(DroneJoin(d, "B1", info).desk, Some(drone), true, 0).publicas == {}
  {
    hide Heap.Dequeue, Heap.RemoveId, Heap.Enqueue;
  }

  lemma PaymentTerms(vessel: string, timestamp: int, lamport: int, key: string, oc: Ocorrencia)
    requires oc == WaitingFor(vessel, timestamp, lamport, GetAddress(KeyOf("Maersk"))) && key != KeyOf("Maersk")
    ensures var pay := PaymentOfNothing(key, oc.id);
            && pay.kind == Transfer && pay.occurrenceId == oc.id && pay.amount == 0 && pay.from == GetAddress(key)
    ensures oc.vesselId == vessel && oc.companyAddr == GetAddress(KeyOf("Maersk")) != GetAddress(key)
  {
    hide Decimal, HashTx;
    assert GetAddress(key)[2..] == key && GetAddress(KeyOf("Maersk"))[2..] == KeyOf("Maersk");
  }
}
