/** Runs that happen, event by event, and what they show about the limits of the code. */
module Witnesses {
  import opened Models
  import opened Hashing
  import opened Ledger
  import opened Votes
  import opened Protocol
  import opened Scenarios
  import Mempool
  import Progress
  import Uniqueness

  /**
   * A round happens: a list of seven events from the initial state in which one registration is submitted to B2,
   * proposed, approved by B1 and B3, committed by B2 and taken by B1.
   */
  lemma RoundFromGenesis(key: string, name: string, now: Moment, nonce: int)
    returns (states: seq<Sys>, es: seq<Event>, block: Block)
    requires name != ""
    ensures History(states, es) && |states| == |es| + 1
    ensures var n := FirstNode().(ledger := Chain([Genesis()], [Progress.Registration(key, name)]));
            es == [Submit("B2", Progress.Registration(key, name))] + RoundEvents(n, "B2", "B1", "B3", now, nonce)
                  + [Deliver("B1", BlockCommit(block), 0, 0)]
    ensures ChainOf(states[|es|], "B2") == ChainOf(states[|es|], "B1") == [Genesis()] + [block]
    ensures block.transactions == [Progress.Registration(key, name)]
  {
    hide Genesis, VotesAccept, BlockError, HashBlock, Good, Admit, PayBlock, Progress.Registration, RoundEvents;
    var tx := Progress.Registration(key, name);
    Progress.RegistrationAdmitted(key, name);
    Progress.RegistrationSigned(key, name);
    var t2;
    t2, block := FirstRound(tx, "B1", "B3", now, nonce);
    var t3 := Take(t2, "B1", block);
    GoodIs(t3);
    states, es := t3.states, t3.es;
  }

  /**
   * One validator backs two blocks of one height: B2 proposes, proposes again in another second, and B1 approves
   * both on the genesis chain.
   */
  lemma TwoApprovalsInARun(key: string, name: string, now: Moment, later: Moment, x: int, y: int)
    returns (states: seq<Sys>, es: seq<Event>, b: Block, again: Block)
    requires name != "" && now.second != later.second
    ensures History(states, es) && |states| == |es| + 1
    ensures es == [Submit("B2", Progress.Registration(key, name)), Tick("B2", now, x), Tick("B2", later, y),
                   Deliver("B1", BlockProposal(b), 1, 0), Deliver("B1", BlockProposal(again), 2, 0)]
    ensures b.index == again.index == 1 && b.hash != again.hash
    ensures Approval("B1", b.hash, [Genesis()]) in states[|es|].log
    ensures Approval("B1", again.hash, [Genesis()]) in states[|es|].log
  {
    hide Genesis, Good, Admit, Progress.Registration, OnProposal, Proposal, Submitted, NodeIn;
    var tx := Progress.Registration(key, name);
    Progress.RegistrationAdmitted(key, name);
    Progress.RegistrationSigned(key, name);
    var t1 := SubmitFirst(tx);
    var n := NodeIn(End(t1), "B2");
    SubmittedLedger(End(t1), tx);
    b, again := Proposal(n, "B2", now, x), Proposal(n, "B2", later, y);
    TwoProposals(n, FirstNode(), tx, now, later, x, y);
    var t2 := TwoTicks(t1, tx, now, later, x, y);
    var t3 := TwoApprovals(t2, b, again);
    GoodIs(t3);
    FiveInRow([], t3.es, [Submit("B2", tx), Tick("B2", now, x), Tick("B2", later, y),
                          Deliver("B1", BlockProposal(b), 1, 0), Deliver("B1", BlockProposal(again), 2, 0)]);
    states, es := t3.states, t3.es;
  }

  /**
   * One adoption is enough for a transaction to be confirmed twice: B3 adopts B2's chain, keeps the transaction
   * of its first block in its mempool, and as proposer of the next height puts it into the second block too.
   */
  lemma AdoptionConfirmsTwice(key: string, name: string, now: Moment, later: Moment, x: int, y: int)
    returns (states: seq<Sys>, es: seq<Event>, k: nat)
    requires name != ""
    ensures History(states, es) && |states| == |es| + 1
    ensures k < |es| && Uniqueness.Adopts(states[k], es[k])
    ensures |ChainOf(states[|es|], "B3")| == 3 && !Mempool.DistinctIds(AllTxs(ChainOf(states[|es|], "B3")))
  {
    hide Genesis, Good, Admit, VotesAccept, BlockError, HashBlock, Progress.Registration, RoundEvents;
    hide StateOf, Mempool.DistinctIds, Mempool.Checked, Without, RoundDone, FirstRoundDone;
    var tx := Progress.Registration(key, name);
    Progress.RegistrationAdmitted(key, name);
    Progress.RegistrationSigned(key, name);
    var t1, block := FirstRound(tx, "B1", "B4", now, x);
    FirstBlockFacts(End(t1), "B1", "B4", tx, block);
    var t, t2 := AdoptAndTake(t1, block, tx);
    RegistrationChecked(StateOf([Genesis()] + [block]), key, name);
    var t4, second := SecondRound(t, tx, block, tx, later, y);
    TwiceInChain(block, second, tx);
    GoodIs(t4);
    Passed(t2, t4, Deliver("B3", ChainResponse([Genesis()] + [block]), 0, 0));
    states, es, k := t4.states, t4.es, |t2.es|;
  }

  /**
   * A release asks neither who pays nor how much: Maersk's vessel asks for an escort that waits for its payment,
   * the holder of any other key pays 0 for it, and after that block a drone is sent to it.
   */
  lemma StrangerReleases(vessel: string, key: string, timestamp: int, lamport: int, drone: string,
                         now: Moment, later: Moment, x: int, y: int)
    returns (states: seq<Sys>, es: seq<Event>, oc: Ocorrencia, pay: Transaction)
    requires vessel != "" && key != KeyOf("Maersk")
    ensures History(states, es) && |states| == |es| + 1
    ensures var t := states[|es|];
            && Comando(drone, oc.id) in t.net && oc.id !in t.publicas
            && |ChainOf(t, "B1")| == 3 && ChainOf(t, "B1")[2].transactions == [pay]
    ensures oc.vesselId == vessel && oc.companyAddr == GetAddress(KeyOf("Maersk"))
    ensures pay.kind == Transfer && pay.occurrenceId == oc.id && pay.amount == 0
    ensures pay.from == GetAddress(key) != oc.companyAddr
  {
    hide Genesis, Good, HashBlock, VesselRegistration, StateOf, Mempool.Checked, PayBlock, WaitingFor, PaymentOfNothing;
    var t1, block := RegisteredRound(vessel, now, x);
    var t2;
    t2, oc := AskAndPay(t1, block, vessel, key, timestamp, lamport);
    pay := PaymentOfNothing(key, oc.id);
    PaymentTerms(vessel, timestamp, lamport, key, oc);
    var t3, second := PayAndTake(t2, block, vessel, oc, pay, later, y);
    var t4 := JoinAndDispatch(t3, oc, pay, drone);
    GoodIs(t4);
    states, es := t4.states, t4.es;
  }
}
