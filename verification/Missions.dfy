/** One mission at a time, as a broker sees it: a second dispatch needs a step that reopened the occurrence. */
module Missions {
  import opened Models
  import opened Ledger
  import opened Votes
  import opened Protocol
  import Heap
  import Origins
  import Payments

  /** In state `s` the event `e` sends a drone of broker `b` to `oc`; `DispatchesIff` ties it to the command. */
  ghost predicate Dispatches(s: Sys, e: Event, b: string, oc: string) {
    var d := DeskIn(s, b);
    && e.Dispatch? && e.b == b && ChoiceOk(d, e.alvo) && e.alvo.Some? && e.enviado
    && d.queue != [] && d.queue[0].oc.id == oc && !Atendida(d, oc)
  }

  /** An enabled dispatch event writes the command for `oc` exactly when it dispatches `oc`. */
  lemma DispatchesIff(s: Sys, e: Event, oc: string)
    requires e.Dispatch? && ChoiceOk(DeskIn(s, e.b), e.alvo)
    ensures Dispatches(s, e, e.b, oc) <==>
            exists x :: Comando(x, oc) in TryDispatch(DeskIn(s, e.b), e.alvo, e.enviado, e.agora).sent
  {
    hide Heap.Enqueue, Heap.Dequeue, Heap.RemoveId;
    if Dispatches(s, e, e.b, oc) {
      assert Comando(e.alvo.value, oc) in TryDispatch(DeskIn(s, e.b), e.alvo, e.enviado, e.agora).sent;
    }
  }

  predicate Carries(txs: seq<Transaction>, oc: string) {
    exists tx :: tx in txs && tx.kind == Transfer && tx.occurrenceId == oc
  }

  /** The drone whose loss event `e` reports to broker `e.b`. */
  function LostDrone(e: Event): Option<string> {
    match e
    case Deliver(_, m, _, _) => if m.DronePerdido? then Some(m.droneId) else None
    case DroneSays(_, x, estado, _, _, _) => if estado == Abatido then Some(x) else None
    case DroneLeaves(_, x, _) => Some(x)
    case _ => None
  }

  /**
   * What reopens an occurrence at the broker of `e`, which leads from s to t: its payment on chain, the loss
   * of the drone on it, or a restart.
   */
  ghost predicate Reopens(s: Sys, e: Event, t: Sys, oc: string) {
    || e.Restart?
    || (&& |ChainOf(t, e.b)| == |ChainOf(s, e.b)| + 1
        && Carries(Last(ChainOf(t, e.b)).transactions, oc))
    || (&& LostDrone(e).Some? && LostDrone(e).value in DeskIn(s, e.b).drones
        && DeskIn(s, e.b).drones[LostDrone(e).value].ocorrenciaId == oc)
  }

  // --- Which desk operations clear the flag ---------------------------------------------------

  /** The flag of `oc` is set before and clear after. */
  predicate Clears(d: Desk, d': Desk, oc: string) {
    Atendida(d, oc) && !Atendida(d', oc)
  }

  lemma {:induction false} PayBlockClears(d: Desk, txs: seq<Transaction>, oc: string)
    requires Clears(d, PayBlock(d, txs), oc)
    ensures Carries(txs, oc)
  {
    hide Heap.Enqueue;
    var init, tx := txs[..|txs| - 1], txs[|txs| - 1];
    assert tx in txs;
    if Clears(d, PayBlock(d, init), oc) {
      PayBlockClears(d, init, oc);
      var t :| t in init && t.kind == Transfer && t.occurrenceId == oc;
      assert t in txs;
    }
  }

  lemma LoseDroneClears(d: Desk, info: InfoDrone, oc: string)
    requires Clears(d, LoseDrone(d, info), oc)
    ensures info.ocorrenciaId == oc
  {
    hide Heap.Enqueue;
  }

  lemma OnLostClears(d: Desk, x: string, agora: int, oc: string)
    requires Clears(d, OnLost(d, x, agora), oc)
    ensures x in d.drones && d.drones[x].ocorrenciaId == oc
  {
    hide LoseDrone;
    var info := d.drones[x].(estado := Abatido, ultimaVez := agora);
    LoseDroneClears(d.(drones := d.drones[x := info]), info, oc);
  }

  /** tentarDespachar clears only a flag that was clear: it does not dispatch an occurrence under way. */
  lemma TryDispatchClearsNone(d: Desk, alvo: Option<string>, enviado: bool, agora: int, oc: string)
    ensures !Clears(d, TryDispatch(d, alvo, enviado, agora).desk, oc)
  {
    hide Heap.Enqueue, Heap.Dequeue, Heap.RemoveId;
  }

  lemma DroneReportClears(d: Desk, x: string, estado: EstadoDrone, said: string, agora: int, oc: string)
    requires Clears(d, DroneReport(d, x, estado, said, agora).desk, oc)
    ensures estado == Abatido && x in d.drones && d.drones[x].ocorrenciaId == oc
  {
    hide LoseDrone;
    var info := Reported(d.drones[x], estado, said, agora);
    LoseDroneClears(d.(drones := d.drones[x := info]), info, oc);
  }

  lemma OthersClearNone(d: Desk, request: Ocorrencia, gone: string, x: string, info: InfoDrone, id: string, oc: string)
    ensures !Clears(d, OnRequest(d, request), oc) && !Clears(d, OnDispatched(d, gone, x, info), oc)
    ensures !Clears(d, OnSync(d, info), oc) && !Clears(d, OnDone(d, gone), oc)
    ensures !Clears(d, DroneJoin(d, id, info).desk, oc)
  {
    hide Heap.Enqueue, Heap.RemoveId;
  }

  lemma ReadClearsNone(d: Desk, id: string, vessels: map<string, string>, l: Leitura, r: bool, lamport: int, oc: string)
    ensures !Clears(d, Read(d, id, vessels, l, r, lamport).desk, oc)
  {
    hide Heap.Enqueue, NewOccurrence;
  }

  // --- Which events do -------------------------------------------------------------------------

  lemma NodeStepClears(s: Sys, b: string, o: NodeOut, oc: string)
    requires Brokers(s) && b in VALIDATORS && o.node.ledger.blocks != [] && o.node.saved.blocks != []
    requires Payments.PaysOwnBlock(s.nodes[b], o) && Clears(s.desks[b], WithNode(s, b, o).desks[b], oc)
    ensures |o.node.ledger.blocks| == |ChainOf(s, b)| + 1 && Carries(Last(o.node.ledger.blocks).transactions, oc)
  {
    hide PayBlock, Carries;
    PayBlockClears(s.desks[b], o.committed.value.transactions, oc);
  }

  lemma ReceiveClears(s: Sys, b: string, m: Msg, nonce: int, agora: int, oc: string)
    requires Brokers(s) && b in VALIDATORS && Clears(s.desks[b], Receive(s, b, m, nonce, agora).desks[b], oc)
    ensures var t := Receive(s, b, m, nonce, agora);
            || (|ChainOf(t, b)| == |ChainOf(s, b)| + 1 && Carries(Last(ChainOf(t, b)).transactions, oc))
            || (m.DronePerdido? && m.droneId in s.desks[b].drones && s.desks[b].drones[m.droneId].ocorrenciaId == oc)
  {
    hide Clears, Carries, PayBlock, Payments.PaysOwnBlock;
    hide OnProposal, OnVote, OnCommit, OnChain, OnRequest, OnDispatched, OnLost, OnSync, OnDone, Admit;
    var n, d := s.nodes[b], s.desks[b];
    match m
    case BlockProposal(block) =>
      Payments.HandlersPay(n, b, "", block, [], nonce, [Genesis()]);
      NodeStepClears(s, b, OnProposal(n, b, block, nonce), oc);
    case BlockVote(voter, block, sig) =>
      Payments.HandlersPay(n, b, voter, block, sig, nonce, [Genesis()]);
      NodeStepClears(s, b, OnVote(n, b, voter, block, sig), oc);
    case BlockCommit(block) =>
      Payments.HandlersPay(n, b, "", block, [], nonce, [Genesis()]);
      NodeStepClears(s, b, OnCommit(n, block), oc);
    case ChainResponse(blocks) =>
      Payments.HandlersPay(n, b, "", Genesis(), [], nonce, blocks);
      NodeStepClears(s, b, OnChain(n, blocks), oc);
    case TxBroadcast(tx) => SameClearsNone(d, oc);
    case RequisicaoDrone(request) => OthersClearNone(d, request, "", "", Origins.NO_DRONE, b, oc);
    case DroneDespachado(gone, x, info) => OthersClearNone(d, ANY_OC, gone, x, info, b, oc);
    case SincDrone(info) => OthersClearNone(d, ANY_OC, "", "", info, b, oc);
    case DronePerdido(x) => OnLostClears(d, x, agora, oc);
    case MissaoConcluida(gone) => OthersClearNone(d, ANY_OC, gone, "", Origins.NO_DRONE, b, oc);
    case Comando(_, _) => SameClearsNone(d, oc);
  }

  const ANY_OC := Ocorrencia("", "", "", 0, 0, 0, "", "", Aberta)

  lemma SameClearsNone(d: Desk, oc: string)
    ensures !Clears(d, d, oc)
  {
  }

  /** A step that clears the flag of an occurrence at b is a step of b that reopens it. */
  lemma ClearingReopens(s: Sys, e: Event, b: string, oc: string)
    requires Brokers(s) && b in VALIDATORS && Clears(s.desks[b], Do(s, e).desks[b], oc)
    ensures e.b == b && Reopens(s, e, Do(s, e), oc)
  {
    hide Clears, Carries, Receive, Read, TryDispatch, DroneReport, DroneJoin, DroneKeepalive, OnLost, Propose;
    hide PayBlock, Payments.PaysOwnBlock, Admit, Heap.Age, PublishLaudo, Laudo;
    SameClearsNone(s.desks[b], oc);
    if e.b != b {
      OtherDeskStays(s, e, b);
    } else {
      var d := s.desks[b];
      match e
      case Tick(_, now, nonce) =>
        Payments.ProposePays(s.nodes[b], b, now, nonce);
        NodeStepClears(s, b, Propose(s.nodes[b], b, now, nonce), oc);
      case Deliver(_, m, nonce, agora) => ReceiveClears(s, b, m, nonce, agora, oc);
      case Reading(_, l, r, lamport) =>
        ReadClearsNone(d, b, StateOf(s.nodes[b].ledger.blocks).vessels, l, r, lamport, oc);
      case Dispatch(_, alvo, enviado, agora) => TryDispatchClearsNone(d, alvo, enviado, agora, oc);
      case DroneSays(_, x, estado, said, agora, r) => DroneReportClears(d, x, estado, said, agora, oc);
      case DroneAlive(_, x, agora) => KeepaliveClearsNone(d, x, agora, oc);
      case DroneJoins(_, info) => OthersClearNone(d, ANY_OC, "", "", info, b, oc);
      case DroneLeaves(_, x, agora) => DroneLeaveClears(d, x, agora, oc);
      case Age(_, agora) => AgeClearsNone(d, agora, oc);
      case _ =>
    }
  }

  lemma KeepaliveClearsNone(d: Desk, x: string, agora: int, oc: string)
    ensures !Clears(d, DroneKeepalive(d, x, agora).desk, oc)
  {
  }

  lemma DroneLeaveClears(d: Desk, x: string, agora: int, oc: string)
    requires Clears(d, DroneLeave(d, x, agora).desk, oc)
    ensures x in d.drones && d.drones[x].ocorrenciaId == oc
  {
    hide OnLost;
    OnLostClears(d.(locais := d.locais - {x}), x, agora, oc);
  }

  lemma AgeClearsNone(d: Desk, agora: int, oc: string)
    ensures !Clears(d, d.(queue := Heap.Age(d.queue, agora)), oc)
  {
    hide Heap.Age;
  }

  /** An event of one broker leaves the desks of the others as they are. */
  lemma OtherDeskStays(s: Sys, e: Event, b: string)
    requires Brokers(s) && b in VALIDATORS && e.b != b
    ensures Do(s, e).desks[b] == s.desks[b]
  {
    hide Propose, OnProposal, OnVote, OnCommit, OnChain, PayBlock, StateOf, Read, TryDispatch, DroneReport, DroneJoin;
    hide OnRequest, OnDispatched, OnLost, OnSync, OnDone, LoseDrone, Heap.Age, Admit;
  }

  // --- Over runs ---------------------------------------------------------------------------------

  lemma DispatchSetsFlag(s: Sys, e: Event, b: string, oc: string)
    requires Brokers(s) && b in VALIDATORS && Dispatches(s, e, b, oc)
    ensures !Atendida(s.desks[b], oc) && Atendida(Do(s, e).desks[b], oc)
  {
    hide Heap.Enqueue, Heap.Dequeue, Heap.RemoveId;
  }

  /** The last moment before k at which the flag was still set is followed by a step that clears it. */
  lemma {:induction false} LastClearing(states: seq<Sys>, es: seq<Event>, i: nat, k: nat, b: string, oc: string)
    returns (c: nat)
    requires Execution(states, es) && b in VALIDATORS && i < k <= |es|
    requires Atendida(DeskIn(states[i], b), oc) && !Atendida(DeskIn(states[k], b), oc)
    ensures i <= c < k && es[c].b == b && Reopens(states[c], es[c], states[c + 1], oc)
  {
    hide Reopens, Do, Atendida;
    c := k - 1;
    assert StepAt(states, es, c);
    if Atendida(DeskIn(states[c], b), oc) {
      assert Clears(states[c].desks[b], Do(states[c], es[c]).desks[b], oc);
      ClearingReopens(states[c], es[c], b, oc);
    } else {
      c := LastClearing(states, es, i, c, b, oc);
    }
  }

  /**
   * Between two dispatches of one occurrence by one broker lies a step of that broker that reopened it:
   * its payment went on chain, the drone that carried it was lost, or the broker restarted.
   */
  lemma OneMissionAtATime(states: seq<Sys>, es: seq<Event>, i: nat, j: nat, b: string, oc: string) returns (c: nat)
    requires Execution(states, es) && i < j < |es| && b in VALIDATORS
    requires Dispatches(states[i], es[i], b, oc) && Dispatches(states[j], es[j], b, oc)
    ensures i < c < j && es[c].b == b && Reopens(states[c], es[c], states[c + 1], oc)
  {
    hide Reopens, Dispatches, Do, Atendida;
    assert StepAt(states, es, i) && StepAt(states, es, j);
    DispatchSetsFlag(states[i], es[i], b, oc);
    DispatchSetsFlag(states[j], es[j], b, oc);
    assert i + 1 < |es| ==> StepAt(states, es, i + 1);
    c := LastClearing(states, es, i + 1, j, b, oc);
  }
}
