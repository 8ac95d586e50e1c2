/** Which event sends which message, and which one records an approval. */
module Origins {
  import opened Models
  import opened Hashing
  import opened Ledger
  import opened Votes
  import opened Protocol
  import Heap

  /** The event may send the message. */
  predicate MaySend(e: Event, m: Msg) {
    match m
    case BlockProposal(_) => e.Tick?
    case BlockVote(_, _, _) => e.Deliver? && e.m.BlockProposal?
    case BlockCommit(_) => e.Deliver? && e.m.BlockVote?
    case ChainResponse(_) => e.AnswerSync?
    case TxBroadcast(_) => e.DroneSays? && e.estado == Disponivel
    case RequisicaoDrone(_) => e.Reading?
    case DroneDespachado(_, _, _) => e.Dispatch? && e.enviado
    case SincDrone(_) => e.DroneSays? || e.DroneAlive? || e.SendRecords? || e.DroneJoins?
    case DronePerdido(_) => e.DroneLeaves?
    case MissaoConcluida(_) => e.DroneSays? && e.estado == Disponivel
    case Comando(_, _) => e.Dispatch? && e.enviado
  }

  lemma NodeSends(n: Node, id: string, m: Msg, now: Moment, nonce: int)
    requires n.ledger.blocks != []
    ensures forall x :: x in Propose(n, id, now, nonce).sent ==> x.BlockProposal?
    ensures Propose(n, id, now, nonce).committed == None
    ensures forall x :: x in OnNodeMsg(n, id, m, nonce).sent ==>
              (x.BlockVote? && m.BlockProposal?) || (x.BlockCommit? && m.BlockVote?)
    ensures OnNodeMsg(n, id, m, nonce).approvals != {} ==> m.BlockProposal?
  {
    hide Proposal, Approves, HasVoted, VotesAccept, BlockError, SignBlock, HashBlock, Sealed, Extend, Admit;
  }

  lemma DronesSend(d: Desk, id: string, x: string, estado: EstadoDrone, oc: string, agora: int, info: InfoDrone)
    ensures forall m :: m in DroneReport(d, x, estado, oc, agora).sent ==>
              m.SincDrone? || (m.MissaoConcluida? && estado == Disponivel)
    ensures forall m :: m in DroneKeepalive(d, x, agora).sent ==> m.SincDrone?
    ensures forall m :: m in AllRecords(d).sent ==> m.SincDrone?
    ensures forall m :: m in DroneJoin(d, id, info).sent ==> m.SincDrone?
    ensures forall m :: m in DroneLeave(d, x, agora).sent ==> m.DronePerdido?
  {
    hide LoseDrone, OnLost;
  }

  lemma DeskSends(d: Desk, id: string, vessels: map<string, string>, l: Leitura, r: bool, lamport: int,
                  alvo: Option<string>, enviado: bool, agora: int)
    ensures forall m :: m in Read(d, id, vessels, l, r, lamport).sent ==> m.RequisicaoDrone?
    ensures forall m :: m in TryDispatch(d, alvo, enviado, agora).sent ==> (m.Comando? || m.DroneDespachado?) && enviado
  {
    hide Enfileirar, Heap.Dequeue, Heap.RemoveId;
  }

  lemma LaudoSends(n: Node, d: Desk, id: string, x: string, estado: EstadoDrone, oc: string, r: Registro)
    requires n.ledger.blocks != []
    ensures var o := PublishLaudo(n, Laudo(d, id, x, estado, oc, r));
            o.approvals == {} && forall m :: m in o.sent ==> m.TxBroadcast? && estado == Disponivel
  {
    hide Admit, AdmitError, MissionLogTx;
  }

  const NO_READING := Leitura("", "", 0, "", 0)
  const NO_DRONE := InfoDrone("", "", Disponivel, "", 0)

  /** Every message on the net was sent by an event of its kind, and approvals are given to proposals and own blocks. */
  lemma MessageOrigin(s: Sys, e: Event)
    requires Brokers(s)
    ensures forall m :: m in Do(s, e).net && m !in s.net ==> e.b in VALIDATORS && MaySend(e, m)
    ensures Do(s, e).log != s.log ==> e.b in VALIDATORS && (e.Tick? || (e.Deliver? && e.m.BlockProposal?))
  {
    hide Propose, OnNodeMsg, OnDeskMsg, Read, TryDispatch, DroneReport, DroneJoin, DroneLeave, DroneKeepalive;
    hide AllRecords, PublishLaudo, Laudo, Admit, PaidOut, Heap.Age, ChoiceOk, Commanded;
    if e.b in VALIDATORS {
      var n, d := s.nodes[e.b], s.desks[e.b];
      match e
      case Tick(b, now, nonce) => NodeSends(n, b, SincDrone(NO_DRONE), now, nonce);
      case Deliver(b, m, nonce, agora) => NodeSends(n, b, m, Moment(GENESIS_TIME, 0), nonce);
      case Reading(b, l, r, lamport) => DeskSends(d, b, StateOf(n.ledger.blocks).vessels, l, r, lamport, None, true, 0);
      case Dispatch(b, alvo, enviado, agora) => DeskSends(d, b, map[], NO_READING, true, 0, alvo, enviado, agora);
      case DroneSays(b, x, estado, oc, agora, r) =>
        LaudoSends(n, d, b, x, estado, oc, r);
        DronesSend(d, b, x, estado, oc, agora, NO_DRONE);
      case DroneAlive(b, x, agora) => DronesSend(d, b, x, Disponivel, "", agora, NO_DRONE);
      case SendRecords(b) => DronesSend(d, b, "", Disponivel, "", 0, NO_DRONE);
      case DroneJoins(b, info) => DronesSend(d, b, "", Disponivel, "", 0, info);
      case DroneLeaves(b, x, agora) => DronesSend(d, b, x, Disponivel, "", agora, NO_DRONE);
      case _ =>
    }
  }
}
