/** What the arrival of a message, and every other event, achieves at the broker it happens to. */
module Deliveries {
  import opened Models
  import opened Texts
  import opened Hashing
  import opened Ledger
  import opened Votes
  import opened Protocol
  import opened Desks
  import opened Handlers
  import Heap

  function ChainAt(s: Sys, b: string): Chain {
    if b in s.nodes then s.nodes[b].ledger else Chain([], [])
  }

  /** What message m achieves when broker b receives it in state s, which leads to t. */
  ghost predicate Achieved(s: Sys, t: Sys, b: string, m: Msg)
    requires Brokers(s) && b in VALIDATORS
  {
    var n, blocks, d := s.nodes[b], ChainOf(s, b), DeskIn(t, b);
    match m
    case BlockProposal(p) =>
      && p.validator == GetProposer(p.index) && p.hash !in n.voted && Fits(blocks, p)
      && (exists x :: p.signature == [Seal(KeyOf(p.validator), HashBlock(p), x)])
      ==> exists sig :: BlockVote(b, p, sig) in t.net
    case BlockVote(v, p, sig) =>
      p.validator == b && (forall x :: x in OnFile(n, p.hash) ==> !(Str(v) + [Ch(':')] <= x)) ==>
        if |OnFile(n, p.hash)| >= 2 && Fits(blocks, p) then
          |ChainOf(t, b)| == |blocks| + 1 && BlockCommit(Last(ChainOf(t, b))) in t.net
          && Last(ChainOf(t, b)).transactions == p.transactions && t.nodes[b].saved.blocks == ChainOf(t, b)
        else b in t.nodes && OnFile(t.nodes[b], p.hash) == OnFile(n, p.hash) + [Str(v) + [Ch(':')] + sig]
    case BlockCommit(p) =>
      && p.index != 0 && Fits(blocks, p) && p.hash == HashBlock(p)
      && (exists x, y, z :: {x, y, z} <= Counted(p) && x != y && y != z && x != z)
      ==> ChainOf(t, b) == blocks + [p] && t.nodes[b].saved.blocks == blocks + [p]
    case ChainResponse(c) => SameGenesis(n, c) ==> |ChainOf(t, b)| >= |c|
    case TxBroadcast(tx) => ChainAt(t, b) == Admit(n.ledger, tx)
    case RequisicaoDrone(oc) => oc.criticidade != 0 ==> oc.id in d.ocorrencias && d.ocorrencias[oc.id] == oc
    case DroneDespachado(oc, x, info) => Atendida(d, oc) && x in d.drones && d.drones[x] == info
    case SincDrone(info) => info.droneId in d.drones && d.drones[info.droneId].ultimaVez >= info.ultimaVez
    case DronePerdido(x) =>
      x in DeskIn(s, b).drones ==>
        x in d.drones && d.drones[x].estado == Abatido
        && (d.drones[x].ocorrenciaId != "" ==> !Atendida(d, d.drones[x].ocorrenciaId))
    case MissaoConcluida(oc) => oc !in d.ocorrencias
    case Comando(_, _) => true
  }

  lemma NodeMessageAchieves(s: Sys, b: string, m: Msg, nonce: int, agora: int)
    requires Brokers(s) && b in VALIDATORS && ForNode(m)
    ensures Achieved(s, Receive(s, b, m, nonce, agora), b, m)
  {
    hide Fits, HashBlock, Counted, Admit, PaidOut, OnProposal, OnVote, OnCommit, Without, Join, KeyOf, GetProposer;
    var n := s.nodes[b];
    match m
    case BlockProposal(p) => VotesExactly(n, b, p, nonce);
    case BlockVote(v, p, sig) => CommitsExactly(n, b, v, p, sig);
    case BlockCommit(p) =>
      if p.index != 0 {
        TakesExactly(n, p);
      }
    case ChainResponse(c) =>
    case TxBroadcast(tx) =>
  }

  lemma DeskMessageAchieves(s: Sys, b: string, m: Msg, nonce: int, agora: int)
    requires Brokers(s) && b in VALIDATORS && !ForNode(m)
    ensures Achieved(s, Receive(s, b, m, nonce, agora), b, m)
  {
    hide Heap.Enqueue, Heap.RemoveId;
  }

  /** What an event of broker b achieves, as far as others or the broker itself can tell. */
  ghost predicate Effect(s: Sys, t: Sys, e: Event)
    requires Brokers(s) && e.b in VALIDATORS
  {
    var b, n, old_, d := e.b, s.nodes[e.b], s.desks[e.b], DeskIn(t, e.b);
    match e
    case Tick(_, _, _) =>
      GetProposer(|n.ledger.blocks|) == b && n.ledger.mempool != [] ==>
        exists p :: BlockProposal(p) in t.net && p.index == |n.ledger.blocks| && p.transactions != []
                    && p.transactions <= n.ledger.mempool
    case Deliver(_, m, _, _) => m in s.net ==> Achieved(s, t, b, m)
    case AnswerSync(_) => ChainResponse(ChainOf(t, b)) in t.net
    case Submit(_, tx) => ChainAt(t, b) == Admit(n.ledger, tx)
    case Reading(_, l, r, _) =>
      r && l.vesselId != "" && l.criticidade >= 1 ==>
        var oid := l.sensorId + "-" + Decimal(l.timestamp);
        && oid in d.ocorrencias && RequisicaoDrone(d.ocorrencias[oid]) in t.net
        && (l.vesselId in StateOf(n.ledger.blocks).vessels || (Queued(d.queue, oid) && oid in t.publicas))
    case Dispatch(_, alvo, enviado, _) =>
      ChoiceOk(old_, alvo) && alvo.Some? && enviado && old_.queue != [] && !Atendida(old_, old_.queue[0].oc.id) ==>
        Comando(alvo.value, old_.queue[0].oc.id) in t.net && Atendida(d, old_.queue[0].oc.id)
    case DroneSays(_, x, estado, oc, _, _) =>
      Commanded(s, x, oc) && x in old_.drones ==>
        && x in d.drones && d.drones[x].estado == estado && SincDrone(d.drones[x]) in t.net
        && (estado == Disponivel && oc != "" ==> MissaoConcluida(oc) in t.net)
    case DroneAlive(_, x, agora) =>
      x in old_.drones ==> x in d.drones && d.drones[x].ultimaVez == agora && SincDrone(d.drones[x]) in t.net
    case SendRecords(_) => forall x :: x in old_.drones ==> SincDrone(old_.drones[x]) in t.net
    case DroneJoins(_, info) =>
      Commanded(s, info.droneId, info.ocorrenciaId) ==>
        info.droneId in d.locais && SincDrone(info.(brokerId := b)) in t.net
    case DroneLeaves(_, x, _) => x !in d.locais && (x in old_.locais && x in old_.drones ==> DronePerdido(x) in t.net)
    case Age(_, agora) => multiset(d.queue) == multiset(Heap.AgedAll(old_.queue, agora))
    case Restart(_) =>
      b in t.nodes && t.nodes[b] == Node(n.saved, n.saved, {}, map[]) && d == Desk([], map[], map[], map[], {})
  }

  lemma TickAchieves(s: Sys, b: string, now: Moment, nonce: int)
    requires Brokers(s) && b in VALIDATORS
    ensures Effect(s, Do(s, Tick(b, now, nonce)), Tick(b, now, nonce))
  {
    hide Propose, PaidOut, HashBlock, GetProposer, Ballot;
    ProposesExactly(s.nodes[b], b, now, nonce);
  }

  lemma ReadingAchieves(s: Sys, b: string, l: Leitura, r: bool, lamport: int)
    requires Brokers(s) && b in VALIDATORS
    ensures Effect(s, Do(s, Reading(b, l, r, lamport)), Reading(b, l, r, lamport))
  {
    hide Read, StateOf, Queued, JoinsQueue, Decimal;
    var vessels := StateOf(s.nodes[b].ledger.blocks).vessels;
    var o := Read(s.desks[b], b, vessels, l, r, lamport);
    OpensAsRead(s.desks[b], b, vessels, l, r, lamport);
    if o.publicas != {} {
      var oid := l.sensorId + "-" + Decimal(l.timestamp);
      JoinedIds(s.desks[b].queue, o.desk.ocorrencias[oid], o.desk.queue, oid);
    }
  }

  lemma AgeAchieves(q: seq<Heap.Entry>, now: int)
    ensures multiset(Heap.Age(q, now)) == multiset(Heap.AgedAll(q, now))
  {
    var a := Heap.AgedAll(q, now);
    Heap.InitFromContents(a, |a| / 2);
  }

  /** Every event has its effect, whatever came before it. */
  lemma EventAchieves(s: Sys, e: Event)
    requires Brokers(s) && e.b in VALIDATORS
    ensures Effect(s, Do(s, e), e)
  {
    hide Admit, Heap.Enqueue, Heap.Dequeue, Heap.RemoveId, Heap.Age, PayBlock, PublishLaudo, Laudo;
    match e
    case Tick(b, now, nonce) => TickAchieves(s, b, now, nonce);
    case Deliver(b, m, nonce, agora) =>
      hide Receive, Achieved;
      if ForNode(m) {
        NodeMessageAchieves(s, b, m, nonce, agora);
      } else {
        DeskMessageAchieves(s, b, m, nonce, agora);
      }
    case Reading(b, l, r, lamport) => ReadingAchieves(s, b, l, r, lamport);
    case Age(b, agora) => AgeAchieves(s.desks[b].queue, agora);
    case DroneSays(b, x, estado, oc, agora, r) =>
      hide WithNode;
      ReportAchieves(s, b, x, estado, oc, agora, r);
    case _ =>
  }

  lemma ReportAchieves(s: Sys, b: string, x: string, estado: EstadoDrone, oc: string, agora: int, r: Registro)
    requires Brokers(s) && b in VALIDATORS
    ensures Effect(s, Do(s, DroneSays(b, x, estado, oc, agora, r)), DroneSays(b, x, estado, oc, agora, r))
  {
    hide DroneReport, PublishLaudo, Laudo, PaidOut, Commanded;
    ReportExactly(s.desks[b], x, estado, oc, agora);
  }
}
