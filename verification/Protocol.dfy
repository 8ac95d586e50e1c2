/** broker_main.go as steps: consensus and chain sync on a node, occurrences and drones on a desk. */
module Protocol {
  import opened Models
  import opened Texts
  import opened Hashing
  import opened Ledger
  import opened Votes
  import Heap
  import Mempool

  datatype Msg =
    | BlockProposal(block: Block)
    | BlockVote(voter: string, block: Block, signature: Text)
    | BlockCommit(block: Block)
    | ChainResponse(blocks: seq<Block>)
    | TxBroadcast(tx: Transaction)
    | RequisicaoDrone(oc: Ocorrencia)
    | DroneDespachado(ocorrenciaId: string, droneId: string, drone: InfoDrone)
    | SincDrone(drone: InfoDrone)
    | DronePerdido(droneId: string)
    | MissaoConcluida(ocorrenciaId: string)
    | Comando(droneId: string, ocorrenciaId: string)

  // --- The node: ledger and votes -----------------------------------------------------

  datatype Node = Node(ledger: Chain, saved: Chain, voted: set<Digest>, votes: map<Digest, seq<Text>>)

  /** A validator approved a block with this digest when its own chain was `base`. */
  datatype Approval = Approval(voter: string, hash: Digest, base: seq<Block>)

  datatype NodeOut = NodeOut(node: Node, sent: set<Msg>, approvals: set<Approval>, committed: Option<Block>)

  function Quiet(n: Node): NodeOut {
    NodeOut(n, {}, {}, None)
  }

  function FirstNode(): Node {
    var c := Chain([Genesis()], []);
    Node(c, c, {}, map[])
  }

  /** The block that loopConsensus signs. */
  function Proposal(n: Node, id: string, now: Moment, nonce: int): Block
    requires n.ledger.blocks != []
  {
    SignBlock(Mempool.OwnBlock(n.ledger, Mempool.Cut(n.ledger.mempool), id, now), id, nonce)
  }

  /** One tick of loopConsensus. */
  function Propose(n: Node, id: string, now: Moment, nonce: int): (o: NodeOut)
    requires n.ledger.blocks != []
    ensures o.node.ledger.blocks != [] && (o.node.saved == n.saved || o.node.saved == o.node.ledger)
  {
    if GetProposer(|n.ledger.blocks|) != id || n.ledger.mempool == [] then Quiet(n)
    else
      var b := Proposal(n, id, now, nonce);
      NodeOut(n.(votes := n.votes[b.hash := [VoteText(id, b.signature)]]),
              {BlockProposal(b)}, {Approval(id, b.hash, n.ledger.blocks)}, None)
  }

  /** The checks of handleBlockProposal up to the vote. */
  predicate Approves(n: Node, b: Block)
    requires n.ledger.blocks != []
  {
    && GetProposer(b.index) == b.validator
    && VerifyBlockSignature(b, KeyOf(b.validator))
    && VetAll(TempOf(StateOf(n.ledger.blocks)), b.transactions).Ok?
    && b.index == Last(n.ledger.blocks).index + 1 && b.prevHash == Last(n.ledger.blocks).hash
  }

  function OnProposal(n: Node, id: string, b: Block, nonce: int): (o: NodeOut)
    requires n.ledger.blocks != []
    ensures o.node.ledger.blocks != [] && (o.node.saved == n.saved || o.node.saved == o.node.ledger)
  {
    if !Approves(n, b) || b.hash in n.voted then Quiet(n)
    else
      NodeOut(n.(voted := n.voted + {b.hash}),
              {BlockVote(id, b, SignBlock(b, id, nonce).signature)},
              {Approval(id, HashBlock(b), n.ledger.blocks)}, None)
  }

  function VotesFor(n: Node, hash: Digest): seq<Text> {
    if hash in n.votes then n.votes[hash] else []
  }

  predicate HasVoted(votes: seq<Text>, voter: string) {
    exists i :: 0 <= i < |votes| && HasPrefix(votes[i], Str(voter) + [Ch(':')])
  }

  /** The block with its collected votes as signature. */
  function Sealed(b: Block, votes: seq<Text>): Block {
    b.(signature := Join(votes, Ch(';')), hash := HashBlock(b))
  }

  function OnVote(n: Node, id: string, voter: string, b: Block, signature: Text): (o: NodeOut)
    requires n.ledger.blocks != []
    ensures o.node.ledger.blocks != [] && (o.node.saved == n.saved || o.node.saved == o.node.ledger)
  {
    if b.validator != id || HasVoted(VotesFor(n, b.hash), voter) then Quiet(n)
    else
      var votes := VotesFor(n, b.hash) + [VoteText(voter, signature)];
      var n1 := n.(votes := n.votes[b.hash := votes]);
      if |votes| < QUORUM then Quiet(n1)
      else
        var block := Sealed(b, votes);
        if BlockError(n.ledger.blocks, block).Some? then Quiet(n1)
        else
          var c := Extend(n.ledger, block);
          NodeOut(Node(c, c, n.voted, n1.votes - {b.hash}), {BlockCommit(block)}, {}, Some(block))
  }

  function OnCommit(n: Node, b: Block): (o: NodeOut)
    requires n.ledger.blocks != []
    ensures o.node.ledger.blocks != [] && (o.node.saved == n.saved || o.node.saved == o.node.ledger)
  {
    if !VotesAccept(b) || BlockError(n.ledger.blocks, b).Some? then Quiet(n)
    else
      var c := Extend(n.ledger, b);
      NodeOut(n.(ledger := c, saved := c), {}, {}, Some(b))
  }

  /** A longer chain with the same genesis hash replaces the own one, length check and all in one step. */
  function OnChain(n: Node, blocks: seq<Block>): (o: NodeOut)
    requires n.ledger.blocks != []
    ensures o.node.ledger.blocks != [] && (o.node.saved == n.saved || o.node.saved == o.node.ledger)
  {
    if |blocks| > |n.ledger.blocks| && blocks[0].hash == n.ledger.blocks[0].hash then
      var c := Chain(blocks, n.ledger.mempool);
      Quiet(n.(ledger := c, saved := c))
    else Quiet(n)
  }

  /** AddTxToMempool on a transaction of the broker's own, which it broadcasts when it was admitted. */
  function Publish(n: Node, tx: Transaction): (o: NodeOut)
    requires n.ledger.blocks != []
    ensures o.node.ledger.blocks == n.ledger.blocks && o.node.saved == n.saved
  {
    if AdmitError(n.ledger, WithId(tx)).Some? then Quiet(n)
    else NodeOut(n.(ledger := Admit(n.ledger, tx)), {TxBroadcast(tx)}, {}, None)
  }

  /** A restart reads the saved chain; votes and approvals given are forgotten. */
  function Reload(n: Node): Node {
    Node(n.saved, n.saved, {}, map[])
  }

  // --- The desk: occurrences, queue and drones ------------------------------------------

  datatype Desk = Desk(
    queue: seq<Heap.Entry>, atendidos: map<string, bool>, ocorrencias: map<string, Ocorrencia>,
    drones: map<string, InfoDrone>, locais: set<string>)

  const EMPTY_DESK := Desk([], map[], map[], map[], {})

  datatype DeskOut = DeskOut(desk: Desk, sent: set<Msg>, publicas: set<string>)

  function Calm(d: Desk): DeskOut {
    DeskOut(d, {}, {})
  }

  /** A Go map read: false when the key is missing. */
  predicate Atendida(d: Desk, id: string) {
    id in d.atendidos && d.atendidos[id]
  }

  function Enfileirar(d: Desk, oc: Ocorrencia): Desk {
    d.(queue := Heap.Enqueue(d.queue, oc))
  }

  function Marcar(d: Desk, id: string, atendida: bool): Desk {
    d.(atendidos := d.atendidos[id := atendida])
  }

  /** One pass of processarTransacoesBloco. */
  function PayTx(d: Desk, tx: Transaction): Desk {
    if tx.kind == Transfer && tx.occurrenceId != "" && tx.occurrenceId in d.ocorrencias then
      var occ := d.ocorrencias[tx.occurrenceId].(status := Pago);
      Enfileirar(Marcar(d.(ocorrencias := d.ocorrencias[tx.occurrenceId := occ]), tx.occurrenceId, false), occ)
    else d
  }

  function PayBlock(d: Desk, txs: seq<Transaction>): Desk {
    if txs == [] then d else PayTx(PayBlock(d, txs[..|txs| - 1]), txs[|txs| - 1])
  }

  datatype Leitura = Leitura(sensorId: string, setorId: string, criticidade: int, vesselId: string, timestamp: int)

  function NewOccurrence(id: string, l: Leitura, lamport: int): Ocorrencia {
    Ocorrencia(l.sensorId + "-" + Decimal(l.timestamp), l.setorId, id, l.criticidade, l.timestamp, lamport,
               l.vesselId, "", Aberta)
  }

  /** processarLeitura; `vessels` is the register of the broker's own chain. */
  function Read(d: Desk, id: string, vessels: map<string, string>, l: Leitura, responsavel: bool, lamport: int): DeskOut
  {
    if !responsavel || l.vesselId == "" || (l.criticidade < CRITICIDADE_ALTA && l.criticidade != CRITICIDADE_BAIXA)
    then Calm(d)
    else
      var oc := NewOccurrence(id, l, lamport);
      if l.vesselId in vessels then
        var waiting := oc.(companyAddr := vessels[l.vesselId], status := AguardandoPagamento);
        DeskOut(d.(ocorrencias := d.ocorrencias[oc.id := waiting]), {RequisicaoDrone(waiting)}, {})
      else
        DeskOut(Enfileirar(d.(ocorrencias := d.ocorrencias[oc.id := oc]), oc), {RequisicaoDrone(oc)}, {oc.id})
  }

  /** tratarDronePerdido. */
  function LoseDrone(d: Desk, info: InfoDrone): Desk {
    if info.ocorrenciaId == "" then d
    else
      var d1 := Marcar(d, info.ocorrenciaId, false);
      if info.ocorrenciaId in d.ocorrencias then Enfileirar(d1, d.ocorrencias[info.ocorrenciaId]) else d1
  }

  predicate Available(d: Desk, x: string) {
    x in d.locais && x in d.drones && d.drones[x].estado == Disponivel
  }

  /** Any local available drone may be picked, none only when there is none. */
  ghost predicate ChoiceOk(d: Desk, alvo: Option<string>) {
    match alvo
    case Some(x) => Available(d, x)
    case None => forall x :: x in d.locais ==> !Available(d, x)
  }

  function Occupy(d: Desk, x: string, oc: string, agora: int): Desk
    requires x in d.drones
  {
    d.(drones := d.drones[x := d.drones[x].(estado := Despachado, ocorrenciaId := oc, ultimaVez := agora)])
  }

  /** tentarDespachar with the drone it picks and whether the command could be written. */
  function TryDispatch(d: Desk, alvo: Option<string>, enviado: bool, agora: int): DeskOut {
    if d.queue == [] then Calm(d)
    else
      var oc := d.queue[0].oc;
      if Atendida(d, oc.id) then Calm(d.(queue := Heap.RemoveId(d.queue, oc.id)))
      else if alvo.None? || alvo.value !in d.drones then Calm(d)
      else
        var x := alvo.value;
        var d1 := Occupy(d.(queue := Heap.Dequeue(d.queue)), x, oc.id, agora);
        if !enviado then Calm(Enfileirar(Marcar(d1, oc.id, false), oc))
        else DeskOut(Marcar(d1, oc.id, true), {Comando(x, oc.id), DroneDespachado(oc.id, x, d1.drones[x])}, {})
  }

  function OnRequest(d: Desk, oc: Ocorrencia): Desk {
    if oc.criticidade == CRITICIDADE_NULA then d
    else
      var d1 := d.(ocorrencias := d.ocorrencias[oc.id := oc]);
      if !Atendida(d, oc.id) && oc.vesselId == "" then Enfileirar(d1, oc) else d1
  }

  function OnDispatched(d: Desk, oc: string, droneId: string, info: InfoDrone): Desk {
    var d1 := Marcar(d, oc, true);
    d1.(queue := Heap.RemoveId(d.queue, oc), drones := d.drones[droneId := info])
  }

  function OnLost(d: Desk, x: string, agora: int): Desk {
    if x !in d.drones then d
    else
      var info := d.drones[x].(estado := Abatido, ultimaVez := agora);
      LoseDrone(d.(drones := d.drones[x := info]), info)
  }

  function OnSync(d: Desk, info: InfoDrone): Desk {
    if info.droneId in d.drones && info.ultimaVez <= d.drones[info.droneId].ultimaVez then d
    else d.(drones := d.drones[info.droneId := info])
  }

  function OnDone(d: Desk, oc: string): Desk {
    d.(ocorrencias := d.ocorrencias - {oc})
  }

  /** The record of a drone after a state report. */
  function Reported(info: InfoDrone, estado: EstadoDrone, oc: string, agora: int): InfoDrone {
    info.(estado := estado, ultimaVez := agora,
          ocorrenciaId := if estado == Disponivel then ""
                          else if (estado == Despachado || estado == EmMissao) && oc != "" then oc
                          else info.ocorrenciaId)
  }

  /** processarMensagemDrone on DRONE_ESTADO. */
  function DroneReport(d: Desk, x: string, estado: EstadoDrone, oc: string, agora: int): DeskOut {
    if x !in d.drones then Calm(d)
    else
      var info := Reported(d.drones[x], estado, oc, agora);
      var d1 := d.(drones := d.drones[x := info]);
      DeskOut(if estado == Abatido then LoseDrone(d1, info) else d1,
              {SincDrone(info)} + if estado == Disponivel && oc != "" then {MissaoConcluida(oc)} else {}, {})
  }

  /** Text, time and signature of a mission log. */
  datatype Registro = Registro(laudo: string, quando: int, nonce: int)

  /** The MISSION_LOG that broker `id` signs for a finished escort. */
  function MissionLogTx(id: string, oc: Ocorrencia, r: Registro): Transaction {
    var draft := Transaction(Literal(""), MissionLog, GetAddress(KeyOf(id)), "", KeyOf(id), 0,
                             oc.vesselId, oc.id, r.laudo, [], r.quando, 0);
    WithId(draft).(signature := Sign(id, HashTx(draft), r.nonce))
  }

  /** The mission log that a state report calls for: the end of an escort that the broker knows. */
  function Laudo(d: Desk, id: string, x: string, estado: EstadoDrone, oc: string, r: Registro): Option<Transaction> {
    if x in d.drones && estado == Disponivel && oc != "" && oc in d.ocorrencias && d.ocorrencias[oc].vesselId != ""
    then Some(MissionLogTx(id, d.ocorrencias[oc].(id := oc), r))
    else None
  }

  function PublishLaudo(n: Node, laudo: Option<Transaction>): (o: NodeOut)
    requires n.ledger.blocks != []
    ensures o.node.ledger.blocks == n.ledger.blocks && o.node.saved == n.saved
  {
    if laudo.Some? then Publish(n, laudo.value) else Quiet(n)
  }

  /** processarMensagemDrone on KEEPALIVE. */
  function DroneKeepalive(d: Desk, x: string, agora: int): DeskOut {
    if x !in d.drones then Calm(d)
    else
      var info := d.drones[x].(ultimaVez := agora);
      DeskOut(d.(drones := d.drones[x := info]), {SincDrone(info)}, {})
  }

  /** enviarSincGlobal: the records of all known drones, for a broker that connects. */
  function AllRecords(d: Desk): DeskOut {
    DeskOut(d, set x | x in d.drones :: SincDrone(d.drones[x]), {})
  }

  /** registrarDroneLocal. */
  function DroneJoin(d: Desk, id: string, info: InfoDrone): DeskOut {
    var mine := info.(brokerId := id);
    DeskOut(d.(locais := d.locais + {info.droneId}, drones := d.drones[info.droneId := mine]), {SincDrone(mine)}, {})
  }

  /** The end of a drone's connection. */
  function DroneLeave(d: Desk, x: string, agora: int): DeskOut {
    if x !in d.locais then Calm(d)
    else
      var d1 := d.(locais := d.locais - {x});
      if x !in d.drones then Calm(d1)
      else DeskOut(OnLost(d1, x, agora), {DronePerdido(x)}, {})
  }

  // --- The system ---------------------------------------------------------------------------

  /** Four brokers, everything ever sent, every approval ever given, every occurrence ever opened as public. */
  datatype Sys = Sys(nodes: map<string, Node>, desks: map<string, Desk>, net: set<Msg>, log: set<Approval>,
                     publicas: set<string>)

  /** Sent messages stay in `net`, so they may be delivered never, late, repeatedly and in any order. */
  datatype Event =
    | Tick(b: string, now: Moment, nonce: int)
    | Deliver(b: string, m: Msg, nonce: int, agora: int)
    | AnswerSync(b: string)
    | Submit(b: string, tx: Transaction)
    | Reading(b: string, leitura: Leitura, responsavel: bool, lamport: int)
    | Dispatch(b: string, alvo: Option<string>, enviado: bool, agora: int)
    | DroneSays(b: string, droneId: string, estado: EstadoDrone, oc: string, agora: int, registro: Registro)
    | DroneAlive(b: string, droneId: string, agora: int)
    | SendRecords(b: string)
    | DroneJoins(b: string, info: InfoDrone)
    | DroneLeaves(b: string, droneId: string, agora: int)
    | Age(b: string, agora: int)
    | Restart(b: string)

  ghost predicate Brokers(s: Sys) {
    && (forall b :: b in VALIDATORS ==> b in s.nodes && b in s.desks)
    && (forall b :: b in s.nodes ==> s.nodes[b].ledger.blocks != [] && s.nodes[b].saved.blocks != [])
  }

  function Initial(): (s: Sys)
    ensures Brokers(s)
  {
    Sys(map b | b in VALIDATORS :: FirstNode(), map b | b in VALIDATORS :: EMPTY_DESK, {}, {}, {})
  }

  /** What a node step leaves on the desk: a committed block is paid out. */
  function PaidOut(d: Desk, committed: Option<Block>): Desk {
    if committed.Some? then PayBlock(d, committed.value.transactions) else d
  }

  /** A node step, with what it leaves on the desk. */
  function WithNode(s: Sys, b: string, o: NodeOut): (s': Sys)
    requires Brokers(s) && b in VALIDATORS && o.node.ledger.blocks != [] && o.node.saved.blocks != []
    ensures Brokers(s')
  {
    Sys(s.nodes[b := o.node],
        s.desks[b := PaidOut(s.desks[b], o.committed)],
        s.net + o.sent, s.log + o.approvals, s.publicas)
  }

  function WithDesk(s: Sys, b: string, o: DeskOut): (s': Sys)
    requires Brokers(s) && b in VALIDATORS
    ensures Brokers(s')
  {
    s.(desks := s.desks[b := o.desk], net := s.net + o.sent, publicas := s.publicas + o.publicas)
  }

  function Send(s: Sys, m: Msg): (s': Sys)
    requires Brokers(s)
    ensures Brokers(s')
  {
    s.(net := s.net + {m})
  }

  /** A drone only reports occurrences it was commanded to. */
  predicate Commanded(s: Sys, x: string, oc: string) {
    oc == "" || Comando(x, oc) in s.net
  }

  /** Messages that act on the ledger or the votes. */
  predicate ForNode(m: Msg) {
    m.BlockProposal? || m.BlockVote? || m.BlockCommit? || m.ChainResponse? || m.TxBroadcast?
  }

  /** The handler of such a message. */
  function OnNodeMsg(n: Node, id: string, m: Msg, nonce: int): (o: NodeOut)
    requires n.ledger.blocks != []
    ensures o.node.ledger.blocks != [] && (o.node.saved == n.saved || o.node.saved == o.node.ledger)
  {
    match m
    case BlockProposal(block) => OnProposal(n, id, block, nonce)
    case BlockVote(voter, block, sig) => OnVote(n, id, voter, block, sig)
    case BlockCommit(block) => OnCommit(n, block)
    case ChainResponse(blocks) => OnChain(n, blocks)
    case TxBroadcast(tx) => Quiet(n.(ledger := Admit(n.ledger, tx)))
    case _ => Quiet(n)
  }

  /** The handler of a message about occurrences and drones. */
  function OnDeskMsg(d: Desk, m: Msg, agora: int): Desk {
    match m
    case RequisicaoDrone(oc) => OnRequest(d, oc)
    case DroneDespachado(oc, x, info) => OnDispatched(d, oc, x, info)
    case SincDrone(info) => OnSync(d, info)
    case DronePerdido(x) => OnLost(d, x, agora)
    case MissaoConcluida(oc) => OnDone(d, oc)
    case _ => d
  }

  function Receive(s: Sys, b: string, m: Msg, nonce: int, agora: int): (s': Sys)
    requires Brokers(s) && b in VALIDATORS
    ensures Brokers(s')
  {
    if ForNode(m) then WithNode(s, b, OnNodeMsg(s.nodes[b], b, m, nonce))
    else WithDesk(s, b, Calm(OnDeskMsg(s.desks[b], m, agora)))
  }

  /** One atomic step; an event that is not enabled changes nothing. */
  ghost function Do(s: Sys, e: Event): (s': Sys)
    requires Brokers(s)
    ensures Brokers(s')
  {
    if e.b !in VALIDATORS then s
    else
      var n, d := s.nodes[e.b], s.desks[e.b];
      match e
      case Tick(b, now, nonce) => WithNode(s, b, Propose(n, b, now, nonce))
      case Deliver(b, m, nonce, agora) => if m in s.net then Receive(s, b, m, nonce, agora) else s
      case AnswerSync(b) => Send(s, ChainResponse(n.ledger.blocks))
      case Submit(b, tx) => WithNode(s, b, Quiet(n.(ledger := Admit(n.ledger, tx))))
      case Reading(b, l, r, lamport) =>
        WithDesk(s, b, Read(d, b, StateOf(n.ledger.blocks).vessels, l, r, lamport))
      case Dispatch(b, alvo, ok, agora) =>
        if ChoiceOk(d, alvo) then WithDesk(s, b, TryDispatch(d, alvo, ok, agora)) else s
      case DroneSays(b, x, estado, oc, agora, r) =>
        if !Commanded(s, x, oc) then s
        else
          var t := WithNode(s, b, PublishLaudo(n, Laudo(d, b, x, estado, oc, r)));
          WithDesk(t, b, DroneReport(d, x, estado, oc, agora))
      case DroneAlive(b, x, agora) => WithDesk(s, b, DroneKeepalive(d, x, agora))
      case SendRecords(b) => WithDesk(s, b, AllRecords(d))
      case DroneJoins(b, info) =>
        if Commanded(s, info.droneId, info.ocorrenciaId) then WithDesk(s, b, DroneJoin(d, b, info)) else s
      case DroneLeaves(b, x, agora) => WithDesk(s, b, DroneLeave(d, x, agora))
      case Age(b, agora) => WithDesk(s, b, Calm(d.(queue := Heap.Age(d.queue, agora))))
      case Restart(b) => WithDesk(WithNode(s, b, Quiet(Reload(n))), b, Calm(EMPTY_DESK))
  }

  // --- Runs ---------------------------------------------------------------------------------

  ghost predicate StepAt(states: seq<Sys>, es: seq<Event>, i: nat)
    requires i < |es| && |states| == |es| + 1
  {
    Brokers(states[i]) && states[i + 1] == Do(states[i], es[i])
  }

  /** The states that the events lead through, one after the other. */
  ghost predicate Execution(states: seq<Sys>, es: seq<Event>) {
    |states| == |es| + 1 && forall i :: 0 <= i < |es| ==> StepAt(states, es, i)
  }

  /** An execution from four brokers on the genesis block. */
  ghost predicate History(states: seq<Sys>, es: seq<Event>) {
    Execution(states, es) && states[0] == Initial()
  }

  lemma HistoryGrows(states: seq<Sys>, es: seq<Event>, e: Event)
    requires History(states, es) && Brokers(states[|es|])
    ensures History(states + [Do(states[|es|], e)], es + [e])
  {
    hide Do, Brokers, Initial;
    var more, n := states + [Do(states[|es|], e)], |es|;
    forall i | 0 <= i < n + 1 ensures StepAt(more, es + [e], i) {
      assert i < n ==> StepAt(states, es, i);
    }
  }

  /** Any list of events is the history of some states. */
  lemma {:induction false} HistoryExists(es: seq<Event>) returns (states: seq<Sys>)
    ensures History(states, es) && Brokers(states[|es|])
  {
    hide Do, Brokers, Initial, History;
    if es == [] {
      states := [Initial()];
      EmptyHistory();
    } else {
      var n := |es| - 1;
      var before := HistoryExists(es[..n]);
      HistoryLength(before, es[..n]);
      HistoryGrows(before, es[..n], es[n]);
      states := before + [Do(before[n], es[n])];
      assert es == es[..n] + [es[n]];
    }
  }

  lemma EmptyHistory()
    ensures History([Initial()], [])
  {
    hide Initial;
  }

  lemma HistoryLength(states: seq<Sys>, es: seq<Event>)
    requires History(states, es)
    ensures |states| == |es| + 1
  {
    hide Initial, StepAt;
  }

  /** The chain a broker holds; nobody else holds one. */
  function ChainOf(s: Sys, b: string): seq<Block> {
    if b in s.nodes then s.nodes[b].ledger.blocks else []
  }

  function DeskIn(s: Sys, b: string): Desk {
    if b in s.desks then s.desks[b] else EMPTY_DESK
  }
}
