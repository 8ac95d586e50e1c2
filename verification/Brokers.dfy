/** The Broker object of broker_main.go: its handlers change maps, queue and chain in place as the protocol says. */
module Brokers {
  import opened Models
  import opened Hashing
  import opened Ledger
  import opened Votes
  import opened Protocol
  import Accounting
  import Chains
  import Failover
  import Fila
  import Heap
  import Origins
  import Payments
  import Pending
  import Runs
  import Texts

  class Broker {
    const id: string
    const blockchain: Chains.Blockchain
    const fila: Fila.FilaPrioridade
    var saved: Chain  // the file chain_<id>.json
    var votedBlocks: set<Digest>
    var votes: map<Digest, seq<Text>>
    var atendidos: map<string, bool>
    var ocorrencias: map<string, Ocorrencia>
    var drones: map<string, InfoDrone>
    var dronesLocais: set<string>

    ghost function NodeView(): Node
      reads this, blockchain
    {
      Node(blockchain.View(), saved, votedBlocks, votes)
    }

    ghost function DeskView(): Desk
      reads this, fila, fila.heap
    {
      Desk(fila.Entries(), atendidos, ocorrencias, drones, dronesLocais)
    }

    ghost predicate Valid()
      reads this, blockchain, fila, fila.heap, fila.heap.nodes
    {
      && blockchain.Valid() && blockchain.blocks != [] && fila.Valid() && saved.blocks != []
      && blockchain !in fila.Repr() && this !in fila.Repr()
    }

    /** novoBroker without a saved file. */
    constructor Novo(id: string)
      ensures Valid() && this.id == id && NodeView() == FirstNode() && DeskView() == EMPTY_DESK
      ensures fresh(blockchain) && fresh(fila.Repr())
    {
      hide Genesis, StateOf;
      this.id := id;
      blockchain := new Chains.Blockchain.Genesis();
      fila := new Fila.FilaPrioridade.Nova();
      saved := Chain([Genesis()], []);
      votedBlocks, votes := {}, map[];
      atendidos, ocorrencias, drones, dronesLocais := map[], map[], map[], {};
    }

    /** novoBroker on the file that an earlier broker saved. */
    constructor Reiniciado(id: string, saved: Chain)
      ensures saved.blocks != [] ==> Valid()
      ensures this.id == id && NodeView() == Node(saved, saved, {}, map[]) && DeskView() == EMPTY_DESK
      ensures fresh(blockchain) && fresh(fila.Repr())
    {
      hide StateOf;
      this.id := id;
      blockchain := new Chains.Blockchain.Load(saved);
      fila := new Fila.FilaPrioridade.Nova();
      this.saved := saved;
      votedBlocks, votes := {}, map[];
      atendidos, ocorrencias, drones, dronesLocais := map[], map[], map[], {};
    }

    // --- Consensus -----------------------------------------------------------------------

    /** Blockchain.Save. */
    method Save()
      modifies this`saved
      ensures saved == blockchain.View()
    {
      saved := Chain(blockchain.blocks, blockchain.mempool);
    }

    /** One tick of loopConsensus; `sent` is what goes to broadcastVizinhos. */
    method LoopConsensus(now: Moment, nonce: int) returns (sent: set<Msg>)
      requires Valid()
      modifies this`votes
      ensures Valid() && DeskView() == old(DeskView())
      ensures NodeView() == Propose(old(NodeView()), id, now, nonce).node
      ensures sent == Propose(old(NodeView()), id, now, nonce).sent
    {
      sent := {};
      var blocks, mempool := blockchain.blocks, blockchain.mempool;
      var nextIndex := |blocks|;
      if GetProposer(nextIndex) == id && |mempool| > 0 {
        var txs := mempool;
        if |txs| > 5 {
          txs := txs[..5];
        }
        var block := Block(nextIndex, now, txs, blocks[nextIndex - 1].hash, blocks[nextIndex - 1].hash, id, []);
        block := block.(hash := HashBlock(block));
        block := SignBlock(block, id, nonce);
        votes := votes[block.hash := [VoteText(id, block.signature)]];
        sent := {BlockProposal(block)};
      }
    }

    method HandleBlockProposal(block: Block, nonce: int) returns (sent: set<Msg>)
      requires Valid()
      modifies this`votedBlocks
      ensures Valid() && DeskView() == old(DeskView())
      ensures NodeView() == OnProposal(old(NodeView()), id, block, nonce).node
      ensures sent == OnProposal(old(NodeView()), id, block, nonce).sent
    {
      hide HashBlock, VetAll;
      sent := {};
      if GetProposer(block.index) != block.validator {
        return;
      }
      if !VerifyBlockSignature(block, KeyOf(block.validator)) {
        return;
      }
      var err := blockchain.ValidateBlockTransactions(block);
      if err.Some? {
        return;
      }
      var latest := blockchain.blocks[|blockchain.blocks| - 1];
      if block.index != latest.index + 1 || block.prevHash != latest.hash {
        return;
      }
      if block.hash in votedBlocks {
        return;
      }
      votedBlocks := votedBlocks + {block.hash};
      sent := {BlockVote(id, block, SignBlock(block, id, nonce).signature)};
    }

    /** The search of handleBlockVote for an earlier vote of the same voter. */
    static method AlreadyVoted(filed: seq<Text>, voter: string) returns (found: bool)
      ensures found <==> HasVoted(filed, voter)
    {
      for i := 0 to |filed|
        invariant forall j :: 0 <= j < i ==> !HasPrefix(filed[j], Str(voter) + [Ch(':')])
      {
        if HasPrefix(filed[i], Str(voter) + [Ch(':')]) {
          return true;
        }
      }
      return false;
    }

    method HandleBlockVote(voter: string, block: Block, signature: Text) returns (sent: set<Msg>)
      requires Valid()
      modifies this`votes, this`saved, this`ocorrencias, this`atendidos, blockchain, fila.Repr()
      ensures Valid() && fresh(fila.Repr() - old(fila.Repr()))
      ensures NodeView() == OnVote(old(NodeView()), id, voter, block, signature).node
      ensures DeskView() == PaidOut(old(DeskView()), OnVote(old(NodeView()), id, voter, block, signature).committed)
      ensures sent == OnVote(old(NodeView()), id, voter, block, signature).sent
    {
      hide HasVoted, PayBlock, HashBlock, BlockError, StateOf, Heap.GoodQueue, Without, PaidOut;
      NothingToPay(DeskView());
      sent := {};
      if block.validator != id {
        return;
      }
      var filed := if block.hash in votes then votes[block.hash] else [];
      var found := AlreadyVoted(filed, voter);
      if found {
        return;
      }
      filed := filed + [VoteText(voter, signature)];
      votes := votes[block.hash := filed];
      if |filed| >= 3 {
        var commitBlock := block.(signature := Texts.Join(filed, Ch(';')));
        commitBlock := commitBlock.(hash := HashBlock(commitBlock));
        SameHash(block, filed);
        var added := Comitar(commitBlock);
        if added {
          sent := {BlockCommit(commitBlock)};
          votes := votes - {block.hash};
        }
      }
    }

    /** What both handlers do with a certified block: add it, save the chain, process its transactions. */
    method Comitar(block: Block) returns (added: bool)
      requires Valid()
      modifies this`saved, this`ocorrencias, this`atendidos, blockchain, fila.Repr()
      ensures Valid() && fresh(fila.Repr() - old(fila.Repr()))
      ensures added == BlockError(old(blockchain.blocks), block).None?
      ensures blockchain.View() == Extend(old(blockchain.View()), block)
      ensures saved == if added then blockchain.View() else old(saved)
      ensures DeskView() == PaidOut(old(DeskView()), if added then Some(block) else None)
    {
      hide PayBlock, HashBlock, BlockError, StateOf, Heap.GoodQueue;
      var err := blockchain.AddBlock(block);
      if err.Some? {
        return false;
      }
      Save();
      ProcessarTransacoesBloco(block.transactions);
      return true;
    }

    method HandleBlockCommit(block: Block)
      requires Valid()
      modifies this`saved, this`ocorrencias, this`atendidos, blockchain, fila.Repr()
      ensures Valid() && fresh(fila.Repr() - old(fila.Repr()))
      ensures NodeView() == OnCommit(old(NodeView()), block).node
      ensures DeskView() == PaidOut(old(DeskView()), OnCommit(old(NodeView()), block).committed)
    {
      hide VotesAccept, PayBlock, HashBlock, BlockError, StateOf, Heap.GoodQueue;
      var ok := VerifyBlockVotes(block);
      if ok {
        var _ := Comitar(block);
      }
    }

    method ProcessarTransacoesBloco(txs: seq<Transaction>)
      requires Valid()
      modifies this`ocorrencias, this`atendidos, fila.Repr()
      ensures Valid() && fresh(fila.Repr() - old(fila.Repr()))
      ensures NodeView() == old(NodeView()) && DeskView() == PayBlock(old(DeskView()), txs)
    {
      hide PayTx, Heap.GoodQueue;
      for i := 0 to |txs|
        invariant Valid() && fresh(fila.Repr() - old(fila.Repr()))
        invariant NodeView() == old(NodeView()) && DeskView() == PayBlock(old(DeskView()), txs[..i])
      {
        assert txs[..i + 1][..i] == txs[..i];
        Pagar(txs[i]);
      }
      assert txs[..|txs|] == txs;
    }

    /** The body of the loop over a block's transactions. */
    method Pagar(tx: Transaction)
      requires Valid()
      modifies this`ocorrencias, this`atendidos, fila.Repr()
      ensures Valid() && fresh(fila.Repr() - old(fila.Repr()))
      ensures NodeView() == old(NodeView()) && DeskView() == PayTx(old(DeskView()), tx)
    {
      hide Heap.Enqueue, Heap.GoodQueue;
      if tx.kind == Transfer && tx.occurrenceId != "" {
        if tx.occurrenceId in ocorrencias {
          var occ := ocorrencias[tx.occurrenceId].(status := Pago);
          ocorrencias := ocorrencias[tx.occurrenceId := occ];
          atendidos := atendidos[tx.occurrenceId := false];
          fila.Enfileirar(occ);
        }
      }
    }

    /** CHAIN_RESPONSE; the length check and the replacement are one step. */
    method AdotarCadeia(blocks: seq<Block>)
      requires Valid()
      modifies this`saved, blockchain
      ensures Valid() && DeskView() == old(DeskView())
      ensures NodeView() == OnChain(old(NodeView()), blocks).node
    {
      if |blocks| > |blockchain.blocks| {
        if blocks[0].hash == blockchain.blocks[0].hash {
          blockchain.ReplaceChain(blocks);
          Save();
        }
      }
    }

    // --- Occurrences and drones -------------------------------------------------------------

    /** processarLeitura, with the answer of responsavelPorSetor and the tick of the Lamport clock. */
    method ProcessarLeitura(l: Leitura, responsavel: bool, lamport: int) returns (sent: set<Msg>)
      requires Valid()
      modifies this`ocorrencias, fila.Repr()
      ensures Valid() && fresh(fila.Repr() - old(fila.Repr())) && NodeView() == old(NodeView())
      ensures var o := Read(old(DeskView()), id, StateOf(blockchain.blocks).vessels, l, responsavel, lamport);
              DeskView() == o.desk && sent == o.sent
    {
      hide Heap.GoodQueue, Heap.Enqueue, StateOf, NewOccurrence;
      sent := {};
      if !responsavel {
        return;
      }
      if l.vesselId == "" {
        return;
      }
      if l.criticidade < CRITICIDADE_ALTA && l.criticidade != CRITICIDADE_BAIXA {
        return;
      }
      var oc := NewOccurrence(id, l, lamport);
      if l.vesselId in blockchain.vessels {
        oc := oc.(companyAddr := blockchain.vessels[l.vesselId], status := AguardandoPagamento);
        ocorrencias := ocorrencias[oc.id := oc];
        sent := {RequisicaoDrone(oc)};
        return;
      }
      ocorrencias := ocorrencias[oc.id := oc];
      fila.Enfileirar(oc);
      sent := {RequisicaoDrone(oc)};
    }

    /** A reading as escutarUDP hands it over: responsavelPorSetor decides under the broker's view of the others. */
    method LerSensor(l: Leitura, v: Failover.View, lamport: int) returns (sent: set<Msg>)
      requires Valid() && v.id == id && Failover.DistinctSectors(v.setores)
      modifies this`ocorrencias, fila.Repr()
      ensures Valid() && fresh(fila.Repr() - old(fila.Repr())) && NodeView() == old(NodeView())
      ensures var o := Read(old(DeskView()), id, StateOf(blockchain.blocks).vessels, l,
                            Failover.Responsible(v, l.setorId), lamport);
              DeskView() == o.desk && sent == o.sent
    {
      hide Heap.GoodQueue, StateOf, Read, Failover.Responsible;
      var responsavel := Failover.ResponsavelPorSetor(v, l.setorId);
      sent := ProcessarLeitura(l, responsavel, lamport);
    }

    method TratarDronePerdido(info: InfoDrone)
      requires Valid()
      modifies this`atendidos, fila.Repr()
      ensures Valid() && fresh(fila.Repr() - old(fila.Repr())) && NodeView() == old(NodeView())
      ensures DeskView() == LoseDrone(old(DeskView()), info)
    {
      hide Heap.Enqueue, Heap.GoodQueue;
      if info.ocorrenciaId != "" {
        atendidos := atendidos[info.ocorrenciaId := false];
        if info.ocorrenciaId in ocorrencias {
          fila.Enfileirar(ocorrencias[info.ocorrenciaId]);
        }
      }
    }

    /** The search of tentarDespachar for a local drone that is available, in any order. */
    method EscolherDrone() returns (alvo: Option<string>)
      ensures ChoiceOk(DeskView(), alvo)
    {
      var rest := dronesLocais;
      while rest != {}
        invariant rest <= dronesLocais
        invariant forall x :: x in dronesLocais - rest ==> !Available(DeskView(), x)
        decreases |rest|
      {
        var x :| x in rest;
        if x in drones && drones[x].estado == Disponivel {
          return Some(x);
        }
        rest := rest - {x};
      }
      return None;
    }

    method MarcarOcupado(droneId: string, oc: string, agora: int)
      requires droneId in drones
      modifies this`drones
      ensures DeskView() == Occupy(old(DeskView()), droneId, oc, agora)
    {
      drones := drones[droneId := drones[droneId].(estado := Despachado, ocorrenciaId := oc, ultimaVez := agora)];
    }

    /** tentarDespachar; `enviado` is whether the command could be written to the drone's connection. */
    method TentarDespachar(enviado: bool, agora: int) returns (sent: set<Msg>, alvo: Option<string>)
      requires Valid()
      modifies this`drones, this`atendidos, fila.Repr()
      ensures Valid() && fresh(fila.Repr() - old(fila.Repr())) && NodeView() == old(NodeView())
      ensures ChoiceOk(old(DeskView()), alvo)
      ensures DeskView() == TryDispatch(old(DeskView()), alvo, enviado, agora).desk
      ensures sent == TryDispatch(old(DeskView()), alvo, enviado, agora).sent
    {
      hide Heap.GoodQueue, Heap.Enqueue, Heap.Dequeue, Heap.RemoveId, ChoiceOk;
      sent := {};
      alvo := EscolherDrone();
      var first := fila.Peek();
      if first.None? {
        return;
      }
      var oc := first.value;
      if oc.id in atendidos && atendidos[oc.id] {
        var _ := fila.Remover(oc.id);
        return;
      }
      if alvo.Some? {
        Chosen(DeskView(), alvo.value);
        sent := Despachar(oc, alvo.value, enviado, agora);
      }
    }

    /** The part of tentarDespachar after a drone was found. */
    method Despachar(oc: Ocorrencia, x: string, enviado: bool, agora: int) returns (sent: set<Msg>)
      requires Valid() && x in drones && !Atendida(DeskView(), oc.id)
      requires fila.Entries() != [] && fila.Entries()[0].oc == oc
      modifies this`drones, this`atendidos, fila.Repr()
      ensures Valid() && fresh(fila.Repr() - old(fila.Repr())) && NodeView() == old(NodeView())
      ensures DeskView() == TryDispatch(old(DeskView()), Some(x), enviado, agora).desk
      ensures sent == TryDispatch(old(DeskView()), Some(x), enviado, agora).sent
    {
      hide Heap.GoodQueue, Heap.Enqueue, Heap.Dequeue, Heap.RemoveId;
      sent := {};
      var _ := fila.Desenfileirar();
      MarcarOcupado(x, oc.id, agora);
      if !enviado {
        atendidos := atendidos[oc.id := false];
        fila.Enfileirar(oc);
      } else {
        atendidos := atendidos[oc.id := true];
        sent := {Comando(x, oc.id), DroneDespachado(oc.id, x, drones[x])};
      }
    }

    /** REQUISICAO_DRONE. */
    method ReceberRequisicao(oc: Ocorrencia)
      requires Valid()
      modifies this`ocorrencias, fila.Repr()
      ensures Valid() && fresh(fila.Repr() - old(fila.Repr())) && NodeView() == old(NodeView())
      ensures DeskView() == OnRequest(old(DeskView()), oc)
    {
      hide Heap.Enqueue, Heap.GoodQueue;
      if oc.criticidade == CRITICIDADE_NULA {
        return;
      }
      ocorrencias := ocorrencias[oc.id := oc];
      var jaAtendida := oc.id in atendidos && atendidos[oc.id];
      if !jaAtendida && oc.vesselId == "" {
        fila.Enfileirar(oc);
      }
    }

    /** DRONE_DESPACHADO. */
    method ReceberDespacho(oc: string, droneId: string, info: InfoDrone)
      requires Valid()
      modifies this`atendidos, this`drones, fila.Repr()
      ensures Valid() && fresh(fila.Repr() - old(fila.Repr())) && NodeView() == old(NodeView())
      ensures DeskView() == OnDispatched(old(DeskView()), oc, droneId, info)
    {
      hide Heap.RemoveId, Heap.GoodQueue;
      atendidos := atendidos[oc := true];
      var _ := fila.Remover(oc);
      drones := drones[droneId := info];
    }

    /** SINC_DRONE: only a later record replaces the known one. */
    method ReceberSincDrone(info: InfoDrone)
      requires Valid()
      modifies this`drones
      ensures Valid() && NodeView() == old(NodeView()) && DeskView() == OnSync(old(DeskView()), info)
    {
      if info.droneId !in drones || info.ultimaVez > drones[info.droneId].ultimaVez {
        drones := drones[info.droneId := info];
      }
    }

    /** DRONE_PERDIDO, and the same at the end of a local drone's connection. */
    method ReceberPerda(droneId: string, agora: int)
      requires Valid()
      modifies this`drones, this`atendidos, fila.Repr()
      ensures Valid() && fresh(fila.Repr() - old(fila.Repr())) && NodeView() == old(NodeView())
      ensures DeskView() == OnLost(old(DeskView()), droneId, agora)
    {
      hide Heap.GoodQueue, Heap.Enqueue, LoseDrone;
      if droneId in drones {
        var d := drones[droneId].(estado := Abatido, ultimaVez := agora);
        drones := drones[droneId := d];
        TratarDronePerdido(d);
      }
    }

    /** MISSAO_CONCLUIDA. */
    method ReceberConclusao(oc: string)
      requires Valid()
      modifies this`ocorrencias
      ensures Valid() && NodeView() == old(NodeView()) && DeskView() == OnDone(old(DeskView()), oc)
    {
      ocorrencias := ocorrencias - {oc};
    }

    /** processarMensagemDrone on DRONE_ESTADO, with the mission log that the end of an escort leaves on chain. */
    method ProcessarMensagemDrone(x: string, novoEstado: EstadoDrone, oc: string, agora: int, r: Registro)
      returns (sent: set<Msg>)
      requires Valid()
      modifies this`drones, this`atendidos, fila.Repr(), blockchain
      ensures Valid() && fresh(fila.Repr() - old(fila.Repr()))
      ensures var d, laudo := old(DeskView()), Laudo(old(DeskView()), id, x, novoEstado, oc, r);
              && NodeView() == PublishLaudo(old(NodeView()), laudo).node
              && DeskView() == DroneReport(d, x, novoEstado, oc, agora).desk
              && sent == DroneReport(d, x, novoEstado, oc, agora).sent + PublishLaudo(old(NodeView()), laudo).sent
    {
      hide Heap.GoodQueue, DroneReport, Publish, MissionLogTx, StateOf;
      ReportStays(DeskView(), x, novoEstado, oc, agora);
      sent := AnotarEstado(x, novoEstado, oc, agora);
      if x in drones && novoEstado == Disponivel && oc != "" {
        if oc in ocorrencias && ocorrencias[oc].vesselId != "" {
          var mais := Publicar(MissionLogTx(id, ocorrencias[oc].(id := oc), r));
          sent := sent + mais;
        }
      }
    }

    /** A transaction of the broker's own: into the mempool, and broadcast when it was admitted. */
    method Publicar(tx: Transaction) returns (sent: set<Msg>)
      requires Valid()
      modifies blockchain
      ensures Valid() && DeskView() == old(DeskView())
      ensures NodeView() == Publish(old(NodeView()), tx).node && sent == Publish(old(NodeView()), tx).sent
    {
      hide Heap.GoodQueue, AdmitError, StateOf;
      var err := blockchain.AddTxToMempool(tx);
      sent := if err.None? then {TxBroadcast(tx)} else {};
    }

    /** The record, flags and notices of a state report. */
    method AnotarEstado(x: string, novoEstado: EstadoDrone, oc: string, agora: int) returns (sent: set<Msg>)
      requires Valid()
      modifies this`drones, this`atendidos, fila.Repr()
      ensures Valid() && fresh(fila.Repr() - old(fila.Repr())) && NodeView() == old(NodeView())
      ensures DeskView() == DroneReport(old(DeskView()), x, novoEstado, oc, agora).desk
      ensures sent == DroneReport(old(DeskView()), x, novoEstado, oc, agora).sent
    {
      hide Heap.GoodQueue, Heap.Enqueue, LoseDrone;
      sent := {};
      if x !in drones {
        return;
      }
      var d := drones[x].(estado := novoEstado, ultimaVez := agora);
      if novoEstado == Disponivel {
        d := d.(ocorrenciaId := "");
      }
      if novoEstado == Despachado || novoEstado == EmMissao {
        if oc != "" {
          d := d.(ocorrenciaId := oc);
        }
      }
      drones := drones[x := d];
      sent := {SincDrone(d)};
      if novoEstado == Disponivel && oc != "" {
        sent := sent + {MissaoConcluida(oc)};
      }
      if novoEstado == Abatido {
        TratarDronePerdido(d);
      }
    }

    /** processarMensagemDrone on KEEPALIVE. */
    method ProcessarKeepalive(x: string, agora: int) returns (sent: set<Msg>)
      requires Valid()
      modifies this`drones
      ensures Valid() && NodeView() == old(NodeView())
      ensures DeskView() == DroneKeepalive(old(DeskView()), x, agora).desk
      ensures sent == DroneKeepalive(old(DeskView()), x, agora).sent
    {
      sent := {};
      if x in drones {
        drones := drones[x := drones[x].(ultimaVez := agora)];
        sent := {SincDrone(drones[x])};
      }
    }

    method EnviarSincGlobal() returns (sent: set<Msg>)
      ensures sent == AllRecords(DeskView()).sent
    {
      sent := {};
      var rest := drones.Keys;
      while rest != {}
        invariant rest <= drones.Keys
        invariant sent == set x | x in drones && x !in rest :: SincDrone(drones[x])
        decreases rest
      {
        var x :| x in rest;
        sent := sent + {SincDrone(drones[x])};
        rest := rest - {x};
      }
    }

    method RegistrarDroneLocal(info: InfoDrone) returns (sent: set<Msg>)
      requires Valid()
      modifies this`drones, this`dronesLocais
      ensures Valid() && NodeView() == old(NodeView())
      ensures DeskView() == DroneJoin(old(DeskView()), id, info).desk
      ensures sent == DroneJoin(old(DeskView()), id, info).sent
    {
      dronesLocais := dronesLocais + {info.droneId};
      var mine := info.(brokerId := id);
      drones := drones[info.droneId := mine];
      sent := {SincDrone(mine)};
    }

    /** The end of loopLeituraDrone. */
    method DroneDesconectado(x: string, agora: int) returns (sent: set<Msg>)
      requires Valid()
      modifies this`drones, this`dronesLocais, this`atendidos, fila.Repr()
      ensures Valid() && fresh(fila.Repr() - old(fila.Repr())) && NodeView() == old(NodeView())
      ensures DeskView() == DroneLeave(old(DeskView()), x, agora).desk
      ensures sent == DroneLeave(old(DeskView()), x, agora).sent
    {
      hide OnLost, Heap.GoodQueue;
      sent := {};
      if x !in dronesLocais {
        return;
      }
      dronesLocais := dronesLocais - {x};
      if x in drones {
        sent := {DronePerdido(x)};
        ReceberPerda(x, agora);
      }
    }

    // --- The broker in the system --------------------------------------------------------------

    /** The object is broker `id` of system state s. */
    ghost predicate At(s: Sys)
      reads this, blockchain, fila, fila.heap
    {
      Protocol.Brokers(s) && id in VALIDATORS && s.nodes[id] == NodeView() && s.desks[id] == DeskView()
    }

    /** After event e in state s: the object is where the system is, and sent what the system sent. */
    ghost predicate Follows(s: Sys, e: Event, sent: set<Msg>)
      requires Protocol.Brokers(s)
      reads this, blockchain, fila, fila.heap
    {
      At(Do(s, e)) && Do(s, e).net == s.net + sent
    }

    // --- Every event -----------------------------------------------------------------------------

    /** One event of the system on the object that stands for its broker; `feito` names the drone it picked. */
    method Atender(e: Event, ghost s: Sys) returns (b: Broker, sent: set<Msg>, ghost feito: Event)
      requires Valid() && At(s) && e.b == id && Enabled(s, e)
      modifies this, blockchain, fila.Repr()
      ensures b.Valid() && b.id == id && b.Follows(s, feito, sent)
      ensures SameBut(e, feito, old(DeskView()))
      ensures if e.Restart? then fresh(b) && fresh(b.blockchain) && fresh(b.fila.Repr())
              else b == this && fresh(fila.Repr() - old(fila.Repr()))
    {
      hide Do, Heap.GoodQueue, NodeView, DeskView, Follows, Enabled;
      if e.Restart? {
        b := Renascer(s);
        sent, feito := {}, e;
      } else if e.Tick? || e.Deliver? || e.AnswerSync? || e.Submit? {
        b, feito := this, e;
        sent := AtenderNo(e, s);
      } else {
        b := this;
        sent, feito := AtenderMesa(e, s);
      }
    }

    /**
     * The same at the end of a history, which goes on: the object keeps every guarantee of the theorems over
     * runs, and its chain only grows.
     */
    method Continuar(e: Event, ghost states: seq<Sys>, ghost es: seq<Event>)
      returns (b: Broker, sent: set<Msg>, ghost feito: Event)
      requires Valid() && History(states, es) && At(states[|es|]) && e.b == id && Enabled(states[|es|], e)
      modifies this, blockchain, fila.Repr()
      ensures b.Valid() && b.id == id && SameBut(e, feito, old(DeskView()))
      ensures var t := Do(states[|es|], feito);
              History(states + [t], es + [feito]) && b.At(t) && b.Guaranteed(t)
      ensures old(blockchain.blocks) <= b.blockchain.blocks
    {
      hide Do, Heap.GoodQueue, NodeView, DeskView, Enabled, History, Guaranteed, SameBut, At;
      HistoryLength(states, es);
      ghost var s := states[|es|];
      AtBroker(this, s);
      b, sent, feito := Atender(e, s);
      ghost var t := Do(s, feito);
      HistoryGrows(states, es, feito);
      ghost var more, done := states + [t], es + [feito];
      assert more[|es|] == s && more[|done|] == t;
      ObjectGuaranteed(b, more, done, |done|);
      Runs.NeverShrinks(more, done, |es|, |done|, id);
      AtBroker(b, t);
    }

    /** A new broker starts a history, with every guarantee: the base that `Continuar` carries on from. */
    static method Comecar(id: string) returns (b: Broker, ghost states: seq<Sys>, ghost es: seq<Event>)
      requires id in VALIDATORS
      ensures b.Valid() && b.id == id && fresh(b) && fresh(b.blockchain) && fresh(b.fila.Repr())
      ensures History(states, es) && |states| == |es| + 1 && b.At(states[|es|]) && b.Guaranteed(states[|es|])
    {
      hide Heap.GoodQueue, Broker.NodeView, Broker.DeskView, Broker.Guaranteed, Broker.At, History, Initial;
      b := new Broker.Novo(id);
      states, es := [Initial()], [];
      EmptyHistory();
      NewIsInitial(b);
      ObjectGuaranteed(b, states, es, 0);
    }

    /** What the theorems over runs say about the object that stands for a broker in state s. */
    ghost predicate Guaranteed(s: Sys)
      reads this, blockchain, fila, fila.heap
    {
      && Accounting.Reached(blockchain.blocks) && saved.blocks == blockchain.blocks
      && (forall b, h :: b in VALIDATORS && 0 <= h < |ChainOf(s, b)| && h < |blockchain.blocks| ==>
            blockchain.blocks[h] == ChainOf(s, b)[h])
      && (forall q :: q in fila.Entries() ==> Payments.Released(s, q.oc.id))
      && (forall x :: x in drones && drones[x].ocorrenciaId != "" ==> Payments.Released(s, drones[x].ocorrenciaId))
      && Pending.NoneForgotten(DeskView())
    }

    /** A restart: another object on the saved chain. */
    method Renascer(ghost s: Sys) returns (b: Broker)
      requires Valid() && At(s)
      ensures b.Valid() && b.id == id && b.Follows(s, Restart(id), {})
      ensures fresh(b) && fresh(b.blockchain) && fresh(b.fila.Repr())
    {
      hide Heap.GoodQueue, StateOf;
      b := new Broker.Reiniciado(id, saved);
      RestartAt(s, id);
    }

    /** Events about blocks, chains, transactions and received messages. */
    method AtenderNo(e: Event, ghost s: Sys) returns (sent: set<Msg>)
      requires Valid() && At(s) && e.b == id && Enabled(s, e)
      requires e.Tick? || e.Deliver? || e.AnswerSync? || e.Submit?
      modifies this, blockchain, fila.Repr()
      ensures Valid() && fresh(fila.Repr() - old(fila.Repr()))
      ensures Follows(s, e, sent)
    {
      hide Heap.GoodQueue, Propose, Receive, WithNode, Admit, PaidOut;
      sent := {};
      ghost var n, d := NodeView(), DeskView();
      NothingToPay(d);
      match e
      case Tick(_, now, nonce) =>
        NodeStepAt(s, id, Propose(n, id, now, nonce));
        Origins.NodeSends(n, id, SincDrone(Origins.NO_DRONE), now, nonce);
        sent := LoopConsensus(now, nonce);
      case Deliver(_, m, nonce, agora) => sent := ProcessarMensagemBroker(m, nonce, agora, s);
      case AnswerSync(_) => sent := {ChainResponse(blockchain.blocks)};
      case Submit(_, tx) =>
        Runs.AdmitKeepsBlocks(n.ledger, tx);
        NodeStepAt(s, id, Quiet(n.(ledger := Admit(n.ledger, tx))));
        ReceberTx(tx);
      case _ =>
    }

    /** Events about occurrences and drones. */
    method AtenderMesa(e: Event, ghost s: Sys) returns (sent: set<Msg>, ghost feito: Event)
      requires Valid() && At(s) && e.b == id && Enabled(s, e)
      requires !e.Tick? && !e.Deliver? && !e.AnswerSync? && !e.Submit? && !e.Restart?
      modifies this, fila.Repr(), blockchain
      ensures Valid() && fresh(fila.Repr() - old(fila.Repr()))
      ensures Follows(s, feito, sent)
      ensures SameBut(e, feito, old(DeskView()))
    {
      hide Heap.GoodQueue, WithNode, WithDesk, Read, TryDispatch, DroneReport, DroneJoin, DroneLeave, DroneKeepalive;
      hide AllRecords, StateOf, PublishLaudo, Laudo, Heap.Age, ChoiceOk, Commanded;
      sent, feito := {}, e;
      ghost var n, d := NodeView(), DeskView();
      match e
      case Reading(_, l, r, lamport) =>
        DeskStepAt(s, id, Read(d, id, StateOf(n.ledger.blocks).vessels, l, r, lamport));
        sent := ProcessarLeitura(l, r, lamport);
      case Dispatch(_, _, enviado, agora) =>
        var alvo: Option<string>;
        sent, alvo := TentarDespachar(enviado, agora);
        feito := Dispatch(id, alvo, enviado, agora);
        DeskStepAt(s, id, TryDispatch(d, alvo, enviado, agora));
      case DroneSays(_, x, estado, oc, agora, r) =>
        ReportStepAt(s, id, PublishLaudo(n, Laudo(d, id, x, estado, oc, r)), DroneReport(d, x, estado, oc, agora));
        sent := ProcessarMensagemDrone(x, estado, oc, agora, r);
      case DroneAlive(_, x, agora) =>
        DeskStepAt(s, id, DroneKeepalive(d, x, agora));
        sent := ProcessarKeepalive(x, agora);
      case SendRecords(_) =>
        DeskStepAt(s, id, AllRecords(d));
        RecordsKeepDesk(d);
        sent := EnviarSincGlobal();
      case DroneJoins(_, info) =>
        DeskStepAt(s, id, DroneJoin(d, id, info));
        sent := RegistrarDroneLocal(info);
      case DroneLeaves(_, x, agora) =>
        DeskStepAt(s, id, DroneLeave(d, x, agora));
        sent := DroneDesconectado(x, agora);
      case Age(_, agora) =>
        DeskStepAt(s, id, Calm(d.(queue := Heap.Age(d.queue, agora))));
        fila.Envelhecer(agora);
      case _ =>
    }

    /** processarMensagemBroker on a message: the object follows the system's step and sends what the system sends. */
    method ProcessarMensagemBroker(m: Msg, nonce: int, agora: int, ghost s: Sys) returns (sent: set<Msg>)
      requires Valid() && At(s)
      modifies this, blockchain, fila.Repr()
      ensures Valid() && fresh(fila.Repr() - old(fila.Repr()))
      ensures At(Receive(s, id, m, nonce, agora)) && Receive(s, id, m, nonce, agora).net == s.net + sent
    {
      hide OnNodeMsg, OnDeskMsg, Heap.GoodQueue, PaidOut, WithNode, NodeView, DeskView;
      ghost var n, d := NodeView(), DeskView();
      if ForNode(m) {
        sent := ReceberNoNo(m, nonce);
        NodeStepAt(s, id, OnNodeMsg(n, id, m, nonce));
      } else {
        ReceberOcorrencia(m, agora);
        sent := {};
        DeskStepAt(s, id, Calm(OnDeskMsg(d, m, agora)));
      }
    }

    /** The cases of the switch about blocks, chains and transactions. */
    method ReceberNoNo(m: Msg, nonce: int) returns (sent: set<Msg>)
      requires Valid() && ForNode(m)
      modifies this, blockchain, fila.Repr()
      ensures Valid() && fresh(fila.Repr() - old(fila.Repr()))
      ensures var o := OnNodeMsg(old(NodeView()), id, m, nonce);
              NodeView() == o.node && DeskView() == PaidOut(old(DeskView()), o.committed) && sent == o.sent
    {
      hide OnProposal, OnVote, OnCommit, OnChain, Heap.GoodQueue, PaidOut, StateOf, Admit, AdmitError;
      sent := {};
      HandlersOut(NodeView(), id, m, nonce);
      NothingToPay(DeskView());
      match m
      case BlockProposal(block) => sent := HandleBlockProposal(block, nonce);
      case BlockVote(voter, block, sig) => sent := HandleBlockVote(voter, block, sig);
      case BlockCommit(block) => HandleBlockCommit(block);
      case ChainResponse(blocks) => AdotarCadeia(blocks);
      case TxBroadcast(tx) => ReceberTx(tx);
      case _ =>
    }

    /** TX_BROADCAST, and a transaction handed in at the broker's own interface. */
    method ReceberTx(tx: Transaction)
      requires Valid()
      modifies blockchain
      ensures Valid() && DeskView() == old(DeskView())
      ensures NodeView() == old(NodeView()).(ledger := Admit(old(NodeView()).ledger, tx))
    {
      hide Heap.GoodQueue, AdmitError, StateOf;
      var _ := blockchain.AddTxToMempool(tx);
    }

    /** The cases about occurrences and drones. */
    method ReceberOcorrencia(m: Msg, agora: int)
      requires Valid()
      modifies this`ocorrencias, this`atendidos, this`drones, fila.Repr()
      ensures Valid() && fresh(fila.Repr() - old(fila.Repr()))
      ensures NodeView() == old(NodeView()) && DeskView() == OnDeskMsg(old(DeskView()), m, agora)
    {
      hide OnRequest, OnDispatched, OnLost, OnSync, OnDone, Heap.GoodQueue;
      match m
      case RequisicaoDrone(oc) => ReceberRequisicao(oc);
      case DroneDespachado(oc, x, info) => ReceberDespacho(oc, x, info);
      case SincDrone(info) => ReceberSincDrone(info);
      case DronePerdido(x) => ReceberPerda(x, agora);
      case MissaoConcluida(oc) => ReceberConclusao(oc);
      case _ =>
    }
  }

  lemma AtBroker(o: Broker, s: Sys)
    requires o.At(s)
    ensures Protocol.Brokers(s) && o.id in VALIDATORS && ChainOf(s, o.id) == o.blockchain.blocks
    ensures DeskIn(s, o.id) == o.DeskView() && s.nodes[o.id] == o.NodeView()
  {
  }

  /** An object at any moment of a run has a reached chain that agrees with all others, and gated queue and drones. */
  lemma ObjectGuaranteed(o: Broker, states: seq<Sys>, es: seq<Event>, k: nat)
    requires History(states, es) && k < |states| && o.At(states[k])
    ensures o.Guaranteed(states[k])
  {
    hide History, Accounting.Reached, Payments.Released, Protocol.Brokers;
    var s := states[k];
    AtBroker(o, s);
    Runs.ChainsAreReached(states, es, k, o.id);
    Runs.SavedIsCurrent(states, es, k, o.id);
    Payments.PaymentGating(states, es, k, o.id);
    Pending.NoneForgottenAlong(states, es, k, o.id);
    forall b, h | b in VALIDATORS && 0 <= h < |ChainOf(s, b)| && h < |o.blockchain.blocks|
      ensures o.blockchain.blocks[h] == ChainOf(s, b)[h]
    {
      Runs.AgreementOverRuns(states, es, k, o.id, k, b, h);
    }
  }

  /** Two objects, each at some moment of one run, hold the same block at every height that both have. */
  lemma ObjectsAgree(o: Broker, i: nat, p: Broker, j: nat, states: seq<Sys>, es: seq<Event>, h: nat)
    requires History(states, es) && i < |states| && j < |states| && o.At(states[i]) && p.At(states[j])
    requires h < |o.blockchain.blocks| && h < |p.blockchain.blocks|
    ensures o.blockchain.blocks[h] == p.blockchain.blocks[h]
  {
    hide History;
    AtBroker(o, states[i]);
    AtBroker(p, states[j]);
    Runs.AgreementOverRuns(states, es, i, o.id, j, p.id, h);
  }

  /** A new broker stands for its node in the initial state. */
  lemma NewIsInitial(o: Broker)
    requires o.id in VALIDATORS && o.NodeView() == FirstNode() && o.DeskView() == EMPTY_DESK
    ensures o.At(Initial())
  {
    hide Genesis;
  }

  /** The event that happened is the one asked for, but for the drone that a dispatch picks by itself. */
  ghost predicate SameBut(e: Event, feito: Event, d: Desk) {
    feito == e
    || (e.Dispatch? && feito.Dispatch? && feito == e.(alvo := feito.alvo) && ChoiceOk(d, feito.alvo))
  }

  /** Messages come from the network, and drones report only what they were commanded to. */
  predicate Enabled(s: Sys, e: Event) {
    match e
    case Deliver(_, m, _, _) => m in s.net
    case DroneSays(_, x, _, oc, _, _) => Commanded(s, x, oc)
    case DroneJoins(_, info) => Commanded(s, info.droneId, info.ocorrenciaId)
    case _ => true
  }

  lemma NodeStepAt(s: Sys, b: string, o: NodeOut)
    requires Protocol.Brokers(s) && b in VALIDATORS && o.node.ledger.blocks != [] && o.node.saved.blocks != []
    ensures var t := WithNode(s, b, o);
            t.nodes[b] == o.node && t.desks[b] == PaidOut(s.desks[b], o.committed) && t.net == s.net + o.sent
  {
    hide PayBlock;
  }

  lemma DeskStepAt(s: Sys, b: string, o: DeskOut)
    requires Protocol.Brokers(s) && b in VALIDATORS
    ensures var t := WithDesk(s, b, o);
            t.nodes[b] == s.nodes[b] && t.desks[b] == o.desk && t.net == s.net + o.sent
  {
  }

  lemma ReportStepAt(s: Sys, b: string, o: NodeOut, p: DeskOut)
    requires Protocol.Brokers(s) && b in VALIDATORS && o.node.ledger.blocks != [] && o.node.saved.blocks != []
    ensures var t := WithDesk(WithNode(s, b, o), b, p);
            t.nodes[b] == o.node && t.desks[b] == p.desk && t.net == s.net + (p.sent + o.sent)
  {
    hide WithNode, WithDesk;
    NodeStepAt(s, b, o);
    DeskStepAt(WithNode(s, b, o), b, p);
    assert s.net + o.sent + p.sent == s.net + (p.sent + o.sent);
  }

  lemma RestartAt(s: Sys, b: string)
    requires Protocol.Brokers(s) && b in VALIDATORS
    ensures var t := Do(s, Restart(b));
            t.nodes[b] == Reload(s.nodes[b]) && t.desks[b] == EMPTY_DESK && t.net == s.net
  {
  }

  lemma RecordsKeepDesk(d: Desk)
    ensures AllRecords(d).desk == d
  {
  }

  /** Handlers without a result send and pay out nothing. */
  lemma HandlersOut(n: Node, id: string, m: Msg, nonce: int)
    requires n.ledger.blocks != []
    ensures m.BlockProposal? || m.ChainResponse? || m.TxBroadcast? ==> OnNodeMsg(n, id, m, nonce).committed == None
    ensures m.BlockCommit? || m.ChainResponse? || m.TxBroadcast? ==> OnNodeMsg(n, id, m, nonce).sent == {}
  {
    hide Approves, VotesAccept, BlockError, Extend, OnVote, Admit;
  }

  /** A report changes neither the occurrences nor which drones are known. */
  lemma ReportStays(d: Desk, x: string, estado: EstadoDrone, oc: string, agora: int)
    ensures var e := DroneReport(d, x, estado, oc, agora).desk;
            e.ocorrencias == d.ocorrencias && (x in e.drones <==> x in d.drones)
  {
    hide Heap.Enqueue;
  }

  lemma NothingToPay(d: Desk)
    ensures PaidOut(d, None) == d
  {
  }

  lemma SameHash(b: Block, filed: seq<Text>)
    ensures HashBlock(b.(signature := Texts.Join(filed, Ch(';')))) == HashBlock(b)
  {
  }

  lemma Chosen(d: Desk, x: string)
    requires ChoiceOk(d, Some(x))
    ensures x in d.drones
  {
  }
}
