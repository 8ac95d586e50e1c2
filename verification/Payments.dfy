/** Payment gating: what reaches a queue, a drone or a dispatch message was public or has been paid for. */
module Payments {
  import opened Models
  import opened Hashing
  import opened Ledger
  import opened Votes
  import opened Protocol
  import Agreement
  import Runs
  import Heap
  import Origins

  // --- Released occurrences --------------------------------------------------------------

  /** The chain holds a TRANSFER that carries the occurrence id. */
  ghost predicate PaidOn(blocks: seq<Block>, id: string) {
    exists tx :: tx in AllTxs(blocks) && tx.kind == Transfer && tx.occurrenceId == id
  }

  /** Opened as public by some broker, or paid for in some broker's chain. */
  ghost predicate Released(s: Sys, id: string) {
    id in s.publicas || exists b :: b in VALIDATORS && PaidOn(ChainOf(s, b), id)
  }

  ghost function ReleasedIds(s: Sys): iset<string> {
    iset id | Released(s, id)
  }

  ghost predicate InfoOk(info: InfoDrone, ok: iset<string>) {
    info.ocorrenciaId == "" || info.ocorrenciaId in ok
  }

  ghost predicate QueueOk(q: seq<Heap.Entry>, ok: iset<string>) {
    forall e :: e in q ==> e.oc.id in ok
  }

  ghost predicate DronesOk(drones: map<string, InfoDrone>, ok: iset<string>) {
    forall x :: x in drones ==> InfoOk(drones[x], ok)
  }

  ghost predicate DeskOk(d: Desk, ok: iset<string>) {
    && QueueOk(d.queue, ok) && DronesOk(d.drones, ok)
    && forall id :: id in d.ocorrencias ==> d.ocorrencias[id].id == id
  }

  /** Requests always name a vessel, so no broker queues one unpaid. */
  ghost predicate MsgOk(m: Msg, ok: iset<string>) {
    match m
    case RequisicaoDrone(oc) => oc.vesselId != ""
    case DroneDespachado(oc, x, info) => oc in ok && InfoOk(info, ok)
    case SincDrone(info) => InfoOk(info, ok)
    case Comando(x, oc) => oc in ok
    case _ => true
  }

  ghost predicate OutOk(o: DeskOut, ok: iset<string>) {
    DeskOk(o.desk, ok) && forall m :: m in o.sent ==> MsgOk(m, ok)
  }

  ghost predicate Gated(s: Sys)
    requires Brokers(s)
  {
    && (forall b :: DeskGated(s, b))
    && (forall m :: SentGated(s, m))
  }

  ghost predicate DeskGated(s: Sys, b: string)
    requires Brokers(s)
  {
    b in VALIDATORS ==> DeskOk(s.desks[b], ReleasedIds(s))
  }

  ghost predicate SentGated(s: Sys, m: Msg) {
    m in s.net ==> MsgOk(m, ReleasedIds(s))
  }

  // --- Queue operations ----------------------------------------------------------------------

  lemma EnqueueOk(q: seq<Heap.Entry>, oc: Ocorrencia, ok: iset<string>)
    requires QueueOk(q, ok) && oc.id in ok
    ensures QueueOk(Heap.Enqueue(q, oc), ok)
  {
    Heap.EnqueueContents(q, oc);
    FromParts(Heap.Enqueue(q, oc), q, Heap.NewEntry(oc), ok);
  }

  lemma FromParts(r: seq<Heap.Entry>, q: seq<Heap.Entry>, e: Heap.Entry, ok: iset<string>)
    requires QueueOk(q, ok) && e.oc.id in ok
    requires r == q || multiset(r) == multiset(q) + multiset{e}
    ensures QueueOk(r, ok)
  {
    if r != q {
      forall f | f in r ensures f.oc.id in ok {
        assert f in multiset(r);
        assert f in multiset(q) || f == e;
      }
    }
  }

  lemma PartOk(r: seq<Heap.Entry>, q: seq<Heap.Entry>, ok: iset<string>)
    requires QueueOk(q, ok) && multiset(r) <= multiset(q)
    ensures QueueOk(r, ok)
  {
    forall f | f in r ensures f.oc.id in ok {
      assert f in multiset(r);
      assert f in multiset(q);
    }
  }

  lemma DequeueOk(q: seq<Heap.Entry>, ok: iset<string>)
    requires QueueOk(q, ok)
    ensures QueueOk(Heap.Dequeue(q), ok)
  {
    if q != [] {
      Heap.PopContents(q);
      PartOk(Heap.Pop(q), q, ok);
    }
  }

  lemma RemoveOk(q: seq<Heap.Entry>, id: string, ok: iset<string>)
    requires QueueOk(q, ok)
    ensures QueueOk(Heap.RemoveId(q, id), ok)
  {
    var k := Heap.Find(q, id);
    if k < |q| {
      Heap.RemoveContents(q, k);
      PartOk(Heap.Remove(q, k), q, ok);
    }
  }

  lemma AgeOk(q: seq<Heap.Entry>, agora: int, ok: iset<string>)
    requires QueueOk(q, ok)
    ensures QueueOk(Heap.Age(q, agora), ok)
  {
    var a := Heap.AgedAll(q, agora);
    assert QueueOk(a, ok);
    Heap.InitFromContents(a, |a| / 2);
    PartOk(Heap.Init(a), a, ok);
  }

  // --- Desk operations --------------------------------------------------------------------------

  lemma EnfileirarOk(d: Desk, oc: Ocorrencia, ok: iset<string>)
    requires DeskOk(d, ok) && oc.id in ok
    ensures DeskOk(Enfileirar(d, oc), ok)
  {
    hide QueueOk, Heap.Enqueue, DronesOk;
    EnqueueOk(d.queue, oc, ok);
  }

  lemma PayTxOk(d: Desk, tx: Transaction, ok: iset<string>)
    requires DeskOk(d, ok) && (tx.kind == Transfer ==> tx.occurrenceId in ok)
    ensures DeskOk(PayTx(d, tx), ok)
  {
    hide QueueOk, DronesOk, Enfileirar;
    if tx.kind == Transfer && tx.occurrenceId in d.ocorrencias {
      var id := tx.occurrenceId;
      var occ := d.ocorrencias[id].(status := Pago);
      EnfileirarOk(Marcar(d.(ocorrencias := d.ocorrencias[id := occ]), id, false), occ, ok);
    }
  }

  lemma {:induction false} PayBlockOk(d: Desk, txs: seq<Transaction>, ok: iset<string>)
    requires DeskOk(d, ok) && forall tx :: tx in txs && tx.kind == Transfer ==> tx.occurrenceId in ok
    ensures DeskOk(PayBlock(d, txs), ok)
  {
    hide DeskOk, PayTx;
    if txs != [] {
      var init := txs[..|txs| - 1];
      PayBlockOk(d, init, ok);
      assert txs[|txs| - 1] in txs;
      PayTxOk(PayBlock(d, init), txs[|txs| - 1], ok);
    }
  }

  lemma LoseDroneOk(d: Desk, info: InfoDrone, ok: iset<string>)
    requires DeskOk(d, ok) && InfoOk(info, ok)
    ensures DeskOk(LoseDrone(d, info), ok)
  {
    hide QueueOk, DronesOk, Enfileirar;
    if info.ocorrenciaId != "" && info.ocorrenciaId in d.ocorrencias {
      EnfileirarOk(Marcar(d, info.ocorrenciaId, false), d.ocorrencias[info.ocorrenciaId], ok);
    }
  }

  lemma ReadOk(d: Desk, id: string, vessels: map<string, string>, l: Leitura, r: bool, lamport: int, ok: iset<string>)
    requires DeskOk(d, ok)
    requires forall k :: k in Read(d, id, vessels, l, r, lamport).publicas ==> k in ok
    ensures OutOk(Read(d, id, vessels, l, r, lamport), ok)
  {
    hide QueueOk, DronesOk, Enfileirar;
    var oc := NewOccurrence(id, l, lamport);
    if oc.id in Read(d, id, vessels, l, r, lamport).publicas {
      EnfileirarOk(d.(ocorrencias := d.ocorrencias[oc.id := oc]), oc, ok);
    }
  }

  lemma TryDispatchOk(d: Desk, alvo: Option<string>, enviado: bool, agora: int, ok: iset<string>)
    requires DeskOk(d, ok)
    ensures OutOk(TryDispatch(d, alvo, enviado, agora), ok)
  {
    hide QueueOk, Enfileirar, Heap.RemoveId, Heap.Dequeue, Heap.Enqueue;
    if d.queue != [] {
      var oc := d.queue[0].oc;
      HeadOk(d.queue, ok);
      RemoveOk(d.queue, oc.id, ok);
      DequeueOk(d.queue, ok);
      if alvo.Some? && alvo.value in d.drones {
        var d1 := Occupy(d.(queue := Heap.Dequeue(d.queue)), alvo.value, oc.id, agora);
        assert DeskOk(Marcar(d1, oc.id, false), ok);
        EnfileirarOk(Marcar(d1, oc.id, false), oc, ok);
      }
    }
  }

  lemma HeadOk(q: seq<Heap.Entry>, ok: iset<string>)
    requires q != [] && QueueOk(q, ok)
    ensures q[0].oc.id in ok
  {
    assert q[0] in q;
  }

  lemma OnRequestOk(d: Desk, oc: Ocorrencia, ok: iset<string>)
    requires DeskOk(d, ok) && oc.vesselId != ""
    ensures DeskOk(OnRequest(d, oc), ok)
  {
    hide QueueOk, DronesOk;
  }

  lemma OnDispatchedOk(d: Desk, oc: string, x: string, info: InfoDrone, ok: iset<string>)
    requires DeskOk(d, ok) && InfoOk(info, ok)
    ensures DeskOk(OnDispatched(d, oc, x, info), ok)
  {
    hide QueueOk, Heap.RemoveId;
    RemoveOk(d.queue, oc, ok);
  }

  lemma OnLostOk(d: Desk, x: string, agora: int, ok: iset<string>)
    requires DeskOk(d, ok)
    ensures DeskOk(OnLost(d, x, agora), ok)
  {
    hide QueueOk, LoseDrone;
    if x in d.drones {
      var info := d.drones[x].(estado := Abatido, ultimaVez := agora);
      LoseDroneOk(d.(drones := d.drones[x := info]), info, ok);
    }
  }

  lemma OnSyncOk(d: Desk, info: InfoDrone, ok: iset<string>)
    requires DeskOk(d, ok) && InfoOk(info, ok)
    ensures DeskOk(OnSync(d, info), ok)
  {
    hide QueueOk;
  }

  lemma DroneReportOk(d: Desk, x: string, estado: EstadoDrone, oc: string, agora: int, ok: iset<string>)
    requires DeskOk(d, ok) && (oc == "" || oc in ok)
    ensures OutOk(DroneReport(d, x, estado, oc, agora), ok)
  {
    hide QueueOk, LoseDrone;
    if x in d.drones {
      var info := Reported(d.drones[x], estado, oc, agora);
      LoseDroneOk(d.(drones := d.drones[x := info]), info, ok);
    }
  }

  lemma DroneKeepaliveOk(d: Desk, x: string, agora: int, ok: iset<string>)
    requires DeskOk(d, ok)
    ensures OutOk(DroneKeepalive(d, x, agora), ok)
  {
    hide QueueOk;
  }

  lemma AllRecordsOk(d: Desk, ok: iset<string>)
    requires DeskOk(d, ok)
    ensures OutOk(AllRecords(d), ok)
  {
    hide QueueOk;
  }

  lemma DroneJoinOk(d: Desk, id: string, info: InfoDrone, ok: iset<string>)
    requires DeskOk(d, ok) && InfoOk(info, ok)
    ensures OutOk(DroneJoin(d, id, info), ok)
  {
    hide QueueOk;
  }

  lemma DroneLeaveOk(d: Desk, x: string, agora: int, ok: iset<string>)
    requires DeskOk(d, ok)
    ensures OutOk(DroneLeave(d, x, agora), ok)
  {
    hide QueueOk, DronesOk, OnLost;
    OnLostOk(d.(locais := d.locais - {x}), x, agora, ok);
  }

  // --- Releases are never taken back --------------------------------------------------------------

  lemma {:induction false} AllTxsPrefix(blocks: seq<Block>, more: seq<Block>, tx: Transaction)
    requires blocks <= more && tx in AllTxs(blocks)
    ensures tx in AllTxs(more)
    decreases |more|
  {
    if |blocks| == |more| {
      assert blocks == more;
    } else {
      AllTxsPrefix(blocks, more[..|more| - 1], tx);
    }
  }

  lemma ReleasedGrows(s: Sys, t: Sys)
    requires Brokers(s) && Brokers(t) && Agreement.Grows(s, t) && s.publicas <= t.publicas
    ensures ReleasedIds(s) <= ReleasedIds(t)
  {
    forall id | Released(s, id) ensures Released(t, id) {
      if id !in s.publicas {
        var b :| b in VALIDATORS && PaidOn(ChainOf(s, b), id);
        var tx :| tx in AllTxs(ChainOf(s, b)) && tx.kind == Transfer && tx.occurrenceId == id;
        AllTxsPrefix(ChainOf(s, b), ChainOf(t, b), tx);
        assert PaidOn(ChainOf(t, b), id);
      }
    }
  }

  lemma DeskOkGrows(d: Desk, ok: iset<string>, more: iset<string>)
    requires DeskOk(d, ok) && ok <= more
    ensures DeskOk(d, more)
  {
  }

  /** A step that changes one desk keeps the gate when the new desk and the new messages pass it. */
  lemma GatedStep(s: Sys, t: Sys, b: string)
    requires Brokers(s) && Brokers(t) && Gated(s) && b in VALIDATORS && ReleasedIds(s) <= ReleasedIds(t)
    requires forall c :: c in VALIDATORS && c != b ==> t.desks[c] == s.desks[c]
    requires DeskOk(t.desks[b], ReleasedIds(t))
    requires forall m :: m in t.net && m !in s.net ==> MsgOk(m, ReleasedIds(t))
    ensures Gated(t)
  {
    hide DeskOk, ReleasedIds;
    forall c ensures DeskGated(t, c) {
      if c in VALIDATORS && c != b {
        assert DeskGated(s, c);
        DeskOkGrows(s.desks[c], ReleasedIds(s), ReleasedIds(t));
      }
    }
    forall m ensures SentGated(t, m) {
      if m in s.net {
        assert SentGated(s, m);
        assert MsgOk(m, ReleasedIds(s));
      }
    }
  }

  // --- Node steps --------------------------------------------------------------------------------

  /** A step pays out only a block that it has just put on its own chain, and sends no dispatch. */
  ghost predicate PaysOwnBlock(n: Node, o: NodeOut) {
    && (o.committed.Some? ==> o.node.ledger.blocks == n.ledger.blocks + [o.committed.value])
    && (forall m :: m in o.sent ==> !Runs.OnTheDesk(m))
  }

  lemma NodeStepGated(s: Sys, b: string, o: NodeOut)
    requires Brokers(s) && Gated(s) && b in VALIDATORS && o.node.ledger.blocks != [] && o.node.saved.blocks != []
    requires ChainOf(s, b) <= o.node.ledger.blocks && PaysOwnBlock(s.nodes[b], o)
    ensures Gated(WithNode(s, b, o))
  {
    hide DeskOk, ReleasedIds, PayBlock;
    var t := WithNode(s, b, o);
    Runs.WithNodeGrows(s, b, o);
    ReleasedGrows(s, t);
    GatedAt(s, b);
    DeskOkGrows(s.desks[b], ReleasedIds(s), ReleasedIds(t));
    if o.committed.Some? {
      var block := o.committed.value;
      OwnBlockReleased(t, b, s.nodes[b].ledger.blocks, block);
      PayBlockOk(s.desks[b], block.transactions, ReleasedIds(t));
    }
    GatedStep(s, t, b);
  }

  lemma OwnBlockReleased(t: Sys, b: string, below: seq<Block>, block: Block)
    requires Brokers(t) && b in VALIDATORS && ChainOf(t, b) == below + [block]
    ensures forall tx :: tx in block.transactions && tx.kind == Transfer ==> tx.occurrenceId in ReleasedIds(t)
  {
    AllTxsAppend(below, block);
    forall tx | tx in block.transactions && tx.kind == Transfer ensures Released(t, tx.occurrenceId) {
      assert tx in AllTxs(ChainOf(t, b));
      assert PaidOn(ChainOf(t, b), tx.occurrenceId);
    }
  }

  lemma ProposePays(n: Node, id: string, now: Moment, nonce: int)
    requires n.ledger.blocks != []
    ensures PaysOwnBlock(n, Propose(n, id, now, nonce))
    ensures Propose(n, id, now, nonce).node.ledger.blocks == n.ledger.blocks
  {
    hide Proposal;
  }

  lemma HandlersPay(n: Node, id: string, voter: string, b: Block, sig: Text, nonce: int, blocks: seq<Block>)
    requires n.ledger.blocks != []
    ensures PaysOwnBlock(n, OnProposal(n, id, b, nonce)) && PaysOwnBlock(n, OnVote(n, id, voter, b, sig))
    ensures PaysOwnBlock(n, OnCommit(n, b)) && PaysOwnBlock(n, OnChain(n, blocks))
  {
    hide Approves, HasVoted, VotesAccept, BlockError, SignBlock, HashBlock, Sealed, Without;
  }

  // --- Desk steps --------------------------------------------------------------------------------

  lemma DeskStepGated(s: Sys, b: string, o: DeskOut)
    requires Brokers(s) && Gated(s) && b in VALIDATORS && OutOk(o, ReleasedIds(WithDesk(s, b, o)))
    ensures Gated(WithDesk(s, b, o))
  {
    hide DeskOk, ReleasedIds;
    var t := WithDesk(s, b, o);
    assert Agreement.Grows(s, t);
    ReleasedGrows(s, t);
    GatedStep(s, t, b);
  }

  /** A desk step that opens nothing is judged by the releases before it. */
  lemma CalmStepGated(s: Sys, b: string, o: DeskOut)
    requires Brokers(s) && Gated(s) && b in VALIDATORS && OutOk(o, ReleasedIds(s))
    ensures Gated(WithDesk(s, b, o))
  {
    hide DeskOk, ReleasedIds, MsgOk;
    var t := WithDesk(s, b, o);
    assert Agreement.Grows(s, t);
    ReleasedGrows(s, t);
    DeskOkGrows(o.desk, ReleasedIds(s), ReleasedIds(t));
    forall m | m in o.sent ensures MsgOk(m, ReleasedIds(t)) {
      MsgOkGrows(m, ReleasedIds(s), ReleasedIds(t));
    }
    DeskStepGated(s, b, o);
  }

  lemma MsgOkGrows(m: Msg, ok: iset<string>, more: iset<string>)
    requires MsgOk(m, ok) && ok <= more
    ensures MsgOk(m, more)
  {
  }

  lemma GatedAt(s: Sys, b: string)
    requires Brokers(s) && Gated(s) && b in VALIDATORS
    ensures DeskOk(s.desks[b], ReleasedIds(s))
  {
    hide DeskOk, MsgOk, ReleasedIds;
    assert DeskGated(s, b);
  }

  lemma GatedMsg(s: Sys, m: Msg)
    requires Brokers(s) && Gated(s) && m in s.net
    ensures MsgOk(m, ReleasedIds(s))
  {
    hide DeskOk, MsgOk, ReleasedIds;
    assert SentGated(s, m);
  }

  lemma CommandedOk(s: Sys, x: string, oc: string)
    requires Brokers(s) && Gated(s) && Commanded(s, x, oc)
    ensures oc == "" || oc in ReleasedIds(s)
  {
    hide ReleasedIds, Gated;
    if oc != "" {
      GatedMsg(s, Comando(x, oc));
    }
  }

  lemma ReadGated(s: Sys, b: string, vessels: map<string, string>, l: Leitura, r: bool, lamport: int)
    requires Brokers(s) && Gated(s) && b in VALIDATORS
    ensures Gated(WithDesk(s, b, Read(s.desks[b], b, vessels, l, r, lamport)))
  {
    hide DeskOk, Gated, OutOk, Read;
    var o := Read(s.desks[b], b, vessels, l, r, lamport);
    var t := WithDesk(s, b, o);
    assert Agreement.Grows(s, t);
    ReleasedGrows(s, t);
    GatedAt(s, b);
    DeskOkGrows(s.desks[b], ReleasedIds(s), ReleasedIds(t));
    ReadOk(s.desks[b], b, vessels, l, r, lamport, ReleasedIds(t));
    DeskStepGated(s, b, o);
  }

  lemma RestartGated(s: Sys, b: string)
    requires Brokers(s) && Agreement.Inv(s) && Gated(s) && b in VALIDATORS
    ensures Gated(WithDesk(WithNode(s, b, Quiet(Reload(s.nodes[b]))), b, Calm(EMPTY_DESK)))
  {
    hide Gated, ReleasedIds, Agreement.Inv, Agreement.Whole, Agreement.Filed;
    Agreement.NodeOf(s, b);
    var u := WithNode(s, b, Quiet(Reload(s.nodes[b])));
    NodeStepGated(s, b, Quiet(Reload(s.nodes[b])));
    CalmStepGated(u, b, Calm(EMPTY_DESK));
  }

  lemma SendGated(s: Sys, m: Msg)
    requires Brokers(s) && Gated(s) && !Runs.OnTheDesk(m)
    ensures Gated(Send(s, m))
  {
    hide DeskOk, ReleasedIds;
    var t := Send(s, m);
    assert Agreement.Grows(s, t);
    ReleasedGrows(s, t);
    GatedAt(s, "B1");
    DeskOkGrows(s.desks["B1"], ReleasedIds(s), ReleasedIds(t));
    GatedStep(s, t, "B1");
  }

  // --- All events -----------------------------------------------------------------------------------

  /** A node step whose chain is a continuation, as every step of the protocol is. */
  lemma ReceiveGated(s: Sys, b: string, m: Msg, nonce: int, agora: int)
    requires Brokers(s) && Agreement.Inv(s) && Gated(s) && b in VALIDATORS && m in s.net
    ensures Gated(Receive(s, b, m, nonce, agora))
  {
    hide Gated, Agreement.Inv, ReleasedIds, DeskOk, PaysOwnBlock, Runs.OnTheDesk;
    hide OnProposal, OnVote, OnCommit, OnChain, OnRequest, OnDispatched, OnLost, OnSync, OnDone, Admit;
    var n, d, ok := s.nodes[b], s.desks[b], ReleasedIds(s);
    GatedAt(s, b);
    GatedMsg(s, m);
    Runs.ReceiveKeeps(s, b, m, nonce, agora);
    Runs.ChainGrows(s, Receive(s, b, m, nonce, agora), b);
    match m
    case BlockProposal(block) =>
      HandlersPay(n, b, "", block, [], nonce, [Genesis()]);
      NodeStepGated(s, b, OnProposal(n, b, block, nonce));
    case BlockVote(voter, block, sig) =>
      HandlersPay(n, b, voter, block, sig, nonce, [Genesis()]);
      NodeStepGated(s, b, OnVote(n, b, voter, block, sig));
    case BlockCommit(block) =>
      HandlersPay(n, b, "", block, [], nonce, [Genesis()]);
      NodeStepGated(s, b, OnCommit(n, block));
    case ChainResponse(blocks) =>
      HandlersPay(n, b, "", Genesis(), [], nonce, blocks);
      NodeStepGated(s, b, OnChain(n, blocks));
    case TxBroadcast(tx) =>
      Runs.AdmitKeepsBlocks(n.ledger, tx);
      QuietGated(s, b, n.(ledger := Admit(n.ledger, tx)));
    case RequisicaoDrone(oc) =>
      OnRequestOk(d, oc, ok);
      CalmStepGated(s, b, Calm(OnRequest(d, oc)));
    case DroneDespachado(oc, x, info) =>
      OnDispatchedOk(d, oc, x, info, ok);
      CalmStepGated(s, b, Calm(OnDispatched(d, oc, x, info)));
    case SincDrone(info) =>
      OnSyncOk(d, info, ok);
      CalmStepGated(s, b, Calm(OnSync(d, info)));
    case DronePerdido(x) =>
      OnLostOk(d, x, agora, ok);
      CalmStepGated(s, b, Calm(OnLost(d, x, agora)));
    case MissaoConcluida(oc) =>
      OnDoneOk(d, oc, ok);
      CalmStepGated(s, b, Calm(OnDone(d, oc)));
    case Comando(_, _) => CalmStepGated(s, b, Calm(d));
  }

  lemma OnDoneOk(d: Desk, oc: string, ok: iset<string>)
    requires DeskOk(d, ok)
    ensures DeskOk(OnDone(d, oc), ok)
  {
    hide QueueOk, DronesOk;
  }

  lemma AgeDeskOk(d: Desk, agora: int, ok: iset<string>)
    requires DeskOk(d, ok)
    ensures DeskOk(d.(queue := Heap.Age(d.queue, agora)), ok)
  {
    hide QueueOk, DronesOk, Heap.Age;
    AgeOk(d.queue, agora, ok);
  }

  lemma ReportGated(s: Sys, b: string, x: string, estado: EstadoDrone, oc: string, agora: int, r: Registro)
    requires Brokers(s) && Gated(s) && b in VALIDATORS && Commanded(s, x, oc)
    ensures var d := s.desks[b];
            Gated(WithDesk(WithNode(s, b, PublishLaudo(s.nodes[b], Laudo(d, b, x, estado, oc, r))), b,
                           DroneReport(d, x, estado, oc, agora)))
  {
    hide Gated, ReleasedIds, DeskOk, Laudo, DroneReport, PublishLaudo, PaysOwnBlock;
    var d, o := s.desks[b], PublishLaudo(s.nodes[b], Laudo(s.desks[b], b, x, estado, oc, r));
    var u := WithNode(s, b, o);
    PublishPays(s.nodes[b], Laudo(d, b, x, estado, oc, r));
    CommandedOk(s, x, oc);
    NodeStepGated(s, b, o);
    Runs.WithNodeGrows(s, b, o);
    ReleasedGrows(s, u);
    GatedAt(s, b);
    DeskOkGrows(d, ReleasedIds(s), ReleasedIds(u));
    DroneReportOk(d, x, estado, oc, agora, ReleasedIds(u));
    CalmStepGated(u, b, DroneReport(d, x, estado, oc, agora));
  }

  lemma PublishPays(n: Node, laudo: Option<Transaction>)
    requires n.ledger.blocks != []
    ensures PaysOwnBlock(n, PublishLaudo(n, laudo))
  {
    hide Admit, AdmitError;
  }

  lemma DeskEventGated(s: Sys, e: Event)
    requires Brokers(s) && Gated(s) && e.b in VALIDATORS
    requires !e.Tick? && !e.Deliver? && !e.AnswerSync? && !e.Submit? && !e.Restart?
    ensures Gated(Do(s, e))
  {
    hide Gated, ReleasedIds, DeskOk, Commanded, WithDesk, WithNode, Read, TryDispatch, DroneReport, DroneJoin;
    hide DroneLeave, DroneKeepalive, AllRecords, Heap.Age, PublishLaudo, Laudo;
    var d, ok := s.desks[e.b], ReleasedIds(s);
    GatedAt(s, e.b);
    match e
    case Reading(b, l, r, lamport) => ReadGated(s, b, StateOf(s.nodes[b].ledger.blocks).vessels, l, r, lamport);
    case Dispatch(b, alvo, enviado, agora) =>
      TryDispatchOk(d, alvo, enviado, agora, ok);
      CalmStepGated(s, b, TryDispatch(d, alvo, enviado, agora));
    case DroneSays(b, x, estado, oc, agora, r) =>
      if Commanded(s, x, oc) {
        ReportGated(s, b, x, estado, oc, agora, r);
      }
    case DroneAlive(b, x, agora) =>
      DroneKeepaliveOk(d, x, agora, ok);
      CalmStepGated(s, b, DroneKeepalive(d, x, agora));
    case SendRecords(b) =>
      AllRecordsOk(d, ok);
      CalmStepGated(s, b, AllRecords(d));
    case DroneJoins(b, info) =>
      if Commanded(s, info.droneId, info.ocorrenciaId) {
        CommandedOk(s, info.droneId, info.ocorrenciaId);
        DroneJoinOk(d, b, info, ok);
        CalmStepGated(s, b, DroneJoin(d, b, info));
      }
    case DroneLeaves(b, x, agora) =>
      DroneLeaveOk(d, x, agora, ok);
      CalmStepGated(s, b, DroneLeave(d, x, agora));
    case Age(b, agora) =>
      AgeDeskOk(d, agora, ok);
      CalmStepGated(s, b, Calm(d.(queue := Heap.Age(d.queue, agora))));
  }

  lemma StepGated(s: Sys, e: Event)
    requires Brokers(s) && Agreement.Inv(s) && Gated(s)
    ensures Gated(Do(s, e))
  {
    hide Gated, Agreement.Inv, Agreement.Whole, Agreement.Filed, ReleasedIds;
    hide Admit, WithNode, WithDesk, Propose, PaysOwnBlock;
    if e.b in VALIDATORS {
      var n := s.nodes[e.b];
      Agreement.NodeOf(s, e.b);
      match e
      case Tick(b, now, nonce) =>
        ProposePays(n, b, now, nonce);
        NodeStepGated(s, b, Propose(n, b, now, nonce));
      case Deliver(b, m, nonce, agora) =>
        if m in s.net {
          ReceiveGated(s, b, m, nonce, agora);
        }
      case AnswerSync(b) => SendGated(s, ChainResponse(n.ledger.blocks));
      case Submit(b, tx) =>
        Runs.AdmitKeepsBlocks(n.ledger, tx);
        QuietGated(s, b, n.(ledger := Admit(n.ledger, tx)));
      case Restart(b) => RestartGated(s, b);
      case _ => DeskEventGated(s, e);
    }
  }

  lemma QuietGated(s: Sys, b: string, m: Node)
    requires Brokers(s) && Gated(s) && b in VALIDATORS && m.saved.blocks != [] && m.ledger.blocks == ChainOf(s, b)
    ensures Gated(WithNode(s, b, Quiet(m)))
  {
    hide Gated, ReleasedIds;
    NodeStepGated(s, b, Quiet(m));
  }

  lemma {:induction false} GatedAlong(states: seq<Sys>, es: seq<Event>, k: nat)
    requires History(states, es) && k < |states|
    ensures Brokers(states[k]) && Gated(states[k])
  {
    hide Gated, Do, Agreement.Inv, Initial, Brokers;
    if k == 0 {
      InitialGated();
    } else {
      GatedAlong(states, es, k - 1);
      Runs.InvAlong(states, es, k - 1);
      assert StepAt(states, es, k - 1);
      StepGated(states[k - 1], es[k - 1]);
    }
  }

  lemma InitialGated()
    ensures Gated(Initial())
  {
  }

  // --- Theorems over runs --------------------------------------------------------------------------

  /**
   * Payment gating: at every moment of a run each occurrence in a broker's queue or drone record was opened
   * as public or has a TRANSFER with its id in some broker's chain, after lost drones and failed commands too.
   */
  lemma PaymentGating(states: seq<Sys>, es: seq<Event>, k: nat, b: string)
    requires History(states, es) && k < |states| && b in VALIDATORS
    ensures forall e :: e in DeskIn(states[k], b).queue ==> Released(states[k], e.oc.id)
    ensures var drones := DeskIn(states[k], b).drones;
            forall x :: x in drones && drones[x].ocorrenciaId != "" ==> Released(states[k], drones[x].ocorrenciaId)
  {
    hide History, Gated, Released;
    GatedAlong(states, es, k);
    GatedAt(states[k], b);
  }

  /** The same for every command, dispatch notice and drone record ever sent, and so for those in flight. */
  lemma PaymentGatingInFlight(states: seq<Sys>, es: seq<Event>, k: nat, m: Msg)
    requires History(states, es) && k < |states| && m in states[k].net
    ensures match m
            case Comando(x, oc) => Released(states[k], oc)
            case DroneDespachado(oc, x, info) =>
              Released(states[k], oc) && (info.ocorrenciaId == "" || Released(states[k], info.ocorrenciaId))
            case SincDrone(info) => info.ocorrenciaId == "" || Released(states[k], info.ocorrenciaId)
            case _ => true
  {
    hide History, Gated, Released;
    GatedAlong(states, es, k);
    GatedMsg(states[k], m);
  }

  /** The release comes first: an event that commands a drone finds its occurrence already released. */
  lemma ReleasedBeforeCommand(states: seq<Sys>, es: seq<Event>, k: nat, x: string, oc: string)
    requires History(states, es) && k < |es|
    requires Comando(x, oc) in states[k + 1].net && Comando(x, oc) !in states[k].net
    ensures Released(states[k], oc)
  {
    hide Gated, Released, Do;
    GatedAlong(states, es, k);
    assert StepAt(states, es, k);
    OnlyDispatchCommands(states[k], es[k], x, oc);
    GatedAt(states[k], es[k].b);
    HeadOk(states[k].desks[es[k].b].queue, ReleasedIds(states[k]));
  }

  /** Only tentarDespachar commands a drone, and it takes the occurrence from the head of the queue. */
  lemma OnlyDispatchCommands(s: Sys, e: Event, x: string, oc: string)
    requires Brokers(s) && Comando(x, oc) in Do(s, e).net && Comando(x, oc) !in s.net
    ensures e.Dispatch? && e.b in VALIDATORS && s.desks[e.b].queue != [] && s.desks[e.b].queue[0].oc.id == oc
  {
    hide Enfileirar, Heap.RemoveId, Heap.Dequeue;
    Origins.MessageOrigin(s, e);
  }

  /** Only a reading of a vessel that the broker's own chain does not register opens an occurrence as public. */
  lemma PublicMeansUnregistered(s: Sys, e: Event, id: string)
    requires Brokers(s) && id in Do(s, e).publicas && id !in s.publicas
    ensures e.Reading? && e.b in VALIDATORS && e.leitura.vesselId !in StateOf(ChainOf(s, e.b)).vessels
    ensures id == NewOccurrence(e.b, e.leitura, e.lamport).id
  {
    hide Propose, OnProposal, OnVote, OnCommit, OnChain, PayBlock, StateOf, NewOccurrence;
    hide OnRequest, OnDispatched, OnLost, OnSync, OnDone, LoseDrone, Enfileirar;
    hide Heap.Age, Admit, Heap.RemoveId, Heap.Dequeue, PublishLaudo, Laudo;
  }
}
