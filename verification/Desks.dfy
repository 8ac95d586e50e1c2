/** What each handler of occurrences and drones leaves behind, exactly: queue, flags, records and messages. */
module Desks {
  import opened Models
  import opened Texts
  import opened Hashing
  import opened Ledger
  import opened Protocol
  import Admission
  import Heap

  // --- Queues ---------------------------------------------------------------------------

  ghost predicate Queued(q: seq<Heap.Entry>, id: string) {
    exists e :: e in q && e.oc.id == id
  }

  /** The queue r is q with the occurrence in it: as it was if its id is there, else with one entry at its own level. */
  ghost predicate JoinsQueue(q: seq<Heap.Entry>, oc: Ocorrencia, r: seq<Heap.Entry>) {
    if Queued(q, oc.id) then r == q
    else multiset(r) == multiset(q) + multiset{Heap.Entry(oc, oc.criticidade, oc.timestamp)}
  }

  /** The queue r is q without its head. */
  ghost predicate WithoutHead(q: seq<Heap.Entry>, r: seq<Heap.Entry>)
    requires q != []
  {
    multiset(q) == multiset(r) + multiset{q[0]}
  }

  lemma EnqueueJoins(q: seq<Heap.Entry>, oc: Ocorrencia)
    ensures JoinsQueue(q, oc, Heap.Enqueue(q, oc))
  {
    hide Heap.Enqueue;
    Heap.EnqueueContents(q, oc);
    if Queued(q, oc.id) {
      var e :| e in q && e.oc.id == oc.id;
      var i :| 0 <= i < |q| && q[i] == e;
    }
  }

  lemma JoinedIds(q: seq<Heap.Entry>, oc: Ocorrencia, r: seq<Heap.Entry>, id: string)
    requires JoinsQueue(q, oc, r)
    ensures Queued(r, id) <==> Queued(q, id) || id == oc.id
  {
    if !Queued(q, oc.id) {
      PlusOneIds(q, Heap.Entry(oc, oc.criticidade, oc.timestamp), r, id);
    }
  }

  lemma PlusOneIds(q: seq<Heap.Entry>, e: Heap.Entry, r: seq<Heap.Entry>, id: string)
    requires multiset(r) == multiset(q) + multiset{e}
    ensures Queued(r, id) <==> Queued(q, id) || id == e.oc.id
  {
    forall f: Heap.Entry ensures f in r <==> f in q || f == e {
      assert f in r <==> f in multiset(r);
      assert f in q <==> f in multiset(q);
    }
    if Queued(q, id) {
      var f :| f in q && f.oc.id == id;
      assert f in r;
    }
    if id == e.oc.id {
      assert e in r;
    }
  }

  lemma RemoveIsWithoutHead(q: seq<Heap.Entry>)
    requires q != []
    ensures WithoutHead(q, Heap.RemoveId(q, q[0].oc.id)) && WithoutHead(q, Heap.Dequeue(q))
  {
    hide Heap.Remove, Heap.Pop;
    assert Heap.Find(q, q[0].oc.id) == 0;
    Heap.RemoveContents(q, 0);
    Heap.PopContents(q);
  }

  /** The ids of a queue without its head, put back at its own level, are those of the queue. */
  lemma BackInQueue(q: seq<Heap.Entry>, less: seq<Heap.Entry>, r: seq<Heap.Entry>, id: string)
    requires q != [] && WithoutHead(q, less) && JoinsQueue(less, q[0].oc, r)
    ensures Queued(r, id) <==> Queued(q, id)
  {
    hide JoinsQueue, Queued;
    PlusOneIds(less, q[0], q, id);
    JoinedIds(less, q[0].oc, r, id);
  }

  /** Removing an id leaves every other id queued as it was, and with unique ids removes it for good. */
  lemma RemovedIds(q: seq<Heap.Entry>, gone: string, id: string)
    ensures id != gone ==> (Queued(Heap.RemoveId(q, gone), id) <==> Queued(q, id))
    ensures Heap.GoodQueue(q) ==> !Queued(Heap.RemoveId(q, gone), gone)
  {
    hide Heap.Remove, Heap.GoodQueue, Queued;
    var k, r := Heap.Find(q, gone), Heap.RemoveId(q, gone);
    if k < |q| {
      Heap.RemoveContents(q, k);
      PlusOneIds(r, q[k], q, id);
    }
    if Heap.GoodQueue(q) && Queued(r, gone) {
      Heap.RemoveIdKeeps(q, gone);
      NoneLeft(r, gone);
    }
  }

  lemma NoneLeft(r: seq<Heap.Entry>, gone: string)
    requires forall e: Heap.Entry :: e.oc.id == gone ==> multiset(r)[e] == 0
    ensures !Queued(r, gone)
  {
    forall e: Heap.Entry | e in r ensures e.oc.id != gone {
      assert e in multiset(r);
    }
  }

  // --- Flags ------------------------------------------------------------------------------

  /** The flag of id is as given, and all other flags are as they were. */
  ghost predicate FlagOnly(d: Desk, r: Desk, id: string, set_: bool) {
    (Atendida(r, id) <==> set_) && forall o :: o != id ==> (Atendida(r, o) <==> Atendida(d, o))
  }

  /** Every occurrence is known under its own id. */
  predicate KeysOk(d: Desk) {
    forall id :: id in d.ocorrencias ==> d.ocorrencias[id].id == id
  }

  // --- A lost drone -------------------------------------------------------------------------

  /** tratarDronePerdido reopens the drone's occurrence: its flag is clear, and if known it is queued again. */
  lemma LossReopens(d: Desk, info: InfoDrone)
    ensures var r, id := LoseDrone(d, info), info.ocorrenciaId;
            && r == d.(queue := r.queue, atendidos := r.atendidos)
            && (id == "" ==> r == d) && (id != "" ==> FlagOnly(d, r, id, false))
            && if id != "" && id in d.ocorrencias then JoinsQueue(d.queue, d.ocorrencias[id], r.queue)
               else r.queue == d.queue
  {
    hide Heap.Enqueue, JoinsQueue;
    if info.ocorrenciaId in d.ocorrencias {
      EnqueueJoins(d.queue, d.ocorrencias[info.ocorrenciaId]);
    }
  }

  /**
   * However a broker learns that a drone is lost, by a report of its being shot down, by a notice or by the end of
   * the connection, the known occurrence it carried is back in the queue with a clear flag.
   */
  lemma LostIsQueuedAgain(d: Desk, x: string, said: string, agora: int)
    requires KeysOk(d) && x in d.drones && d.drones[x].ocorrenciaId != "" && d.drones[x].ocorrenciaId in d.ocorrencias
    ensures BackInService(DroneReport(d, x, Abatido, said, agora).desk, x, d.drones[x].ocorrenciaId)
    ensures BackInService(OnLost(d, x, agora), x, d.drones[x].ocorrenciaId)
    ensures x in d.locais ==> BackInService(DroneLeave(d, x, agora).desk, x, d.drones[x].ocorrenciaId)
  {
    hide LoseDrone, Queued;
    var info := d.drones[x].(estado := Abatido, ultimaVez := agora);
    LossQueues(d.(drones := d.drones[x := info]), info);
    LossQueues(d.(locais := d.locais - {x}, drones := d.drones[x := info]), info);
  }

  /** The drone is recorded as shot down, and its occurrence waits for another. */
  ghost predicate BackInService(r: Desk, x: string, oc: string) {
    Queued(r.queue, oc) && !Atendida(r, oc) && x in r.drones && r.drones[x].estado == Abatido
  }

  lemma LossQueues(d: Desk, info: InfoDrone)
    requires KeysOk(d) && info.ocorrenciaId != "" && info.ocorrenciaId in d.ocorrencias
    ensures var r := LoseDrone(d, info);
            r.drones == d.drones && Queued(r.queue, info.ocorrenciaId) && !Atendida(r, info.ocorrenciaId)
  {
    hide LoseDrone, JoinsQueue, Queued;
    LossReopens(d, info);
    JoinedIds(d.queue, d.ocorrencias[info.ocorrenciaId], LoseDrone(d, info).queue, info.ocorrenciaId);
  }

  /** A loss reported after the end of the mission queues nothing. */
  lemma NoLossAfterDone(d: Desk, info: InfoDrone)
    ensures LoseDrone(OnDone(d, info.ocorrenciaId), info).queue == d.queue
  {
  }

  // --- Payments -----------------------------------------------------------------------------

  predicate Pays(txs: seq<Transaction>, id: string) {
    id != "" && exists t :: t in txs && t.kind == Transfer && t.occurrenceId == id
  }

  /** A known occurrence that the block pays is PAGO, unattended and queued; any other is as it was. */
  ghost predicate PaidAsDue(d: Desk, txs: seq<Transaction>, r: Desk, id: string) {
    if id in d.ocorrencias && Pays(txs, id) then
      && id in r.ocorrencias && r.ocorrencias[id] == d.ocorrencias[id].(status := Pago)
      && !Atendida(r, id) && Queued(r.queue, id)
    else
      && (id in r.ocorrencias <==> id in d.ocorrencias)
      && (id in d.ocorrencias ==> r.ocorrencias[id] == d.ocorrencias[id])
      && (Atendida(r, id) <==> Atendida(d, id)) && (Queued(r.queue, id) <==> Queued(d.queue, id))
  }

  lemma {:induction false} PaysExactly(d: Desk, txs: seq<Transaction>)
    requires KeysOk(d)
    ensures KeysOk(PayBlock(d, txs)) && PayBlock(d, txs).drones == d.drones && PayBlock(d, txs).locais == d.locais
    ensures forall id :: PaidAsDue(d, txs, PayBlock(d, txs), id)
  {
    hide PayTx, KeysOk;
    if txs == [] {
      forall id ensures PaidAsDue(d, txs, d, id) {
      }
    } else {
      var init, t := txs[..|txs| - 1], txs[|txs| - 1];
      var m := PayBlock(d, init);
      PaysExactly(d, init);
      PaysOne(m, t);
      forall id ensures PaidAsDue(d, txs, PayTx(m, t), id) {
        assert PaidAsDue(d, init, m, id) && PaidAsDue(m, [t], PayTx(m, t), id);
        PaysEither(init, t, id);
        assert txs == init + [t];
      }
    }
  }

  lemma PaysEither(init: seq<Transaction>, t: Transaction, id: string)
    ensures Pays(init + [t], id) <==> Pays(init, id) || Pays([t], id)
  {
    if Pays(init, id) {
      var u :| u in init && u.kind == Transfer && u.occurrenceId == id;
      assert u in init + [t];
    }
    if Pays([t], id) {
      assert t in init + [t];
    }
  }

  lemma PaysOne(d: Desk, t: Transaction)
    requires KeysOk(d)
    ensures KeysOk(PayTx(d, t)) && PayTx(d, t).drones == d.drones && PayTx(d, t).locais == d.locais
    ensures forall id :: PaidAsDue(d, [t], PayTx(d, t), id)
  {
    hide Heap.Enqueue, Queued, JoinsQueue;
    forall id ensures Pays([t], id) <==> t.kind == Transfer && t.occurrenceId == id && id != "" {
      assert t in [t];
    }
    if t.kind == Transfer && t.occurrenceId != "" && t.occurrenceId in d.ocorrencias {
      var occ := d.ocorrencias[t.occurrenceId].(status := Pago);
      EnqueueJoins(d.queue, occ);
      forall id ensures Queued(Heap.Enqueue(d.queue, occ), id) <==> Queued(d.queue, id) || id == occ.id {
        JoinedIds(d.queue, occ, Heap.Enqueue(d.queue, occ), id);
      }
    }
  }

  // --- Readings -------------------------------------------------------------------------------

  /**
   * A reading that is the broker's to handle, names a vessel and has a level above zero opens one occurrence with
   * the reading's data. For a registered vessel it waits for its owner's payment and is not queued; for any other
   * it is public and queued at its own level.
   */
  lemma OpensAsRead(d: Desk, id: string, vessels: map<string, string>, l: Leitura, r: bool, lamport: int)
    ensures var o, oid := Read(d, id, vessels, l, r, lamport), l.sensorId + "-" + Decimal(l.timestamp);
            if !r || l.vesselId == "" || l.criticidade <= 0 then o == DeskOut(d, {}, {})
            else
              var oc := Ocorrencia(oid, l.setorId, id, l.criticidade, l.timestamp, lamport, l.vesselId,
                                   if l.vesselId in vessels then vessels[l.vesselId] else "",
                                   if l.vesselId in vessels then AguardandoPagamento else Aberta);
              && o.sent == {RequisicaoDrone(oc)}
              && o.desk == d.(ocorrencias := d.ocorrencias[oid := oc], queue := o.desk.queue)
              && (if l.vesselId in vessels then o.desk.queue == d.queue && o.publicas == {}
                  else JoinsQueue(d.queue, oc, o.desk.queue) && o.publicas == {oid})
  {
    hide Heap.Enqueue, JoinsQueue, Decimal;
    EnqueueJoins(d.queue, NewOccurrence(id, l, lamport));
  }

  /** A request of another broker is recorded unless it has no level, and queued only without a vessel and a flag. */
  lemma RequestIsRecorded(d: Desk, oc: Ocorrencia)
    ensures var r := OnRequest(d, oc);
            if oc.criticidade == 0 then r == d
            else
              && r == d.(ocorrencias := d.ocorrencias[oc.id := oc], queue := r.queue)
              && if oc.vesselId == "" && !Atendida(d, oc.id) then JoinsQueue(d.queue, oc, r.queue)
                 else r.queue == d.queue
  {
    hide Heap.Enqueue, JoinsQueue;
    EnqueueJoins(d.queue, oc);
  }

  // --- Dispatch -------------------------------------------------------------------------------

  /**
   * tentarDespachar on a queue with a head. An attended head is dropped. Without a drone nothing happens. A command
   * that was written takes the head off, sets its flag, and is announced with the drone's new record. One that was
   * not written leaves the same ids queued and the flag clear, though the drone stays recorded as dispatched.
   */
  lemma DispatchExactly(d: Desk, alvo: Option<string>, enviado: bool, agora: int)
    requires d.queue != [] && ChoiceOk(d, alvo)
    ensures var o, oc := TryDispatch(d, alvo, enviado, agora), d.queue[0].oc.id;
            var r := o.desk;
            && r.ocorrencias == d.ocorrencias && r.locais == d.locais && o.publicas == {}
            && if Atendida(d, oc) then
                 r == d.(queue := r.queue) && WithoutHead(d.queue, r.queue) && o.sent == {}
               else if alvo.None? then r == d && o.sent == {}
               else
                 var x := alvo.value;
                 && r.drones.Keys == d.drones.Keys
                 && (forall y :: y in d.drones && y != x ==> r.drones[y] == d.drones[y])
                 && r.drones[x] == InfoDrone(d.drones[x].droneId, d.drones[x].brokerId, Despachado, oc, agora)
                 && FlagOnly(d, r, oc, enviado)
                 && if enviado then
                      && WithoutHead(d.queue, r.queue)
                      && o.sent == {Comando(x, oc), DroneDespachado(oc, x, r.drones[x])}
                    else o.sent == {} && forall id :: Queued(r.queue, id) <==> Queued(d.queue, id)
  {
    hide Heap.Enqueue, Heap.Dequeue, Heap.RemoveId, JoinsQueue, Queued;
    RemoveIsWithoutHead(d.queue);
    var less, oc := Heap.Dequeue(d.queue), d.queue[0].oc;
    EnqueueJoins(less, oc);
    forall id ensures Queued(Heap.Enqueue(less, oc), id) <==> Queued(d.queue, id) {
      BackInQueue(d.queue, less, Heap.Enqueue(less, oc), id);
    }
  }

  /** Only a local drone recorded as available is picked, and then it is available no more. */
  lemma PicksAvailable(d: Desk, x: string, enviado: bool, agora: int)
    requires d.queue != [] && !Atendida(d, d.queue[0].oc.id) && ChoiceOk(d, Some(x))
    ensures x in d.locais && x in d.drones && d.drones[x].estado == Disponivel
    ensures forall alvo :: ChoiceOk(TryDispatch(d, Some(x), enviado, agora).desk, alvo) ==> alvo != Some(x)
  {
    hide Heap.Enqueue, Heap.Dequeue, Heap.RemoveId;
  }

  /** Another broker's dispatch takes the occurrence out of the queue, sets its flag and gives the drone's record. */
  lemma DispatchIsNoted(d: Desk, oc: string, x: string, info: InfoDrone)
    ensures var r := OnDispatched(d, oc, x, info);
            && r.ocorrencias == d.ocorrencias && r.locais == d.locais && r.drones == d.drones[x := info]
            && FlagOnly(d, r, oc, true)
            && (forall id :: id != oc ==> (Queued(r.queue, id) <==> Queued(d.queue, id)))
            && (Heap.GoodQueue(d.queue) ==> !Queued(r.queue, oc))
  {
    hide Heap.RemoveId, Heap.GoodQueue, Queued;
    forall id ensures id != oc ==> (Queued(Heap.RemoveId(d.queue, oc), id) <==> Queued(d.queue, id)) {
      RemovedIds(d.queue, oc, id);
    }
    RemovedIds(d.queue, oc, oc);
  }

  // --- Drone records ----------------------------------------------------------------------------

  /** A record received replaces only an older one, or fills a gap. */
  lemma NewestWins(d: Desk, info: InfoDrone)
    ensures var r, x := OnSync(d, info), info.droneId;
            && r == d.(drones := r.drones) && x in r.drones && r.drones[x].ultimaVez >= info.ultimaVez
            && (forall y :: y != x ==> (y in r.drones <==> y in d.drones))
            && (forall y :: y != x && y in d.drones ==> r.drones[y] == d.drones[y])
            && (x in d.drones ==> r.drones[x].ultimaVez >= d.drones[x].ultimaVez)
            && r.drones[x] == if x in d.drones && d.drones[x].ultimaVez >= info.ultimaVez then d.drones[x] else info
  {
  }

  /** So records may arrive in any order and repeatedly, but for two of one drone with one time. */
  lemma SyncsCommute(d: Desk, i: InfoDrone, j: InfoDrone)
    requires i.droneId != j.droneId || i.ultimaVez != j.ultimaVez || i == j
    ensures OnSync(OnSync(d, i), j) == OnSync(OnSync(d, j), i)
    ensures OnSync(OnSync(d, i), i) == OnSync(d, i)
  {
    if i.droneId != j.droneId {
      assert d.drones[i.droneId := i][j.droneId := j] == d.drones[j.droneId := j][i.droneId := i];
    } else {
      assert d.drones[i.droneId := i][i.droneId := j] == d.drones[i.droneId := j];
      assert d.drones[i.droneId := j][i.droneId := i] == d.drones[i.droneId := i];
    }
  }

  /** A broker that connects is sent exactly the known records. */
  lemma AllRecordsExactly(d: Desk, m: Msg)
    ensures m in AllRecords(d).sent <==> exists x :: x in d.drones && m == SincDrone(d.drones[x])
  {
  }

  /**
   * A state report of a known drone is recorded with its time and passed on. The record names an occurrence until
   * the drone is available; that it is then available, having named one, ends the mission for everybody.
   */
  lemma ReportExactly(d: Desk, x: string, estado: EstadoDrone, oc: string, agora: int)
    ensures var o := DroneReport(d, x, estado, oc, agora);
            if x !in d.drones then o == DeskOut(d, {}, {})
            else
              && x in o.desk.drones
              && var before, info := d.drones[x], o.desk.drones[x];
                 && info == before.(estado := estado, ultimaVez := agora, ocorrenciaId := info.ocorrenciaId)
                 && (estado == Disponivel ==> info.ocorrenciaId == "")
                 && (estado == Retornando || estado == Abatido || (oc == "" && estado != Disponivel) ==>
                       info.ocorrenciaId == before.ocorrenciaId)
                 && ((estado == Despachado || estado == EmMissao) && oc != "" ==> info.ocorrenciaId == oc)
                 && (forall m :: m in o.sent <==>
                       m == SincDrone(info) || (m == MissaoConcluida(oc) && estado == Disponivel && oc != ""))
                 && o.desk.drones == d.drones[x := info]
                 && (estado != Abatido ==> o.desk == d.(drones := d.drones[x := info]))
  {
    hide Heap.Enqueue;
  }

  /** A keepalive touches only the time of a known drone's record, which is passed on. */
  lemma KeepaliveExactly(d: Desk, x: string, agora: int)
    ensures var o := DroneKeepalive(d, x, agora);
            if x !in d.drones then o == DeskOut(d, {}, {})
            else
              var info := d.drones[x];
              var alive := InfoDrone(info.droneId, info.brokerId, info.estado, info.ocorrenciaId, agora);
              o == DeskOut(d.(drones := d.drones[x := alive]), {SincDrone(alive)}, {})
  {
  }

  /** A drone that registers is this broker's and may be picked if it is available; one that left may not. */
  lemma JoinsAndLeaves(d: Desk, id: string, info: InfoDrone, agora: int)
    ensures var o := DroneJoin(d, id, info);
            && (Available(o.desk, info.droneId) <==> info.estado == Disponivel)
            && o.sent == {SincDrone(info.(brokerId := id))} && o.desk.drones[info.droneId] == info.(brokerId := id)
            && forall y :: y != info.droneId ==> (Available(o.desk, y) <==> Available(d, y))
    ensures var o := DroneLeave(d, info.droneId, agora);
            && !Available(o.desk, info.droneId)
            && (forall y :: y != info.droneId ==> (Available(o.desk, y) <==> Available(d, y)))
            && (DronePerdido(info.droneId) in o.sent <==> info.droneId in d.locais && info.droneId in d.drones)
  {
    hide Heap.Enqueue;
  }

  // --- Mission logs --------------------------------------------------------------------------

  /**
   * The end of an escort of a known occurrence with a vessel is logged, and only that. The log names occurrence and
   * vessel, is signed with the broker's key, and the mempool takes it unless it holds or the chain has it already.
   */
  lemma LogsExactly(d: Desk, id: string, x: string, estado: EstadoDrone, oc: string, r: Registro, c: Chain)
    ensures var log := Laudo(d, id, x, estado, oc, r);
            && (log.Some? <==> x in d.drones && estado == Disponivel && oc != "" && oc in d.ocorrencias
                               && d.ocorrencias[oc].vesselId != "")
            && (log.Some? ==>
                  var t := log.value;
                  && t.kind == MissionLog && t.occurrenceId == oc && t.vesselId == d.ocorrencias[oc].vesselId
                  && t.payload == r.laudo && t.from == GetAddress(KeyOf(id)) && t.publicKey == KeyOf(id)
                  && t.timestamp == r.quando && t.amount == 0
                  && t.signature == Sign(id, HashTx(t), r.nonce) && t.id == HashTx(t)
                  && (Admit(c, t) != c <==> forall u :: u in c.mempool + AllTxs(c.blocks) ==> u.id != HashTx(t)))
  {
    hide Admit, TxContent, AllTxs;
    var log := Laudo(d, id, x, estado, oc, r);
    if log.Some? {
      LogIsSigned(id, d.ocorrencias[oc].(id := oc), r);
      Admission.AdmitsExactly(c, log.value);
      assert |c.mempool + [log.value.(id := HashTx(log.value))]| != |c.mempool|;
    }
  }

  lemma LogIsSigned(id: string, oc: Ocorrencia, r: Registro)
    ensures var t := MissionLogTx(id, oc, r);
            && t.id == HashTx(t) && t.signature == Sign(id, HashTx(t), r.nonce) && Admission.Authorised(t)
            && t.kind == MissionLog && t.occurrenceId == oc.id && t.vesselId == oc.vesselId && t.payload == r.laudo
            && t.from == GetAddress(KeyOf(id)) && t.publicKey == KeyOf(id) && t.amount == 0
            && t.timestamp == r.quando
  {
  }
}
