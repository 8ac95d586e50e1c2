/** No paid escort is forgotten: in every run it is queued, or dispatched and not reopened since. */
module Pending {
  import opened Models
  import opened Hashing
  import opened Ledger
  import opened Votes
  import opened Protocol
  import opened Desks
  import Heap
  import Missions
  import Origins
  import Runs

  // --- What one desk keeps -----------------------------------------------------------------

  ghost predicate Waits(d: Desk, id: string) {
    id in d.ocorrencias && d.ocorrencias[id].status == Pago ==> Queued(d.queue, id) || Atendida(d, id)
  }

  ghost predicate NoneForgotten(d: Desk) {
    KeysOk(d) && forall id :: Waits(d, id)
  }

  lemma PayBlockForgetsNone(d: Desk, txs: seq<Transaction>)
    requires NoneForgotten(d)
    ensures NoneForgotten(PayBlock(d, txs))
  {
    hide PayBlock, KeysOk, Queued, Pays;
    var r := PayBlock(d, txs);
    PaysExactly(d, txs);
    forall id ensures Waits(r, id) {
      assert Waits(d, id) && PaidAsDue(d, txs, r, id);
    }
  }

  lemma LossForgetsNone(d: Desk, info: InfoDrone)
    requires NoneForgotten(d)
    ensures NoneForgotten(LoseDrone(d, info))
  {
    hide LoseDrone, Queued, JoinsQueue;
    var r, oc := LoseDrone(d, info), info.ocorrenciaId;
    LossReopens(d, info);
    forall id ensures Waits(r, id) {
      assert Waits(d, id);
      if oc != "" && oc in d.ocorrencias {
        JoinedIds(d.queue, d.ocorrencias[oc], r.queue, id);
      }
    }
  }

  lemma DroneEventsForgetNone(d: Desk, x: string, estado: EstadoDrone, said: string, agora: int)
    requires NoneForgotten(d)
    ensures NoneForgotten(OnLost(d, x, agora)) && NoneForgotten(DroneLeave(d, x, agora).desk)
    ensures NoneForgotten(DroneReport(d, x, estado, said, agora).desk)
  {
    hide LoseDrone, Queued;
    if x in d.drones {
      var lost, info := d.drones[x].(estado := Abatido, ultimaVez := agora), Reported(d.drones[x], estado, said, agora);
      SameCase(d, d.(drones := d.drones[x := lost]));
      SameCase(d, d.(drones := d.drones[x := lost], locais := d.locais - {x}));
      SameCase(d, d.(drones := d.drones[x := info]));
      LossForgetsNone(d.(drones := d.drones[x := lost]), lost);
      LossForgetsNone(d.(drones := d.drones[x := lost], locais := d.locais - {x}), lost);
      LossForgetsNone(d.(drones := d.drones[x := info]), info);
    }
    SameCase(d, d.(locais := d.locais - {x}));
  }

  /** Drone records and connections play no part. */
  lemma SameCase(d: Desk, r: Desk)
    requires NoneForgotten(d) && r.queue == d.queue && r.atendidos == d.atendidos && r.ocorrencias == d.ocorrencias
    ensures NoneForgotten(r)
  {
    hide Queued;
    forall id ensures Waits(r, id) {
      assert Waits(d, id);
    }
  }

  lemma RecordsForgetNone(d: Desk, b: string, x: string, info: InfoDrone, agora: int)
    requires NoneForgotten(d)
    ensures NoneForgotten(OnSync(d, info)) && NoneForgotten(DroneJoin(d, b, info).desk)
    ensures NoneForgotten(DroneKeepalive(d, x, agora).desk) && NoneForgotten(AllRecords(d).desk)
  {
    hide NoneForgotten;
    SameCase(d, OnSync(d, info));
    SameCase(d, DroneJoin(d, b, info).desk);
    SameCase(d, DroneKeepalive(d, x, agora).desk);
    SameCase(d, AllRecords(d).desk);
  }

  lemma ReadForgetsNone(d: Desk, b: string, vessels: map<string, string>, l: Leitura, r: bool, lamport: int)
    requires NoneForgotten(d)
    ensures NoneForgotten(Read(d, b, vessels, l, r, lamport).desk)
  {
    hide Read, Queued, JoinsQueue;
    var o := Read(d, b, vessels, l, r, lamport);
    OpensAsRead(d, b, vessels, l, r, lamport);
    forall id ensures Waits(o.desk, id) {
      assert Waits(d, id);
      if o.publicas != {} {
        var oc := o.desk.ocorrencias[NewOccurrence(b, l, lamport).id];
        JoinedIds(d.queue, oc, o.desk.queue, id);
      }
    }
  }

  lemma RequestForgetsNone(d: Desk, oc: Ocorrencia)
    requires NoneForgotten(d) && oc.status != Pago
    ensures NoneForgotten(OnRequest(d, oc))
  {
    hide OnRequest, Queued, JoinsQueue;
    var r := OnRequest(d, oc);
    RequestIsRecorded(d, oc);
    forall id ensures Waits(r, id) {
      assert Waits(d, id);
      if r.queue != d.queue {
        JoinedIds(d.queue, oc, r.queue, id);
      }
    }
  }

  lemma DispatchForgetsNone(d: Desk, alvo: Option<string>, enviado: bool, agora: int)
    requires NoneForgotten(d) && ChoiceOk(d, alvo)
    ensures NoneForgotten(TryDispatch(d, alvo, enviado, agora).desk)
  {
    hide Queued, WithoutHead, ChoiceOk;
    if d.queue != [] {
      var r := TryDispatch(d, alvo, enviado, agora).desk;
      DispatchExactly(d, alvo, enviado, agora);
      hide TryDispatch;
      HeadQueued(d.queue);
      forall id ensures Waits(r, id) {
        assert Waits(d, id);
        if WithoutHead(d.queue, r.queue) {
          OneLess(d.queue, r.queue, id);
        }
      }
    }
  }

  lemma HeadQueued(q: seq<Heap.Entry>)
    requires q != []
    ensures Queued(q, q[0].oc.id)
  {
    assert q[0] in q;
  }

  lemma OneLess(q: seq<Heap.Entry>, r: seq<Heap.Entry>, id: string)
    requires q != [] && WithoutHead(q, r)
    ensures Queued(q, id) <==> Queued(r, id) || id == q[0].oc.id
  {
    PlusOneIds(r, q[0], q, id);
  }

  lemma NoticeForgetsNone(d: Desk, oc: string, x: string, info: InfoDrone)
    requires NoneForgotten(d)
    ensures NoneForgotten(OnDispatched(d, oc, x, info)) && NoneForgotten(OnDone(d, oc))
  {
    hide Heap.RemoveId, Queued, Heap.GoodQueue;
    DispatchIsNoted(d, oc, x, info);
    forall id ensures Waits(OnDispatched(d, oc, x, info), id) && Waits(OnDone(d, oc), id) {
      assert Waits(d, id);
    }
  }

  lemma AgedIds(q: seq<Heap.Entry>, now: int, id: string)
    ensures Queued(Heap.Age(q, now), id) <==> Queued(q, id)
  {
    hide Heap.InitFrom, Heap.Aged;
    var a, r := Heap.AgedAll(q, now), Heap.Age(q, now);
    Heap.InitFromContents(a, |a| / 2);
    assert multiset(r) == multiset(a);
    AgedSameIds(q, now);
    forall e: Heap.Entry ensures e in r <==> e in a {
      assert e in r <==> e in multiset(r);
      assert e in a <==> e in multiset(a);
    }
    if Queued(q, id) {
      var i :| 0 <= i < |q| && q[i].oc.id == id;
      assert a[i] in a && a[i].oc.id == id;
    }
    if Queued(r, id) {
      var e :| e in r && e.oc.id == id;
      var i :| 0 <= i < |a| && a[i] == e;
      assert q[i] in q;
    }
  }

  lemma AgedSameIds(q: seq<Heap.Entry>, now: int)
    ensures forall i :: 0 <= i < |q| ==> Heap.AgedAll(q, now)[i].oc == q[i].oc
  {
  }

  lemma AgeForgetsNone(d: Desk, agora: int)
    requires NoneForgotten(d)
    ensures NoneForgotten(d.(queue := Heap.Age(d.queue, agora)))
  {
    hide Heap.Age, Queued;
    forall id ensures Waits(d.(queue := Heap.Age(d.queue, agora)), id) {
      assert Waits(d, id);
      AgedIds(d.queue, agora, id);
    }
  }

  // --- Requests are unpaid ---------------------------------------------------------------------

  /** A new request is that of a reading, whose occurrence nobody has paid for. */
  lemma NewRequest(s: Sys, e: Event, oc: Ocorrencia)
    requires Brokers(s) && RequisicaoDrone(oc) in Do(s, e).net && RequisicaoDrone(oc) !in s.net
    ensures e.Reading? && oc.status != Pago
  {
    hide Read, StateOf;
    Origins.MessageOrigin(s, e);
    var b := e.b;
    OpensAsRead(s.desks[b], b, StateOf(s.nodes[b].ledger.blocks).vessels, e.leitura, e.responsavel, e.lamport);
  }

  lemma {:induction false} RequestsUnpaid(states: seq<Sys>, es: seq<Event>, k: nat, oc: Ocorrencia)
    requires History(states, es) && k < |states| && RequisicaoDrone(oc) in states[k].net
    ensures oc.status != Pago
  {
    hide Do, Brokers, Initial;
    if k == 0 {
      NothingRequested();
    } else {
      assert StepAt(states, es, k - 1);
      if RequisicaoDrone(oc) in states[k - 1].net {
        RequestsUnpaid(states, es, k - 1, oc);
      } else {
        NewRequest(states[k - 1], es[k - 1], oc);
      }
    }
  }

  lemma NothingRequested()
    ensures Initial().net == {}
  {
  }

  // --- All events --------------------------------------------------------------------------------

  lemma NodeStepForgetsNone(s: Sys, b: string, o: NodeOut)
    requires Brokers(s) && b in VALIDATORS && o.node.ledger.blocks != [] && o.node.saved.blocks != []
    requires NoneForgotten(s.desks[b])
    ensures NoneForgotten(WithNode(s, b, o).desks[b])
  {
    hide NoneForgotten, PayBlock;
    if o.committed.Some? {
      PayBlockForgetsNone(s.desks[b], o.committed.value.transactions);
    }
  }

  lemma ReceiptForgetsNone(s: Sys, b: string, m: Msg, nonce: int, agora: int)
    requires Brokers(s) && b in VALIDATORS && NoneForgotten(s.desks[b])
    requires m.RequisicaoDrone? ==> m.oc.status != Pago
    ensures NoneForgotten(Receive(s, b, m, nonce, agora).desks[b])
  {
    hide NoneForgotten, OnNodeMsg, PaidOut, OnRequest, OnDispatched, OnLost, OnSync, OnDone;
    var d := s.desks[b];
    if ForNode(m) {
      NodeStepForgetsNone(s, b, OnNodeMsg(s.nodes[b], b, m, nonce));
    } else {
      match m
      case RequisicaoDrone(oc) => RequestForgetsNone(d, oc);
      case DroneDespachado(oc, x, info) => NoticeForgetsNone(d, oc, x, info);
      case SincDrone(info) => RecordsForgetNone(d, b, "", info, 0);
      case DronePerdido(x) => DroneEventsForgetNone(d, x, Abatido, "", agora);
      case MissaoConcluida(oc) => NoticeForgetsNone(d, oc, "", Origins.NO_DRONE);
      case _ =>
    }
  }

  lemma StepForgetsNone(s: Sys, e: Event, b: string)
    requires Brokers(s) && b in VALIDATORS && NoneForgotten(s.desks[b])
    requires forall oc :: RequisicaoDrone(oc) in s.net ==> oc.status != Pago
    ensures NoneForgotten(Do(s, e).desks[b])
  {
    hide NoneForgotten, Receive, Propose, Read, TryDispatch, DroneReport, DroneJoin, DroneLeave, DroneKeepalive;
    hide AllRecords, PublishLaudo, Laudo, Admit, PaidOut, Heap.Age, Commanded, ChoiceOk;
    if e.b != b {
      Missions.OtherDeskStays(s, e, b);
    } else {
      var n, d := s.nodes[b], s.desks[b];
      match e
      case Tick(_, now, nonce) => NodeStepForgetsNone(s, b, Propose(n, b, now, nonce));
      case Deliver(_, m, nonce, agora) =>
        if m in s.net {
          ReceiptForgetsNone(s, b, m, nonce, agora);
        }
      case Submit(_, tx) =>
        Runs.AdmitKeepsBlocks(n.ledger, tx);
        NodeStepForgetsNone(s, b, Quiet(n.(ledger := Admit(n.ledger, tx))));
      case Reading(_, l, r, lamport) => ReadForgetsNone(d, b, StateOf(n.ledger.blocks).vessels, l, r, lamport);
      case Dispatch(_, alvo, enviado, agora) =>
        if ChoiceOk(d, alvo) {
          DispatchForgetsNone(d, alvo, enviado, agora);
        }
      case DroneSays(_, x, estado, said, agora, r) => DroneEventsForgetNone(d, x, estado, said, agora);
      case DroneAlive(_, x, agora) => RecordsForgetNone(d, b, x, Origins.NO_DRONE, agora);
      case SendRecords(_) => RecordsForgetNone(d, b, "", Origins.NO_DRONE, 0);
      case DroneJoins(_, info) => RecordsForgetNone(d, b, "", info, 0);
      case DroneLeaves(_, x, agora) => DroneEventsForgetNone(d, x, Abatido, "", agora);
      case Age(_, agora) => AgeForgetsNone(d, agora);
      case Restart(_) => EmptyForgetsNone();
      case _ =>
    }
  }

  lemma EmptyForgetsNone()
    ensures NoneForgotten(EMPTY_DESK)
  {
  }

  lemma {:induction false} NoneForgottenAlong(states: seq<Sys>, es: seq<Event>, k: nat, b: string)
    requires History(states, es) && k < |states| && b in VALIDATORS
    ensures Brokers(states[k]) && NoneForgotten(states[k].desks[b])
  {
    hide NoneForgotten, Do, Brokers;
    if k == 0 {
      EmptyForgetsNone();
    } else {
      NoneForgottenAlong(states, es, k - 1, b);
      assert StepAt(states, es, k - 1);
      forall oc | RequisicaoDrone(oc) in states[k - 1].net ensures oc.status != Pago {
        RequestsUnpaid(states, es, k - 1, oc);
      }
      StepForgetsNone(states[k - 1], es[k - 1], b);
    }
  }

  // --- Who set a flag ------------------------------------------------------------------------------

  /** In state s the event makes broker b take the occurrence for attended: its own dispatch or another's notice. */
  ghost predicate Attends(s: Sys, e: Event, b: string, oc: string) {
    || Missions.Dispatches(s, e, b, oc)
    || (e.Deliver? && e.b == b && e.m in s.net && e.m.DroneDespachado? && e.m.ocorrenciaId == oc)
  }

  predicate Sets(d: Desk, r: Desk, oc: string) {
    !Atendida(d, oc) && Atendida(r, oc)
  }

  lemma PaymentsSetNone(d: Desk, txs: seq<Transaction>, oc: string)
    requires KeysOk(d)
    ensures !Sets(d, PayBlock(d, txs), oc)
  {
    hide PayBlock, Queued;
    PaysExactly(d, txs);
    assert PaidAsDue(d, txs, PayBlock(d, txs), oc);
  }

  lemma LossesSetNone(d: Desk, x: string, estado: EstadoDrone, said: string, agora: int, oc: string)
    ensures !Sets(d, OnLost(d, x, agora), oc) && !Sets(d, DroneLeave(d, x, agora).desk, oc)
    ensures !Sets(d, DroneReport(d, x, estado, said, agora).desk, oc)
  {
    hide Heap.Enqueue;
  }

  lemma OthersSetNone(d: Desk, request: Ocorrencia, gone: string, x: string, info: InfoDrone, b: string, agora: int,
                      oc: string)
    ensures !Sets(d, OnRequest(d, request), oc) && !Sets(d, OnSync(d, info), oc) && !Sets(d, OnDone(d, gone), oc)
    ensures !Sets(d, DroneJoin(d, b, info).desk, oc) && !Sets(d, DroneKeepalive(d, x, agora).desk, oc)
    ensures !Sets(d, AllRecords(d).desk, oc)
  {
    hide Heap.Enqueue;
  }

  lemma ReadingsSetNone(d: Desk, b: string, vessels: map<string, string>, l: Leitura, r: bool, lamport: int, oc: string)
    ensures !Sets(d, Read(d, b, vessels, l, r, lamport).desk, oc)
  {
    hide Heap.Enqueue, NewOccurrence;
  }

  lemma ReceiptSets(s: Sys, b: string, m: Msg, nonce: int, agora: int, oc: string)
    requires Brokers(s) && b in VALIDATORS && KeysOk(s.desks[b])
    requires Sets(s.desks[b], Receive(s, b, m, nonce, agora).desks[b], oc)
    ensures m.DroneDespachado? && m.ocorrenciaId == oc
  {
    hide Sets, OnNodeMsg, PayBlock, KeysOk, OnRequest, OnLost, OnSync, OnDone, OnDispatched;
    var d := s.desks[b];
    SameSetsNone(d, oc);
    if ForNode(m) {
      var o := OnNodeMsg(s.nodes[b], b, m, nonce);
      if o.committed.Some? {
        PaymentsSetNone(d, o.committed.value.transactions, oc);
      }
    } else {
      LossesSetNone(d, if m.DronePerdido? then m.droneId else "", Abatido, "", agora, oc);
      match m
      case RequisicaoDrone(r) => OthersSetNone(d, r, "", "", Origins.NO_DRONE, b, 0, oc);
      case SincDrone(info) => OthersSetNone(d, Missions.ANY_OC, "", "", info, b, 0, oc);
      case MissaoConcluida(gone) =>
        OthersSetNone(d, Missions.ANY_OC, gone, "", Origins.NO_DRONE, b, 0, oc);
      case DroneDespachado(gone, x, info) => NoticeSets(d, gone, x, info, oc);
      case _ =>
    }
  }

  lemma NoticeSets(d: Desk, gone: string, x: string, info: InfoDrone, oc: string)
    requires Sets(d, OnDispatched(d, gone, x, info), oc)
    ensures gone == oc
  {
    hide Heap.RemoveId;
  }

  lemma SameSetsNone(d: Desk, oc: string)
    ensures !Sets(d, d, oc) && !Sets(d, EMPTY_DESK, oc)
    ensures forall q :: !Sets(d, d.(queue := q), oc)
  {
  }

  lemma DispatchSets(s: Sys, b: string, alvo: Option<string>, enviado: bool, agora: int, oc: string)
    requires Brokers(s) && b in VALIDATORS && ChoiceOk(s.desks[b], alvo)
    requires Sets(s.desks[b], TryDispatch(s.desks[b], alvo, enviado, agora).desk, oc)
    ensures Missions.Dispatches(s, Dispatch(b, alvo, enviado, agora), b, oc)
  {
    hide ChoiceOk, Queued, WithoutHead;
    var d := s.desks[b];
    if d.queue != [] {
      DispatchExactly(d, alvo, enviado, agora);
    }
  }

  /** A step that sets the flag of an occurrence at b is b's dispatch of it or the notice of another's. */
  lemma SettingAttends(s: Sys, e: Event, b: string, oc: string)
    requires Brokers(s) && b in VALIDATORS && KeysOk(s.desks[b]) && Sets(s.desks[b], Do(s, e).desks[b], oc)
    ensures Attends(s, e, b, oc)
  {
    hide Sets, Receive, Propose, Read, TryDispatch, DroneReport, DroneJoin, DroneLeave, DroneKeepalive, AllRecords;
    hide PublishLaudo, Laudo, Admit, PayBlock, Heap.Age, Commanded, ChoiceOk, KeysOk, Missions.Dispatches;
    SameSetsNone(s.desks[b], oc);
    if e.b != b {
      Missions.OtherDeskStays(s, e, b);
    } else {
      var n, d := s.nodes[b], s.desks[b];
      match e
      case Tick(_, now, nonce) => Origins.NodeSends(n, b, SincDrone(Origins.NO_DRONE), now, nonce);
      case Deliver(_, m, nonce, agora) =>
        if m in s.net {
          ReceiptSets(s, b, m, nonce, agora, oc);
        }
      case Dispatch(_, alvo, enviado, agora) =>
        if ChoiceOk(d, alvo) {
          DispatchSets(s, b, alvo, enviado, agora, oc);
        }
      case Reading(_, l, r, lamport) =>
        ReadingsSetNone(d, b, StateOf(n.ledger.blocks).vessels, l, r, lamport, oc);
      case DroneSays(_, x, estado, said, agora, r) =>
        LossesSetNone(d, x, estado, said, agora, oc);
        Runs.AdmitKeepsVotes(n, Laudo(d, b, x, estado, said, r));
      case DroneAlive(_, x, agora) =>
        OthersSetNone(d, Missions.ANY_OC, "", x, Origins.NO_DRONE, b, agora, oc);
      case SendRecords(_) =>
        OthersSetNone(d, Missions.ANY_OC, "", "", Origins.NO_DRONE, b, 0, oc);
      case DroneJoins(_, info) =>
        OthersSetNone(d, Missions.ANY_OC, "", "", info, b, 0, oc);
      case DroneLeaves(_, x, agora) => LossesSetNone(d, x, Abatido, "", agora, oc);
      case _ =>
    }
  }

  // --- Theorems over runs -----------------------------------------------------------------------------

  /** Whoever is taken for attended was dispatched, here or by a notice, and has stayed so since. */
  lemma {:induction false} AttendedSince(states: seq<Sys>, es: seq<Event>, k: nat, b: string, oc: string)
    returns (j: nat)
    requires History(states, es) && k < |states| && b in VALIDATORS && Atendida(DeskIn(states[k], b), oc)
    ensures j < k && Attends(states[j], es[j], b, oc)
    ensures forall m :: j < m <= k ==> Atendida(DeskIn(states[m], b), oc)
  {
    hide Do, Attends, Atendida, Initial, NoneForgotten, KeysOk;
    NoneForgottenAlong(states, es, k, b);
    if k == 0 {
      NobodyAttended(b, oc);
    } else {
      NoneForgottenAlong(states, es, k - 1, b);
      KeysOf(states[k - 1].desks[b]);
      assert StepAt(states, es, k - 1);
      if Atendida(DeskIn(states[k - 1], b), oc) {
        j := AttendedSince(states, es, k - 1, b, oc);
      } else {
        j := k - 1;
        SettingAttends(states[j], es[j], b, oc);
      }
    }
  }

  lemma KeysOf(d: Desk)
    requires NoneForgotten(d)
    ensures KeysOk(d)
  {
  }

  lemma NobodyAttended(b: string, oc: string)
    ensures !Atendida(DeskIn(Initial(), b), oc)
  {
  }

  /**
   * In every run an occurrence that a broker knows as paid is in its queue, or some earlier moment dispatched it,
   * by the broker itself or by another that told it, and nothing has reopened it at this broker since.
   */
  lemma PaidIsNeverForgotten(states: seq<Sys>, es: seq<Event>, k: nat, b: string, id: string)
    requires History(states, es) && k < |states| && b in VALIDATORS
    requires id in DeskIn(states[k], b).ocorrencias && DeskIn(states[k], b).ocorrencias[id].status == Pago
    ensures Queued(DeskIn(states[k], b).queue, id) || exists j :: DispatchedSince(states, es, j, k, b, id)
  {
    hide History, Attends, Atendida, Queued;
    NoneForgottenAlong(states, es, k, b);
    assert Waits(states[k].desks[b], id);
    if !Queued(DeskIn(states[k], b).queue, id) {
      var j := AttendedSince(states, es, k, b, id);
      HistoryLength(states, es);
      assert DispatchedSince(states, es, j, k, b, id);
    }
  }

  ghost predicate DispatchedSince(states: seq<Sys>, es: seq<Event>, j: int, k: nat, b: string, id: string) {
    && 0 <= j < k < |states| && j < |es| && Attends(states[j], es[j], b, id)
    && forall m :: j < m <= k ==> Atendida(DeskIn(states[m], b), id)
  }
}
