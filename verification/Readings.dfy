/** Who opens an occurrence for a sensor reading: the failover decision put in front of processarLeitura. */
module Readings {
  import opened Models
  import opened Protocol
  import Failover

  /** Readings that processarLeitura does not discard. */
  predicate Relevant(l: Leitura) {
    l.vesselId != "" && (l.criticidade >= CRITICIDADE_ALTA || l.criticidade == CRITICIDADE_BAIXA)
  }

  /** A broker opens an occurrence exactly for a relevant reading of a sector that it answers for. */
  lemma OpensExactly(d: Desk, id: string, vessels: map<string, string>, l: Leitura, responsavel: bool, lamport: int)
    ensures Read(d, id, vessels, l, responsavel, lamport).sent != {} <==> responsavel && Relevant(l)
  {
    hide Enfileirar;
  }

  /**
   * Under accurate views exactly one live broker opens an occurrence for a relevant reading, whatever the
   * desks, registers and clocks of the brokers hold, and none does for any other reading.
   */
  lemma OneReaderOpens(views: map<string, Failover.View>, sectors: map<string, string>, live: set<string>,
                       owner: string, l: Leitura) returns (heir: string)
    requires live != {} && live <= sectors.Keys && Failover.DistinctSectors(sectors)
    requires owner in sectors && owner != "" && l.setorId == sectors[owner]
    requires forall b :: b in live ==> b in views && Failover.Accurate(views[b], b, sectors, live)
    ensures heir in live
    ensures forall b, d, vessels, lamport :: b in live ==>
              (Read(d, b, vessels, l, Failover.Responsible(views[b], l.setorId), lamport).sent != {}
               <==> b == heir && Relevant(l))
  {
    hide Read, Failover.Responsible, Failover.Accurate, Relevant;
    heir := Failover.UniqueHeir(views, sectors, live, owner);
    forall b, d, vessels, lamport | b in live
      ensures Read(d, b, vessels, l, Failover.Responsible(views[b], l.setorId), lamport).sent != {}
              <==> b == heir && Relevant(l)
    {
      OpensExactly(d, b, vessels, l, Failover.Responsible(views[b], l.setorId), lamport);
    }
  }
}
