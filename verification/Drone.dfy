/** drone_main.go: missions as goroutines whose locked sections interleave with commands. */
module Drone {
  import opened Models

  /** Where a mission goroutine sleeps between its locked sections. */
  datatype Fase = Deslocando | NaMissao | Voltando

  datatype Missao = Missao(ocorrenciaId: string, fase: Fase)

  datatype DroneState = DroneState(estado: EstadoDrone, ocorrenciaId: string, ocupado: bool, missoes: seq<Missao>)

  /** A command from the broker, or the wake-up of the i-th mission goroutine. */
  datatype Passo = Despachar(ocorrenciaId: string) | Abortar | Acordar(i: nat, abatido: bool)

  function Start(): DroneState {
    DroneState(Disponivel, "", false, [])
  }

  function Drop(ms: seq<Missao>, i: nat): seq<Missao>
    requires i < |ms|
  {
    ms[..i] + ms[i + 1..]
  }

  function Wake(s: DroneState, i: nat, abatido: bool): DroneState
    requires i < |s.missoes|
  {
    match s.missoes[i].fase
    case Deslocando =>
      if s.estado != Despachado then s.(missoes := Drop(s.missoes, i))
      else if abatido then s.(estado := Abatido, ocupado := false, missoes := [])
      else s.(estado := EmMissao, missoes := s.missoes[i := s.missoes[i].(fase := NaMissao)])
    case NaMissao =>
      if s.estado != EmMissao then s.(missoes := Drop(s.missoes, i))
      else s.(estado := Retornando, missoes := s.missoes[i := s.missoes[i].(fase := Voltando)])
    case Voltando =>
      s.(estado := Disponivel, ocorrenciaId := "", ocupado := false, missoes := Drop(s.missoes, i))
  }

  function Step(s: DroneState, p: Passo): DroneState {
    match p
    case Despachar(oc) =>
      if s.estado != Disponivel then s
      else DroneState(Despachado, oc, true, s.missoes + [Missao(oc, Deslocando)])
    case Abortar =>
      if s.estado == EmMissao || s.estado == Despachado then s.(estado := Retornando) else s
    case Acordar(i, abatido) =>
      if i < |s.missoes| then Wake(s, i, abatido) else s
  }

  function Run(s: DroneState, ps: seq<Passo>): DroneState {
    if ps == [] then s else Step(Run(s, ps[..|ps| - 1]), ps[|ps| - 1])
  }

  /** The drone process with its locked sections as methods. */
  class Processo {
    var estado: EstadoDrone
    var ocorrenciaId: string
    var ocupado: bool
    var missoes: seq<Missao>

    ghost function View(): DroneState
      reads this
    {
      DroneState(estado, ocorrenciaId, ocupado, missoes)
    }

    constructor ()
      ensures View() == Start()
    {
      estado, ocorrenciaId, ocupado, missoes := Disponivel, "", false, [];
    }

    /** iniciarMissao up to its first sleep. */
    method IniciarMissao(oc: string) returns (aceita: bool)
      modifies this
      ensures View() == Step(old(View()), Despachar(oc))
      ensures aceita <==> old(estado) == Disponivel
    {
      if estado != Disponivel {
        return false;
      }
      estado := Despachado;
      ocorrenciaId := oc;
      ocupado := true;
      missoes := missoes + [Missao(oc, Deslocando)];
      return true;
    }

    /** The section after the travel, after the mission, or after the return. */
    method AcordarMissao(i: nat, abatido: bool)
      requires i < |missoes|
      modifies this
      ensures View() == Step(old(View()), Acordar(i, abatido))
    {
      match missoes[i].fase
      case Deslocando =>
        if estado != Despachado {
          missoes := missoes[..i] + missoes[i + 1..];
        } else if abatido {
          estado := Abatido;
          ocupado := false;
          missoes := [];
        } else {
          estado := EmMissao;
          missoes := missoes[i := missoes[i].(fase := NaMissao)];
        }
      case NaMissao =>
        if estado != EmMissao {
          missoes := missoes[..i] + missoes[i + 1..];
        } else {
          estado := Retornando;
          missoes := missoes[i := missoes[i].(fase := Voltando)];
        }
      case Voltando =>
        estado := Disponivel;
        ocorrenciaId := "";
        ocupado := false;
        missoes := missoes[..i] + missoes[i + 1..];
    }

    method AbortarMissao()
      modifies this
      ensures View() == Step(old(View()), Abortar)
    {
      if estado == EmMissao || estado == Despachado {
        estado := Retornando;
      }
    }
  }

  /** At most one mission, none while available, and the phases that each state allows. */
  predicate Consistent(s: DroneState) {
    && |s.missoes| <= 1
    && (s.ocupado <==> s.estado != Disponivel && s.estado != Abatido)
    && (s.estado == Disponivel ==> s.ocorrenciaId == "")
    && (s.missoes == [] ==> s.estado == Disponivel || s.estado == Retornando || s.estado == Abatido)
    && (s.missoes != [] ==>
          && s.missoes[0].ocorrenciaId == s.ocorrenciaId
          && match s.missoes[0].fase
             case Deslocando => s.estado == Despachado || s.estado == Retornando
             case NaMissao => s.estado == EmMissao || s.estado == Retornando
             case Voltando => s.estado == Retornando)
  }

  /** Under any interleaving a drone has at most one mission in progress, and none while DISPONIVEL. */
  lemma {:induction false} OneMission(ps: seq<Passo>)
    ensures var s := Run(Start(), ps);
            Consistent(s) && |s.missoes| <= 1 && (s.estado == Disponivel ==> s.missoes == [])
  {
    if ps != [] {
      OneMission(ps[..|ps| - 1]);
    }
  }

  /** The course of a mission without a command in between: there, at it, on the way back, and as before. */
  lemma MissionCourse(s: DroneState, oc: string)
    requires Consistent(s) && s.estado == Disponivel
    ensures var a := Step(s, Despachar(oc));
            var b := Step(a, Acordar(0, false));
            var c := Step(b, Acordar(0, false));
            && a.estado == Despachado && b.estado == EmMissao && c.estado == Retornando
            && a.ocorrenciaId == b.ocorrenciaId == c.ocorrenciaId == oc
            && Step(c, Acordar(0, false)) == s
  {
  }

  /** Only a drone on its way out is shot down, and it stays so whatever happens; its occurrence is still named. */
  lemma {:induction false} ShotDown(s: DroneState, i: nat, ps: seq<Passo>)
    requires Consistent(s) && i < |s.missoes|
    ensures Step(s, Acordar(i, true)).estado == Abatido <==> s.estado == Despachado
    ensures s.estado != Despachado ==> Step(s, Acordar(i, true)) == Step(s, Acordar(i, false))
    ensures s.estado == Despachado ==>
              Run(Step(s, Acordar(i, true)), ps) == s.(estado := Abatido, ocupado := false, missoes := [])
  {
    if ps != [] {
      ShotDown(s, i, ps[..|ps| - 1]);
    }
  }

  // --- Aborted missions ----------------------------------------------------------------

  /** RETORNANDO with nobody on the way back: what abortarMissao leaves. */
  predicate Stranded(s: DroneState) {
    s.estado == Abatido || (s.estado == Retornando && (s.missoes == [] || s.missoes[0].fase != Voltando))
  }

  lemma {:induction false} StrandedForever(s: DroneState, ps: seq<Passo>)
    requires Consistent(s) && Stranded(s)
    ensures Consistent(Run(s, ps)) && Stranded(Run(s, ps))
  {
    if ps != [] {
      StrandedForever(s, ps[..|ps| - 1]);
    }
  }

  lemma RunTwo(s: DroneState, p: Passo, q: Passo, r: Passo)
    ensures Run(s, [p]) == Step(s, p)
    ensures Run(s, [p, q]) == Step(Step(s, p), q)
    ensures Run(s, [p, q, r]) == Step(Step(Step(s, p), q), r)
  {
    assert [p][..0] == [] && [p, q][..1] == [p] && [p, q, r][..2] == [p, q];
  }

  /** A drone can become available again exactly when it is neither shot down nor stranded by an abort. */
  lemma AvailableAgain(s: DroneState)
    requires Consistent(s)
    ensures (exists ps :: Run(s, ps).estado == Disponivel) <==> !Stranded(s)
  {
    if Stranded(s) {
      forall ps ensures Run(s, ps).estado != Disponivel {
        StrandedForever(s, ps);
      }
    } else {
      var wake := Acordar(0, false);
      RunTwo(s, wake, wake, wake);
      var ps := if s.estado == Disponivel then []
                else if s.estado == Despachado then [wake, wake, wake]
                else if s.estado == EmMissao then [wake, wake] else [wake];
      assert Run(s, ps).estado == Disponivel;
    }
  }

  /** An abort that takes effect strands the drone: it never serves again. */
  lemma AbortStrands(s: DroneState, ps: seq<Passo>)
    requires Consistent(s) && (s.estado == EmMissao || s.estado == Despachado)
    ensures Run(Step(s, Abortar), ps).estado != Disponivel
  {
    StrandedForever(Step(s, Abortar), ps);
  }
}
