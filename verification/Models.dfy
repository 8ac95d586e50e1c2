/** Transactions, blocks, occurrences and drones, with ideal digests and signatures. */
module Models {

  datatype Option<+T> = None | Some(value: T)

  /** Calendar time to the second, as `Timestamp.Format` prints it. */
  datatype Second = Second(year: nat, month: nat, day: nat, hour: nat, minute: nat, second: nat) {
    predicate FourDigitYear() {
      year < 10000 && month < 100 && day < 100 && hour < 100 && minute < 100 && second < 100
    }
  }

  datatype Moment = Moment(second: Second, nanos: int)

  /**
   * A digest is the content it was computed from, so digests collide exactly when contents do.
   * `Literal` is a text that no hashing produced: a genesis id, the zero hash, an occurrence id.
   */
  datatype Digest =
    | Literal(text: string)
    | TxDigest(content: string)
    | BlockDigest(index: int, second: Second, txs: seq<Digest>, prev: Digest, validator: string)

  /** A letter of a signature text. A seal is one signature made by `key` over `message`. */
  datatype Sym = Ch(c: char) | Seal(key: string, message: Digest, nonce: int)

  type Text = seq<Sym>

  function Str(s: string): (t: Text)
    ensures |t| == |s|
    ensures forall i :: 0 <= i < |s| ==> t[i] == Ch(s[i])
  {
    seq(|s|, i requires 0 <= i < |s| => Ch(s[i]))
  }

  datatype TxType = Mint | Register | VesselReg | VesselLost | Transfer | DroneUsage | MissionLog | BrokerFee

  /** Amounts are whole micro-ELIS, the precision that `%f` prints. */
  datatype Transaction = Transaction(
    id: Digest, kind: TxType, from: string, to: string, publicKey: string, amount: int,
    vesselId: string, occurrenceId: string, payload: string, signature: Text, timestamp: int, nonce: int)

  datatype Block = Block(
    index: int, timestamp: Moment, transactions: seq<Transaction>, prevHash: Digest, hash: Digest,
    validator: string, signature: Text)

  const CRITICIDADE_NULA := 0
  const CRITICIDADE_BAIXA := 1
  const CRITICIDADE_ALTA := 2

  datatype Status = Aberta | AguardandoPagamento | Pago

  datatype Ocorrencia = Ocorrencia(
    id: string, setorOrigem: string, brokerOrigem: string, criticidade: int, timestamp: int,
    lamportTime: int, vesselId: string, companyAddr: string, status: Status)

  datatype EstadoDrone = Disponivel | Despachado | EmMissao | Retornando | Abatido

  datatype InfoDrone = InfoDrone(
    droneId: string, brokerId: string, estado: EstadoDrone, ocorrenciaId: string, ultimaVez: int)
}
