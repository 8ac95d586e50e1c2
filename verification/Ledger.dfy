/** chain.go as functions: the state transition, replay, the dry run, admission and adding a block. */
module Ledger {
  import opened Models
  import opened Hashing

  // --- State and replay ---------------------------------------------------------

  datatype State = State(
    balances: map<string, int>, vessels: map<string, string>,
    companies: map<string, string>, pubKeys: map<string, string>)

  const EMPTY := State(map[], map[], map[], map[])

  /** A Go map read: zero when the key is missing. */
  function Bal(m: map<string, int>, a: string): int {
    if a in m then m[a] else 0
  }

  function Credit(m: map<string, int>, a: string, x: int): map<string, int> {
    m[a := Bal(m, a) + x]
  }

  function Move(m: map<string, int>, tx: Transaction): map<string, int> {
    Credit(Credit(m, tx.from, -tx.amount), tx.to, tx.amount)
  }

  predicate IsDebit(kind: TxType) {
    kind == Transfer || kind == DroneUsage || kind == BrokerFee
  }

  /** applyTx. */
  function Apply(s: State, tx: Transaction): State {
    match tx.kind
    case Mint => s.(balances := Credit(s.balances, tx.to, tx.amount))
    case Register =>
      s.(companies := s.companies[tx.from := tx.payload], pubKeys := s.pubKeys[tx.from := tx.publicKey])
    case VesselReg => s.(vessels := s.vessels[tx.vesselId := tx.from])
    case VesselLost => s.(vessels := s.vessels - {tx.vesselId})
    case Transfer => s.(balances := Move(s.balances, tx))
    case DroneUsage => s.(balances := Move(s.balances, tx))
    case BrokerFee => s.(balances := Move(s.balances, tx))
    case MissionLog => s
  }

  function Replay(s: State, txs: seq<Transaction>): State {
    if txs == [] then s else Apply(Replay(s, txs[..|txs| - 1]), txs[|txs| - 1])
  }

  function AllTxs(blocks: seq<Block>): seq<Transaction> {
    if blocks == [] then [] else AllTxs(blocks[..|blocks| - 1]) + blocks[|blocks| - 1].transactions
  }

  /** RebuildState from scratch. */
  function StateOf(blocks: seq<Block>): State {
    Replay(EMPTY, AllTxs(blocks))
  }

  lemma {:induction false} ReplayConcat(s: State, a: seq<Transaction>, b: seq<Transaction>)
    ensures Replay(s, a + b) == Replay(Replay(s, a), b)
    decreases |b|
  {
    if b == [] {
      assert a + b == a;
    } else {
      var init, last := b[..|b| - 1], b[|b| - 1];
      assert (a + b)[..|a + b| - 1] == a + init;
      ReplayConcat(s, a, init);
    }
  }

  lemma AllTxsAppend(blocks: seq<Block>, b: Block)
    ensures AllTxs(blocks + [b]) == AllTxs(blocks) + b.transactions
  {
    assert (blocks + [b])[..|blocks|] == blocks;
  }

  /** Rebuilding the longer chain is folding only the new block onto the old state. */
  lemma RebuildIsIncremental(blocks: seq<Block>, b: Block)
    ensures StateOf(blocks + [b]) == Replay(StateOf(blocks), b.transactions)
  {
    AllTxsAppend(blocks, b);
    ReplayConcat(EMPTY, AllTxs(blocks), b.transactions);
  }

  // --- The dry run --------------------------------------------------------------

  datatype Error =
    | InMempool | InBlock | BadSignature | AddressMismatch | InsufficientBalance
    | EmptyCompanyName | MissingVesselId | CompanyNotRegistered
    | BadIndex | BadPrevHash | BadHash

  datatype Outcome<+T> = Ok(value: T) | Err(error: Error)

  /** The temporary maps of validateBlockTransactionsNoLock. */
  datatype Temp = Temp(balances: map<string, int>, companies: map<string, string>, vessels: map<string, string>)

  function TempOf(s: State): Temp {
    Temp(s.balances, s.companies, s.vessels)
  }

  function AuthError(tx: Transaction): Option<Error> {
    if tx.kind == Mint then None
    else if !VerifyTxSignature(tx) then Some(BadSignature)
    else if tx.from != GetAddress(tx.publicKey) then Some(AddressMismatch)
    else None
  }

  /** One pass of the validation loop. */
  function Vet(t: Temp, tx: Transaction): Outcome<Temp> {
    if AuthError(tx).Some? then Err(AuthError(tx).value)
    else match tx.kind
      case Transfer => VetDebit(t, tx)
      case DroneUsage => VetDebit(t, tx)
      case BrokerFee => VetDebit(t, tx)
      case Mint => Ok(t.(balances := Credit(t.balances, tx.to, tx.amount)))
      case Register =>
        if tx.payload == "" then Err(EmptyCompanyName)
        else Ok(t.(companies := t.companies[tx.from := tx.payload]))
      case VesselReg =>
        if tx.vesselId == "" then Err(MissingVesselId)
        else if tx.from !in t.companies then Err(CompanyNotRegistered)
        else Ok(t.(vessels := t.vessels[tx.vesselId := tx.from]))
      case VesselLost => Ok(t.(vessels := t.vessels - {tx.vesselId}))
      case MissionLog => Ok(t)
  }

  function VetDebit(t: Temp, tx: Transaction): Outcome<Temp> {
    if Bal(t.balances, tx.from) < tx.amount then Err(InsufficientBalance)
    else Ok(t.(balances := Credit(Credit(t.balances, tx.from, -tx.amount), tx.to, tx.amount)))
  }

  function VetAll(t: Temp, txs: seq<Transaction>): Outcome<Temp> {
    if txs == [] then Ok(t)
    else
      var before := VetAll(t, txs[..|txs| - 1]);
      if before.Err? then before else Vet(before.value, txs[|txs| - 1])
  }

  /** A transaction that passes one step of the dry run changes the maps as applyTx does. */
  lemma VetAgreesWithApply(s: State, tx: Transaction)
    requires Vet(TempOf(s), tx).Ok?
    ensures Vet(TempOf(s), tx).value == TempOf(Apply(s, tx))
  {
    hide AuthError;
  }

  lemma {:induction false} VetAllAgreesWithReplay(s: State, txs: seq<Transaction>)
    requires VetAll(TempOf(s), txs).Ok?
    ensures VetAll(TempOf(s), txs).value == TempOf(Replay(s, txs))
  {
    if txs != [] {
      VetAllAgreesWithReplay(s, txs[..|txs| - 1]);
      VetAgreesWithApply(Replay(s, txs[..|txs| - 1]), txs[|txs| - 1]);
    }
  }

  /** Dry run equals commit: an accepted block leaves the temporary maps equal to a full rebuild. */
  lemma DryRunEqualsCommit(blocks: seq<Block>, b: Block)
    requires VetAll(TempOf(StateOf(blocks)), b.transactions).Ok?
    ensures VetAll(TempOf(StateOf(blocks)), b.transactions).value == TempOf(StateOf(blocks + [b]))
  {
    VetAllAgreesWithReplay(StateOf(blocks), b.transactions);
    RebuildIsIncremental(blocks, b);
  }

  /** The dry run accepts transaction i after the earlier ones have been applied. */
  ghost predicate StepOk(s: State, txs: seq<Transaction>, i: nat)
    requires i < |txs|
  {
    Vet(TempOf(Replay(s, txs[..i])), txs[i]).Ok?
  }

  /** The dry run rejects a list exactly when it rejects one of its steps. */
  lemma {:induction false} VetAllOk(s: State, txs: seq<Transaction>)
    ensures VetAll(TempOf(s), txs).Ok? <==> forall i :: 0 <= i < |txs| ==> StepOk(s, txs, i)
  {
    if txs != [] {
      var n := |txs| - 1;
      var init := txs[..n];
      VetAllOk(s, init);
      forall i | 0 <= i < n ensures StepOk(s, init, i) == StepOk(s, txs, i) {
        assert init[..i] == txs[..i];
      }
      if VetAll(TempOf(s), init).Ok? {
        VetAllAgreesWithReplay(s, init);
        assert VetAll(TempOf(s), txs).Ok? == StepOk(s, txs, n);
      }
    }
  }

  // --- The chain and its mempool --------------------------------------------------

  datatype Chain = Chain(blocks: seq<Block>, mempool: seq<Transaction>)

  function Last(blocks: seq<Block>): Block
    requires blocks != []
  {
    blocks[|blocks| - 1]
  }

  predicate HasId(txs: seq<Transaction>, id: Digest) {
    exists i :: 0 <= i < |txs| && txs[i].id == id
  }

  /** All amounts of pending transactions from one address, whatever their kind. */
  function PendingSpent(mempool: seq<Transaction>, from: string): int {
    if mempool == [] then 0
    else
      var last := mempool[|mempool| - 1];
      PendingSpent(mempool[..|mempool| - 1], from) + if last.from == from then last.amount else 0
  }

  /** The checks of AddTxToMempool, in its order, on a transaction whose id is already corrected. */
  function AdmitError(c: Chain, tx: Transaction): Option<Error> {
    var s := StateOf(c.blocks);
    if HasId(c.mempool, tx.id) then Some(InMempool)
    else if HasId(AllTxs(c.blocks), tx.id) then Some(InBlock)
    else if AuthError(tx).Some? then AuthError(tx)
    else if IsDebit(tx.kind) && Bal(s.balances, tx.from) < tx.amount + PendingSpent(c.mempool, tx.from) then
      Some(InsufficientBalance)
    else if tx.kind == Register && tx.payload == "" then Some(EmptyCompanyName)
    else if tx.kind == VesselReg && tx.vesselId == "" then Some(MissingVesselId)
    else if tx.kind == VesselReg && tx.from !in s.companies then Some(CompanyNotRegistered)
    else None
  }

  function WithId(tx: Transaction): Transaction {
    tx.(id := HashTx(tx))
  }

  /** AddTxToMempool; a refused transaction leaves everything as it was. */
  function Admit(c: Chain, tx: Transaction): Chain {
    if AdmitError(c, WithId(tx)).Some? then c else c.(mempool := c.mempool + [WithId(tx)])
  }

  function BlockError(blocks: seq<Block>, b: Block): Option<Error>
    requires blocks != []
  {
    var vetted := VetAll(TempOf(StateOf(blocks)), b.transactions);
    if vetted.Err? then Some(vetted.error)
    else if b.index != Last(blocks).index + 1 then Some(BadIndex)
    else if b.prevHash != Last(blocks).hash then Some(BadPrevHash)
    else if b.hash != HashBlock(b) then Some(BadHash)
    else None
  }

  function Without(mempool: seq<Transaction>, confirmed: seq<Transaction>): seq<Transaction> {
    if mempool == [] then []
    else
      var last := mempool[|mempool| - 1];
      Without(mempool[..|mempool| - 1], confirmed) + if HasId(confirmed, last.id) then [] else [last]
  }

  /** AddBlock. */
  function Extend(c: Chain, b: Block): Chain
    requires c.blocks != []
  {
    if BlockError(c.blocks, b).Some? then c
    else Chain(c.blocks + [b], Without(c.mempool, b.transactions))
  }

  // --- Genesis --------------------------------------------------------------------

  const COMPANIES := ["Maersk", "MSC", "CMA_CGM", "Hapag_Lloyd", "ONE"]
  const GENESIS_TIME := Second(2024, 6, 4, 11, 20, 0)
  const GENESIS_NANOS := 1_717_500_000_000_000_000
  const GENESIS_PREV := Literal("0000000000000000000000000000000000000000000000000000000000000000")
  const INITIAL_MINT := 1_000_000_000

  function GenesisMint(name: string): Transaction {
    Transaction(Literal("genesis-mint-" + name), Mint, "", GetAddress(KeyOf(name)), "", INITIAL_MINT, "", "",
                "Genesis Mint to " + name, [], GENESIS_NANOS, 0)
  }

  function GenesisReg(name: string): Transaction {
    Transaction(Literal("genesis-reg-" + name), Register, GetAddress(KeyOf(name)), "", KeyOf(name), 0, "", "",
                name, [], GENESIS_NANOS, 0)
  }

  /** A mint and a registration for each company. */
  function GenesisTxs(names: seq<string>): (txs: seq<Transaction>)
    ensures |txs| == 2 * |names|
    ensures forall i :: 0 <= i < |txs| ==>
              txs[i] == if i % 2 == 0 then GenesisMint(names[i / 2]) else GenesisReg(names[i / 2])
  {
    seq(2 * |names|, i requires 0 <= i < 2 * |names| =>
      if i % 2 == 0 then GenesisMint(names[i / 2]) else GenesisReg(names[i / 2]))
  }

  function Genesis(): Block {
    var b := Block(0, Moment(GENESIS_TIME, 0), GenesisTxs(COMPANIES), GENESIS_PREV, GENESIS_PREV, "GENESIS", []);
    b.(hash := HashBlock(b))
  }
}
