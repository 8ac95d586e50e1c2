/** What AddTxToMempool reserves, what loopConsensus may then propose, and how ids stay unique. */
module Mempool {
  import opened Models
  import opened Hashing
  import opened Ledger
  import opened Accounting
  import TipHash

  // --- Removing confirmed transactions ---------------------------------------------

  /** Positions of the transactions that stay. */
  function Kept(mempool: seq<Transaction>, confirmed: seq<Transaction>): seq<nat> {
    if mempool == [] then []
    else
      var n := |mempool| - 1;
      Kept(mempool[..n], confirmed) + if HasId(confirmed, mempool[n].id) then [] else [n]
  }

  ghost predicate Increasing(ks: seq<nat>) {
    forall i, j :: 0 <= i < j < |ks| ==> ks[i] < ks[j]
  }

  /** `rest` lists, in order, exactly the entries of `mempool` whose id is not confirmed. */
  ghost predicate RemovesExactly(mempool: seq<Transaction>, confirmed: seq<Transaction>,
                                 rest: seq<Transaction>, ks: seq<nat>)
  {
    && Increasing(ks) && |ks| == |rest|
    && (forall j :: 0 <= j < |ks| ==> ks[j] < |mempool| && rest[j] == mempool[ks[j]])
    && (forall i :: 0 <= i < |mempool| ==> (i in ks <==> !HasId(confirmed, mempool[i].id)))
  }

  lemma {:induction false} WithoutRemovesExactly(mempool: seq<Transaction>, confirmed: seq<Transaction>)
    ensures RemovesExactly(mempool, confirmed, Without(mempool, confirmed), Kept(mempool, confirmed))
  {
    if mempool != [] {
      var init := mempool[..|mempool| - 1];
      WithoutRemovesExactly(init, confirmed);
      RemovesOneMore(init, mempool[|mempool| - 1], confirmed, Without(init, confirmed), Kept(init, confirmed));
      assert mempool == init + [mempool[|mempool| - 1]];
    }
  }

  lemma RemovesOneMore(init: seq<Transaction>, tx: Transaction, confirmed: seq<Transaction>,
                       rest: seq<Transaction>, ks: seq<nat>)
    requires RemovesExactly(init, confirmed, rest, ks)
    ensures if HasId(confirmed, tx.id)
            then RemovesExactly(init + [tx], confirmed, rest, ks)
            else RemovesExactly(init + [tx], confirmed, rest + [tx], ks + [|init|])
  {
    var n := |init|;
    assert forall k :: k in ks ==> k < n;
    forall i | 0 <= i <= n
      ensures i in ks + [n] <==> i in ks || i == n
      ensures i < n ==> (init + [tx])[i] == init[i]
    {
    }
  }

  // --- Ids --------------------------------------------------------------------------

  ghost predicate DistinctIds(txs: seq<Transaction>) {
    forall i, j :: 0 <= i < j < |txs| ==> txs[i].id != txs[j].id
  }

  /** Mempool ids are the hashes of their transactions, pairwise distinct and absent from the chain. */
  ghost predicate IdsFresh(c: Chain) {
    && DistinctIds(c.mempool)
    && (forall i :: 0 <= i < |c.mempool| ==> c.mempool[i].id == HashTx(c.mempool[i]))
    && (forall i :: 0 <= i < |c.mempool| ==> !HasId(AllTxs(c.blocks), c.mempool[i].id))
  }

  lemma AdmitKeepsIds(c: Chain, tx: Transaction)
    requires IdsFresh(c)
    ensures IdsFresh(Admit(c, tx))
  {
    assert HashTx(WithId(tx)) == HashTx(tx);
    if AdmitError(c, WithId(tx)).None? {
      assert forall i :: 0 <= i < |c.mempool| ==> c.mempool[i].id != HashTx(tx);
    }
  }

  lemma HasIdConcat(a: seq<Transaction>, b: seq<Transaction>, id: Digest)
    ensures HasId(a + b, id) <==> HasId(a, id) || HasId(b, id)
  {
    if HasId(a, id) {
      var i :| 0 <= i < |a| && a[i].id == id;
      assert (a + b)[i].id == id;
    }
    if HasId(b, id) {
      var i :| 0 <= i < |b| && b[i].id == id;
      assert (a + b)[|a| + i].id == id;
    }
  }

  /** Any block at all, however its own ids were made. */
  lemma {:induction false} ExtendKeepsIds(c: Chain, b: Block)
    requires c.blocks != [] && IdsFresh(c)
    ensures IdsFresh(Extend(c, b))
  {
    if BlockError(c.blocks, b).None? {
      var ks, rest := Kept(c.mempool, b.transactions), Without(c.mempool, b.transactions);
      WithoutRemovesExactly(c.mempool, b.transactions);
      AllTxsAppend(c.blocks, b);
      forall j | 0 <= j < |rest|
        ensures rest[j].id == HashTx(rest[j]) && !HasId(AllTxs(c.blocks + [b]), rest[j].id)
      {
        assert ks[j] in ks;
        HasIdConcat(AllTxs(c.blocks), b.transactions, rest[j].id);
      }
    }
  }

  datatype Op = Submit(tx: Transaction) | Offer(block: Block)

  function Do(c: Chain, op: Op): (c': Chain)
    requires c.blocks != []
    ensures c'.blocks != []
  {
    match op
    case Submit(tx) => Admit(c, tx)
    case Offer(b) => Extend(c, b)
  }

  function Run(c: Chain, ops: seq<Op>): (c': Chain)
    requires c.blocks != []
    ensures c'.blocks != []
  {
    if ops == [] then c else Do(Run(c, ops[..|ops| - 1]), ops[|ops| - 1])
  }

  /** Through any submissions and any offered blocks, mempool and chain stay disjoint. */
  lemma {:induction false} RunKeepsIds(c: Chain, ops: seq<Op>)
    requires c.blocks != [] && IdsFresh(c)
    ensures IdsFresh(Run(c, ops))
  {
    if ops != [] {
      RunKeepsIds(c, ops[..|ops| - 1]);
      match ops[|ops| - 1]
      case Submit(tx) => AdmitKeepsIds(Run(c, ops[..|ops| - 1]), tx);
      case Offer(b) => ExtendKeepsIds(Run(c, ops[..|ops| - 1]), b);
    }
  }

  // --- Reserved spending --------------------------------------------------------------

  /** Pending debits of one address. */
  function PendingDebits(mempool: seq<Transaction>, from: string): int {
    if mempool == [] then 0
    else
      var last := mempool[|mempool| - 1];
      PendingDebits(mempool[..|mempool| - 1], from) + if IsDebit(last.kind) && last.from == from then last.amount else 0
  }

  /** Each sender's pending debits are at most its balance; so no balance is negative. */
  ghost predicate Covered(c: Chain) {
    forall a :: 0 <= PendingDebits(c.mempool, a) <= Bal(StateOf(c.blocks).balances, a)
  }

  /** The checks of admission that a block is tested for again. */
  predicate Checked(s: State, tx: Transaction) {
    && AuthError(tx).None? && tx.amount >= 0
    && (tx.kind == Register ==> tx.payload != "")
    && (tx.kind == VesselReg ==> tx.vesselId != "" && tx.from in s.companies)
  }

  ghost predicate AllChecked(c: Chain) {
    forall i :: 0 <= i < |c.mempool| ==> Checked(StateOf(c.blocks), c.mempool[i])
  }

  lemma {:induction false} DebitsWithinSpent(mempool: seq<Transaction>, a: string)
    requires NonNegative(mempool)
    ensures 0 <= PendingDebits(mempool, a) <= PendingSpent(mempool, a)
  {
    if mempool != [] {
      assert mempool[|mempool| - 1] in mempool;
      DebitsWithinSpent(mempool[..|mempool| - 1], a);
    }
  }

  lemma {:induction false} DebitsConcat(x: seq<Transaction>, y: seq<Transaction>, a: string)
    ensures PendingDebits(x + y, a) == PendingDebits(x, a) + PendingDebits(y, a)
    decreases |y|
  {
    if y == [] {
      assert x + y == x;
    } else {
      DebitsConcat(x, y[..|y| - 1], a);
      assert (x + y)[..|x + y| - 1] == x + y[..|y| - 1];
    }
  }

  lemma AdmitKeepsCovered(c: Chain, tx: Transaction)
    requires Covered(c) && AllChecked(c) && tx.amount >= 0
    ensures Covered(Admit(c, tx)) && AllChecked(Admit(c, tx))
  {
    var t := WithId(tx);
    if AdmitError(c, t).None? {
      var m := c.mempool + [t];
      assert NonNegative(c.mempool);
      assert m[..|m| - 1] == c.mempool;
      forall a ensures 0 <= PendingDebits(m, a) <= Bal(StateOf(c.blocks).balances, a) {
        DebitsWithinSpent(c.mempool, a);
      }
    }
  }

  // --- Proposing ------------------------------------------------------------------------

  const MAX_BLOCK_TXS := 5

  /** The transactions that loopConsensus puts into a block. */
  function Cut(mempool: seq<Transaction>): seq<Transaction> {
    if |mempool| > MAX_BLOCK_TXS then mempool[..MAX_BLOCK_TXS] else mempool
  }

  /** The block that a broker proposes over the first transactions of its mempool, before signing. */
  function OwnBlock(c: Chain, txs: seq<Transaction>, validator: string, now: Moment): Block
    requires c.blocks != []
  {
    var b := Block(|c.blocks|, now, txs, Last(c.blocks).hash, Last(c.blocks).hash, validator, []);
    b.(hash := HashBlock(b))
  }

  /** Debits lower a balance by at most their sum, companies only grow. */
  lemma {:induction false} ReplayBounds(s: State, txs: seq<Transaction>, a: string)
    requires NonNegative(txs)
    ensures Bal(Replay(s, txs).balances, a) >= Bal(s.balances, a) - PendingDebits(txs, a)
    ensures a in s.companies ==> a in Replay(s, txs).companies
  {
    hide Apply, Bal;
    if txs != [] {
      var tx := txs[|txs| - 1];
      assert tx in txs;
      ReplayBounds(s, txs[..|txs| - 1], a);
      ApplyBalance(Replay(s, txs[..|txs| - 1]), tx, a);
      CompaniesGrow(Replay(s, txs[..|txs| - 1]), tx, a);
    }
  }

  lemma CompaniesGrow(s: State, tx: Transaction, a: string)
    ensures a in s.companies ==> a in Apply(s, tx).companies
  {
  }

  /** Any prefix of a covered mempool passes the dry run. */
  lemma {:induction false} PrefixPasses(c: Chain, k: nat)
    requires Covered(c) && AllChecked(c) && k <= |c.mempool|
    ensures VetAll(TempOf(StateOf(c.blocks)), c.mempool[..k]).Ok?
  {
    hide StateOf, Replay, Bal;
    if k > 0 {
      var s, m, tx := StateOf(c.blocks), c.mempool, c.mempool[k - 1];
      PrefixPasses(c, k - 1);
      var done := m[..k - 1];
      assert m[..k][..k - 1] == done;
      VetAllAgreesWithReplay(s, done);
      assert NonNegative(done) && NonNegative(m[k..]);
      ReplayBounds(s, done, tx.from);
      assert m == m[..k] + m[k..];
      DebitsConcat(m[..k], m[k..], tx.from);
      DebitsWithinSpent(m[k..], tx.from);
      assert Checked(s, tx);
    }
  }

  /** Admission implies proposability: AddBlock takes the block. */
  lemma {:induction false} ProposalAccepted(c: Chain, k: nat, validator: string, now: Moment)
    requires TipHash.Linked(c.blocks) && Covered(c) && AllChecked(c) && k <= |c.mempool|
    ensures BlockError(c.blocks, OwnBlock(c, c.mempool[..k], validator, now)).None?
  {
    PrefixPasses(c, k);
    TipHash.IndexIsHeight(c.blocks, |c.blocks| - 1);
  }

  lemma {:induction false} PrefixRemoved(mempool: seq<Transaction>, k: nat)
    requires DistinctIds(mempool) && k <= |mempool|
    ensures Without(mempool, mempool[..k]) == mempool[k..]
  {
    WithoutFresh(mempool, k, |mempool|);
    assert mempool[..|mempool|] == mempool;
  }

  lemma {:induction false} WithoutFresh(mempool: seq<Transaction>, k: nat, n: nat)
    requires DistinctIds(mempool) && k <= |mempool| && n <= |mempool|
    ensures Without(mempool[..n], mempool[..k]) == if n <= k then [] else mempool[k..n]
  {
    if n > 0 {
      WithoutFresh(mempool, k, n - 1);
      assert mempool[..n][..n - 1] == mempool[..n - 1];
      var id := mempool[n - 1].id;
      if n - 1 < k {
        assert mempool[..k][n - 1].id == id;
      } else {
        assert !HasId(mempool[..k], id);
        assert mempool[k..n] == mempool[k..n - 1] + [mempool[n - 1]];
      }
    }
  }

  /** Everything a broker's own mempool guarantees about the block it proposes next. */
  ghost predicate Ready(c: Chain) {
    && TipHash.Linked(c.blocks) && IdsFresh(c) && Covered(c) && AllChecked(c)
    && DistinctIds(AllTxs(c.blocks))
  }

  lemma OwnBlockLinks(c: Chain, txs: seq<Transaction>, validator: string, now: Moment)
    requires TipHash.Linked(c.blocks)
    ensures TipHash.Linked(c.blocks + [OwnBlock(c, txs, validator, now)])
  {
    hide HashTxs;
    TipHash.IndexIsHeight(c.blocks, |c.blocks| - 1);
    var b := OwnBlock(c, txs, validator, now);
    assert TipHash.Follows(Last(c.blocks), b);
  }

  lemma PrefixIdsNew(c: Chain, k: nat)
    requires IdsFresh(c) && DistinctIds(AllTxs(c.blocks)) && k <= |c.mempool|
    ensures DistinctIds(AllTxs(c.blocks) + c.mempool[..k])
  {
    NewIdsDistinct(AllTxs(c.blocks), c.mempool[..k]) by {
      forall i | 0 <= i < k ensures !HasId(AllTxs(c.blocks), c.mempool[..k][i].id) {
        assert c.mempool[..k][i] == c.mempool[i];
      }
    }
  }

  /** Committing a prefix of the own mempool removes just that prefix and keeps every guarantee. */
  lemma {:induction false} CommitOwnPrefix(c: Chain, k: nat, validator: string, now: Moment)
    requires Ready(c) && k <= |c.mempool|
    ensures var c' := Extend(c, OwnBlock(c, c.mempool[..k], validator, now));
            && |c'.blocks| == |c.blocks| + 1
            && c'.mempool == c.mempool[k..]
            && Ready(c')
  {
    hide Covered, AllChecked, BlockError, HashBlock, Without;
    hide DistinctIds, IdsFresh;
    var b := OwnBlock(c, c.mempool[..k], validator, now);
    ProposalAccepted(c, k, validator, now);
    PrefixRemoved(c.mempool, k) by { IdsOfMempool(c); }
    ExtendKeepsIds(c, b);
    OwnBlockLinks(c, c.mempool[..k], validator, now);
    PrefixKeepsCovered(c, k, b);
    AllTxsAppend(c.blocks, b);
    PrefixIdsNew(c, k);
  }

  lemma IdsOfMempool(c: Chain)
    requires IdsFresh(c)
    ensures DistinctIds(c.mempool)
  {
  }

  lemma NewIdsDistinct(a: seq<Transaction>, b: seq<Transaction>)
    requires DistinctIds(a) && DistinctIds(b)
    requires forall i :: 0 <= i < |b| ==> !HasId(a, b[i].id)
    ensures DistinctIds(a + b)
  {
    forall i, j | 0 <= i < j < |a + b| ensures (a + b)[i].id != (a + b)[j].id {
      if i < |a| && |a| <= j {
        assert !HasId(a, b[j - |a|].id);
      }
    }
  }

  lemma PrefixKeepsCovered(c: Chain, k: nat, b: Block)
    requires Covered(c) && AllChecked(c) && k <= |c.mempool| && b.transactions == c.mempool[..k]
    ensures Covered(Chain(c.blocks + [b], c.mempool[k..])) && AllChecked(Chain(c.blocks + [b], c.mempool[k..]))
  {
    var s, m := StateOf(c.blocks), c.mempool;
    RebuildIsIncremental(c.blocks, b);
    assert m == m[..k] + m[k..];
    assert NonNegative(m[..k]) && NonNegative(m[k..]);
    forall a ensures 0 <= PendingDebits(m[k..], a) <= Bal(Replay(s, m[..k]).balances, a) {
      ReplayBounds(s, m[..k], a);
      DebitsConcat(m[..k], m[k..], a);
      DebitsWithinSpent(m[k..], a);
    }
    forall i | 0 <= i < |m[k..]| ensures Checked(Replay(s, m[..k]), m[k..][i]) {
      assert Checked(s, m[k + i]);
      ReplayBounds(s, m[..k], m[k + i].from);
    }
  }

  // --- A broker on its own ----------------------------------------------------------------

  datatype OwnOp = Receive(tx: Transaction) | Confirm(count: nat, validator: string, now: Moment)

  /** Receive a transaction, or commit a block of the first `count` pending ones. */
  function DoOwn(c: Chain, op: OwnOp): (c': Chain)
    requires c.blocks != []
    ensures c'.blocks != []
  {
    match op
    case Receive(tx) => Admit(c, tx)
    case Confirm(k, v, now) => if k <= |c.mempool| then Extend(c, OwnBlock(c, c.mempool[..k], v, now)) else c
  }

  function RunOwn(c: Chain, ops: seq<OwnOp>): (c': Chain)
    requires c.blocks != []
    ensures c'.blocks != []
  {
    if ops == [] then c else DoOwn(RunOwn(c, ops[..|ops| - 1]), ops[|ops| - 1])
  }

  /**
   * A broker that commits blocks cut from its own mempool always has a proposable mempool, and no id
   * is confirmed twice in its chain.
   */
  lemma {:induction false} RunOwnStaysReady(c: Chain, ops: seq<OwnOp>)
    requires Ready(c) && forall op :: op in ops && op.Receive? ==> op.tx.amount >= 0
    ensures Ready(RunOwn(c, ops))
  {
    if ops != [] {
      var init, op := ops[..|ops| - 1], ops[|ops| - 1];
      RunOwnStaysReady(c, init);
      var d := RunOwn(c, init);
      match op
      case Receive(tx) =>
        assert op in ops;
        AdmitKeepsIds(d, tx);
        AdmitKeepsCovered(d, tx);
      case Confirm(k, v, now) =>
        if k <= |d.mempool| {
          CommitOwnPrefix(d, k, v, now);
        }
    }
  }

  /** The freshly created chain is such a starting point. */
  lemma GenesisReady()
    ensures Ready(Chain([Genesis()], []))
  {
    var txs := GenesisTxs(COMPANIES);
    assert AllTxs([Genesis()]) == AllTxs([Genesis()][..0]) + txs == txs;
    GenesisTxsKinds(COMPANIES);
    assert NonNegative(txs);
    NoDebitsStaySolvent(EMPTY, txs);
    CompaniesDistinct();
    GenesisIdsDistinct(COMPANIES);
  }

  lemma GenesisIdsDistinct(names: seq<string>)
    requires forall i, j :: 0 <= i < j < |names| ==> names[i] != names[j]
    ensures DistinctIds(GenesisTxs(names))
  {
    var txs := GenesisTxs(names);
    forall i, j | 0 <= i < j < |txs| ensures txs[i].id != txs[j].id {
      GenesisIdsDiffer(names[i / 2], names[j / 2]);
      GenesisIdsDiffer(names[j / 2], names[i / 2]);
    }
  }

  lemma CompaniesDistinct()
    ensures forall i, j :: 0 <= i < j < |COMPANIES| ==> COMPANIES[i] != COMPANIES[j]
  {
    assert |"Maersk"| == 6 && |"MSC"| == 3 && |"CMA_CGM"| == 7 && |"Hapag_Lloyd"| == 11 && |"ONE"| == 3;
    assert "MSC"[0] != "ONE"[0];
  }

  lemma GenesisIdsDiffer(a: string, b: string)
    ensures GenesisMint(a).id != GenesisReg(b).id
    ensures a != b ==> GenesisMint(a).id != GenesisMint(b).id && GenesisReg(a).id != GenesisReg(b).id
  {
    var mint, reg := "genesis-mint-", "genesis-reg-";
    assert (mint + a)[8] != (reg + b)[8];
    assert (mint + a)[|mint|..] == a && (mint + b)[|mint|..] == b;
    assert (reg + a)[|reg|..] == a && (reg + b)[|reg|..] == b;
  }
}
