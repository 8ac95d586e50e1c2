/** Conservation of tokens and solvency of every prefix of a chain. */
module Accounting {
  import opened Models
  import opened Hashing
  import opened Ledger

  // --- Conservation -------------------------------------------------------------

  /** Sum of all balances. */
  ghost function Total(m: map<string, int>): int {
    if m == map[] then 0
    else
      var k :| k in m;
      m[k] + Total(m - {k})
  }

  function Minted(txs: seq<Transaction>): int {
    if txs == [] then 0
    else
      var last := txs[|txs| - 1];
      Minted(txs[..|txs| - 1]) + if last.kind == Mint then last.amount else 0
  }

  lemma {:induction false} TotalWithout(m: map<string, int>, k: string)
    requires k in m
    ensures Total(m) == m[k] + Total(m - {k})
    decreases |m|
  {
    var j :| j in m && Total(m) == m[j] + Total(m - {j});
    if j != k {
      TotalWithout(m - {j}, k);
      TotalWithout(m - {k}, j);
      assert m - {j} - {k} == m - {k} - {j};
    }
  }

  lemma TotalOfCredit(m: map<string, int>, a: string, x: int)
    ensures Total(Credit(m, a, x)) == Total(m) + x
  {
    var m' := Credit(m, a, x);
    TotalWithout(m', a);
    assert m' - {a} == m - {a};
    if a in m {
      TotalWithout(m, a);
    } else {
      assert m - {a} == m;
    }
  }

  lemma {:induction false} ReplayConserves(s: State, txs: seq<Transaction>)
    ensures Total(Replay(s, txs).balances) == Total(s.balances) + Minted(txs)
  {
    if txs != [] {
      var init, tx := txs[..|txs| - 1], txs[|txs| - 1];
      ReplayConserves(s, init);
      var m := Replay(s, init).balances;
      if tx.kind == Mint {
        TotalOfCredit(m, tx.to, tx.amount);
      } else if IsDebit(tx.kind) {
        TotalOfCredit(m, tx.from, -tx.amount);
        TotalOfCredit(Credit(m, tx.from, -tx.amount), tx.to, tx.amount);
      }
    }
  }

  /** Whatever the blocks hold, the balances add up to what was minted. */
  lemma Conservation(blocks: seq<Block>)
    ensures Total(StateOf(blocks).balances) == Minted(AllTxs(blocks))
  {
    ReplayConserves(EMPTY, AllTxs(blocks));
  }

  // --- Solvency -----------------------------------------------------------------

  ghost predicate Solvent(s: State) {
    forall a :: Bal(s.balances, a) >= 0
  }

  predicate NonNegative(txs: seq<Transaction>) {
    forall tx :: tx in txs ==> tx.amount >= 0
  }

  /** AddBlock accepted block n on the blocks below it. */
  ghost predicate AcceptedAt(blocks: seq<Block>, n: nat)
    requires 1 <= n < |blocks|
  {
    BlockError(blocks[..n], blocks[n]).None?
  }

  /** A chain that grew from the genesis block by accepted calls of AddBlock. */
  ghost predicate Reached(blocks: seq<Block>) {
    && blocks != [] && blocks[0] == Genesis()
    && forall n :: 1 <= n < |blocks| ==> AcceptedAt(blocks, n)
  }

  lemma ReachedPrefix(blocks: seq<Block>, n: nat)
    requires Reached(blocks) && 0 < n <= |blocks|
    ensures Reached(blocks[..n])
  {
    hide BlockError, Genesis;
    forall k | 1 <= k < n ensures AcceptedAt(blocks[..n], k) {
      assert AcceptedAt(blocks, k) && blocks[..n][..k] == blocks[..k];
    }
  }

  lemma ReachedAppend(blocks: seq<Block>, b: Block)
    requires Reached(blocks) && BlockError(blocks, b).None?
    ensures Reached(blocks + [b])
  {
    hide BlockError, Genesis;
    var more := blocks + [b];
    forall k | 1 <= k < |more| ensures AcceptedAt(more, k) {
      if k < |blocks| {
        assert AcceptedAt(blocks, k) && more[..k] == blocks[..k];
      } else {
        assert more[..k] == blocks;
      }
    }
  }

  /** The payee of an accepted transaction does not fall below zero: always so for amounts of at least zero. */
  predicate CreditCovered(s: State, tx: Transaction) {
    if tx.kind == Mint || (IsDebit(tx.kind) && tx.from != tx.to)
    then Bal(s.balances, tx.to) + tx.amount >= 0
    else true
  }

  /** What a transaction adds to the balance of an address; a self-transfer adds nothing. */
  function Change(tx: Transaction, a: string): int {
    (if IsDebit(tx.kind) && a == tx.from then -tx.amount else 0)
    + (if (IsDebit(tx.kind) || tx.kind == Mint) && a == tx.to then tx.amount else 0)
  }

  lemma ApplyBalance(s: State, tx: Transaction, a: string)
    ensures Bal(Apply(s, tx).balances, a) == Bal(s.balances, a) + Change(tx, a)
  {
    hide Credit, Bal;
    if tx.kind == Mint {
      CreditBalance(s.balances, tx.to, tx.amount, a);
    } else if IsDebit(tx.kind) {
      CreditBalance(s.balances, tx.from, -tx.amount, a);
      CreditBalance(Credit(s.balances, tx.from, -tx.amount), tx.to, tx.amount, a);
    }
  }

  lemma CreditBalance(m: map<string, int>, x: string, v: int, a: string)
    ensures Bal(Credit(m, x, v), a) == Bal(m, a) + if a == x then v else 0
  {
  }

  /** An accepted step keeps solvency exactly when its credit is covered. */
  lemma StepSolvency(s: State, tx: Transaction)
    requires Solvent(s) && Vet(TempOf(s), tx).Ok?
    ensures Solvent(Apply(s, tx)) <==> CreditCovered(s, tx)
  {
    hide AuthError, Apply, Bal;
    if IsDebit(tx.kind) {
      DebitCovered(s, tx);
    }
    forall a ensures Bal(Apply(s, tx).balances, a) == Bal(s.balances, a) + Change(tx, a) {
      ApplyBalance(s, tx, a);
    }
  }

  lemma DebitCovered(s: State, tx: Transaction)
    requires Vet(TempOf(s), tx).Ok? && IsDebit(tx.kind)
    ensures Bal(s.balances, tx.from) >= tx.amount
  {
    hide AuthError, Bal, Credit;
  }

  /** Every credit is covered in the state its transaction meets. */
  ghost predicate CreditsCovered(s: State, txs: seq<Transaction>) {
    txs != [] ==>
      var before := txs[..|txs| - 1];
      CreditsCovered(s, before) && CreditCovered(Replay(s, before), txs[|txs| - 1])
  }

  /** The state is solvent after every prefix; `PrefixSolvent` says so for one of them. */
  ghost predicate PrefixesSolvent(s: State, txs: seq<Transaction>) {
    Solvent(Replay(s, txs)) && (txs != [] ==> PrefixesSolvent(s, txs[..|txs| - 1]))
  }

  lemma {:induction false} PrefixSolvent(s: State, txs: seq<Transaction>, k: nat)
    requires PrefixesSolvent(s, txs) && k <= |txs|
    ensures Solvent(Replay(s, txs[..k]))
  {
    if k == |txs| {
      assert txs[..k] == txs;
    } else {
      assert txs[..|txs| - 1][..k] == txs[..k];
      PrefixSolvent(s, txs[..|txs| - 1], k);
    }
  }

  lemma {:induction false} AcceptedListSolvency(s: State, txs: seq<Transaction>)
    requires Solvent(s) && VetAll(TempOf(s), txs).Ok?
    ensures PrefixesSolvent(s, txs) <==> CreditsCovered(s, txs)
  {
    if txs != [] {
      var init := txs[..|txs| - 1];
      AcceptedListSolvency(s, init);
      VetAllAgreesWithReplay(s, init);
      if PrefixesSolvent(s, init) {
        StepSolvency(Replay(s, init), txs[|txs| - 1]);
      }
    }
  }

  lemma {:induction false} PrefixesConcat(s: State, a: seq<Transaction>, b: seq<Transaction>)
    ensures PrefixesSolvent(s, a + b) <==> PrefixesSolvent(s, a) && PrefixesSolvent(Replay(s, a), b)
    ensures CreditsCovered(s, a + b) <==> CreditsCovered(s, a) && CreditsCovered(Replay(s, a), b)
    decreases |b|
  {
    ReplayConcat(s, a, b);
    if b == [] {
      assert a + b == a;
    } else {
      var init := b[..|b| - 1];
      PrefixesConcat(s, a, init);
      ReplayConcat(s, a, init);
      assert (a + b)[..|a + b| - 1] == a + init;
    }
  }

  /** The genesis transactions are no debits, so they need no dry run. */
  lemma GenesisTxsKinds(names: seq<string>)
    ensures forall tx :: tx in GenesisTxs(names) ==> !IsDebit(tx.kind) && tx.amount >= 0
  {
  }

  lemma {:induction false} NoDebitsStaySolvent(s: State, txs: seq<Transaction>)
    requires Solvent(s) && NonNegative(txs)
    requires forall tx :: tx in txs ==> !IsDebit(tx.kind)
    ensures PrefixesSolvent(s, txs) && CreditsCovered(s, txs)
  {
    if txs != [] {
      var init, tx := txs[..|txs| - 1], txs[|txs| - 1];
      assert tx in txs;
      NoDebitsStaySolvent(s, init);
      var before := Replay(s, init);
      forall a ensures Bal(Apply(before, tx).balances, a) >= 0 {
        assert Bal(before.balances, a) >= 0;
      }
    }
  }

  /** In a reached chain no address is ever negative exactly when every credit is covered. */
  lemma {:induction false} ReachedSolvency(blocks: seq<Block>)
    requires Reached(blocks)
    ensures PrefixesSolvent(EMPTY, AllTxs(blocks)) <==> CreditsCovered(EMPTY, AllTxs(blocks))
    decreases |blocks|
  {
    var n := |blocks| - 1;
    var before, b := blocks[..n], blocks[n];
    if n == 0 {
      GenesisTxsKinds(COMPANIES);
      NoDebitsStaySolvent(EMPTY, b.transactions);
      assert AllTxs(blocks) == b.transactions;
    } else {
      ReachedPrefix(blocks, n);
      assert AcceptedAt(blocks, n);
      ReachedSolvency(before);
      PrefixesConcat(EMPTY, AllTxs(before), b.transactions);
      if PrefixesSolvent(EMPTY, AllTxs(before)) {
        AcceptedListSolvency(StateOf(before), b.transactions);
      }
    }
  }

  /**
   * With amounts of at least zero no address is negative after any prefix of the transactions of a
   * reached chain, inside a block or between blocks.
   */
  lemma {:induction false} SolvencyOfEveryPrefix(blocks: seq<Block>, k: nat)
    requires Reached(blocks) && NonNegative(AllTxs(blocks)) && k <= |AllTxs(blocks)|
    ensures Solvent(Replay(EMPTY, AllTxs(blocks)[..k]))
  {
    ReachedPrefixSolvent(blocks);
    PrefixSolvent(EMPTY, AllTxs(blocks), k);
  }

  lemma {:induction false} ReachedPrefixSolvent(blocks: seq<Block>)
    requires Reached(blocks) && NonNegative(AllTxs(blocks))
    ensures PrefixesSolvent(EMPTY, AllTxs(blocks))
    decreases |blocks|
  {
    var n := |blocks| - 1;
    var before, b := blocks[..n], blocks[n];
    if n == 0 {
      GenesisTxsKinds(COMPANIES);
      NoDebitsStaySolvent(EMPTY, b.transactions);
      assert AllTxs(blocks) == b.transactions;
    } else {
      ReachedPrefix(blocks, n);
      assert AcceptedAt(blocks, n);
      ReachedPrefixSolvent(before);
      NonNegativeStaysSolvent(StateOf(before), b.transactions);
      PrefixesConcat(EMPTY, AllTxs(before), b.transactions);
    }
  }

  lemma {:induction false} NonNegativeStaysSolvent(s: State, txs: seq<Transaction>)
    requires Solvent(s) && VetAll(TempOf(s), txs).Ok? && NonNegative(txs)
    ensures PrefixesSolvent(s, txs)
  {
    if txs != [] {
      var init, tx := txs[..|txs| - 1], txs[|txs| - 1];
      assert tx in txs;
      NonNegativeStaysSolvent(s, init);
      VetAllAgreesWithReplay(s, init);
      StepSolvency(Replay(s, init), tx);
    }
  }

  // --- Negative amounts ------------------------------------------------------------

  lemma {:induction false} Untouched(s: State, txs: seq<Transaction>, a: string)
    requires forall tx :: tx in txs ==> Change(tx, a) == 0
    ensures Bal(Replay(s, txs).balances, a) == Bal(s.balances, a)
  {
    hide Apply, Bal, Change;
    if txs != [] {
      assert txs[|txs| - 1] in txs;
      Untouched(s, txs[..|txs| - 1], a);
      ApplyBalance(Replay(s, txs[..|txs| - 1]), txs[|txs| - 1], a);
    }
  }

  lemma TxsOfOne(b: Block)
    ensures AllTxs([b]) == b.transactions
  {
    assert AllTxs([b]) == AllTxs([b][..0]) + b.transactions;
  }

  /** Only company addresses, which start with 0x, hold anything at genesis. */
  lemma NothingAtGenesis(a: string)
    requires a != "" && a[0] != '0'
    ensures Bal(StateOf([Genesis()]).balances, a) == 0
  {
    hide HashBlock, Bal;
    TxsOfOne(Genesis());
    forall tx | tx in GenesisTxs(COMPANIES) ensures Change(tx, a) == 0 {
      var i :| 0 <= i < |GenesisTxs(COMPANIES)| && GenesisTxs(COMPANIES)[i] == tx;
      assert tx.kind == Mint ==> tx.to[0] == '0';
    }
    Untouched(EMPTY, GenesisTxs(COMPANIES), a);
    assert Bal(EMPTY.balances, a) == 0 by { NothingInEmpty(a); }
  }

  lemma NothingInEmpty(a: string)
    ensures Bal(EMPTY.balances, a) == 0
  {
  }

  /** No genesis transaction has an id that HashTx could give. */
  lemma GenesisIdsLiteral(id: Digest)
    requires id.TxDigest?
    ensures !HasId(AllTxs([Genesis()]), id)
  {
    hide HashBlock;
    TxsOfOne(Genesis());
  }

  /** A payment of -1 micro-ELIS with a valid signature. */
  function NegativePayment(): Transaction {
    var draft := Transaction(Literal(""), Transfer, GetAddress("k"), "payee", "k", -1, "", "", "", [], 0, 0);
    WithId(draft).(signature := [Seal("k", HashTx(draft), 0)])
  }

  lemma NegativePaymentPasses(s: State)
    requires Bal(s.balances, NegativePayment().from) >= 0
    ensures NegativePayment().id == HashTx(NegativePayment()) && NegativePayment().id.TxDigest?
    ensures AuthError(NegativePayment()) == None && Vet(TempOf(s), NegativePayment()).Ok?
  {
    assert HashTx(NegativePayment()) == NegativePayment().id;
  }

  lemma SolventAtGenesis()
    ensures Solvent(StateOf([Genesis()]))
  {
    hide HashBlock;
    TxsOfOne(Genesis());
    GenesisTxsKinds(COMPANIES);
    NoDebitsStaySolvent(EMPTY, GenesisTxs(COMPANIES));
  }

  lemma NegativePaymentAdmitted()
    ensures AdmitError(Chain([Genesis()], []), NegativePayment()) == None
  {
    hide StateOf, HashTx, Genesis, GetAddress;
    var s := StateOf([Genesis()]);
    SolventAtGenesis();
    assert Bal(s.balances, NegativePayment().from) >= 0;
    NegativePaymentPasses(s);
    GenesisIdsLiteral(NegativePayment().id);
  }

  // --- One block on top of the genesis block ------------------------------------------

  function FirstBlock(tx: Transaction): Block {
    var b := Block(1, Moment(GENESIS_TIME, 0), [tx], Genesis().hash, Genesis().hash, "B2", []);
    b.(hash := HashBlock(b))
  }

  lemma FirstBlockAccepted(tx: Transaction)
    requires Vet(TempOf(StateOf([Genesis()])), tx).Ok?
    ensures BlockError([Genesis()], FirstBlock(tx)) == None && Reached([Genesis()] + [FirstBlock(tx)])
  {
    hide StateOf, GenesisTxs, HashTxs, Vet;
    var s, txs := StateOf([Genesis()]), [tx];
    assert txs[..0] == [] && VetAll(TempOf(s), txs[..0]) == Ok(TempOf(s));
    assert VetAll(TempOf(s), txs) == Vet(TempOf(s), txs[0]);
    GenesisReached();
    ReachedAppend([Genesis()], FirstBlock(tx));
  }

  lemma FirstBlockState(tx: Transaction)
    ensures StateOf([Genesis()] + [FirstBlock(tx)]) == Apply(StateOf([Genesis()]), tx)
  {
    hide HashBlock, Genesis, Apply, StateOf;
    RebuildIsIncremental([Genesis()], FirstBlock(tx));
    assert FirstBlock(tx).transactions == [tx] && [tx][..0] == [];
  }

  lemma {:induction false} Registered(s: State, txs: seq<Transaction>, i: nat)
    requires i < |txs| && txs[i].kind == Register
    ensures txs[i].from in Replay(s, txs).companies
  {
    if i < |txs| - 1 {
      Registered(s, txs[..|txs| - 1], i);
    }
  }

  lemma RegisteredInList(names: seq<string>, i: nat)
    requires i < |names|
    ensures GetAddress(KeyOf(names[i])) in Replay(EMPTY, GenesisTxs(names)).companies
  {
    hide Replay;
    assert GenesisTxs(names)[2 * i + 1] == GenesisReg(names[i]);
    Registered(EMPTY, GenesisTxs(names), 2 * i + 1);
  }

  lemma RegisteredAtGenesis(name: string)
    requires name in COMPANIES
    ensures GetAddress(KeyOf(name)) in StateOf([Genesis()]).companies
  {
    hide HashBlock, Replay, GenesisTxs, GetAddress, KeyOf;
    var i :| 0 <= i < |COMPANIES| && COMPANIES[i] == name;
    TxsOfOne(Genesis());
    RegisteredInList(COMPANIES, i);
  }

  /**
   * A negative amount is admitted to the mempool, its block is accepted, and the chain that grew from the
   * genesis block so leaves an address negative: a real violation of the condition of `ReachedSolvency`.
   */
  lemma NegativeAmountBreaksSolvency() returns (blocks: seq<Block>)
    ensures |blocks| == 2 && Reached(blocks) && |blocks[1].transactions| == 1 && blocks[1].transactions[0].amount == -1
    ensures Solvent(StateOf(blocks[..1])) && AdmitError(Chain(blocks[..1], []), blocks[1].transactions[0]) == None
    ensures !Solvent(StateOf(blocks)) && !CreditsCovered(EMPTY, AllTxs(blocks))
  {
    hide Genesis, NegativePayment, StateOf, AdmitError, HashBlock;
    hide PrefixesSolvent, CreditsCovered, Replay, Reached, Vet;
    var g, tx := [Genesis()], NegativePayment();
    blocks := g + [FirstBlock(tx)];
    assert blocks[..1] == g;
    SolventAtGenesis();
    NegativePaymentAdmitted();
    NegativePaymentPasses(StateOf(g));
    FirstBlockAccepted(tx);
    NegativePayee();
    ReachedSolvency(blocks);
    WholePrefix(blocks);
  }

  lemma GenesisReached()
    ensures Reached([Genesis()])
  {
    hide Genesis;
  }

  lemma NegativePayee()
    ensures NegativePayment().amount == -1 && !Solvent(StateOf([Genesis()] + [FirstBlock(NegativePayment())]))
  {
    hide HashBlock, Genesis, HashTx, Apply, StateOf, Bal;
    var g, tx := [Genesis()], NegativePayment();
    FirstBlockState(tx);
    NothingAtGenesis("payee");
    ApplyBalance(StateOf(g), tx, "payee");
    assert Change(tx, "payee") == -1 by { assert "payee"[0] != GetAddress("k")[0]; }
    assert Bal(StateOf(g + [FirstBlock(tx)]).balances, "payee") < 0;
  }

  lemma WholePrefix(blocks: seq<Block>)
    ensures PrefixesSolvent(EMPTY, AllTxs(blocks)) ==> Solvent(StateOf(blocks))
  {
  }
}
