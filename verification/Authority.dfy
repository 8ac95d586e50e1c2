/** What a signature on a transaction covers, and what the release of an escort says about its payment. */
module Authority {
  import opened Models
  import opened Texts
  import opened Hashing
  import opened Ledger
  import opened Votes
  import opened Protocol
  import Accounting
  import Heap
  import Payments
  import Runs

  // --- Who authorised a debit -----------------------------------------------------------

  /** What the payer signs: the occurrence id of a payment for an occurrence, else the hash. */
  function SignedMessage(t: Transaction): Digest {
    if t.kind == Transfer && t.occurrenceId != "" then Literal(t.occurrenceId) else HashTx(t)
  }

  /** The holder of the key behind the payer's address made the one seal, over the signed message. */
  predicate AuthorisedBy(t: Transaction, key: string) {
    && t.from == GetAddress(key) && |t.signature| == 1 && t.signature[0].Seal?
    && t.signature[0].key == key && t.signature[0].message == SignedMessage(t)
  }

  /** An accepted debit was authorised by the holder of the payer's key, and was in its balance. */
  lemma DebitIsAuthorised(s: State, t: Transaction)
    requires Vet(TempOf(s), t).Ok? && IsDebit(t.kind)
    ensures AuthorisedBy(t, t.publicKey) && t.amount <= Bal(s.balances, t.from)
  {
    hide HashTx, Bal, Credit;
  }

  /** The same transaction to another payee or of another amount. */
  function WithTerms(t: Transaction, to: string, amount: int): Transaction {
    t.(to := to, amount := amount)
  }

  predicate CoversTerms(t: Transaction) {
    t.kind != Mint && !(t.kind == Transfer && t.occurrenceId != "")
  }

  /**
   * The signature fixes payee and amount exactly for the kinds signed over their hash: mints carry none, and
   * a payment for an occurrence is signed over the occurrence id alone.
   */
  lemma TermsCoveredExactly(t: Transaction)
    requires AuthError(t).None?
    ensures (forall to, amount :: AuthError(WithTerms(t, to, amount)).None? ==> to == t.to && amount == t.amount)
            <==> CoversTerms(t)
  {
    hide TxContent;
    if CoversTerms(t) {
      forall to, amount | AuthError(WithTerms(t, to, amount)).None? ensures to == t.to && amount == t.amount {
        SameHashSameTerms(t, to, amount);
      }
    } else {
      assert AuthError(WithTerms(t, t.to, t.amount + 1)).None?;
    }
  }

  lemma SameHashSameTerms(t: Transaction, to: string, amount: int)
    requires HashTx(WithTerms(t, to, amount)) == HashTx(t)
    ensures to == t.to && amount == t.amount
  {
    hide KindName, AmountText, Decimal;
    var u := WithTerms(t, to, amount);
    var rest := Field(t.vesselId, Field(t.occurrenceId, TxTail(t)));
    var head := KindName(t.kind) + [':'] + t.from + [':'];
    SplitTerms(t, rest);
    SplitTerms(u, rest);
    CutAt(head, Field(t.to, Field(AmountText(t.amount), rest)), head, Field(to, Field(AmountText(amount), rest)));
    DropRest(t.to + [':'] + AmountText(t.amount), to + [':'] + AmountText(amount), [':'] + rest);
    ParseOfAmountText(t.amount);
    ParseOfAmountText(amount);
    CutAtLast(t.to, AmountText(t.amount), to, AmountText(amount), ':');
  }

  lemma SplitTerms(t: Transaction, rest: string)
    requires rest == Field(t.vesselId, Field(t.occurrenceId, TxTail(t)))
    ensures TxContent(t) == KindName(t.kind) + [':'] + t.from + [':'] + Field(t.to, Field(AmountText(t.amount), rest))
    ensures Field(t.to, Field(AmountText(t.amount), rest)) == t.to + [':'] + AmountText(t.amount) + ([':'] + rest)
  {
    hide KindName, AmountText, TxTail;
  }

  lemma DropRest(a: string, b: string, rest: string)
    requires a + rest == b + rest
    ensures a == b
  {
    assert |a + rest| == |b + rest|;
    CutAt(a, rest, b, rest);
  }

  // --- What a release says about the payment ------------------------------------------------

  /** A known unpaid occurrence becomes PAGO exactly by a TRANSFER with its id. */
  lemma ReleasesExactly(d: Desk, tx: Transaction, id: string)
    requires id in d.ocorrencias && d.ocorrencias[id].status != Pago
    ensures PayTx(d, tx).ocorrencias[id].status == Pago <==> tx.kind == Transfer && tx.occurrenceId == id && id != ""
  {
    hide Heap.Enqueue;
  }

  /** Amount, payer and payee play no part in it. */
  lemma ReleaseIgnoresTerms(d: Desk, tx: Transaction, from: string, to: string, amount: int)
    ensures PayTx(d, tx) == PayTx(d, tx.(from := from, to := to, amount := amount))
  {
    hide Enfileirar;
  }

  /** The state that transaction i of block n meets when its chain is replayed. */
  function StateBefore(blocks: seq<Block>, n: nat, i: nat): State
    requires n < |blocks| && i <= |blocks[n].transactions|
  {
    Replay(StateOf(blocks[..n]), blocks[n].transactions[..i])
  }

  /** A TRANSFER in a reached chain lies above the genesis block and passed the dry run in the state it met. */
  lemma {:induction false} TransferWasVetted(blocks: seq<Block>, tx: Transaction) returns (n: nat, i: nat)
    requires Accounting.Reached(blocks) && tx in AllTxs(blocks) && tx.kind == Transfer
    ensures 1 <= n < |blocks| && i < |blocks[n].transactions| && blocks[n].transactions[i] == tx
    ensures Vet(TempOf(StateBefore(blocks, n, i)), tx).Ok?
    decreases |blocks|
  {
    hide Vet, BlockError, HashBlock, Genesis, StateOf;
    n := |blocks| - 1;
    if tx in blocks[n].transactions {
      if n == 0 {
        GenesisHasNoTransfer(blocks[0], tx);
      }
      assert Accounting.AcceptedAt(blocks, n);
      AcceptedIsVetted(blocks[..n], blocks[n]);
      i := VettedStep(StateOf(blocks[..n]), blocks[n].transactions, tx);
    } else {
      var below := blocks[..n];
      LastBlock(blocks, tx);
      Accounting.ReachedPrefix(blocks, n);
      n, i := TransferWasVetted(below, tx);
      assert below[..n] == blocks[..n] && below[n] == blocks[n];
    }
  }

  lemma GenesisHasNoTransfer(g: Block, tx: Transaction)
    requires g == Genesis() && tx in g.transactions
    ensures tx.kind != Transfer
  {
    hide HashBlock;
    Accounting.GenesisTxsKinds(COMPANIES);
  }

  lemma LastBlock(blocks: seq<Block>, tx: Transaction)
    requires blocks != [] && tx in AllTxs(blocks) && tx !in blocks[|blocks| - 1].transactions
    ensures |blocks| > 1 && tx in AllTxs(blocks[..|blocks| - 1])
  {
    assert AllTxs(blocks) == AllTxs(blocks[..|blocks| - 1]) + blocks[|blocks| - 1].transactions;
  }

  lemma AcceptedIsVetted(below: seq<Block>, b: Block)
    requires below != [] && BlockError(below, b).None?
    ensures VetAll(TempOf(StateOf(below)), b.transactions).Ok?
  {
    hide VetAll, StateOf, HashBlock;
  }

  lemma VettedStep(below: State, txs: seq<Transaction>, tx: Transaction) returns (i: nat)
    requires VetAll(TempOf(below), txs).Ok? && tx in txs
    ensures i < |txs| && txs[i] == tx && Vet(TempOf(Replay(below, txs[..i])), tx).Ok?
  {
    hide Vet;
    VetAllOk(below, txs);
    i :| 0 <= i < |txs| && txs[i] == tx;
    assert StepOk(below, txs, i);
  }

  /**
   * What payment gating guarantees about the payment: in every run an occurrence that nobody opened as public
   * has a TRANSFER in some broker's chain whose payer's key signed that very occurrence id, and whose amount
   * was in the payer's balance in the state that the transfer met in that chain.
   */
  lemma PaymentIsSigned(states: seq<Sys>, es: seq<Event>, k: nat, id: string)
    returns (b: string, n: nat, i: nat, tx: Transaction)
    requires History(states, es) && k < |states| && id != ""
    requires Payments.Released(states[k], id) && id !in states[k].publicas
    ensures var blocks := ChainOf(states[k], b);
            && b in VALIDATORS && 1 <= n < |blocks| && i < |blocks[n].transactions|
            && tx == blocks[n].transactions[i] && tx.kind == Transfer && tx.occurrenceId == id
            && AuthorisedBy(tx, tx.publicKey) && SignedMessage(tx) == Literal(id)
            && tx.amount <= Bal(StateBefore(blocks, n, i).balances, tx.from)
  {
    hide History, Accounting.Reached, Vet, AuthorisedBy, Bal, StateBefore;
    b :| b in VALIDATORS && Payments.PaidOn(ChainOf(states[k], b), id);
    tx :| tx in AllTxs(ChainOf(states[k], b)) && tx.kind == Transfer && tx.occurrenceId == id;
    Runs.ChainsAreReached(states, es, k, b);
    n, i := TransferWasVetted(ChainOf(states[k], b), tx);
    DebitIsAuthorised(StateBefore(ChainOf(states[k], b), n, i), tx);
  }
}
