/** Exactly which transactions AddTxToMempool and the dry run accept, and that their errors name a real fault. */
module Admission {
  import opened Models
  import opened Hashing
  import opened Ledger
  import opened Authority
  import Accounting

  // --- What counts against a sender -------------------------------------------------------

  /** A pending amount counts against its own sender, whatever its kind, and against nobody else. */
  lemma SpentAppend(mempool: seq<Transaction>, t: Transaction, a: string)
    ensures PendingSpent(mempool + [t], a) == PendingSpent(mempool, a) + if t.from == a then t.amount else 0
  {
    assert (mempool + [t])[..|mempool|] == mempool;
  }

  /** Entries of other senders may come and go. */
  lemma {:induction false} OthersDoNotCount(m: seq<Transaction>, others: seq<Transaction>, a: string)
    requires forall t :: t in others ==> t.from != a
    ensures PendingSpent(m + others, a) == PendingSpent(m, a)
    decreases |others|
  {
    if others == [] {
      assert m + others == m;
    } else {
      var init, t := others[..|others| - 1], others[|others| - 1];
      OthersDoNotCount(m, init, a);
      SpentAppend(m + init, t, a);
      assert m + others == m + init + [t];
    }
  }

  // --- Who may do what --------------------------------------------------------------------

  /** A mint needs no signature; anything else one seal of the sender's key over what the kind signs. */
  predicate Authorised(t: Transaction) {
    t.kind == Mint || AuthorisedBy(t, t.publicKey)
  }

  /** What a kind asks of its own fields and of the companies registered so far. */
  predicate WellFormed(companies: map<string, string>, t: Transaction) {
    && (t.kind == Register ==> t.payload != "")
    && (t.kind == VesselReg ==> t.vesselId != "" && t.from in companies)
  }

  lemma AuthorisedExactly(t: Transaction)
    ensures AuthError(t).None? <==> Authorised(t)
  {
    hide HashTx;
  }

  /** A step of the dry run passes exactly authorised, well-formed transactions whose debit the payer can pay. */
  lemma VetExactly(s: State, t: Transaction)
    ensures Vet(TempOf(s), t).Ok? <==>
            && Authorised(t) && WellFormed(s.companies, t)
            && (t.kind in {Transfer, DroneUsage, BrokerFee} ==> t.amount <= Bal(s.balances, t.from))
  {
    hide HashTx, Bal, Credit, Authorised, AuthError;
    AuthorisedExactly(t);
  }

  /**
   * A transaction enters the mempool exactly when it is new there and in the chain, authorised, well-formed and,
   * for a debit, the balance covers it together with the sender's own pending amounts. It is then last.
   */
  lemma AdmitsExactly(c: Chain, t: Transaction)
    ensures var admitted := Admit(c, t) == Chain(c.blocks, c.mempool + [t.(id := HashTx(t))]);
            && (admitted || Admit(c, t) == c)
            && (admitted <==>
                && (forall u :: u in c.mempool + AllTxs(c.blocks) ==> u.id != HashTx(t))
                && Authorised(t) && WellFormed(StateOf(c.blocks).companies, t)
                && (t.kind in {Transfer, DroneUsage, BrokerFee} ==>
                      t.amount + PendingSpent(c.mempool, t.from) <= Bal(StateOf(c.blocks).balances, t.from)))
  {
    hide StateOf, Bal, Authorised, AuthError, TxContent, PendingSpent;
    var w := WithId(t);
    SameButId(t);
    AuthorisedExactly(w);
    var all := AllTxs(c.blocks);
    assert HasId(c.mempool, w.id) <==> exists u :: u in c.mempool && u.id == w.id;
    assert HasId(all, w.id) <==> exists u :: u in all && u.id == w.id;
    assert |c.mempool + [w]| != |c.mempool|;
  }

  /** The id is neither hashed nor signed. */
  lemma SameButId(t: Transaction)
    ensures HashTx(WithId(t)) == HashTx(t) && (Authorised(WithId(t)) <==> Authorised(t))
  {
    hide AmountText, KindName;
  }

  // --- Errors -----------------------------------------------------------------------------

  /** The fault that an error of AddTxToMempool names. */
  ghost predicate Faulty(c: Chain, t: Transaction, error: Error) {
    match error
    case InMempool => exists u :: u in c.mempool && u.id == t.id
    case InBlock => exists u :: u in AllTxs(c.blocks) && u.id == t.id
    case BadSignature => t.kind != Mint && !Verify(t.publicKey, SignedMessage(t), t.signature)
    case AddressMismatch => t.kind != Mint && t.from != "0x" + t.publicKey
    case InsufficientBalance =>
      && t.kind in {Transfer, DroneUsage, BrokerFee}
      && Bal(StateOf(c.blocks).balances, t.from) < t.amount + PendingSpent(c.mempool, t.from)
    case EmptyCompanyName => t.kind == Register && t.payload == ""
    case MissingVesselId => t.kind == VesselReg && t.vesselId == ""
    case CompanyNotRegistered => t.kind == VesselReg && t.from !in StateOf(c.blocks).companies
    case _ => false
  }

  /** An error of AddTxToMempool is the fault it names, and says that the id is new unless it complains of that. */
  lemma ErrorNamesFault(c: Chain, t: Transaction)
    ensures AdmitError(c, t).Some? ==> Faulty(c, t, AdmitError(c, t).value)
    ensures AdmitError(c, t).Some? && AdmitError(c, t).value !in {InMempool, InBlock} ==>
            forall u :: u in c.mempool + AllTxs(c.blocks) ==> u.id != t.id
  {
    hide StateOf, Bal, TxContent, PendingSpent, AllTxs;
  }

  /** The same for the dry run, whose debits meet the balance alone. */
  lemma VetErrorNamesFault(s: State, t: Transaction)
    ensures Vet(TempOf(s), t).Err? ==>
            match Vet(TempOf(s), t).error
            case BadSignature => t.kind != Mint && !Verify(t.publicKey, SignedMessage(t), t.signature)
            case AddressMismatch => t.kind != Mint && t.from != "0x" + t.publicKey
            case InsufficientBalance => IsDebit(t.kind) && Bal(s.balances, t.from) < t.amount
            case EmptyCompanyName => t.kind == Register && t.payload == ""
            case MissingVesselId => t.kind == VesselReg && t.vesselId == ""
            case CompanyNotRegistered => t.kind == VesselReg && t.from !in s.companies
            case _ => false
  {
    hide TxContent, Bal, Credit;
  }
}
