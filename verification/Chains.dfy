/** chain.go: the Blockchain object, its maps rebuilt in place. */
module Chains {
  import opened Models
  import opened Hashing
  import opened Ledger

  function ErrorOf<T>(r: Outcome<T>): Option<Error> {
    if r.Err? then Some(r.error) else None
  }

  class Blockchain {
    var blocks: seq<Block>
    var mempool: seq<Transaction>
    var balances: map<string, int>
    var vessels: map<string, string>
    var companies: map<string, string>
    var companyPubKeys: map<string, string>

    ghost function Derived(): State
      reads this
    {
      State(balances, vessels, companies, companyPubKeys)
    }

    /** The derived maps are what a replay of all blocks gives. */
    ghost predicate Valid()
      reads this
    {
      Derived() == StateOf(blocks)
    }

    ghost function View(): Chain
      reads this
    {
      Chain(blocks, mempool)
    }

    /** A broker without a file starts on the genesis block. */
    constructor Genesis()
      ensures Valid() && View() == Chain([Ledger.Genesis()], [])
    {
      hide HashBlock, StateOf, GetAddress, KeyOf;
      blocks, mempool := [], [];
      balances, vessels, companies, companyPubKeys := map[], map[], map[], map[];
      new;
      var genesisTxs: seq<Transaction> := [];
      for i := 0 to |COMPANIES|
        invariant genesisTxs == GenesisTxs(COMPANIES[..i])
        invariant blocks == [] && mempool == []
      {
        genesisTxs := genesisTxs + [GenesisMint(COMPANIES[i]), GenesisReg(COMPANIES[i])];
      }
      assert COMPANIES[..|COMPANIES|] == COMPANIES;
      var b := Block(0, Moment(GENESIS_TIME, 0), genesisTxs, GENESIS_PREV, GENESIS_PREV, "GENESIS", []);
      blocks := [b.(hash := HashBlock(b))];
      RebuildState();
    }

    /** Load from a saved file. */
    constructor Load(saved: Chain)
      ensures Valid() && View() == saved
    {
      blocks, mempool := saved.blocks, saved.mempool;
      balances, vessels, companies, companyPubKeys := map[], map[], map[], map[];
      new;
      RebuildState();
    }

    method ApplyTx(tx: Transaction)
      modifies this`balances, this`vessels, this`companies, this`companyPubKeys
      ensures Derived() == Apply(old(Derived()), tx)
    {
      match tx.kind
      case Mint =>
        balances := balances[tx.to := Bal(balances, tx.to) + tx.amount];
      case Register =>
        companies := companies[tx.from := tx.payload];
        companyPubKeys := companyPubKeys[tx.from := tx.publicKey];
      case VesselReg =>
        vessels := vessels[tx.vesselId := tx.from];
      case VesselLost =>
        vessels := vessels - {tx.vesselId};
      case Transfer =>
        balances := balances[tx.from := Bal(balances, tx.from) - tx.amount];
        balances := balances[tx.to := Bal(balances, tx.to) + tx.amount];
      case DroneUsage =>
        balances := balances[tx.from := Bal(balances, tx.from) - tx.amount];
        balances := balances[tx.to := Bal(balances, tx.to) + tx.amount];
      case BrokerFee =>
        balances := balances[tx.from := Bal(balances, tx.from) - tx.amount];
        balances := balances[tx.to := Bal(balances, tx.to) + tx.amount];
      case MissionLog =>
    }

    method RebuildState()
      modifies this`balances, this`vessels, this`companies, this`companyPubKeys
      ensures Derived() == StateOf(blocks)
    {
      hide Apply;
      balances, vessels, companies, companyPubKeys := map[], map[], map[], map[];
      for i := 0 to |blocks|
        invariant Derived() == StateOf(blocks[..i])
      {
        var txs := blocks[i].transactions;
        ghost var done := AllTxs(blocks[..i]);
        assert done + txs[..0] == done;
        for j := 0 to |txs|
          invariant Derived() == Replay(EMPTY, done + txs[..j])
        {
          ApplyTx(txs[j]);
          assert (done + txs[..j + 1])[..|done| + j] == done + txs[..j];
        }
        assert txs[..|txs|] == txs;
        assert blocks[..i + 1][..i] == blocks[..i];
      }
      assert blocks[..|blocks|] == blocks;
    }

    method AddTxToMempool(transaction: Transaction) returns (err: Option<Error>)
      requires Valid()
      modifies this`mempool
      ensures Valid() && View() == Admit(old(View()), transaction)
      ensures err == AdmitError(old(View()), WithId(transaction))
    {
      hide StateOf, AllTxs, HashTx, PendingSpent, HasId, VerifyTxSignature, GetAddress;
      var tx := transaction;
      var expectedId := HashTx(tx);
      if tx.id != expectedId {
        tx := tx.(id := expectedId);
      }
      assert tx == WithId(transaction);

      var pending := InPool(tx.id);
      if pending {
        return Some(InMempool);
      }
      var found := InBlocks(tx.id);
      if found {
        return Some(InBlock);
      }
      if tx.kind != Mint {
        if !VerifyTxSignature(tx) {
          return Some(BadSignature);
        }
        if tx.from != GetAddress(tx.publicKey) {
          return Some(AddressMismatch);
        }
      }
      if tx.kind == Transfer || tx.kind == DroneUsage || tx.kind == BrokerFee {
        var pendingSpent := SpentInPool(tx.from);
        if Bal(balances, tx.from) < tx.amount + pendingSpent {
          return Some(InsufficientBalance);
        }
      }
      if tx.kind == Register && tx.payload == "" {
        return Some(EmptyCompanyName);
      }
      if tx.kind == VesselReg {
        if tx.vesselId == "" {
          return Some(MissingVesselId);
        }
        if tx.from !in companies {
          return Some(CompanyNotRegistered);
        }
      }
      mempool := mempool + [tx];
      return None;
    }

    /** The search through the mempool for a transaction id. */
    method InPool(id: Digest) returns (found: bool)
      ensures found <==> HasId(mempool, id)
    {
      for i := 0 to |mempool|
        invariant !HasId(mempool[..i], id)
      {
        if mempool[i].id == id {
          return true;
        }
      }
      assert mempool[..|mempool|] == mempool;
      return false;
    }

    /** The sum over the mempool of everything one address sends. */
    method SpentInPool(from: string) returns (pendingSpent: int)
      ensures pendingSpent == PendingSpent(mempool, from)
    {
      pendingSpent := 0;
      for i := 0 to |mempool|
        invariant pendingSpent == PendingSpent(mempool[..i], from)
      {
        assert mempool[..i + 1][..i] == mempool[..i];
        if mempool[i].from == from {
          pendingSpent := pendingSpent + mempool[i].amount;
        }
      }
      assert mempool[..|mempool|] == mempool;
    }

    /** The search through all blocks for a transaction id. */
    method InBlocks(id: Digest) returns (found: bool)
      ensures found <==> HasId(AllTxs(blocks), id)
    {
      found := false;
      for i := 0 to |blocks|
        invariant found <==> HasId(AllTxs(blocks[..i]), id)
      {
        var txs := blocks[i].transactions;
        ghost var done := AllTxs(blocks[..i]);
        assert blocks[..i + 1][..i] == blocks[..i];
        assert AllTxs(blocks[..i + 1]) == done + txs;
        assert done + txs[..0] == done;
        for j := 0 to |txs|
          invariant found <==> HasId(done + txs[..j], id)
        {
          HasIdAppend(done, txs, j, id);
          if txs[j].id == id {
            found := true;
          }
        }
        assert txs[..|txs|] == txs;
      }
      assert blocks[..|blocks|] == blocks;
    }

    /** The dry run over temporary copies of the maps. */
    method ValidateBlockTransactions(b: Block) returns (err: Option<Error>)
      requires Valid()
      ensures err == ErrorOf(VetAll(TempOf(StateOf(blocks)), b.transactions))
    {
      var temp := Temp(balances, companies, vessels);
      ghost var start := temp;
      var txs := b.transactions;
      for i := 0 to |txs|
        invariant VetAll(start, txs[..i]) == Ok(temp)
      {
        assert txs[..i + 1][..i] == txs[..i];
        var before := temp;
        err, temp := VetOne(before, txs[i]);
        if err.Some? {
          RejectedTail(start, txs, i + 1);
          return;
        }
      }
      assert txs[..|txs|] == txs;
      return None;
    }

    /** The body of the validation loop. */
    static method VetOne(before: Temp, tx: Transaction) returns (err: Option<Error>, temp: Temp)
      ensures err == ErrorOf(Vet(before, tx))
      ensures err.None? ==> Vet(before, tx) == Ok(temp)
    {
      temp := before;
      err := AuthError(tx);
      if err.Some? {
        return;
      }
      match tx.kind
      case Transfer =>
        err, temp := VetPayment(before, tx);
      case DroneUsage =>
        err, temp := VetPayment(before, tx);
      case BrokerFee =>
        err, temp := VetPayment(before, tx);
      case Mint =>
        temp := temp.(balances := temp.balances[tx.to := Bal(temp.balances, tx.to) + tx.amount]);
      case Register =>
        if tx.payload == "" {
          return Some(EmptyCompanyName), temp;
        }
        temp := temp.(companies := temp.companies[tx.from := tx.payload]);
      case VesselReg =>
        if tx.vesselId == "" {
          return Some(MissingVesselId), temp;
        }
        if tx.from !in temp.companies {
          return Some(CompanyNotRegistered), temp;
        }
        temp := temp.(vessels := temp.vessels[tx.vesselId := tx.from]);
      case VesselLost =>
        temp := temp.(vessels := temp.vessels - {tx.vesselId});
      case MissionLog =>
    }

    static method VetPayment(before: Temp, tx: Transaction) returns (err: Option<Error>, temp: Temp)
      ensures err == ErrorOf(VetDebit(before, tx))
      ensures err.None? ==> VetDebit(before, tx) == Ok(temp)
    {
      temp := before;
      if Bal(temp.balances, tx.from) < tx.amount {
        return Some(InsufficientBalance), temp;
      }
      temp := temp.(balances := temp.balances[tx.from := Bal(temp.balances, tx.from) - tx.amount]);
      temp := temp.(balances := temp.balances[tx.to := Bal(temp.balances, tx.to) + tx.amount]);
      err := None;
    }

    method AddBlock(b: Block) returns (err: Option<Error>)
      requires Valid() && blocks != []
      modifies this
      ensures Valid() && View() == Extend(old(View()), b)
      ensures err == BlockError(old(blocks), b)
    {
      hide BlockError, StateOf, Without;
      err := Reject(b);
      if err.None? {
        Append(b);
      }
    }

    /** The checks of AddBlock, in its order. */
    method Reject(b: Block) returns (err: Option<Error>)
      requires Valid() && blocks != []
      ensures err == BlockError(blocks, b)
    {
      hide VetAll, StateOf, HashBlock;
      err := ValidateBlockTransactions(b);
      if err.Some? {
        return;
      }
      var latest := blocks[|blocks| - 1];
      if b.index != latest.index + 1 {
        return Some(BadIndex);
      }
      if b.prevHash != latest.hash {
        return Some(BadPrevHash);
      }
      if b.hash != HashBlock(b) {
        return Some(BadHash);
      }
      return None;
    }

    /** What AddBlock does with a block that passed its checks. */
    method Append(b: Block)
      modifies this
      ensures Valid() && View() == Chain(old(blocks) + [b], Without(old(mempool), b.transactions))
    {
      hide StateOf, Without;
      blocks := blocks + [b];
      Prune(b.transactions);
      RebuildState();
    }

    /** Removes the confirmed transactions from the mempool. */
    method Prune(confirmed: seq<Transaction>)
      modifies this`mempool
      ensures mempool == Without(old(mempool), confirmed)
    {
      var newMempool: seq<Transaction> := [];
      for i := 0 to |mempool|
        invariant mempool == old(mempool)
        invariant newMempool == Without(mempool[..i], confirmed)
      {
        assert mempool[..i + 1][..i] == mempool[..i];
        var found := false;
        for j := 0 to |confirmed|
          invariant !HasId(confirmed[..j], mempool[i].id)
        {
          if mempool[i].id == confirmed[j].id {
            found := true;
            break;
          }
        }
        assert confirmed[..|confirmed|] == confirmed;
        if !found {
          newMempool := newMempool + [mempool[i]];
        }
      }
      assert mempool[..|mempool|] == mempool;
      mempool := newMempool;
    }

    /** Adopts the given blocks as they are; the mempool is left alone. */
    method ReplaceChain(novos: seq<Block>)
      modifies this
      ensures Valid() && View() == Chain(novos, old(mempool))
    {
      blocks := novos;
      RebuildState();
    }
  }

  lemma HasIdAppend(done: seq<Transaction>, txs: seq<Transaction>, j: nat, id: Digest)
    requires j < |txs|
    ensures HasId(done + txs[..j + 1], id) <==> HasId(done + txs[..j], id) || txs[j].id == id
  {
    var a, b := done + txs[..j], done + txs[..j + 1];
    assert b == a + [txs[j]];
    if HasId(a, id) {
      var k :| 0 <= k < |a| && a[k].id == id;
      assert b[k].id == id;
    }
    assert b[|a|] == txs[j];
  }

  /** Once a prefix is rejected the whole list is rejected with the same error. */
  lemma {:induction false} RejectedTail(t: Temp, txs: seq<Transaction>, n: nat)
    requires n <= |txs| && VetAll(t, txs[..n]).Err?
    ensures VetAll(t, txs) == VetAll(t, txs[..n])
  {
    if n == |txs| {
      assert txs[..n] == txs;
    } else {
      assert txs[..|txs| - 1][..n] == txs[..n];
      RejectedTail(t, txs[..|txs| - 1], n);
    }
  }
}
