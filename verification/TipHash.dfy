/** What the hash of the last block says about a whole chain. */
module TipHash {
  import opened Models
  import opened Hashing
  import opened Ledger
  import Accounting

  /** A hash-linked chain on the genesis block. */
  ghost predicate Linked(blocks: seq<Block>) {
    && blocks != [] && blocks[0] == Genesis()
    && forall i :: 1 <= i < |blocks| ==> Follows(blocks[i - 1], blocks[i])
  }

  predicate Follows(a: Block, b: Block) {
    b.index == a.index + 1 && b.prevHash == a.hash && b.hash == HashBlock(b)
  }

  predicate PlainTxs(txs: seq<Transaction>) {
    forall k :: 0 <= k < |txs| ==> Plain(txs[k])
  }

  /** Every transaction above the genesis block is plain. */
  predicate PlainChain(blocks: seq<Block>) {
    forall h :: 1 <= h < |blocks| ==> PlainTxs(blocks[h].transactions)
  }

  predicate SameHashedTxs(a: seq<Transaction>, b: seq<Transaction>) {
    |a| == |b| && forall i :: 0 <= i < |a| ==> SameHashedFields(a[i], b[i])
  }

  /** Agreement on the fields that HashBlock covers, and on the hash itself. */
  predicate SameHashedBlock(a: Block, b: Block) {
    && a.index == b.index && a.timestamp.second == b.timestamp.second && a.prevHash == b.prevHash
    && a.hash == b.hash && a.validator == b.validator && SameHashedTxs(a.transactions, b.transactions)
  }

  predicate SameHashedChain(xs: seq<Block>, ys: seq<Block>) {
    |xs| == |ys| && forall h :: 0 <= h < |xs| ==> SameHashedBlock(xs[h], ys[h])
  }

  lemma {:induction false} IndexIsHeight(blocks: seq<Block>, i: nat)
    requires Linked(blocks) && i < |blocks|
    ensures blocks[i].index == i && blocks[i].hash == HashBlock(blocks[i])
  {
    if i > 0 {
      IndexIsHeight(blocks, i - 1);
      assert Follows(blocks[i - 1], blocks[i]);
    }
  }

  lemma SameDigestsSameFields(a: seq<Transaction>, b: seq<Transaction>)
    requires HashTxs(a) == HashTxs(b) && PlainTxs(a)
    ensures SameHashedTxs(a, b)
  {
    hide Plain, TxContent;
    forall i | 0 <= i < |a| ensures SameHashedFields(a[i], b[i]) {
      assert HashTxs(a)[i] == HashTxs(b)[i];
      TxContentInjective(a[i], b[i]);
    }
  }

  lemma LinkedPrefix(blocks: seq<Block>, n: nat)
    requires Linked(blocks) && 0 < n <= |blocks|
    ensures Linked(blocks[..n])
  {
  }

  /** Equal tip hashes: equal length, and the same hash at every height. */
  lemma {:induction false} TipHashFixesHashes(xs: seq<Block>, ys: seq<Block>)
    requires Linked(xs) && Linked(ys) && Last(xs).hash == Last(ys).hash
    ensures |xs| == |ys| && forall i :: 0 <= i < |xs| ==> xs[i].hash == ys[i].hash
    decreases |xs|
  {
    var m, n := |xs| - 1, |ys| - 1;
    IndexIsHeight(xs, m);
    IndexIsHeight(ys, n);
    assert m == n;
    if m > 0 {
      assert Follows(xs[m - 1], xs[m]) && Follows(ys[n - 1], ys[n]);
      LinkedPrefix(xs, m);
      LinkedPrefix(ys, n);
      TipHashFixesHashes(xs[..m], ys[..n]);
      assert forall i :: 0 <= i < m ==> xs[i].hash == xs[..m][i].hash && ys[i].hash == ys[..n][i].hash;
    }
  }

  /** The tip hash of a plain chain fixes every hashed field at every height, whatever the other chain holds. */
  lemma TipHashFixesChain(xs: seq<Block>, ys: seq<Block>)
    requires Linked(xs) && PlainChain(xs) && Linked(ys) && Last(xs).hash == Last(ys).hash
    ensures SameHashedChain(xs, ys)
  {
    TipHashFixesHashes(xs, ys);
    forall h | 0 <= h < |xs| ensures SameHashedBlock(xs[h], ys[h]) {
      IndexIsHeight(xs, h);
      IndexIsHeight(ys, h);
      if h > 0 {
        SameDigestsSameFields(xs[h].transactions, ys[h].transactions);
      }
    }
  }

  /** Exactly the plain chains are fixed by their tip hash among all linked chains. */
  lemma TipHashFixesExactly(xs: seq<Block>)
    requires Linked(xs)
    ensures (forall ys :: Linked(ys) && Last(ys).hash == Last(xs).hash ==> SameHashedChain(xs, ys)) <==> PlainChain(xs)
  {
    hide SameHashedChain, Plain, Follows, Genesis;
    if PlainChain(xs) {
      forall ys | Linked(ys) && Last(ys).hash == Last(xs).hash ensures SameHashedChain(xs, ys) {
        TipHashFixesChain(xs, ys);
      }
    } else {
      var h :| 1 <= h < |xs| && !PlainTxs(xs[h].transactions);
      var k :| 0 <= k < |xs[h].transactions| && !Plain(xs[h].transactions[k]);
      var ys := ColonAlwaysAmbiguous(xs, h, k);
      DifferentChain(xs, ys, h, k);
      assert Linked(ys) && Last(ys).hash == Last(xs).hash && !SameHashedChain(xs, ys);
    }
  }

  lemma DifferentChain(xs: seq<Block>, ys: seq<Block>, h: nat, k: nat)
    requires h < |xs| && h < |ys| && k < |xs[h].transactions| && k < |ys[h].transactions|
    requires !SameHashedFields(ys[h].transactions[k], xs[h].transactions[k])
    ensures !SameHashedChain(xs, ys)
  {
  }

  lemma {:induction false} SameBlocksSameTxs(xs: seq<Block>, ys: seq<Block>)
    requires SameHashedChain(xs, ys)
    ensures SameHashedTxs(AllTxs(xs), AllTxs(ys))
  {
    if xs != [] {
      SameBlocksSameTxs(xs[..|xs| - 1], ys[..|ys| - 1]);
      assert SameHashedBlock(xs[|xs| - 1], ys[|ys| - 1]);
    }
  }

  lemma {:induction false} SameTxsSameState(s: State, a: seq<Transaction>, b: seq<Transaction>)
    requires SameHashedTxs(a, b)
    ensures TempOf(Replay(s, a)) == TempOf(Replay(s, b))
  {
    if a != [] {
      SameTxsSameState(s, a[..|a| - 1], b[..|b| - 1]);
      assert SameHashedFields(a[|a| - 1], b[|b| - 1]);
    }
  }

  /**
   * Any chain with the tip hash of a plain chain holds the same balances, companies and vessels and gives
   * the same verdict, error included, on every block offered to AddBlock.
   */
  lemma TipHashDeterminesState(xs: seq<Block>, ys: seq<Block>)
    requires Linked(xs) && PlainChain(xs) && Linked(ys) && Last(xs).hash == Last(ys).hash
    ensures TempOf(StateOf(xs)) == TempOf(StateOf(ys))
    ensures forall b :: BlockError(xs, b) == BlockError(ys, b)
  {
    TipHashFixesChain(xs, ys);
    SameBlocksSameTxs(xs, ys);
    SameTxsSameState(EMPTY, AllTxs(xs), AllTxs(ys));
    assert SameHashedBlock(Last(xs), Last(ys));
  }

  /**
   * One colon in the payload of a signed vessel registration is enough: two chains that AddBlock built from the
   * genesis block have one tip hash and register different vessels.
   */
  lemma ColonBreaksTipHash() returns (xs: seq<Block>, ys: seq<Block>)
    ensures Accounting.Reached(xs) && Accounting.Reached(ys) && |xs| == |ys| == 2 && Last(xs).hash == Last(ys).hash
    ensures |xs[1].transactions| == 1 && xs[1].transactions[0].payload == "x:y"
    ensures Plain(xs[1].transactions[0].(payload := ""))
    ensures StateOf(xs).vessels != StateOf(ys).vessels
  {
    hide Genesis, StateOf, Vet, HashTx, Accounting.Reached;
    var t, u := TwinRegistrations();
    Accounting.FirstBlockAccepted(t);
    Accounting.FirstBlockAccepted(u);
    xs, ys := [Genesis()] + [Accounting.FirstBlock(t)], [Genesis()] + [Accounting.FirstBlock(u)];
    assert HashTxs([t]) == HashTxs([u]);
    OneRegistration(t);
    OneRegistration(u);
    MapsApart(t.vesselId, t.from, u.vesselId, u.from);
  }

  /** And it fails for every chain: a transaction that is not plain has a twin that no hash in the chain notices. */
  lemma ColonAlwaysAmbiguous(xs: seq<Block>, h: nat, k: nat) returns (ys: seq<Block>)
    requires Linked(xs) && 1 <= h < |xs| && k < |xs[h].transactions| && !Plain(xs[h].transactions[k])
    ensures Linked(ys) && |ys| == |xs| && forall i :: 0 <= i < |xs| ==> ys[i].hash == xs[i].hash
    ensures |ys[h].transactions| == |xs[h].transactions|
    ensures !SameHashedFields(ys[h].transactions[k], xs[h].transactions[k])
  {
    var txs := xs[h].transactions;
    var u := TxContentAmbiguous(txs[k]);
    var b := xs[h].(transactions := txs[k := u]);
    assert HashTxs(b.transactions) == HashTxs(txs);
    ys := xs[h := b];
    forall i | 1 <= i < |ys| ensures Follows(ys[i - 1], ys[i]) {
      assert Follows(xs[i - 1], xs[i]);
    }
  }

  lemma MapsApart(j: string, v: string, k: string, w: string)
    requires j != k
    ensures map[j := v] != map[k := w]
  {
    assert j in map[j := v] && j !in map[k := w];
  }

  /** Maersk registers "V1" with a colon in the payload; the same signature covers "V1:" without one. */
  lemma TwinRegistrations() returns (t: Transaction, u: Transaction)
    ensures t.kind == VesselReg && u.kind == VesselReg && t.vesselId != u.vesselId
    ensures HashTx(t) == HashTx(u) && t.payload == "x:y" && Plain(t.(payload := ""))
    ensures t.signature == u.signature && t.publicKey == u.publicKey
    ensures Vet(TempOf(StateOf([Genesis()])), t).Ok? && Vet(TempOf(StateOf([Genesis()])), u).Ok?
  {
    hide StateOf, Genesis, TxContent;
    var key := KeyOf("Maersk");
    var draft := Transaction(Literal(""), VesselReg, GetAddress(key), "", key, 0, "V1", "", "x:y", [], 0, 0);
    t := draft.(id := HashTx(draft), signature := [Seal(key, HashTx(draft), 0)]);
    u := t.(vesselId := "V1:", occurrenceId := "x", payload := "y");
    assert "x:y" == "x" + [':'] + "y" && "V1:" == "V1" + [':'] + "";
    assert HashTx(draft) == HashTx(t) by { SameText(draft, t); }
    TwinText(t, u);
    assert |t.vesselId| < |u.vesselId|;
    Accounting.RegisteredAtGenesis("Maersk");
  }

  lemma SameText(t: Transaction, u: Transaction)
    requires SameHashedFields(t, u)
    ensures TxContent(t) == TxContent(u)
  {
  }

  lemma TwinText(t: Transaction, u: Transaction)
    requires t.vesselId == "V1" && t.occurrenceId == "" && t.payload == "x" + [':'] + "y"
    requires u == t.(vesselId := "V1" + [':'] + "", occurrenceId := "x", payload := "y")
    ensures TxContent(t) == TxContent(u)
  {
    var v := t.(occurrenceId := "" + [':'] + "x", payload := "y");
    ShiftIntoTail(t, "x", "y");
    ShiftColon("V1", "", "x", TxTail(v));
  }

  lemma OneRegistration(t: Transaction)
    requires t.kind == VesselReg
    ensures StateOf([Genesis()] + [Accounting.FirstBlock(t)]).vessels == map[t.vesselId := t.from]
  {
    hide HashBlock, StateOf;
    Accounting.FirstBlockState(t);
    NoVesselsAtGenesis();
  }

  lemma NoVesselsAtGenesis()
    ensures StateOf([Genesis()]).vessels == map[]
  {
    hide HashBlock;
    Accounting.TxsOfOne(Genesis());
    VesselsUntouched(EMPTY, GenesisTxs(COMPANIES));
  }

  lemma {:induction false} VesselsUntouched(s: State, txs: seq<Transaction>)
    requires forall tx :: tx in txs ==> tx.kind != VesselReg && tx.kind != VesselLost
    ensures Replay(s, txs).vessels == s.vessels
  {
    if txs != [] {
      assert txs[|txs| - 1] in txs;
      VesselsUntouched(s, txs[..|txs| - 1]);
    }
  }
}
