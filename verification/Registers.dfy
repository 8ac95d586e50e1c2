/** What the registers of a chain say about its history, and what every register keeps on reached chains. */
module Registers {
  import opened Models
  import opened Hashing
  import opened Ledger
  import opened Votes
  import opened Protocol
  import Accounting
  import Admission
  import Runs

  // --- The latest word --------------------------------------------------------------------

  predicate AboutVessel(t: Transaction, v: string) {
    (t.kind == VesselReg || t.kind == VesselLost) && t.vesselId == v
  }

  predicate AboutCompany(t: Transaction, a: string) {
    t.kind == Register && t.from == a
  }

  /** Transaction i registers v for a, and none after it is about v. */
  predicate LatestOwner(txs: seq<Transaction>, i: nat, v: string, a: string)
    requires i < |txs|
  {
    && txs[i].kind == VesselReg && txs[i].vesselId == v && txs[i].from == a
    && forall j :: i < j < |txs| ==> !AboutVessel(txs[j], v)
  }

  /** Transaction i registers company a under this name and key, and none after it registers a. */
  predicate LatestName(txs: seq<Transaction>, i: nat, a: string, name: string, key: string)
    requires i < |txs|
  {
    && txs[i].kind == Register && txs[i].from == a && txs[i].payload == name && txs[i].publicKey == key
    && forall j :: i < j < |txs| ==> !AboutCompany(txs[j], a)
  }

  ghost predicate OwnerIs(txs: seq<Transaction>, v: string, a: string) {
    exists i :: 0 <= i < |txs| && LatestOwner(txs, i, v, a)
  }

  ghost predicate NameIs(txs: seq<Transaction>, a: string, name: string, key: string) {
    exists i :: 0 <= i < |txs| && LatestName(txs, i, a, name, key)
  }

  lemma OwnerAppend(txs: seq<Transaction>, t: Transaction, v: string, a: string)
    ensures OwnerIs(txs + [t], v, a) <==>
            if AboutVessel(t, v) then t.kind == VesselReg && t.from == a else OwnerIs(txs, v, a)
  {
    var more, n := txs + [t], |txs|;
    if AboutVessel(t, v) {
      assert LatestOwner(more, n, v, a) <==> t.kind == VesselReg && t.from == a;
      assert more[n] == t;
    } else if OwnerIs(txs, v, a) {
      var i :| 0 <= i < n && LatestOwner(txs, i, v, a);
      assert LatestOwner(more, i, v, a);
    } else if OwnerIs(more, v, a) {
      var i :| 0 <= i < |more| && LatestOwner(more, i, v, a);
      assert forall j :: i < j < n ==> more[j] == txs[j];
      assert LatestOwner(txs, i, v, a);
    }
  }

  lemma NameAppend(txs: seq<Transaction>, t: Transaction, a: string, name: string, key: string)
    ensures NameIs(txs + [t], a, name, key) <==>
            if AboutCompany(t, a) then t.payload == name && t.publicKey == key else NameIs(txs, a, name, key)
  {
    var more, n := txs + [t], |txs|;
    if AboutCompany(t, a) {
      assert LatestName(more, n, a, name, key) <==> t.payload == name && t.publicKey == key;
      assert more[n] == t;
    } else if NameIs(txs, a, name, key) {
      var i :| 0 <= i < n && LatestName(txs, i, a, name, key);
      assert LatestName(more, i, a, name, key);
    } else if NameIs(more, a, name, key) {
      var i :| 0 <= i < |more| && LatestName(more, i, a, name, key);
      assert forall j :: i < j < n ==> more[j] == txs[j];
      assert LatestName(txs, i, a, name, key);
    }
  }

  /** A vessel belongs to a company exactly when the last transaction about it is that company's registration. */
  lemma {:induction false} OwnerIsLatest(txs: seq<Transaction>, v: string, a: string)
    ensures var vessels := Replay(EMPTY, txs).vessels;
            (v in vessels && vessels[v] == a) <==> OwnerIs(txs, v, a)
  {
    hide OwnerIs, Credit, Move;
    if txs == [] {
      assert !OwnerIs(txs, v, a) by { assert |txs| == 0; NoOwner(v, a); }
    } else {
      var init, t := txs[..|txs| - 1], txs[|txs| - 1];
      OwnerIsLatest(init, v, a);
      OwnerAppend(init, t, v, a);
      assert txs == init + [t];
    }
  }

  lemma NoOwner(v: string, a: string)
    ensures !OwnerIs([], v, a) && forall name, key :: !NameIs([], a, name, key)
  {
  }

  /** A company has the name and the key of its last registration, and is known exactly when it has one. */
  lemma {:induction false} NameIsLatest(txs: seq<Transaction>, a: string, name: string, key: string)
    ensures var s := Replay(EMPTY, txs);
            && (a in s.companies <==> a in s.pubKeys)
            && (a in s.companies && s.companies[a] == name && s.pubKeys[a] == key <==> NameIs(txs, a, name, key))
  {
    hide NameIs, Credit, Move;
    if txs == [] {
      NoOwner("", a);
    } else {
      var init, t := txs[..|txs| - 1], txs[|txs| - 1];
      NameIsLatest(init, a, name, key);
      NameAppend(init, t, a, name, key);
      assert txs == init + [t];
    }
  }

  // --- What the registers keep --------------------------------------------------------------

  /** Companies are named and known by the address of their key; vessels have an id and a known company. */
  ghost predicate InOrder(s: State) {
    && (forall a :: a in s.companies ==> s.companies[a] != "" && a in s.pubKeys && a == "0x" + s.pubKeys[a])
    && (forall v :: v in s.vessels ==> v != "" && s.vessels[v] in s.companies)
  }

  lemma StepInOrder(s: State, t: Transaction)
    requires InOrder(s) && Vet(TempOf(s), t).Ok?
    ensures InOrder(Apply(s, t))
  {
    hide HashTx, Bal, Credit, Move;
    Admission.VetExactly(s, t);
  }

  lemma {:induction false} ListInOrder(s: State, txs: seq<Transaction>)
    requires InOrder(s) && VetAll(TempOf(s), txs).Ok?
    ensures InOrder(Replay(s, txs))
  {
    hide InOrder, Apply, Vet;
    if txs != [] {
      var init := txs[..|txs| - 1];
      ListInOrder(s, init);
      VetAllAgreesWithReplay(s, init);
      StepInOrder(Replay(s, init), txs[|txs| - 1]);
    }
  }

  lemma {:induction false} RegistrationsInOrder(s: State, txs: seq<Transaction>)
    requires InOrder(s)
    requires forall t :: t in txs ==>
               t.kind == Mint || (t.kind == Register && t.payload != "" && t.from == GetAddress(t.publicKey))
    ensures InOrder(Replay(s, txs))
  {
    hide Credit, Bal;
    if txs != [] {
      assert txs[|txs| - 1] in txs;
      RegistrationsInOrder(s, txs[..|txs| - 1]);
    }
  }

  lemma GenesisInOrder()
    ensures InOrder(StateOf([Genesis()]))
  {
    hide HashBlock, InOrder, GenesisTxs, Replay;
    Accounting.TxsOfOne(Genesis());
    NothingInOrder();
    MintsAndRegistrations(COMPANIES);
    RegistrationsInOrder(EMPTY, GenesisTxs(COMPANIES));
  }

  lemma MintsAndRegistrations(names: seq<string>)
    requires forall name :: name in names ==> name != ""
    ensures forall t :: t in GenesisTxs(names) ==>
              t.kind == Mint || (t.kind == Register && t.payload != "" && t.from == GetAddress(t.publicKey))
  {
    hide GetAddress, KeyOf;
    forall t | t in GenesisTxs(names)
      ensures t.kind == Mint || (t.kind == Register && t.payload != "" && t.from == GetAddress(t.publicKey))
    {
      var i :| 0 <= i < |GenesisTxs(names)| && GenesisTxs(names)[i] == t;
      assert names[i / 2] in names;
    }
  }

  lemma NothingInOrder()
    ensures InOrder(EMPTY)
  {
  }

  /** On every chain that AddBlock can build the registers are in order. */
  lemma {:induction false} ReachedInOrder(blocks: seq<Block>)
    requires Accounting.Reached(blocks)
    ensures InOrder(StateOf(blocks))
    decreases |blocks|
  {
    hide InOrder, StateOf, HashBlock, Genesis, VetAll;
    var n := |blocks| - 1;
    if n == 0 {
      GenesisInOrder();
      assert blocks == [Genesis()];
    } else {
      var before, b := blocks[..n], blocks[n];
      Accounting.ReachedPrefix(blocks, n);
      assert Accounting.AcceptedAt(blocks, n);
      ReachedInOrder(before);
      ListInOrder(StateOf(before), b.transactions);
      RebuildIsIncremental(before, b);
      assert blocks == before + [b];
    }
  }

  /** And so they are for every broker at every moment of a run. */
  lemma RegistersOverRuns(states: seq<Sys>, es: seq<Event>, k: nat, b: string)
    requires History(states, es) && k < |states| && b in VALIDATORS
    ensures InOrder(StateOf(ChainOf(states[k], b)))
  {
    hide History, InOrder, StateOf, Accounting.Reached;
    Runs.ChainsAreReached(states, es, k, b);
    ReachedInOrder(ChainOf(states[k], b));
  }

  // --- The genesis state --------------------------------------------------------------------

  lemma {:induction false} GenesisBalance(names: seq<string>, name: string)
    requires forall i, j :: 0 <= i < j < |names| ==> names[i] != names[j]
    ensures Bal(Replay(EMPTY, GenesisTxs(names)).balances, GetAddress(KeyOf(name)))
         == if name in names then 1_000_000_000 else 0
    decreases |names|
  {
    hide Bal, GetAddress, KeyOf, GenesisTxs, GenesisMint, GenesisReg, Apply, Replay, Accounting.Change;
    var a := GetAddress(KeyOf(name));
    if names == [] {
      Accounting.NothingInEmpty(a);
      NoGenesisTxs();
    } else {
      var init, last := names[..|names| - 1], names[|names| - 1];
      GenesisBalance(init, name);
      OneMoreCompany(init, last);
      GenesisPair(Replay(EMPTY, GenesisTxs(init)), last, name);
      assert names == init + [last];
    }
  }

  lemma NoGenesisTxs()
    ensures Replay(EMPTY, GenesisTxs([])) == EMPTY
  {
    assert GenesisTxs([]) == [];
  }

  lemma OneMoreCompany(init: seq<string>, last: string)
    ensures Replay(EMPTY, GenesisTxs(init + [last]))
         == Apply(Apply(Replay(EMPTY, GenesisTxs(init)), GenesisMint(last)), GenesisReg(last))
  {
    hide Apply, GenesisMint, GenesisReg;
    var below, mint, reg := GenesisTxs(init), GenesisMint(last), GenesisReg(last);
    var txs := below + [mint] + [reg];
    assert GenesisTxs(init + [last]) == txs;
    assert txs[..|txs| - 1] == below + [mint] && (below + [mint])[..|below|] == below;
  }

  lemma GenesisPair(s: State, last: string, name: string)
    ensures Bal(Apply(Apply(s, GenesisMint(last)), GenesisReg(last)).balances, GetAddress(KeyOf(name)))
         == Bal(s.balances, GetAddress(KeyOf(name))) + if name == last then 1_000_000_000 else 0
  {
    hide Bal, GetAddress, KeyOf, GenesisMint, GenesisReg, Apply, Accounting.Change;
    var a := GetAddress(KeyOf(name));
    Accounting.ApplyBalance(s, GenesisMint(last), a);
    Accounting.ApplyBalance(Apply(s, GenesisMint(last)), GenesisReg(last), a);
    GenesisChange(last, name);
  }

  lemma GenesisChange(last: string, name: string)
    ensures Accounting.Change(GenesisReg(last), GetAddress(KeyOf(name))) == 0
    ensures Accounting.Change(GenesisMint(last), GetAddress(KeyOf(name)))
         == if name == last then 1_000_000_000 else 0
  {
    var a, b := GetAddress(KeyOf(name)), GetAddress(KeyOf(last));
    assert a[4..] == name && b[4..] == last;
  }

  /** At genesis the five companies hold 1000 ELIS each, and nobody else holds anything. */
  lemma CompaniesAtGenesis(name: string)
    ensures Bal(StateOf([Genesis()]).balances, "0x04" + name)
         == if name in ["Maersk", "MSC", "CMA_CGM", "Hapag_Lloyd", "ONE"] then 1_000_000_000 else 0
  {
    hide HashBlock, Bal, Replay, GenesisTxs;
    Accounting.TxsOfOne(Genesis());
    GenesisBalance(COMPANIES, name);
    assert GetAddress(KeyOf(name)) == "0x04" + name;
  }

  /** The genesis block: ten transactions at 11:20 on the fourth of June 2024, under its own hash. */
  lemma GenesisIs()
    ensures var g := Genesis();
            && g.index == 0 && g.validator == "GENESIS" && g.hash == HashBlock(g) && g.signature == []
            && SecondText(g.timestamp.second) == "2024-06-04 11:20:00" && |g.transactions| == 10
            && g.prevHash == Literal("0000000000000000000000000000000000000000000000000000000000000000")
    ensures forall t :: t in Genesis().transactions ==>
              t.timestamp == 1_717_500_000 * 1_000_000_000 && (t.kind == Mint || t.kind == Register)
  {
    hide HashTxs, SecondText;
    SecondExample();
    assert HashBlock(Genesis()) == Genesis().hash;
  }
}
