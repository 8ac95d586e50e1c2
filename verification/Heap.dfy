/** container/heap over the queue's entries, as functions on sequences, and what they keep. */
module Heap {
  import opened Models

  datatype Entry = Entry(oc: Ocorrencia, prioridade: int, criadaEm: int)

  /** Less: higher priority first, then smaller Lamport time, then earlier creation. */
  predicate Before(a: Entry, b: Entry) {
    if a.prioridade != b.prioridade then a.prioridade > b.prioridade
    else if a.oc.lamportTime != b.oc.lamportTime then a.oc.lamportTime < b.oc.lamportTime
    else a.criadaEm < b.criadaEm
  }

  // --- The operations of container/heap ------------------------------------------

  function Parent(k: nat): (p: nat)
    ensures k > 0 ==> p < k
  {
    if k == 0 then 0 else (k - 1) / 2
  }

  function Swap(h: seq<Entry>, i: nat, j: nat): (r: seq<Entry>)
    requires i < |h| && j < |h|
    ensures |r| == |h|
  {
    h[i := h[j]][j := h[i]]
  }

  function Up(h: seq<Entry>, j: nat): (r: seq<Entry>)
    requires j < |h|
    ensures |r| == |h|
    decreases j
  {
    if j == 0 || !Before(h[j], h[Parent(j)]) then h else Up(Swap(h, Parent(j), j), Parent(j))
  }

  /** The child of i that comes first, among the first n. */
  function FirstChild(h: seq<Entry>, i: nat, n: nat): (j: nat)
    requires 2 * i + 1 < n <= |h|
    ensures i < j < n && Parent(j) == i
    ensures forall k :: 1 <= k < n && Parent(k) == i ==> !Before(h[k], h[j])
  {
    if 2 * i + 2 < n && Before(h[2 * i + 2], h[2 * i + 1]) then 2 * i + 2 else 2 * i + 1
  }

  /** Whether `down` swaps at all: the result it returns. */
  predicate Sinks(h: seq<Entry>, i: nat, n: nat)
    requires i <= n <= |h|
  {
    2 * i + 1 < n && Before(h[FirstChild(h, i, n)], h[i])
  }

  function Down(h: seq<Entry>, i: nat, n: nat): (r: seq<Entry>)
    requires i <= n <= |h|
    ensures |r| == |h|
    decreases n - i
  {
    if !Sinks(h, i, n) then h
    else
      var j := FirstChild(h, i, n);
      Down(Swap(h, i, j), j, n)
  }

  /** The loop of heap.Init, which has the nodes below k still to sink. */
  function InitFrom(h: seq<Entry>, k: nat): (r: seq<Entry>)
    requires k <= |h|
    ensures |r| == |h|
    decreases k
  {
    if k == 0 then h else InitFrom(Down(h, k - 1, |h|), k - 1)
  }

  function Init(h: seq<Entry>): (r: seq<Entry>)
    ensures |r| == |h|
  {
    InitFrom(h, |h| / 2)
  }

  function Push(h: seq<Entry>, e: Entry): (r: seq<Entry>)
    ensures |r| == |h| + 1
  {
    Up(h + [e], |h|)
  }

  /** Sinks the last entry from the root over the others; the former root is then at the end. */
  function PopArray(h: seq<Entry>): (r: seq<Entry>)
    requires h != []
    ensures |r| == |h|
  {
    Down(Swap(h, 0, |h| - 1), 0, |h| - 1)
  }

  function Pop(h: seq<Entry>): (r: seq<Entry>)
    requires h != []
    ensures |r| == |h| - 1
  {
    PopArray(h)[..|h| - 1]
  }

  function RemoveArray(h: seq<Entry>, i: nat): (r: seq<Entry>)
    requires i < |h|
    ensures |r| == |h|
  {
    var n := |h| - 1;
    if n == i then h
    else
      var s := Swap(h, i, n);
      if Sinks(s, i, n) then Down(s, i, n) else Up(s, i)
  }

  function Remove(h: seq<Entry>, i: nat): (r: seq<Entry>)
    requires i < |h|
    ensures |r| == |h| - 1
  {
    RemoveArray(h, i)[..|h| - 1]
  }

  // --- Contents ---------------------------------------------------------------------

  lemma SwapContents(h: seq<Entry>, i: nat, j: nat)
    requires i < |h| && j < |h|
    ensures multiset(Swap(h, i, j)) == multiset(h)
  {
  }

  lemma SwapAt(h: seq<Entry>, i: nat, j: nat)
    requires i < |h| && j < |h|
    ensures Swap(h, i, j)[i] == h[j] && Swap(h, i, j)[j] == h[i]
  {
  }

  lemma {:induction false} UpContents(h: seq<Entry>, j: nat)
    requires j < |h|
    ensures multiset(Up(h, j)) == multiset(h)
    ensures forall k :: j < k < |h| ==> Up(h, j)[k] == h[k]
    decreases j
  {
    if j > 0 && Before(h[j], h[Parent(j)]) {
      SwapContents(h, Parent(j), j);
      UpContents(Swap(h, Parent(j), j), Parent(j));
    }
  }

  lemma {:induction false} DownContents(h: seq<Entry>, i: nat, n: nat)
    requires i <= n <= |h|
    ensures multiset(Down(h, i, n)) == multiset(h)
    ensures forall k :: n <= k < |h| ==> Down(h, i, n)[k] == h[k]
    decreases n - i
  {
    if Sinks(h, i, n) {
      var j := FirstChild(h, i, n);
      SwapContents(h, i, j);
      DownContents(Swap(h, i, j), j, n);
    }
  }

  lemma {:induction false} InitFromContents(h: seq<Entry>, k: nat)
    requires k <= |h|
    ensures multiset(InitFrom(h, k)) == multiset(h)
    decreases k
  {
    if k > 0 {
      DownContents(h, k - 1, |h|);
      InitFromContents(Down(h, k - 1, |h|), k - 1);
    }
  }

  lemma PushContents(h: seq<Entry>, e: Entry)
    ensures multiset(Push(h, e)) == multiset(h) + multiset{e}
  {
    UpContents(h + [e], |h|);
  }

  /** Pop cuts off exactly the root. */
  lemma PopContents(h: seq<Entry>)
    requires h != []
    ensures PopArray(h)[|h| - 1] == h[0]
    ensures multiset(h) == multiset(Pop(h)) + multiset{h[0]}
  {
    hide Down, Swap;
    SwapContents(h, 0, |h| - 1);
    SwapAt(h, 0, |h| - 1);
    DownContents(Swap(h, 0, |h| - 1), 0, |h| - 1);
    assert PopArray(h) == Pop(h) + [h[0]];
  }

  /** Remove cuts off exactly entry i. */
  lemma RemoveContents(h: seq<Entry>, i: nat)
    requires i < |h|
    ensures RemoveArray(h, i)[|h| - 1] == h[i]
    ensures multiset(h) == multiset(Remove(h, i)) + multiset{h[i]}
  {
    var n := |h| - 1;
    if n != i {
      SwapContents(h, i, n);
      DownContents(Swap(h, i, n), i, n);
      UpContents(Swap(h, i, n), i);
    }
    assert RemoveArray(h, i) == Remove(h, i) + [h[i]];
  }

  // --- Heap order -------------------------------------------------------------------

  /** Parents at lo or above come no later than their children, among the first n. */
  ghost predicate Ordered(h: seq<Entry>, n: nat, lo: nat)
    requires n <= |h|
  {
    forall k :: 1 <= k < n && Parent(k) >= lo ==> !Before(h[k], h[Parent(k)])
  }

  ghost predicate IsHeap(h: seq<Entry>) {
    Ordered(h, |h|, 0)
  }

  /** Ordered but for i and its children, which come no earlier than i's parent. */
  ghost predicate OrderedBut(h: seq<Entry>, i: nat, n: nat, lo: nat)
    requires n <= |h|
  {
    && (forall k :: 1 <= k < n && Parent(k) >= lo && Parent(k) != i && k != i ==> !Before(h[k], h[Parent(k)]))
    && (forall k :: 1 <= k < n && 1 <= i && Parent(i) >= lo && Parent(k) == i ==> !Before(h[k], h[Parent(i)]))
  }

  lemma {:induction false} DownOrders(h: seq<Entry>, i: nat, n: nat, lo: nat)
    requires i <= n <= |h| && OrderedBut(h, i, n, lo)
    requires 1 <= i < n && Parent(i) >= lo ==> !Before(h[i], h[Parent(i)])
    ensures Ordered(Down(h, i, n), n, lo)
    decreases n - i
  {
    if Sinks(h, i, n) {
      var j := FirstChild(h, i, n);
      DownOrders(Swap(h, i, j), j, n, lo);
    } else {
      forall k | 1 <= k < n && Parent(k) == i ensures !Before(h[k], h[i]) {
        assert 2 * i + 1 < n;
      }
    }
  }

  lemma {:induction false} UpOrders(h: seq<Entry>, j: nat, n: nat)
    requires j < n <= |h| && OrderedBut(h, j, n, 0)
    requires forall k :: 1 <= k < n && Parent(k) == j ==> !Before(h[k], h[j])
    ensures Ordered(Up(h, j), n, 0)
    decreases j
  {
    if j > 0 && Before(h[j], h[Parent(j)]) {
      UpOrders(Swap(h, Parent(j), j), Parent(j), n);
    }
  }

  lemma {:induction false} InitFromOrders(h: seq<Entry>, k: nat)
    requires k <= |h| && Ordered(h, |h|, k)
    ensures IsHeap(InitFrom(h, k))
    decreases k
  {
    hide Down, InitFrom;
    InitFromStep(h, k);
    if k > 0 {
      DownOrders(h, k - 1, |h|, k - 1);
      InitFromOrders(Down(h, k - 1, |h|), k - 1);
    }
  }

  lemma InitFromStep(h: seq<Entry>, k: nat)
    requires k <= |h|
    ensures InitFrom(h, k) == if k == 0 then h else InitFrom(Down(h, k - 1, |h|), k - 1)
  {
    hide Down;
  }

  lemma InitIsHeap(h: seq<Entry>)
    ensures IsHeap(Init(h))
  {
    InitFromOrders(h, |h| / 2);
  }

  lemma PushIsHeap(h: seq<Entry>, e: Entry)
    requires IsHeap(h)
    ensures IsHeap(Push(h, e))
  {
    UpOrders(h + [e], |h|, |h| + 1);
  }

  lemma PopIsHeap(h: seq<Entry>)
    requires h != [] && IsHeap(h)
    ensures IsHeap(Pop(h))
  {
    var n := |h| - 1;
    if n > 0 {
      LastIntoHole(h, 0);
    }
    DownOrders(Swap(h, 0, n), 0, n, 0);
    PrefixOrdered(PopArray(h), n);
  }

  lemma RemoveIsHeap(h: seq<Entry>, i: nat)
    requires i < |h| && IsHeap(h)
    ensures IsHeap(Remove(h, i))
  {
    hide Down, Up, Before, OrderedBut;
    var n := |h| - 1;
    if i != n {
      var s := Swap(h, i, n);
      LastIntoHole(h, i);
      if Sinks(s, i, n) {
        SinkingFitsAbove(s, i, n);
        DownOrders(s, i, n, 0);
      } else {
        FloatingFitsBelow(s, i, n);
        UpOrders(s, i, n);
      }
    }
    PrefixOrdered(RemoveArray(h, i), n);
  }

  lemma SinkingFitsAbove(s: seq<Entry>, i: nat, n: nat)
    requires i < n <= |s| && OrderedBut(s, i, n, 0) && Sinks(s, i, n)
    ensures i >= 1 ==> !Before(s[i], s[Parent(i)])
  {
    assert Before(s[FirstChild(s, i, n)], s[i]);
  }

  lemma FloatingFitsBelow(s: seq<Entry>, i: nat, n: nat)
    requires i < n <= |s| && !Sinks(s, i, n)
    ensures forall k :: 1 <= k < n && Parent(k) == i ==> !Before(s[k], s[i])
  {
    forall k | 1 <= k < n && Parent(k) == i ensures !Before(s[k], s[i]) {
      assert 2 * i + 1 < n;
    }
  }

  lemma LastIntoHole(h: seq<Entry>, i: nat)
    requires i < |h| - 1 && IsHeap(h)
    ensures OrderedBut(Swap(h, i, |h| - 1), i, |h| - 1, 0)
  {
  }

  lemma PrefixOrdered(a: seq<Entry>, n: nat)
    requires n <= |a| && Ordered(a, n, 0)
    ensures IsHeap(a[..n])
  {
  }

  /** No entry comes before the root: Peek returns a minimum under Less. */
  lemma {:induction false} RootIsMinimum(h: seq<Entry>, k: nat)
    requires IsHeap(h) && k < |h|
    ensures !Before(h[k], h[0])
  {
    if k > 0 {
      RootIsMinimum(h, Parent(k));
    }
  }

  /**
   * The root has the highest priority of all, the smallest Lamport time among those of its priority, and the
   * earliest creation among those of its Lamport time too.
   */
  lemma MostUrgentFirst(h: seq<Entry>, e: Entry)
    requires IsHeap(h) && e in h
    ensures h[0].prioridade >= e.prioridade
    ensures h[0].prioridade == e.prioridade ==> h[0].oc.lamportTime <= e.oc.lamportTime
    ensures h[0].prioridade == e.prioridade && h[0].oc.lamportTime == e.oc.lamportTime ==> h[0].criadaEm <= e.criadaEm
  {
    var k :| 0 <= k < |h| && h[k] == e;
    RootIsMinimum(h, k);
  }

  // --- Emptying a heap ------------------------------------------------------------------

  function Drain(h: seq<Entry>): (r: seq<Entry>)
    ensures |r| == |h|
    decreases |h|
  {
    if h == [] then [] else [h[0]] + Drain(Pop(h))
  }

  ghost predicate Sorted(s: seq<Entry>) {
    forall i, j :: 0 <= i < j < |s| ==> !Before(s[j], s[i])
  }

  /** Emptying a heap lists its entries in order. */
  lemma {:induction false} DrainIsSorted(h: seq<Entry>)
    requires IsHeap(h)
    ensures Sorted(Drain(h)) && multiset(Drain(h)) == multiset(h)
    decreases |h|
  {
    if h != [] {
      var rest := Drain(Pop(h));
      PopIsHeap(h);
      PopContents(h);
      DrainIsSorted(Pop(h));
      NoneBeforeRoot(h, rest);
    }
  }

  lemma NoneBeforeRoot(h: seq<Entry>, rest: seq<Entry>)
    requires IsHeap(h) && h != [] && multiset(h) == multiset(rest) + multiset{h[0]}
    ensures forall j :: 0 <= j < |rest| ==> !Before(rest[j], h[0])
  {
    forall j | 0 <= j < |rest| ensures !Before(rest[j], h[0]) {
      assert rest[j] in multiset(rest);
      assert rest[j] in multiset(h);
      var k :| 0 <= k < |h| && h[k] == rest[j];
      RootIsMinimum(h, k);
    }
  }

  /** The order in which Snapshot lists a queue. */
  lemma SnapshotIsSorted(h: seq<Entry>)
    ensures Sorted(Drain(Init(h))) && multiset(Drain(Init(h))) == multiset(h)
  {
    InitIsHeap(h);
    InitFromContents(h, |h| / 2);
    DrainIsSorted(Init(h));
  }

  // --- Ids ----------------------------------------------------------------------------------

  /** No two entries share an occurrence id; a property of the contents alone. */
  ghost predicate UniqueIds(m: multiset<Entry>) {
    && (forall e :: m[e] <= 1)
    && (forall e, f :: e in m && f in m && e.oc.id == f.oc.id ==> e == f)
  }

  function Find(h: seq<Entry>, id: string): (k: nat)
    ensures k <= |h|
    ensures forall i :: 0 <= i < k ==> h[i].oc.id != id
    ensures k < |h| ==> h[k].oc.id == id
  {
    if h == [] || h[0].oc.id == id then 0
    else
      var k := 1 + Find(h[1..], id);
      assert forall i :: 1 <= i < k ==> h[i] == h[1..][i - 1];
      k
  }

  // --- The queue's operations ---------------------------------------------------------------

  const INTERVALO := 30_000_000_000

  /** Go's integer division, which truncates towards zero. */
  function TruncDiv(a: int, b: int): int
    requires b > 0
  {
    if a >= 0 then a / b else -((-a) / b)
  }

  function Aged(e: Entry, now: int): Entry {
    var p := e.oc.criticidade + TruncDiv(now - e.criadaEm, INTERVALO);
    e.(prioridade := if p > CRITICIDADE_ALTA then CRITICIDADE_ALTA else p)
  }

  function AgedAll(h: seq<Entry>, now: int): (r: seq<Entry>)
    ensures |r| == |h| && forall i :: 0 <= i < |h| ==> r[i] == Aged(h[i], now)
  {
    seq(|h|, i requires 0 <= i < |h| => Aged(h[i], now))
  }

  function NewEntry(oc: Ocorrencia): Entry {
    Entry(oc, oc.criticidade, oc.timestamp)
  }

  /** Enfileirar: ignored when the id is already queued. */
  function Enqueue(h: seq<Entry>, oc: Ocorrencia): seq<Entry> {
    if Find(h, oc.id) < |h| then h else Push(h, NewEntry(oc))
  }

  /** Desenfileirar; an empty queue stays empty. */
  function Dequeue(h: seq<Entry>): seq<Entry> {
    if h == [] then h else Pop(h)
  }

  /** Remover. */
  function RemoveId(h: seq<Entry>, id: string): seq<Entry> {
    var k := Find(h, id);
    if k < |h| then Remove(h, k) else h
  }

  /** Envelhecer: heapified again only if some priority changed. */
  function Age(h: seq<Entry>, now: int): (r: seq<Entry>)
    ensures |r| == |h|
  {
    var a := AgedAll(h, now);
    if a != h then Init(a) else h
  }

  /** What every queue operation keeps. */
  ghost predicate GoodQueue(h: seq<Entry>) {
    IsHeap(h) && UniqueIds(multiset(h))
  }

  lemma FindNone(h: seq<Entry>, id: string)
    requires forall i :: 0 <= i < |h| ==> h[i].oc.id != id
    ensures Find(h, id) == |h|
  {
  }

  lemma FindIs(h: seq<Entry>, id: string, k: nat)
    requires k < |h| && h[k].oc.id == id
    requires forall i :: 0 <= i < k ==> h[i].oc.id != id
    ensures Find(h, id) == k
  {
  }

  lemma EnqueueKeeps(h: seq<Entry>, oc: Ocorrencia)
    requires GoodQueue(h)
    ensures GoodQueue(Enqueue(h, oc))
  {
    if Find(h, oc.id) == |h| {
      PushIsHeap(h, NewEntry(oc));
      PushContents(h, NewEntry(oc));
      forall e: Entry | e in multiset(h) ensures e.oc.id != oc.id {
        var i :| 0 <= i < |h| && h[i] == e;
      }
      OneMoreId(multiset(h), NewEntry(oc));
    }
  }

  /** A queued id leaves the queue as it is; any other adds exactly its entry. */
  lemma EnqueueContents(h: seq<Entry>, oc: Ocorrencia)
    ensures if exists i :: 0 <= i < |h| && h[i].oc.id == oc.id then Enqueue(h, oc) == h
            else multiset(Enqueue(h, oc)) == multiset(h) + multiset{NewEntry(oc)}
  {
    PushContents(h, NewEntry(oc));
  }

  lemma DequeueKeeps(h: seq<Entry>)
    requires GoodQueue(h)
    ensures GoodQueue(Dequeue(h))
    ensures h != [] ==> multiset(h) == multiset(Dequeue(h)) + multiset{h[0]}
    ensures forall k :: 0 <= k < |h| ==> !Before(h[k], h[0])
  {
    forall k | 0 <= k < |h| ensures !Before(h[k], h[0]) {
      RootIsMinimum(h, k);
    }
    if h != [] {
      PopIsHeap(h);
      PopContents(h);
      UniquePart(multiset(h), multiset(Pop(h)));
    }
  }

  lemma UniquePart(m: multiset<Entry>, part: multiset<Entry>)
    requires UniqueIds(m) && part <= m
    ensures UniqueIds(part)
  {
  }

  /** Exactly the entry with the id goes. */
  lemma RemoveIdKeeps(h: seq<Entry>, id: string)
    requires GoodQueue(h)
    ensures GoodQueue(RemoveId(h, id))
    ensures forall e :: multiset(RemoveId(h, id))[e] == if e.oc.id == id then 0 else multiset(h)[e]
  {
    var k := Find(h, id);
    if k < |h| {
      RemoveIsHeap(h, k);
      RemoveContents(h, k);
      UniquePart(multiset(h), multiset(Remove(h, k)));
      OnlyOneWithId(multiset(h), multiset(Remove(h, k)), h[k]) by { assert h[k] in multiset(h); }
    } else {
      forall e | e in multiset(h) ensures e.oc.id != id {
        var i :| 0 <= i < |h| && h[i] == e;
      }
    }
  }

  lemma OnlyOneWithId(m: multiset<Entry>, rest: multiset<Entry>, x: Entry)
    requires UniqueIds(m) && m == rest + multiset{x}
    ensures forall e :: rest[e] == if e.oc.id == x.oc.id then 0 else m[e]
  {
    assert m[x] == rest[x] + 1;
    forall e ensures rest[e] == if e.oc.id == x.oc.id then 0 else m[e] {
      assert e != x ==> m[e] == rest[e];
      assert e in m <==> m[e] > 0;
    }
  }

  lemma {:induction false} AgeKeeps(h: seq<Entry>, now: int)
    requires GoodQueue(h)
    ensures GoodQueue(Age(h, now)) && multiset(Age(h, now)) == multiset(AgedAll(h, now))
  {
    var a := AgedAll(h, now);
    AgedUnique(h, now);
    InitIsHeap(a);
    InitFromContents(a, |a| / 2);
  }

  lemma AgedUnique(h: seq<Entry>, now: int)
    requires UniqueIds(multiset(h))
    ensures UniqueIds(multiset(AgedAll(h, now)))
  {
    UniqueByPosition(h);
    UniqueByPosition(AgedAll(h, now));
  }

  ghost predicate UniquePositions(h: seq<Entry>) {
    forall i, j :: 0 <= i < j < |h| ==> h[i].oc.id != h[j].oc.id
  }

  lemma {:induction false} UniqueByPosition(h: seq<Entry>)
    ensures UniqueIds(multiset(h)) <==> UniquePositions(h)
  {
    hide UniqueIds, UniquePositions;
    if h == [] {
      NoEntries();
    } else {
      var n := |h| - 1;
      UniqueByPosition(h[..n]);
      assert h == h[..n] + [h[n]];
      OneMorePosition(h[..n], h[n]);
    }
  }

  lemma NoEntries()
    ensures UniqueIds(multiset([])) && UniquePositions([])
  {
  }

  lemma OneMorePosition(init: seq<Entry>, e: Entry)
    requires UniqueIds(multiset(init)) <==> UniquePositions(init)
    ensures UniqueIds(multiset(init + [e])) <==> UniquePositions(init + [e])
  {
    hide UniqueIds, UniquePositions;
    if UniqueIds(multiset(init + [e])) {
      IdsToPositions(init, e);
    }
    if UniquePositions(init + [e]) {
      PositionsToIds(init, e);
    }
  }

  lemma IdsToPositions(init: seq<Entry>, e: Entry)
    requires UniqueIds(multiset(init)) ==> UniquePositions(init)
    requires UniqueIds(multiset(init + [e]))
    ensures UniquePositions(init + [e])
  {
    hide UniqueIds;
    var h := init + [e];
    assert multiset(h) == multiset(init) + multiset{e};
    UniquePart(multiset(h), multiset(init));
    OnlyOneWithId(multiset(h), multiset(init), e);
    forall i | 0 <= i < |init| ensures init[i].oc.id != e.oc.id {
      assert multiset(init)[init[i]] > 0;
    }
  }

  lemma PositionsToIds(init: seq<Entry>, e: Entry)
    requires UniquePositions(init) ==> UniqueIds(multiset(init))
    requires UniquePositions(init + [e])
    ensures UniqueIds(multiset(init + [e]))
  {
    hide UniqueIds;
    var h := init + [e];
    assert multiset(h) == multiset(init) + multiset{e};
    forall i, j | 0 <= i < j < |init| ensures init[i].oc.id != init[j].oc.id {
      assert h[i] == init[i] && h[j] == init[j];
    }
    forall f: Entry | f in multiset(init) ensures f.oc.id != e.oc.id {
      var i :| 0 <= i < |init| && init[i] == f;
      assert h[i] == f && h[|init|] == e;
    }
    OneMoreId(multiset(init), e);
  }

  lemma OneMoreId(m: multiset<Entry>, x: Entry)
    requires UniqueIds(m) && forall e :: e in m ==> e.oc.id != x.oc.id
    ensures UniqueIds(m + multiset{x})
  {
  }
}
