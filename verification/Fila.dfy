/** fila.go: the queue of items with back-indices, and container/heap working on it in place. */
module Fila {
  import opened Models
  import Heap

  class Item {
    var ocorrencia: Ocorrencia
    var prioridade: int
    var criadaEm: int
    var indice: int

    constructor (ocorrencia: Ocorrencia, prioridade: int, criadaEm: int)
      ensures Value() == Heap.Entry(ocorrencia, prioridade, criadaEm)
    {
      this.ocorrencia, this.prioridade, this.criadaEm, this.indice := ocorrencia, prioridade, criadaEm, 0;
    }

    /** The item without its position. */
    ghost function Value(): Heap.Entry
      reads this`ocorrencia, this`prioridade, this`criadaEm
    {
      Heap.Entry(ocorrencia, prioridade, criadaEm)
    }
  }

  /** heapInterno, with the functions of container/heap as methods. */
  class HeapInterno {
    var items: seq<Item>
    ghost var nodes: set<Item>  // every item that was ever pushed

    ghost var entries: seq<Heap.Entry>  // the values of the items, in order

    /** Each item knows its position, so no item is listed twice. */
    ghost predicate Shape()
      reads this, nodes
    {
      && |entries| == |items|
      && forall i :: 0 <= i < |items| ==>
           items[i] in nodes && items[i].indice == i && items[i].Value() == entries[i]
    }

    constructor ()
      ensures items == [] && nodes == {} && entries == [] && Shape()
    {
      items, nodes, entries := [], {}, [];
    }

    method Less(i: nat, j: nat) returns (before: bool)
      requires Shape() && i < |items| && j < |items|
      ensures before == Heap.Before(entries[i], entries[j])
    {
      if items[i].prioridade != items[j].prioridade {
        return items[i].prioridade > items[j].prioridade;
      }
      if items[i].ocorrencia.lamportTime != items[j].ocorrencia.lamportTime {
        return items[i].ocorrencia.lamportTime < items[j].ocorrencia.lamportTime;
      }
      return items[i].criadaEm < items[j].criadaEm;
    }

    method Swap(i: nat, j: nat)
      requires Shape() && i < |items| && j < |items|
      modifies this`items, this`entries, nodes`indice
      ensures Shape()
      ensures entries == Heap.Swap(old(entries), i, j)
    {
      items := items[i := items[j]][j := items[i]];
      items[i].indice := i;
      items[j].indice := j;
      entries := Heap.Swap(entries, i, j);
    }

    method Up(start: nat)
      requires Shape() && start < |items|
      modifies this`items, this`entries, nodes`indice
      ensures Shape()
      ensures entries == Heap.Up(old(entries), start)
    {
      var j: nat := start;
      while true
        invariant j < |items| && Shape()
        invariant Heap.Up(entries, j) == Heap.Up(old(entries), start)
        decreases j
      {
        var i := if j == 0 then 0 else (j - 1) / 2;
        if i == j {
          return;
        }
        var before := Less(j, i);
        if !before {
          return;
        }
        Swap(i, j);
        j := i;
      }
    }

    method Down(start: nat, n: nat) returns (moved: bool)
      requires Shape() && start <= n <= |items|
      modifies this`items, this`entries, nodes`indice
      ensures Shape()
      ensures entries == Heap.Down(old(entries), start, n)
      ensures moved == Heap.Sinks(old(entries), start, n)
    {
      var i: nat := start;
      while true
        invariant start <= i <= n <= |items| && Shape()
        invariant Heap.Down(entries, i, n) == Heap.Down(old(entries), start, n)
        invariant i == start ==> entries == old(entries)
        invariant i > start ==> Heap.Sinks(old(entries), start, n)
        decreases n - i
      {
        var j1 := 2 * i + 1;
        if j1 >= n {
          break;
        }
        var j := j1;
        if j1 + 1 < n {
          var second := Less(j1 + 1, j1);
          if second {
            j := j1 + 1;
          }
        }
        assert j == Heap.FirstChild(entries, i, n);
        var sinks := Less(j, i);
        if !sinks {
          break;
        }
        Swap(i, j);
        i := j;
      }
      return i > start;
    }

    method Init()
      requires Shape()
      modifies this`items, this`entries, nodes`indice
      ensures Shape()
      ensures entries == Heap.Init(old(entries))
    {
      hide Heap.Down;
      var n := |items|;
      var k: nat := n / 2;
      ghost var result := Heap.InitFrom(entries, k);
      while k > 0
        invariant |items| == n && k <= n && Shape()
        invariant Heap.InitFrom(entries, k) == result
      {
        var _ := Down(k - 1, n);
        k := k - 1;
      }
    }

    method Push(it: Item)
      requires Shape() && it !in nodes
      modifies this, nodes`indice, it`indice
      ensures Shape() && nodes == old(nodes) + {it}
      ensures entries == Heap.Push(old(entries), it.Value())
    {
      it.indice := |items|;
      items, nodes, entries := items + [it], nodes + {it}, entries + [it.Value()];
      Up(|items| - 1);
    }

    /** The Pop of heap.Interface: cuts off the last item. */
    method CutLast() returns (it: Item)
      requires Shape() && items != []
      modifies this`items, this`entries, nodes`indice
      ensures Shape() && it == old(items[|items| - 1])
      ensures entries == old(entries)[..|old(items)| - 1]
    {
      var n := |items|;
      it := items[n - 1];
      it.indice := -1;
      items, entries := items[..n - 1], entries[..n - 1];
    }

    /** heap.Pop. */
    method Pop() returns (it: Item)
      requires Shape() && items != []
      modifies this`items, this`entries, nodes`indice
      ensures Shape() && it in nodes
      ensures it.Value() == old(entries)[0]
      ensures entries == Heap.Pop(old(entries))
    {
      var n := |items| - 1;
      Swap(0, n);
      var _ := Down(0, n);
      Heap.PopContents(old(entries));
      it := CutLast();
    }

    /** heap.Remove. */
    method Remove(i: nat) returns (it: Item)
      requires Shape() && i < |items|
      modifies this`items, this`entries, nodes`indice
      ensures Shape() && it in nodes
      ensures it.Value() == old(entries)[i]
      ensures entries == Heap.Remove(old(entries), i)
    {
      var n := |items| - 1;
      if n != i {
        Swap(i, n);
        var moved := Down(i, n);
        if !moved {
          Up(i);
        }
      }
      Heap.RemoveContents(old(entries), i);
      it := CutLast();
    }
  }

  function Occurrences(es: seq<Heap.Entry>): seq<Ocorrencia> {
    seq(|es|, i requires 0 <= i < |es| => es[i].oc)
  }

  lemma OverwriteNext(before: seq<Heap.Entry>, after: seq<Heap.Entry>, cur: seq<Heap.Entry>, i: nat)
    requires i < |before| == |after| && cur == after[..i] + before[i..]
    ensures cur[i] == before[i] && cur[i := after[i]] == after[..i + 1] + before[i + 1..]
    ensures after[..i + 1] != before[..i + 1] <==> after[..i] != before[..i] || after[i] != before[i]
  {
    assert after[..i + 1] == after[..i] + [after[i]] && before[..i + 1] == before[..i] + [before[i]];
    assert after[..i + 1][..i] == after[..i] && before[..i + 1][..i] == before[..i];
    assert after[..i + 1][i] == after[i] && before[..i + 1][i] == before[i];
  }

  /** FilaPrioridade. */
  class FilaPrioridade {
    const heap: HeapInterno

    ghost function Repr(): set<object>
      reads this, heap
    {
      {this, heap} + heap.nodes
    }

    ghost function Entries(): seq<Heap.Entry>
      reads this, heap
    {
      heap.entries
    }

    /** Heap order under Less, back-indices equal to positions, ids unique. */
    ghost predicate Valid()
      reads this, heap, heap.nodes
    {
      heap.Shape() && Heap.GoodQueue(heap.entries)
    }

    constructor Nova()
      ensures Valid() && Entries() == [] && fresh(Repr())
    {
      heap := new HeapInterno();
    }

    method Enfileirar(oc: Ocorrencia)
      requires Valid()
      modifies Repr()
      ensures Valid() && fresh(Repr() - old(Repr()))
      ensures Entries() == Heap.Enqueue(old(Entries()), oc)
    {
      hide Heap.IsHeap, Heap.UniqueIds, Heap.Push;
      Heap.EnqueueKeeps(Entries(), oc);
      for i := 0 to |heap.items|
        invariant forall k :: 0 <= k < i ==> Entries()[k].oc.id != oc.id
      {
        if heap.items[i].ocorrencia.id == oc.id {
          Heap.FindIs(Entries(), oc.id, i);
          return;
        }
      }
      Heap.FindNone(Entries(), oc.id);
      var it := new Item(oc, oc.criticidade, oc.timestamp);
      heap.Push(it);
    }

    method Desenfileirar() returns (oc: Option<Ocorrencia>)
      requires Valid()
      modifies Repr()
      ensures Valid() && fresh(Repr() - old(Repr()))
      ensures Entries() == Heap.Dequeue(old(Entries()))
      ensures oc == if old(Entries()) == [] then None else Some(old(Entries())[0].oc)
    {
      Heap.DequeueKeeps(Entries());
      if |heap.items| == 0 {
        return None;
      }
      var it := heap.Pop();
      return Some(it.ocorrencia);
    }

    /** The next occurrence: none comes before it under Less. */
    method Peek() returns (oc: Option<Ocorrencia>)
      requires Valid()
      ensures oc == if Entries() == [] then None else Some(Entries()[0].oc)
      ensures forall k :: 0 <= k < |Entries()| ==> !Heap.Before(Entries()[k], Entries()[0])
    {
      Heap.DequeueKeeps(Entries());
      if |heap.items| == 0 {
        return None;
      }
      return Some(heap.items[0].ocorrencia);
    }

    method Remover(id: string) returns (removed: bool)
      requires Valid()
      modifies Repr()
      ensures Valid() && fresh(Repr() - old(Repr()))
      ensures Entries() == Heap.RemoveId(old(Entries()), id)
      ensures removed <==> exists k :: 0 <= k < |old(Entries())| && old(Entries())[k].oc.id == id
    {
      hide Heap.IsHeap, Heap.UniqueIds, Heap.Remove;
      Heap.RemoveIdKeeps(Entries(), id);
      for i := 0 to |heap.items|
        invariant forall k :: 0 <= k < i ==> Entries()[k].oc.id != id
      {
        if heap.items[i].ocorrencia.id == id {
          Heap.FindIs(Entries(), id, i);
          var _ := heap.Remove(i);
          return true;
        }
      }
      Heap.FindNone(Entries(), id);
      return false;
    }

    method Tamanho() returns (n: nat)
      requires Valid()
      ensures n == |Entries()|
    {
      return |heap.items|;
    }

    /** The same entries on items of their own. */
    method Clone() returns (copia: HeapInterno)
      requires Valid()
      ensures fresh(copia) && fresh(copia.nodes) && copia.Shape()
      ensures copia.entries == Entries()
    {
      copia := new HeapInterno();
      for i := 0 to |heap.items|
        invariant fresh(copia) && fresh(copia.nodes) && copia.Shape()
        invariant copia.entries == Entries()[..i]
      {
        var clone := new Item(heap.items[i].ocorrencia, heap.items[i].prioridade, heap.items[i].criadaEm);
        clone.indice := i;
        copia.items, copia.nodes := copia.items + [clone], copia.nodes + {clone};
        copia.entries := copia.entries + [clone.Value()];
      }
      assert Entries()[..|Entries()|] == Entries();
    }

    /** A sorted copy of the queue, taken from clones so that the queue's own items stay as they are. */
    method Snapshot() returns (resultado: seq<Ocorrencia>, ghost sorted: seq<Heap.Entry>)
      requires Valid()
      ensures Valid() && Entries() == old(Entries())
      ensures Heap.Sorted(sorted) && multiset(sorted) == multiset(Entries())
      ensures resultado == Occurrences(sorted)
    {
      var copia := Clone();
      copia.Init();
      Heap.SnapshotIsSorted(Entries());
      sorted := Heap.Drain(copia.entries);
      resultado := DrainInto(copia);
    }

    /** heap.Pop until nothing is left. */
    static method DrainInto(copia: HeapInterno) returns (resultado: seq<Ocorrencia>)
      requires copia.Shape()
      modifies copia`items, copia`entries, copia.nodes`indice
      ensures resultado == Occurrences(Heap.Drain(old(copia.entries)))
    {
      resultado := [];
      while |copia.items| > 0
        invariant copia.Shape()
        invariant resultado + Occurrences(Heap.Drain(copia.entries)) == Occurrences(Heap.Drain(old(copia.entries)))
        decreases |copia.items|
      {
        ghost var rest := Heap.Drain(Heap.Pop(copia.entries));
        assert Heap.Drain(copia.entries) == [copia.entries[0]] + rest;
        assert Occurrences([copia.entries[0]] + rest) == [copia.entries[0].oc] + Occurrences(rest);
        var it := copia.Pop();
        resultado := resultado + [it.ocorrencia];
      }
    }

    method Envelhecer(agora: int)
      requires Valid()
      modifies Repr()
      ensures Valid() && Repr() == old(Repr())
      ensures Entries() == Heap.Age(old(Entries()), agora)
    {
      Heap.AgeKeeps(Entries(), agora);
      var alterou := AgeItems(agora);
      if alterou {
        heap.Init();
      }
    }

    /** The ageing loop: whether any priority changed. */
    method AgeItems(agora: int) returns (alterou: bool)
      requires heap.Shape()
      modifies heap`entries, heap.nodes`prioridade
      ensures heap.Shape()
      ensures heap.entries == Heap.AgedAll(old(heap.entries), agora)
      ensures alterou <==> heap.entries != old(heap.entries)
    {
      ghost var before := heap.entries;
      ghost var after := Heap.AgedAll(before, agora);
      alterou := false;
      for i := 0 to |heap.items|
        invariant heap.Shape() && heap.entries == after[..i] + before[i..]
        invariant alterou <==> after[..i] != before[..i]
      {
        OverwriteNext(before, after, heap.entries, i);
        var changed := AgeItem(i, agora);
        alterou := alterou || changed;
      }
      assert after[..|before|] == after && before[..|before|] == before;
    }

    /** The body of the ageing loop. */
    method AgeItem(i: nat, agora: int) returns (changed: bool)
      requires heap.Shape() && i < |heap.items|
      modifies heap`entries, heap.nodes`prioridade
      ensures heap.Shape()
      ensures heap.entries == old(heap.entries)[i := Heap.Aged(old(heap.entries)[i], agora)]
      ensures changed <==> heap.entries[i] != old(heap.entries)[i]
    {
      var it := heap.items[i];
      var espera := agora - it.criadaEm;
      var nivelExtra := Heap.TruncDiv(espera, Heap.INTERVALO);
      var novaPrioridade := it.ocorrencia.criticidade + nivelExtra;
      if novaPrioridade > CRITICIDADE_ALTA {
        novaPrioridade := CRITICIDADE_ALTA;
      }
      if novaPrioridade != it.prioridade {
        it.prioridade := novaPrioridade;
        heap.entries := heap.entries[i := it.Value()];
        return true;
      }
      return false;
    }
  }
}
