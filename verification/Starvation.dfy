/** Ageing: an item that has waited long enough is served after the items already ahead of it. */
module Starvation {
  import opened Models
  import opened Heap

  datatype QueueOp = Arrive(oc: Ocorrencia) | Take | Drop(id: string) | Tick(now: int)

  function Step(h: seq<Entry>, op: QueueOp): seq<Entry> {
    match op
    case Arrive(oc) => Enqueue(h, oc)
    case Take => Dequeue(h)
    case Drop(id) => RemoveId(h, id)
    case Tick(now) => Age(h, now)
  }

  /** Some dequeue of the run returns `oc`. */
  predicate Served(h: seq<Entry>, ops: seq<QueueOp>, oc: Ocorrencia)
    decreases |ops|
  {
    ops != [] &&
    ((ops[0].Take? && h != [] && h[0].oc == oc) || Served(Step(h, ops[0]), ops[1..], oc))
  }

  function Takes(ops: seq<QueueOp>): nat {
    if ops == [] then 0 else (if ops[0].Take? then 1 else 0) + Takes(ops[1..])
  }

  /** (Lamport time, creation time) of `a` is at most that of `b`. */
  predicate KeyLeq(a: Entry, b: Entry) {
    a.oc.lamportTime < b.oc.lamportTime || (a.oc.lamportTime == b.oc.lamportTime && a.criadaEm <= b.criadaEm)
  }

  /** Ids of the queued items with a key of at most x's, x among them. */
  function Ahead(h: seq<Entry>, x: Entry): set<string> {
    set e | e in h && KeyLeq(e, x) :: e.oc.id
  }

  /** What a run may do while x waits: everything but remove x, turn the clock back or jump the queue. */
  predicate Fair(op: QueueOp, x: Entry, now: int) {
    match op
    case Arrive(oc) => oc.criticidade <= CRITICIDADE_ALTA && !KeyLeq(NewEntry(oc), x)
    case Take => true
    case Drop(id) => id != x.oc.id
    case Tick(t) => t >= now
  }

  /** x has waited the 30 seconds per missing level. */
  predicate Matured(x: Entry, now: int) {
    && 0 <= x.oc.criticidade <= CRITICIDADE_ALTA
    && now - x.criadaEm >= (CRITICIDADE_ALTA - x.oc.criticidade) * INTERVALO
  }

  /** x is queued at top priority and nothing is above it. */
  ghost predicate Waiting(h: seq<Entry>, x: Entry) {
    && GoodQueue(h) && x in h && x.prioridade == CRITICIDADE_ALTA
    && forall e :: e in h ==> e.prioridade <= CRITICIDADE_ALTA
  }

  // --- The level that ageing gives --------------------------------------------------------

  /**
   * An aged item is at the top exactly when it has waited 30 s for each level it lacks; below the top it stands
   * as many levels up as it has waited whole intervals of 30 s, or down by a clock that was turned back.
   */
  lemma AgedExactly(e: Entry, now: int)
    ensures var p, own, waited := Aged(e, now).prioridade, e.oc.criticidade, now - e.criadaEm;
            && p <= 2
            && (waited >= 0 ==> (p == 2 <==> waited >= (2 - own) * 30_000_000_000))
            && (waited < 0 ==> (p == 2 <==> -waited < (own - 1) * 30_000_000_000))
            && (waited >= 0 && p < 2 ==> (p - own) * 30_000_000_000 <= waited < (p - own + 1) * 30_000_000_000)
            && (waited < 0 && p < 2 ==> (own - p) * 30_000_000_000 <= -waited < (own - p + 1) * 30_000_000_000)
    ensures Aged(e, now).oc == e.oc && Aged(e, now).criadaEm == e.criadaEm
  {
  }

  /** Less than one interval changes no level. */
  lemma FreshKeepsLevel(e: Entry, now: int)
    requires 0 <= e.oc.criticidade <= 2 && -30_000_000_000 < now - e.criadaEm < 30_000_000_000
    ensures Aged(e, now).prioridade == e.oc.criticidade
  {
    hide Aged;
    AgedExactly(e, now);
  }

  /** Ageing starts from the item's own level each time, so only the last round counts. */
  lemma LastAgeingCounts(h: seq<Entry>, t: int, now: int)
    ensures AgedAll(AgedAll(h, t), now) == AgedAll(h, now)
  {
  }

  lemma MaturedIsTop(x: Entry, now: int)
    requires Matured(x, now)
    ensures Aged(x, now).prioridade == CRITICIDADE_ALTA
  {
    var gap := CRITICIDADE_ALTA - x.oc.criticidade;
    assert gap == 0 || gap == 1 || gap == 2;
  }

  lemma InMultiset(h: seq<Entry>, g: seq<Entry>)
    requires multiset(h) == multiset(g)
    ensures forall e :: e in h <==> e in g
  {
    assert forall e :: e in h <==> e in multiset(h);
    assert forall e :: e in g <==> e in multiset(g);
  }

  lemma AgeKeepsWaiting(h: seq<Entry>, x: Entry, now: int)
    requires GoodQueue(h) && x in h && Matured(x, now)
    ensures Waiting(Age(h, now), Aged(x, now)) && Ahead(Age(h, now), Aged(x, now)) == Ahead(h, x)
  {
    var a := AgedAll(h, now);
    AgeKeeps(h, now);
    InMultiset(Age(h, now), a);
    MaturedIsTop(x, now);
    var k :| 0 <= k < |h| && h[k] == x;
    assert a[k] == Aged(x, now) && a[k] in a;
    AgedAhead(h, x, now);
    assert Ahead(Age(h, now), Aged(x, now)) == Ahead(a, Aged(x, now));
  }

  lemma AgedAhead(h: seq<Entry>, x: Entry, now: int)
    ensures Ahead(AgedAll(h, now), Aged(x, now)) == Ahead(h, x)
  {
    var a := AgedAll(h, now);
    forall id | id in Ahead(h, x) ensures id in Ahead(a, Aged(x, now)) {
      var k :| 0 <= k < |h| && KeyLeq(h[k], x) && h[k].oc.id == id;
      assert a[k] in a;
    }
    forall id | id in Ahead(a, Aged(x, now)) ensures id in Ahead(h, x) {
      var k :| 0 <= k < |a| && KeyLeq(a[k], Aged(x, now)) && a[k].oc.id == id;
      assert h[k] in h;
    }
  }

  /** The steps that neither serve x nor are dequeues leave it waiting with no more ahead. */
  lemma ArriveKeepsWaiting(h: seq<Entry>, x: Entry, oc: Ocorrencia, now: int)
    requires Waiting(h, x) && Fair(Arrive(oc), x, now)
    ensures Waiting(Enqueue(h, oc), x) && Ahead(Enqueue(h, oc), x) == Ahead(h, x)
  {
    EnqueueKeeps(h, oc);
    if Find(h, oc.id) == |h| {
      PushContents(h, NewEntry(oc));
      InMultiset(Enqueue(h, oc), h + [NewEntry(oc)]);
    }
  }

  lemma DropKeepsWaiting(h: seq<Entry>, x: Entry, id: string)
    requires Waiting(h, x) && id != x.oc.id
    ensures Waiting(RemoveId(h, id), x) && Ahead(RemoveId(h, id), x) <= Ahead(h, x)
  {
    var r := RemoveId(h, id);
    RemoveIdKeeps(h, id);
    forall e: Entry | e in r ensures e in h {
      assert multiset(r)[e] > 0 && multiset(h)[e] > 0;
    }
    assert multiset(h)[x] > 0 && multiset(r)[x] > 0;
  }

  /** A dequeue serves x or one of those ahead of it. */
  lemma {:induction false} TakeServesOrAdvances(h: seq<Entry>, x: Entry)
    requires Waiting(h, x)
    ensures h[0].oc == x.oc || (Waiting(Dequeue(h), x) && |Ahead(Dequeue(h), x)| < |Ahead(h, x)|)
  {
    var first, r := h[0], Dequeue(h);
    DequeueKeeps(h);
    var k :| 0 <= k < |h| && h[k] == x;
    assert !Before(h[k], first);
    assert KeyLeq(first, x);
    if first.oc != x.oc {
      assert multiset(h)[x] == multiset(r)[x] + multiset{first}[x];
      assert x in multiset(r);
      OnlyOneWithId(multiset(h), multiset(r), first);
      forall e: Entry | e in r ensures e in h && e.oc.id != first.oc.id {
        assert multiset(r)[e] > 0 && multiset(h)[e] > 0;
      }
      assert first.oc.id in Ahead(h, x) && first.oc.id !in Ahead(r, x);
      SmallerSet(Ahead(r, x), Ahead(h, x), first.oc.id);
    }
  }

  lemma SmallerSet<T>(a: set<T>, b: set<T>, x: T)
    requires a <= b && x in b && x !in a
    ensures |a| < |b|
  {
    assert b == a + (b - a);
    assert x in b - a;
  }

  lemma {:induction false} WaitingIsServed(h: seq<Entry>, x: Entry, ops: seq<QueueOp>, now: int)
    requires Waiting(h, x) && Matured(x, now)
    requires forall op :: op in ops ==> Fair(op, x, now)
    requires Takes(ops) >= |Ahead(h, x)|
    ensures Served(h, ops, x.oc)
    decreases |ops|
  {
    assert x.oc.id in Ahead(h, x);
    assert ops != [];
    var op, rest := ops[0], ops[1..];
    assert Fair(op, x, now);
    if op.Take? {
      TakeServesOrAdvances(h, x);
      if h[0].oc != x.oc {
        WaitingIsServed(Dequeue(h), x, rest, now);
      }
    } else {
      OtherStepKeepsWaiting(h, x, op, now);
      WaitingIsServed(Step(h, op), x, rest, now);
    }
  }

  lemma OtherStepKeepsWaiting(h: seq<Entry>, x: Entry, op: QueueOp, now: int)
    requires Waiting(h, x) && Matured(x, now) && Fair(op, x, now) && !op.Take?
    ensures Waiting(Step(h, op), x) && |Ahead(Step(h, op), x)| <= |Ahead(h, x)|
  {
    match op
    case Arrive(oc) =>
      ArriveKeepsWaiting(h, x, oc, now);
    case Drop(id) =>
      DropKeepsWaiting(h, x, id);
      var a, b := Ahead(RemoveId(h, id), x), Ahead(h, x);
      assert b == a + (b - a);
    case Tick(t) =>
      AgeKeepsWaiting(h, x, t);
      MaturedIsTop(x, t);
      assert Aged(x, t) == x;
  }

  /**
   * No starvation: an item that has waited 30 seconds for each level it lacks, and is then aged, is
   * returned within k + 1 dequeues, k being the number of other queued items whose key is at most its own.
   */
  lemma {:induction false} NoStarvation(h: seq<Entry>, x: Entry, now: int, ops: seq<QueueOp>)
    requires GoodQueue(h) && x in h && Matured(x, now)
    requires forall op :: op in ops ==> Fair(op, x, now)
    requires Takes(ops) >= |Ahead(h, x) - {x.oc.id}| + 1
    ensures Served(Age(h, now), ops, x.oc)
  {
    AgeKeepsWaiting(h, x, now);
    var x' := Aged(x, now);
    OneMore(Ahead(h, x), x.oc.id);
    forall op | op in ops ensures Fair(op, x', now) {
      assert Fair(op, x, now);
    }
    WaitingIsServed(Age(h, now), x', ops, now);
  }

  lemma OneMore<T>(s: set<T>, x: T)
    ensures |s| <= |s - {x}| + 1
  {
    assert s <= (s - {x}) + {x};
    assert x in s ==> s == (s - {x}) + {x};
    assert x !in s ==> s - {x} == s;
  }
}
