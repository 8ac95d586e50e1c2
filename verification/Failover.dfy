/** Ring failover: who reads for a sector whose broker is dead. */
module Failover {
  import opened Models

  // --- Sorted rings -------------------------------------------------------------------

  /** The byte order of sort.Strings. */
  predicate StrLess(a: string, b: string) {
    b != "" && (a == "" || a[0] < b[0] || (a[0] == b[0] && StrLess(a[1..], b[1..])))
  }

  lemma {:induction false} StrLessTransitive(a: string, b: string, c: string)
    requires StrLess(a, b) && StrLess(b, c)
    ensures StrLess(a, c)
  {
    if a != "" && a[0] == b[0] && b[0] == c[0] {
      StrLessTransitive(a[1..], b[1..], c[1..]);
    }
  }

  lemma {:induction false} StrLessTotal(a: string, b: string)
    ensures StrLess(a, b) || StrLess(b, a) || a == b
    ensures !(StrLess(a, b) && StrLess(b, a)) && !StrLess(a, a)
  {
    if a != "" {
      StrLessTotal(a[1..], a[1..]);
    }
    if a != "" && b != "" && a[0] == b[0] {
      StrLessTotal(a[1..], b[1..]);
      assert a == [a[0]] + a[1..] && b == [b[0]] + b[1..];
    }
  }

  ghost predicate Ascending(r: seq<string>) {
    forall i, j :: 0 <= i < j < |r| ==> StrLess(r[i], r[j])
  }

  function Elements(r: seq<string>): set<string> {
    set x | x in r
  }

  /** Inserts into an ascending list, which then stays ascending. */
  method Insert(r: seq<string>, x: string) returns (s: seq<string>)
    requires Ascending(r)
    ensures Ascending(s) && Elements(s) == Elements(r) + {x}
  {
    var k := 0;
    while k < |r| && StrLess(r[k], x)
      invariant 0 <= k <= |r|
      invariant forall i :: 0 <= i < k ==> StrLess(r[i], x)
    {
      k := k + 1;
    }
    if k < |r| && r[k] == x {
      assert x in Elements(r);
      return r;
    }
    s := r[..k] + [x] + r[k..];
    forall i | k <= i < |r| ensures StrLess(x, r[i]) {
      StrLessTotal(r[k], x);
      if k < i {
        StrLessTransitive(x, r[k], r[i]);
      }
    }
  }

  /** sort.Strings on the keys of a map and one more id. */
  method SortStrings(todos: seq<string>) returns (ring: seq<string>)
    ensures Ascending(ring) && Elements(ring) == Elements(todos)
  {
    ring := [];
    for i := 0 to |todos|
      invariant Ascending(ring) && Elements(ring) == Elements(todos[..i])
    {
      assert todos[..i + 1] == todos[..i] + [todos[i]];
      ring := Insert(ring, todos[i]);
    }
    assert todos[..|todos|] == todos;
  }

  /** Two ascending lists of the same elements are the same list. */
  lemma {:induction false} AscendingUnique(r: seq<string>, s: seq<string>)
    requires Ascending(r) && Ascending(s) && Elements(r) == Elements(s)
    ensures r == s
    decreases |r|
  {
    assert s != [] ==> s[0] in Elements(s);
    if r != [] {
      assert r[0] in Elements(s);
      var m, n := |r| - 1, |s| - 1;
      SameLast(r, s);
      forall x ensures x in Elements(r[..m]) <==> x in Elements(s[..n]) {
        LastOnce(r, x);
        LastOnce(s, x);
      }
      AscendingUnique(r[..m], s[..n]);
      assert r == r[..m] + [r[m]] && s == s[..n] + [s[n]];
    }
  }

  lemma LastOnce(r: seq<string>, x: string)
    requires r != [] && Ascending(r)
    ensures x in Elements(r[..|r| - 1]) <==> x in Elements(r) && x != r[|r| - 1]
  {
    StrLessTotal(r[|r| - 1], r[|r| - 1]);
  }

  lemma SameLast(r: seq<string>, s: seq<string>)
    requires r != [] && s != [] && Ascending(r) && Ascending(s) && Elements(r) == Elements(s)
    ensures r[|r| - 1] == s[|s| - 1]
  {
    var a, b := r[|r| - 1], s[|s| - 1];
    assert a in Elements(s) && b in Elements(r);
    var i :| 0 <= i < |s| && s[i] == a;
    var j :| 0 <= j < |r| && r[j] == b;
    StrLessTotal(a, b);
  }

  // --- The backward scan --------------------------------------------------------------

  /** What one broker knows. */
  datatype View = View(id: string, setorId: string, setores: map<string, string>, mortos: map<string, bool>)

  function Members(v: View): set<string> {
    v.setores.Keys + {v.id}
  }

  /** brokersMortos[c]: a missing key reads as false. */
  predicate Dead(v: View, c: string) {
    c in v.mortos && v.mortos[c]
  }

  /** A broker always takes itself for alive. */
  predicate Alive(v: View, c: string) {
    c == v.id || !Dead(v, c)
  }

  /** The i-th position going back from k on a ring of n. */
  function Wrap(k: nat, i: nat, n: nat): (p: nat)
    requires k < n && 1 <= i <= n
    ensures p < n
  {
    if i <= k then k - i else k - i + n
  }

  /** `idx := (k - i) % n` with Go's truncating remainder, then `if idx < 0 { idx += n }`. */
  function GoIndex(k: int, i: int, n: int): int
    requires n > 0
  {
    var idx := if k - i >= 0 then (k - i) % n else -((i - k) % n);
    if idx < 0 then idx + n else idx
  }

  lemma SmallMod(a: nat, n: nat)
    requires a < n
    ensures a % n == a
  {
  }

  lemma GoIndexWraps(k: nat, i: nat, n: nat)
    requires k < n && 1 <= i <= n
    ensures GoIndex(k, i, n) == Wrap(k, i, n)
  {
    if i <= k {
      SmallMod(k - i, n);
    } else if i - k < n {
      SmallMod(i - k, n);
    }
  }

  /** The first broker alive, going back from position k of the ring, from the i-th step on. */
  function ScanBack(ring: seq<string>, k: nat, i: nat, live: set<string>): (heir: Option<string>)
    requires k < |ring| && i >= 1
    ensures heir.Some? ==> heir.value in live && heir.value in ring
    decreases |ring| + 1 - i
  {
    if i > |ring| then None
    else
      var c := ring[Wrap(k, i, |ring|)];
      if c in live then Some(c) else ScanBack(ring, k, i + 1, live)
  }

  function Position(ring: seq<string>, x: string): (k: nat)
    requires x in ring
    ensures k < |ring| && ring[k] == x
  {
    if ring[0] == x then 0 else 1 + Position(ring[1..], x)
  }

  /** The heir of a dead broker's sector, by membership and liveness alone. */
  ghost function Heir(members: set<string>, owner: string, live: set<string>): (h: Option<string>)
    requires owner in members
  {
    var ring := Ring(members);
    ScanBack(ring, Position(ring, owner), 1, live)
  }

  /** The ascending list of a set. */
  ghost function Ring(members: set<string>): (ring: seq<string>)
    ensures Ascending(ring) && Elements(ring) == members
    ensures forall x :: x in members <==> x in ring
  {
    RingExists(members);
    var ring :| Ascending(ring) && Elements(ring) == members;
    assert forall x :: x in ring <==> x in Elements(ring);
    ring
  }

  lemma {:induction false} RingExists(members: set<string>)
    ensures exists ring :: Ascending(ring) && Elements(ring) == members
    decreases |members|
  {
    hide StrLess;
    if members == {} {
      assert Ascending([]) && Elements([]) == {};
    } else {
      var m := GreatestOf(members);
      RingExists(members - {m});
      var r :| Ascending(r) && Elements(r) == members - {m};
      var ring := r + [m];
      assert forall i :: 0 <= i < |r| ==> r[i] in Elements(r);
      assert Ascending(ring);
      assert Elements(ring) == Elements(r) + {m};
    }
  }

  lemma {:induction false} GreatestOf(members: set<string>) returns (m: string)
    requires members != {}
    ensures m in members && forall x :: x in members && x != m ==> StrLess(x, m)
    decreases |members|
  {
    m :| m in members;
    var rest := members - {m};
    if rest != {} {
      var g := GreatestOf(rest);
      StrLessTotal(g, m);
      if StrLess(m, g) {
        m := g;
      } else {
        forall x | x in rest && x != g ensures StrLess(x, m) {
          StrLessTransitive(x, g, m);
        }
      }
    }
  }

  ghost function Living(v: View): set<string> {
    set c | c in Members(v) && Alive(v, c)
  }

  /** The broker with this view takes over for `dono`. */
  ghost predicate TakesOver(v: View, dono: string) {
    && dono != "" && dono in v.setores && Dead(v, dono)
    && Heir(Members(v), dono, Living(v)) == Some(v.id)
  }

  /** responsavelPorSetor, for any choice among brokers known with that sector. */
  ghost predicate Responsible(v: View, setor: string) {
    setor == v.setorId || exists dono :: dono in v.setores && v.setores[dono] == setor && TakesOver(v, dono)
  }

  /** Known sectors are distinct. */
  ghost predicate DistinctSectors(sectors: map<string, string>) {
    forall a, b :: a in sectors && b in sectors && sectors[a] == sectors[b] ==> a == b
  }

  /** The ids known and the own one, sorted. */
  method SortedMembers(v: View) returns (todos: seq<string>)
    ensures todos == Ring(Members(v))
  {
    todos := [];
    var keys := v.setores.Keys;
    while keys != {}
      invariant Elements(todos) + keys == v.setores.Keys
      decreases keys
    {
      var k :| k in keys;
      todos := todos + [k];
      keys := keys - {k};
    }
    if v.id !in todos {
      todos := todos + [v.id];
    }
    todos := SortStrings(todos);
    AscendingUnique(todos, Ring(Members(v)));
  }

  lemma InRing(v: View, todos: seq<string>, c: string)
    requires todos == Ring(Members(v)) && c in todos
    ensures c in Living(v) <==> c == v.id || !Dead(v, c)
  {
    assert c in Elements(todos);
  }

  /** Finds the position of a member. */
  method IndexOf(todos: seq<string>, dono: string) returns (idx: nat)
    requires dono in todos
    ensures idx == Position(todos, dono)
  {
    idx := 0;
    while todos[idx] != dono
      invariant idx <= Position(todos, dono)
      decreases |todos| - idx
    {
      NotYet(todos, idx, dono);
      idx := idx + 1;
    }
    PositionUnique(todos, idx, dono);
  }

  lemma NotYet(ring: seq<string>, k: nat, x: string)
    requires x in ring && k <= Position(ring, x) && ring[k] != x
    ensures k < Position(ring, x)
  {
  }

  method ResponsavelPorSetor(v: View, setor: string) returns (sim: bool)
    ensures sim ==> Responsible(v, setor)
    ensures DistinctSectors(v.setores) ==> sim == Responsible(v, setor)
  {
    if setor == v.setorId {
      return true;
    }
    hide Ring, Heir, Living;
    var dono := OwnerOf(v, setor);
    if dono == "" {
      return false;
    }
    if !Dead(v, dono) {
      return false;
    }
    sim := FindsItself(v, dono);
  }

  /** The search for a broker known with the sector, in any order; "" when there is none. */
  method OwnerOf(v: View, setor: string) returns (dono: string)
    ensures (dono in v.setores && v.setores[dono] == setor)
            || (dono == "" && forall k :: k in v.setores ==> v.setores[k] != setor)
  {
    var keys := v.setores.Keys;
    while keys != {}
      invariant keys <= v.setores.Keys
      invariant forall k :: k in v.setores && k !in keys ==> v.setores[k] != setor
      decreases keys
    {
      var k :| k in keys;
      if v.setores[k] == setor {
        return k;
      }
      keys := keys - {k};
    }
    return "";
  }

  /** The backward scan from a dead owner, asked whether it stops at this broker. */
  method FindsItself(v: View, dono: string) returns (eu: bool)
    requires dono in v.setores
    ensures eu == (Heir(Members(v), dono, Living(v)) == Some(v.id))
  {
    hide Living, Dead, StrLess, Ascending;
    var todos := SortedMembers(v);
    assert dono in Members(v);
    var idxDono := IndexOf(todos, dono);
    var n := |todos|;
    for i := 1 to n + 1
      invariant ScanBack(todos, idxDono, i, Living(v)) == Heir(Members(v), dono, Living(v))
    {
      GoIndexWraps(idxDono, i, n);
      var candidato := todos[GoIndex(idxDono, i, n)];
      InRing(v, todos, candidato);
      var vivo := true;
      if candidato != v.id {
        vivo := !Dead(v, candidato);
      }
      if vivo {
        return candidato == v.id;
      }
    }
    return false;
  }

  /** The id announced as heir of the dead broker's sector: only a broker that finds itself to be the heir. */
  method VerificarEAtivarFailover(v: View, morto: string) returns (anuncio: Option<string>)
    ensures anuncio == if morto in v.setores && Heir(Members(v), morto, Living(v)) == Some(v.id)
                       then Some(v.setores[morto]) else None
  {
    hide Living, Dead, StrLess, Ascending;
    if morto !in v.setores {
      return None;
    }
    var todos := SortedMembers(v);
    assert morto in Members(v);
    var idxDono := IndexOf(todos, morto);
    var n := |todos|;
    for i := 1 to n + 1
      invariant ScanBack(todos, idxDono, i, Living(v)) == Heir(Members(v), morto, Living(v))
    {
      GoIndexWraps(idxDono, i, n);
      var candidato := todos[GoIndex(idxDono, i, n)];
      InRing(v, todos, candidato);
      var vivo := true;
      if candidato != v.id {
        vivo := !Dead(v, candidato);
      }
      if vivo {
        return if candidato == v.id then Some(v.setores[morto]) else None;
      }
    }
    return None;
  }

  lemma PositionUnique(ring: seq<string>, k: nat, x: string)
    requires x in ring && k <= Position(ring, x) && k < |ring| && ring[k] == x
    ensures k == Position(ring, x)
  {
    if k > 0 {
      PositionUnique(ring[1..], k - 1, x);
    }
  }

  // --- Unique heir ----------------------------------------------------------------------

  /** Broker b's view: it knows all members, their sectors and which of them live. */
  ghost predicate Accurate(v: View, b: string, sectors: map<string, string>, live: set<string>) {
    && v.id == b && b in sectors && v.setorId == sectors[b] && Members(v) == sectors.Keys
    && (forall c :: c in v.setores ==> v.setores[c] == sectors[c])
    && (forall c :: c in sectors && c != b ==> (Dead(v, c) <==> c !in live))
  }

  lemma {:induction false} ScanFinds(ring: seq<string>, k: nat, i: nat, live: set<string>, x: string, j: nat)
    requires k < |ring| && 1 <= i <= j <= |ring| && ring[Wrap(k, j, |ring|)] == x && x in live
    ensures ScanBack(ring, k, i, live).Some?
    decreases j - i
  {
    if i < j && ring[Wrap(k, i, |ring|)] !in live {
      ScanFinds(ring, k, i + 1, live, x, j);
    }
  }

  /** The scan visits every member within one round. */
  lemma StepTo(k: nat, p: nat, n: nat) returns (j: nat)
    requires k < n && p < n
    ensures 1 <= j <= n && Wrap(k, j, n) == p
  {
    j := if p < k then k - p else k - p + n;
  }

  lemma HeirExists(members: set<string>, owner: string, live: set<string>)
    requires owner in members && live <= members && live != {}
    ensures Heir(members, owner, live).Some? && Heir(members, owner, live).value in live
  {
    var ring := Ring(members);
    var x :| x in live;
    var p := Position(ring, x);
    var j := StepTo(Position(ring, owner), p, |ring|);
    ScanFinds(ring, Position(ring, owner), 1, live, x, j);
  }

  lemma LivingIsLive(v: View, b: string, sectors: map<string, string>, live: set<string>)
    requires Accurate(v, b, sectors, live) && b in live && live <= sectors.Keys
    ensures Living(v) == live
  {
  }

  /** A live broker answers for a sector exactly when it is the owner, or the heir of a dead owner. */
  lemma ResponsibleIff(v: View, b: string, sectors: map<string, string>, live: set<string>, owner: string)
    requires Accurate(v, b, sectors, live) && b in live && live <= sectors.Keys
    requires DistinctSectors(sectors) && owner in sectors && owner != ""
    ensures Responsible(v, sectors[owner]) <==>
            if owner in live then b == owner else Heir(sectors.Keys, owner, live) == Some(b)
  {
    LivingIsLive(v, b, sectors, live);
    if owner != b {
      assert owner in v.setores && v.setores[owner] == sectors[owner];
      assert forall d :: d in v.setores && v.setores[d] == sectors[owner] ==> d == owner;
      assert Responsible(v, sectors[owner]) <==> TakesOver(v, owner);
    }
  }

  /** For every sector exactly one live broker answers. */
  lemma UniqueHeir(views: map<string, View>, sectors: map<string, string>, live: set<string>, owner: string)
    returns (heir: string)
    requires live != {} && live <= sectors.Keys && DistinctSectors(sectors)
    requires owner in sectors && owner != ""
    requires forall b :: b in live ==> b in views && Accurate(views[b], b, sectors, live)
    ensures heir in live
    ensures forall b :: b in live ==> (Responsible(views[b], sectors[owner]) <==> b == heir)
  {
    if owner in live {
      heir := owner;
    } else {
      HeirExists(sectors.Keys, owner, live);
      heir := Heir(sectors.Keys, owner, live).value;
    }
    forall b | b in live ensures Responsible(views[b], sectors[owner]) <==> b == heir {
      ResponsibleIff(views[b], b, sectors, live, owner);
    }
  }

  // --- Which member the heir is -------------------------------------------------------------

  /** Going back from the owner, h comes before c: first the members below the owner, downwards, then from the top. */
  predicate Nearer(h: string, c: string, owner: string) {
    if StrLess(h, owner) then !StrLess(c, owner) || StrLess(c, h) else !StrLess(c, owner) && StrLess(c, h)
  }

  lemma NearerOne(h: string, c: string, owner: string)
    requires h != c
    ensures Nearer(h, c, owner) <==> !Nearer(c, h, owner)
  {
    hide StrLess;
    StrLessTotal(h, c);
  }

  /** Where the scan stops, and that nobody alive was passed on the way. */
  lemma {:induction false} ScanStops(ring: seq<string>, k: nat, i: nat, live: set<string>) returns (j: nat)
    requires k < |ring| && i >= 1 && ScanBack(ring, k, i, live).Some?
    ensures i <= j <= |ring| && ScanBack(ring, k, i, live) == Some(ring[Wrap(k, j, |ring|)])
    ensures forall m :: i <= m < j ==> ring[Wrap(k, m, |ring|)] !in live
    decreases |ring| + 1 - i
  {
    if ring[Wrap(k, i, |ring|)] in live {
      j := i;
    } else {
      j := ScanStops(ring, k, i + 1, live);
    }
  }

  /** On an ascending ring the steps back from the owner follow the order of `Nearer`. */
  lemma StepsAreNearer(ring: seq<string>, k: nat, i: nat, j: nat)
    requires Ascending(ring) && k < |ring| && 1 <= i < j <= |ring|
    ensures Nearer(ring[Wrap(k, i, |ring|)], ring[Wrap(k, j, |ring|)], ring[k])
  {
    hide StrLess;
    var p, q := Wrap(k, i, |ring|), Wrap(k, j, |ring|);
    PositionOrder(ring, p, k);
    PositionOrder(ring, q, k);
    PositionOrder(ring, q, p);
  }

  lemma PositionOrder(ring: seq<string>, p: nat, q: nat)
    requires Ascending(ring) && p < |ring| && q < |ring|
    ensures StrLess(ring[p], ring[q]) <==> p < q
  {
    hide StrLess;
    StrLessTotal(ring[p], ring[q]);
  }

  /** The heir is the nearest live member going back from the owner. */
  lemma HeirExactly(members: set<string>, owner: string, live: set<string>, h: string)
    requires owner in members
    ensures Heir(members, owner, live) == Some(h) <==>
            h in members && h in live && forall c :: c in members && c in live && c != h ==> Nearer(h, c, owner)
  {
    hide Ascending, Nearer, Wrap, Position;
    var ring := Ring(members);
    var k := Position(ring, owner);
    if h in members && h in live {
      var at := StepTo(k, Position(ring, h), |ring|);
      ScanFinds(ring, k, 1, live, h, at);
      var j := ScanStops(ring, k, 1, live);
      var x := ring[Wrap(k, j, |ring|)];
      forall c | c in members && c in live && c != x ensures Nearer(x, c, owner) {
        var i := StepTo(k, Position(ring, c), |ring|);
        StepsAreNearer(ring, k, j, i);
      }
      if x != h {
        NearerOne(x, h, owner);
      }
    }
  }

  /**
   * If a live member is below the owner in byte order, the heir is the greatest such member; otherwise it is
   * the greatest live member.
   */
  lemma HeirIsPredecessor(members: set<string>, owner: string, live: set<string>, h: string)
    requires owner in members && Heir(members, owner, live) == Some(h)
    ensures (exists c :: c in members && c in live && StrLess(c, owner)) ==>
              && StrLess(h, owner)
              && forall c :: c in members && c in live && StrLess(c, owner) ==> c == h || StrLess(c, h)
    ensures !(exists c :: c in members && c in live && StrLess(c, owner)) ==>
              forall c :: c in members && c in live ==> c == h || StrLess(c, h)
  {
    hide StrLess, Heir;
    HeirExactly(members, owner, live, h);
  }

  /**
   * A broker takes over exactly a known broker with a death flag, if every other member without one is further
   * away going back; its own death flag does not matter.
   */
  lemma TakesOverExactly(v: View, dono: string)
    ensures TakesOver(v, dono) <==>
            && dono != "" && dono in v.setores && dono in v.mortos && v.mortos[dono]
            && forall c :: c in v.setores && c != v.id && !(c in v.mortos && v.mortos[c]) ==> Nearer(v.id, c, dono)
  {
    hide Heir, Nearer;
    if dono in v.setores {
      HeirExactly(Members(v), dono, Living(v), v.id);
    }
  }

  /** The texts agree before position k, where a ends or has the smaller letter. */
  predicate SmallerAt(a: string, b: string, k: nat) {
    k <= |a| && k < |b| && a[..k] == b[..k] && (k == |a| || a[k] < b[k])
  }

  lemma SmallerInTail(a: string, b: string, k: nat)
    requires a != "" && b != "" && a[0] == b[0]
    ensures SmallerAt(a, b, k + 1) <==> SmallerAt(a[1..], b[1..], k)
    ensures !SmallerAt(a, b, 0)
  {
    if k + 1 <= |a| && k + 1 <= |b| {
      assert a[..k + 1] == [a[0]] + a[1..][..k] && b[..k + 1] == [b[0]] + b[1..][..k];
      assert a[1..][..k] == a[..k + 1][1..] && b[1..][..k] == b[..k + 1][1..];
    }
  }

  /** The order compares the first letters that differ; a proper prefix comes first. */
  lemma {:induction false} StrLessExactly(a: string, b: string)
    ensures StrLess(a, b) <==> exists k: nat :: SmallerAt(a, b, k)
  {
    if a != "" && b != "" && a[0] == b[0] {
      StrLessExactly(a[1..], b[1..]);
      forall k: nat ensures SmallerAt(a, b, k + 1) <==> SmallerAt(a[1..], b[1..], k) {
        SmallerInTail(a, b, k);
      }
      if exists k: nat :: SmallerAt(a[1..], b[1..], k) {
        var k: nat :| SmallerAt(a[1..], b[1..], k);
        assert SmallerAt(a, b, k + 1);
      }
      if exists k: nat :: SmallerAt(a, b, k) {
        var k: nat :| SmallerAt(a, b, k);
        SmallerInTail(a, b, 0);
        assert SmallerAt(a[1..], b[1..], k - 1);
      }
    } else {
      assert SmallerAt(a, b, 0) <==> StrLess(a, b);
      assert forall k :: 0 < k <= |a| && k < |b| ==> a[..k][0] == a[0] && b[..k][0] == b[0];
    }
  }

  /** With four brokers B1 stands in for B2, and B4 for B1. */
  lemma FourBrokers(members: set<string>)
    requires members == {"B1", "B2", "B3", "B4"}
    ensures Heir(members, "B2", members - {"B2"}) == Some("B1") && Heir(members, "B1", members - {"B1"}) == Some("B4")
  {
    hide Heir;
    assert StrLess("B1", "B2") && StrLess("B1", "B3") && StrLess("B1", "B4");
    assert StrLess("B2", "B3") && StrLess("B2", "B4") && StrLess("B3", "B4");
    StrLessTotal("B1", "B2"); StrLessTotal("B1", "B3"); StrLessTotal("B1", "B4");
    StrLessTotal("B2", "B3"); StrLessTotal("B2", "B4"); StrLessTotal("B3", "B4");
    hide StrLess;
    HeirExactly(members, "B2", members - {"B2"}, "B1");
    HeirExactly(members, "B1", members - {"B1"}, "B4");
  }

  // --- Minimal and consistent ---------------------------------------------------------------

  lemma {:induction false} ScanWithoutOther(ring: seq<string>, k: nat, i: nat, live: set<string>, d: string)
    requires k < |ring| && i >= 1 && ScanBack(ring, k, i, live) != Some(d)
    ensures ScanBack(ring, k, i, live - {d}) == ScanBack(ring, k, i, live)
    decreases |ring| + 1 - i
  {
    if i <= |ring| && ring[Wrap(k, i, |ring|)] !in live {
      ScanWithoutOther(ring, k, i + 1, live, d);
    }
  }

  /** The heir of a dead broker's sector changes only when that heir dies. */
  lemma FailoverMinimal(members: set<string>, owner: string, live: set<string>, d: string)
    requires owner in members
    ensures Heir(members, owner, live - {d}) == Heir(members, owner, live) <==>
            d !in live || Heir(members, owner, live) != Some(d)
  {
    var ring := Ring(members);
    if Heir(members, owner, live) != Some(d) {
      ScanWithoutOther(ring, Position(ring, owner), 1, live, d);
    } else {
      assert d in live;
      var after := Heir(members, owner, live - {d});
      assert after.Some? ==> after.value in live - {d};
    }
  }

  /**
   * Both procedures under one view: a broker that is not the sector's owner answers for the sector exactly
   * when the owner is dead and it announces itself as the heir.
   */
  method FailoverConsistent(v: View, morto: string) returns (sim: bool, anuncio: Option<string>)
    requires morto in v.setores && DistinctSectors(v.setores)
    ensures sim <==> v.setores[morto] == v.setorId || (morto != "" && Dead(v, morto) && anuncio.Some?)
    ensures anuncio.Some? ==> anuncio.value == v.setores[morto]
  {
    hide Heir, Living, Dead;
    sim := ResponsavelPorSetor(v, v.setores[morto]);
    anuncio := VerificarEAtivarFailover(v, morto);
    OnlyOwner(v, morto);
  }

  lemma OnlyOwner(v: View, morto: string)
    requires morto in v.setores && DistinctSectors(v.setores)
    ensures Responsible(v, v.setores[morto]) <==> v.setores[morto] == v.setorId || TakesOver(v, morto)
  {
    hide TakesOver;
  }
}
