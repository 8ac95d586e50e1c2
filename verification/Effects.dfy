/** Which colons in a transaction matter: when its hashed text fixes what it does to the state, kind by kind. */
module Effects {
  import opened Models
  import opened Texts
  import opened Hashing
  import opened Ledger
  import opened TipHash

  /** The fields of a transaction that the state transition reads. */
  predicate SameEffect(t: Transaction, u: Transaction) {
    && t.kind == u.kind
    && match t.kind
       case Register => t.from == u.from && t.payload == u.payload
       case VesselReg => t.from == u.from && t.vesselId == u.vesselId
       case VesselLost => t.vesselId == u.vesselId
       case MissionLog => true
       case Mint => t.to == u.to && t.amount == u.amount
       case _ => t.from == u.from && t.to == u.to && t.amount == u.amount
  }

  /** Whatever has the hashed text of t does to balances, companies and vessels what t does. */
  ghost predicate FixedEffect(t: Transaction) {
    forall u :: TxContent(u) == TxContent(t) ==> SameEffect(t, u)
  }

  lemma SameKind(t: Transaction, u: Transaction)
    requires TxContent(t) == TxContent(u)
    ensures t.kind == u.kind
  {
    hide AmountText, TxTail, KindName;
    var bt := Field(AmountText(t.amount), Field(t.vesselId, Field(t.occurrenceId, TxTail(t))));
    var bu := Field(AmountText(u.amount), Field(u.vesselId, Field(u.occurrenceId, TxTail(u))));
    var rt, ru := Field(t.from, Field(t.to, bt)), Field(u.from, Field(u.to, bu));
    KindNameHasNo(t.kind);
    KindNameHasNo(u.kind);
    CutAtFirst(KindName(t.kind), rt, KindName(u.kind), ru, ':');
    KindNameInjective(t.kind, u.kind);
  }

  lemma SameFieldsSameEffect(t: Transaction, u: Transaction)
    requires SameHashedFields(t, u)
    ensures SameEffect(t, u)
  {
  }

  lemma PlainIsFixed(t: Transaction)
    requires Plain(t)
    ensures FixedEffect(t)
  {
    hide Plain, TxContent, SameEffect, SameHashedFields;
    forall u | TxContent(u) == TxContent(t) ensures SameEffect(t, u) {
      TxContentInjective(t, u);
      SameFieldsSameEffect(t, u);
    }
  }

  // --- Registrations and losses -------------------------------------------------------------

  /** A mission log changes nothing, whatever it says. */
  lemma LogsAreFixed(t: Transaction)
    requires t.kind == MissionLog
    ensures FixedEffect(t)
  {
    hide TxContent;
    forall u | TxContent(u) == TxContent(t) ensures SameEffect(t, u) {
      SameKind(t, u);
    }
  }

  /** A colon behind the payee can be shifted into or out of the vessel id. */
  lemma VesselShifts(t: Transaction) returns (u: Transaction)
    requires ':' in t.vesselId || ':' in t.occurrenceId || ':' in t.payload
    ensures TxContent(u) == TxContent(t) && u.vesselId != t.vesselId && u.kind == t.kind
  {
    if ':' in t.vesselId {
      var p, q := CutColon(t.vesselId);
      u := t.(vesselId := p, occurrenceId := q + [':'] + t.occurrenceId);
      ShiftColon(p, q, t.occurrenceId, TxTail(t));
      assert |u.vesselId| < |t.vesselId|;
    } else if ':' in t.occurrenceId {
      var p, q := CutColon(t.occurrenceId);
      u := t.(vesselId := t.vesselId + [':'] + p, occurrenceId := q);
      ShiftColon(t.vesselId, p, q, TxTail(t));
      assert |u.vesselId| > |t.vesselId|;
    } else {
      var p, q := CutColon(t.payload);
      var v := t.(occurrenceId := t.occurrenceId + [':'] + p, payload := q);
      u := v.(vesselId := t.vesselId + [':'] + t.occurrenceId, occurrenceId := p);
      ShiftIntoTail(t, p, q);
      ShiftColon(t.vesselId, t.occurrenceId, p, TxTail(v));
      assert |u.vesselId| > |t.vesselId|;
    }
  }

  /** A colon behind the payee can be shifted into or out of the payload. */
  lemma PayloadShifts(t: Transaction) returns (u: Transaction)
    requires ':' in t.vesselId || ':' in t.occurrenceId || ':' in t.payload
    ensures TxContent(u) == TxContent(t) && u.payload != t.payload && u.kind == t.kind
  {
    if ':' in t.vesselId {
      var p, q := CutColon(t.vesselId);
      var v := t.(vesselId := p, occurrenceId := q + [':'] + t.occurrenceId);
      u := v.(occurrenceId := q, payload := t.occurrenceId + [':'] + t.payload);
      ShiftColon(p, q, t.occurrenceId, TxTail(t));
      ShiftIntoTail(u, t.occurrenceId, t.payload);
      assert v == u.(occurrenceId := u.occurrenceId + [':'] + t.occurrenceId, payload := t.payload);
      assert |u.payload| > |t.payload|;
    } else if ':' in t.occurrenceId {
      var p, q := CutColon(t.occurrenceId);
      u := t.(occurrenceId := p, payload := q + [':'] + t.payload);
      ShiftIntoTail(u, q, t.payload);
      assert t == u.(occurrenceId := u.occurrenceId + [':'] + q, payload := t.payload);
      assert |u.payload| > |t.payload|;
    } else {
      var p, q := CutColon(t.payload);
      u := t.(occurrenceId := t.occurrenceId + [':'] + p, payload := q);
      ShiftIntoTail(t, p, q);
      assert |u.payload| < |t.payload|;
    }
  }

  /** A colon in payer or payee can be shifted between the two. */
  lemma AddressesShift(t: Transaction) returns (u: Transaction)
    requires ':' in t.from || ':' in t.to
    ensures TxContent(u) == TxContent(t) && u.from != t.from && u.to != t.to && u.kind == t.kind
  {
    var rest := Field(AmountText(t.amount), Field(t.vesselId, Field(t.occurrenceId, TxTail(t))));
    if ':' in t.from {
      var p, q := CutColon(t.from);
      u := t.(from := p, to := q + [':'] + t.to);
      ShiftColon(p, q, t.to, rest);
      assert |u.from| < |t.from| && |u.to| > |t.to|;
    } else {
      var p, q := CutColon(t.to);
      u := t.(from := t.from + [':'] + p, to := q);
      ShiftColon(t.from, p, q, rest);
      assert |u.from| > |t.from| && |u.to| < |t.to|;
    }
  }

  /** What a registration does is fixed by its hashed text exactly when it is plain. */
  lemma RegistrationFixedExactly(t: Transaction)
    requires t.kind == Register || t.kind == VesselReg
    ensures FixedEffect(t) <==> Plain(t)
  {
    hide TxContent;
    if Plain(t) {
      PlainIsFixed(t);
    } else {
      var u: Transaction;
      if ':' in t.from || ':' in t.to {
        u := AddressesShift(t);
      } else if t.kind == VesselReg {
        u := VesselShifts(t);
      } else {
        u := PayloadShifts(t);
      }
      assert TxContent(u) == TxContent(t) && !SameEffect(t, u);
    }
  }

  /** The same for the loss of a vessel, with addresses that hold no colon. */
  lemma LossFixedExactly(t: Transaction)
    requires t.kind == VesselLost && ':' !in t.from && ':' !in t.to
    ensures FixedEffect(t) <==> Plain(t)
  {
    hide TxContent;
    if Plain(t) {
      PlainIsFixed(t);
    } else {
      var u := VesselShifts(t);
      assert TxContent(u) == TxContent(t) && !SameEffect(t, u);
    }
  }

  // --- Payments and mints -------------------------------------------------------------------

  predicate MovesMoney(kind: TxType) {
    kind == Mint || IsDebit(kind)
  }

  /** Vessel, occurrence and payload, as the hashed text joins them. */
  function Details(t: Transaction): string {
    t.vesselId + [':'] + (t.occurrenceId + [':'] + t.payload)
  }

  /** One piece of the details reads as an amount, with at least three pieces behind it. */
  ghost predicate AmountInside(details: string) {
    exists p: string, x: int, v: string, o: string, y: string :: AmountAt(details, p, x, v, o, y)
  }

  /** The piece is x, after the pieces p or at the start; v, o and y are what follows. */
  predicate AmountAt(details: string, p: string, x: int, v: string, o: string, y: string) {
    var behind := AmountText(x) + [':'] + (v + [':'] + (o + [':'] + y));
    details == behind || details == p + [':'] + behind
  }

  /** The text up to and with the amount. */
  function Head(t: Transaction): string {
    t.from + [':'] + (t.to + [':'] + AmountText(t.amount))
  }

  /** The hashed text of payer, payee, amount and details, with kind and times cut off. */
  lemma SameMiddle(t: Transaction, u: Transaction)
    requires TxContent(t) == TxContent(u)
    ensures Head(t) + [':'] + Details(t) == Head(u) + [':'] + Details(u)
  {
    hide AmountText, KindName, Decimal, TxContent;
    SameKind(t, u);
    TextByMiddle(t);
    TextByMiddle(u);
    var k := KindName(t.kind) + [':'];
    CutAt(k, Middle(t) + ([':'] + Times(t)), k, Middle(u) + ([':'] + Times(u)));
    DecimalHasNo(t.timestamp, ':'); DecimalHasNo(u.timestamp, ':');
    DecimalHasNo(t.nonce, ':'); DecimalHasNo(u.nonce, ':');
    var a, b := Middle(t) + [':'] + Decimal(t.timestamp), Middle(u) + [':'] + Decimal(u.timestamp);
    assert Middle(t) + ([':'] + Times(t)) == a + [':'] + Decimal(t.nonce);
    assert Middle(u) + ([':'] + Times(u)) == b + [':'] + Decimal(u.nonce);
    CutAtLast(a, Decimal(t.nonce), b, Decimal(u.nonce), ':');
    CutAtLast(Middle(t), Decimal(t.timestamp), Middle(u), Decimal(u.timestamp), ':');
  }

  function Middle(t: Transaction): string {
    Head(t) + [':'] + Details(t)
  }

  function Times(t: Transaction): string {
    Decimal(t.timestamp) + [':'] + Decimal(t.nonce)
  }

  lemma TextByMiddle(t: Transaction)
    ensures TxContent(t) == KindName(t.kind) + [':'] + (Middle(t) + ([':'] + Times(t)))
  {
    hide AmountText, KindName, Decimal;
  }

  lemma HeadColons(t: Transaction)
    ensures Colons(Head(t)) == 2 + Colons(t.from) + Colons(t.to)
  {
    hide AmountText, Colons;
    ParseOfAmountText(t.amount);
    NoColons(AmountText(t.amount));
    ColonsOfField(t.to, AmountText(t.amount));
    ColonsOfField(t.from, t.to + [':'] + AmountText(t.amount));
    assert Field(t.to, AmountText(t.amount)) == t.to + [':'] + AmountText(t.amount);
    assert Field(t.from, t.to + [':'] + AmountText(t.amount)) == Head(t);
  }

  /** Heads that are equal texts are equal in payer, payee and amount, if addresses hold no colon. */
  lemma SameHead(t: Transaction, u: Transaction)
    requires Head(t) == Head(u) && ':' !in t.from && ':' !in t.to
    ensures t.from == u.from && t.to == u.to && t.amount == u.amount
  {
    hide AmountText, Colons;
    HeadColons(t);
    HeadColons(u);
    NoColons(t.from); NoColons(t.to); NoColons(u.from); NoColons(u.to);
    CutAtFirst(t.from, t.to + [':'] + AmountText(t.amount), u.from, u.to + [':'] + AmountText(u.amount), ':');
    CutAtFirst(t.to, AmountText(t.amount), u.to, AmountText(u.amount), ':');
    ParseOfAmountText(t.amount);
    ParseOfAmountText(u.amount);
  }

  /** The head of the other transaction is never the shorter one. */
  lemma HeadNotShorter(t: Transaction, u: Transaction)
    requires Head(t) + [':'] + Details(t) == Head(u) + [':'] + Details(u)
    requires ':' !in t.from && ':' !in t.to
    ensures |Head(u)| >= |Head(t)|
  {
    hide AmountText, Colons, Details, Head;
    if |Head(u)| < |Head(t)| {
      var m := |Head(u)|;
      var whole := Head(t) + [':'] + Details(t);
      assert whole[..m] == Head(u) && whole[m] == ':';
      var tail := Head(t)[m + 1..];
      assert Head(t) == Head(u) + [':'] + tail;
      ColonsOfField(Head(u), tail);
      HeadColons(t);
      HeadColons(u);
      NoColons(t.from); NoColons(t.to);
    }
  }

  /** The longer of two texts in front of separated rests continues the shorter one. */
  lemma LongerFront(a: string, x: string, b: string, y: string) returns (rest: string)
    requires a + [':'] + x == b + [':'] + y && |a| < |b|
    ensures b == a + [':'] + rest && x == rest + [':'] + y
  {
    var whole := a + [':'] + x;
    rest := b[|a| + 1..];
    assert whole[..|b|] == b && whole[|a|] == ':' && b[|a|] == ':';
    assert b == a + [':'] + rest;
    assert whole == a + [':'] + (rest + [':'] + y);
    CutAt(a + [':'], x, a + [':'], rest + [':'] + y);
  }

  lemma ColonBehind(a: string, x: string, b: string, y: string)
    requires a + [':'] + x == b + [':'] + y && |a| < |b|
    ensures ':' in x
  {
    var rest := LongerFront(a, x, b, y);
    assert x[|rest|] == ':';
  }

  /** The last piece of a text is all of what follows a separator, or the last piece of it. */
  lemma LastPiece(h: string, rest: string, front: string, a: string) returns (p: string)
    requires h + [':'] + rest == front + [':'] + a && ':' !in a
    ensures rest == a || rest == p + [':'] + a
  {
    p := "";
    assert h + ([':'] + rest) == h + [':'] + rest && front + ([':'] + a) == front + [':'] + a;
    if |h| == |front| {
      CutAt(h, [':'] + rest, front, [':'] + a);
      assert ([':'] + rest)[1..] == ([':'] + a)[1..];
    } else if |h| < |front| {
      p := LongerFront(h, rest, front, a);
    } else {
      ColonBehind(front, a, h, rest);
    }
  }

  /** A longer head swallows a piece of the details that reads as its amount. */
  lemma LongerHead(t: Transaction, u: Transaction)
    requires Head(t) + [':'] + Details(t) == Head(u) + [':'] + Details(u) && |Head(u)| > |Head(t)|
    ensures AmountInside(Details(t))
  {
    hide AmountText, Colons;
    var a, front := AmountText(u.amount), u.from + [':'] + u.to;
    var rest := LongerFront(Head(t), Details(t), Head(u), Details(u));
    ParseOfAmountText(u.amount);
    assert Head(u) == front + [':'] + a;
    var p := LastPiece(Head(t), rest, front, a);
    PieceOfDetails(Details(t), rest, p, u);
  }

  lemma PieceOfDetails(details: string, rest: string, p: string, u: Transaction)
    requires details == rest + [':'] + Details(u)
    requires rest == AmountText(u.amount) || rest == p + [':'] + AmountText(u.amount)
    ensures AmountInside(details)
  {
    hide AmountText;
    var behind := AmountText(u.amount) + [':'] + Details(u);
    assert details == behind || details == p + [':'] + behind;
    assert AmountAt(details, p, u.amount, u.vesselId, u.occurrenceId, u.payload);
  }

  /** An amount inside the details gives another transaction with the same text and another payee. */
  lemma AmountMoves(t: Transaction) returns (u: Transaction)
    requires AmountInside(Details(t))
    ensures TxContent(u) == TxContent(t) && u.to != t.to && u.kind == t.kind
  {
    hide AmountText, KindName, TxContent, Times;
    var p: string, x: int, v: string, o: string, y: string :| AmountAt(Details(t), p, x, v, o, y);
    var behind := AmountText(x) + [':'] + (v + [':'] + (o + [':'] + y));
    var swallowed := if Details(t) == behind then AmountText(t.amount) else AmountText(t.amount) + [':'] + p;
    u := t.(to := t.to + [':'] + swallowed, amount := x, vesselId := v, occurrenceId := o, payload := y);
    assert |u.to| > |t.to|;
    assert Details(u) == v + [':'] + (o + [':'] + y);
    assert Middle(u) == Middle(t);
    TextByMiddle(t);
    TextByMiddle(u);
    SameTimes(t, u);
  }

  lemma SameTimes(t: Transaction, u: Transaction)
    requires t.timestamp == u.timestamp && t.nonce == u.nonce
    ensures Times(t) == Times(u)
  {
  }

  /**
   * What a payment or a mint does is fixed by its hashed text exactly when payer and payee hold no colon and no
   * piece of the details reads as an amount with three pieces behind it. Other colons do no harm.
   */
  lemma MoneyFixedExactly(t: Transaction)
    requires MovesMoney(t.kind)
    ensures FixedEffect(t) <==> ':' !in t.from && ':' !in t.to && !AmountInside(Details(t))
  {
    hide TxContent, Details, Head, AmountInside;
    if ':' in t.from || ':' in t.to {
      var u := AddressesShift(t);
      assert TxContent(u) == TxContent(t) && !SameEffect(t, u);
    } else if AmountInside(Details(t)) {
      var u := AmountMoves(t);
      assert TxContent(u) == TxContent(t) && !SameEffect(t, u);
    } else {
      forall u | TxContent(u) == TxContent(t) ensures SameEffect(t, u) {
        SameKind(t, u);
        SameMiddle(t, u);
        HeadNotShorter(t, u);
        if |Head(u)| > |Head(t)| {
          LongerHead(t, u);
        }
        var whole := Head(t) + [':'] + Details(t);
        assert whole[..|Head(t)|] == Head(t);
        SameHead(t, u);
      }
    }
  }

  // --- Chains -------------------------------------------------------------------------------

  ghost predicate FixedTxs(txs: seq<Transaction>) {
    forall k :: 0 <= k < |txs| ==> FixedEffect(txs[k])
  }

  /** Every transaction above the genesis block has a fixed effect. */
  ghost predicate FixedChain(blocks: seq<Block>) {
    forall h :: 1 <= h < |blocks| ==> FixedTxs(blocks[h].transactions)
  }

  predicate SameEffects(a: seq<Transaction>, b: seq<Transaction>) {
    |a| == |b| && forall i :: 0 <= i < |a| ==> SameEffect(a[i], b[i])
  }

  lemma SameDigestsSameEffects(a: seq<Transaction>, b: seq<Transaction>)
    requires HashTxs(a) == HashTxs(b) && FixedTxs(a)
    ensures SameEffects(a, b)
  {
    hide TxContent, SameEffect;
    forall i | 0 <= i < |a| ensures SameEffect(a[i], b[i]) {
      assert HashTxs(a)[i] == HashTxs(b)[i];
      assert FixedEffect(a[i]) && TxContent(b[i]) == TxContent(a[i]);
    }
  }

  lemma ApplySame(s: State, r: State, t: Transaction, u: Transaction)
    requires TempOf(s) == TempOf(r) && SameEffect(t, u)
    ensures TempOf(Apply(s, t)) == TempOf(Apply(r, u))
  {
    hide Credit, Move;
    if IsDebit(t.kind) {
      MoveSame(s.balances, t, u);
    }
  }

  lemma MoveSame(m: map<string, int>, t: Transaction, u: Transaction)
    requires t.from == u.from && t.to == u.to && t.amount == u.amount
    ensures Move(m, t) == Move(m, u)
  {
  }

  lemma {:induction false} ReplaySame(s: State, r: State, a: seq<Transaction>, b: seq<Transaction>)
    requires TempOf(s) == TempOf(r) && SameEffects(a, b)
    ensures TempOf(Replay(s, a)) == TempOf(Replay(r, b))
  {
    hide Apply, SameEffect, TempOf;
    if a != [] {
      var n := |a| - 1;
      ReplaySame(s, r, a[..n], b[..n]);
      ApplySame(Replay(s, a[..n]), Replay(r, b[..n]), a[n], b[n]);
    }
  }

  /** Blocks from the genesis block on that do the same lead to the same state. */
  lemma {:induction false} ChainsSame(xs: seq<Block>, ys: seq<Block>)
    requires |xs| == |ys| && forall h :: 0 <= h < |xs| ==> SameEffects(xs[h].transactions, ys[h].transactions)
    ensures TempOf(StateOf(xs)) == TempOf(StateOf(ys))
  {
    hide SameEffects, Replay, TempOf;
    if xs != [] {
      var n := |xs| - 1;
      assert xs == xs[..n] + [xs[n]] && ys == ys[..n] + [ys[n]];
      ChainsSame(xs[..n], ys[..n]);
      RebuildIsIncremental(xs[..n], xs[n]);
      RebuildIsIncremental(ys[..n], ys[n]);
      ReplaySame(StateOf(xs[..n]), StateOf(ys[..n]), xs[n].transactions, ys[n].transactions);
    } else {
      assert xs == ys;
    }
  }

  /**
   * Any chain with the tip hash of a chain of fixed effects holds the same balances, companies and vessels and
   * gives the same verdict on every block: colons that change no effect are harmless.
   */
  lemma TipHashDeterminesEffects(xs: seq<Block>, ys: seq<Block>)
    requires Linked(xs) && FixedChain(xs) && Linked(ys) && Last(xs).hash == Last(ys).hash
    ensures TempOf(StateOf(xs)) == TempOf(StateOf(ys))
    ensures forall b :: BlockError(xs, b) == BlockError(ys, b)
  {
    hide FixedTxs, SameEffects, StateOf, TempOf, VetAll;
    TipHashFixesHashes(xs, ys);
    forall h | 0 <= h < |xs| ensures SameEffects(xs[h].transactions, ys[h].transactions) {
      IndexIsHeight(xs, h);
      IndexIsHeight(ys, h);
      if h > 0 {
        SameDigestsSameEffects(xs[h].transactions, ys[h].transactions);
      } else {
        SameSelf(xs[0].transactions);
      }
    }
    ChainsSame(xs, ys);
    IndexIsHeight(xs, |xs| - 1);
    IndexIsHeight(ys, |ys| - 1);
  }

  lemma SameSelf(txs: seq<Transaction>)
    ensures SameEffects(txs, txs)
  {
  }
}
