/** block.go: what HashTx and HashBlock hash, signing, and what a digest determines. */
module Hashing {
  import opened Models
  import opened Texts

  // --- Transactions -----------------------------------------------------------

  function KindName(kind: TxType): string {
    match kind
    case Mint => "MINT"
    case Register => "REGISTER"
    case VesselReg => "VESSEL_REG"
    case VesselLost => "VESSEL_LOST"
    case Transfer => "TRANSFER"
    case DroneUsage => "DRONE_USAGE"
    case MissionLog => "MISSION_LOG"
    case BrokerFee => "BROKER_FEE"
  }

  /** `%f` of an amount: sign, whole units, a point and six decimals. */
  function AmountText(micro: int): string {
    var m := if micro < 0 then -micro else micro;
    (if micro < 0 then "-" else "") + Digits(m / 1_000_000) + "." + Padded(m % 1_000_000, 6)
  }

  function Field(a: string, rest: string): string {
    a + [':'] + rest
  }

  function TxTail(tx: Transaction): string {
    (tx.payload + [':'] + Decimal(tx.timestamp)) + [':'] + Decimal(tx.nonce)
  }

  /** The text that HashTx hashes. */
  function TxContent(tx: Transaction): string {
    Field(KindName(tx.kind), Field(tx.from, Field(tx.to, Field(AmountText(tx.amount),
          Field(tx.vesselId, Field(tx.occurrenceId, TxTail(tx)))))))
  }

  function HashTx(tx: Transaction): Digest {
    TxDigest(TxContent(tx))
  }

  /** The two transactions agree on every field that HashTx prints. */
  predicate SameHashedFields(t: Transaction, u: Transaction) {
    && t.kind == u.kind && t.from == u.from && t.to == u.to && t.amount == u.amount
    && t.vesselId == u.vesselId && t.occurrenceId == u.occurrenceId && t.payload == u.payload
    && t.timestamp == u.timestamp && t.nonce == u.nonce
  }

  /** No colon in any of the five free texts that HashTx joins. */
  predicate Plain(tx: Transaction) {
    && ':' !in tx.from && ':' !in tx.to && ':' !in tx.vesselId && ':' !in tx.occurrenceId
    && ':' !in tx.payload
  }

  lemma KindNameInjective(a: TxType, b: TxType)
    requires KindName(a) == KindName(b)
    ensures a == b
  {
    assert |KindName(a)| == |KindName(b)| && KindName(a)[0] == KindName(b)[0];
  }

  lemma KindNameHasNo(kind: TxType)
    ensures ':' !in KindName(kind)
  {
  }

  function ParseAmount(s: string): int
    requires |s| >= 8
  {
    var negative := s[0] == '-';
    var m := Value(s[(if negative then 1 else 0)..|s| - 7]) * 1_000_000 + Value(s[|s| - 6..]);
    if negative then -m else m
  }

  lemma ParseOfAmountText(micro: int)
    ensures |AmountText(micro)| >= 8 && ParseAmount(AmountText(micro)) == micro
    ensures ':' !in AmountText(micro)
  {
    var m := if micro < 0 then -micro else micro;
    var sign := if micro < 0 then "-" else "";
    var whole, part := Digits(m / 1_000_000), Padded(m % 1_000_000, 6);
    var s := AmountText(micro);
    assert s == sign + whole + "." + part;
    assert s[0] == '-' <==> micro < 0;
    assert s[|sign|..|s| - 7] == whole && s[|s| - 6..] == part;
    ValueOfDigits(m / 1_000_000);
    assert Power10(6) == 1_000_000;
    ValueOfPadded(m % 1_000_000, 6);
  }

  // --- Counting colons ----------------------------------------------------------

  function Colons(s: string): nat {
    if s == "" then 0 else Colons(s[..|s| - 1]) + if s[|s| - 1] == ':' then 1 else 0
  }

  lemma {:induction false} ColonsConcat(a: string, b: string)
    ensures Colons(a + b) == Colons(a) + Colons(b)
    decreases |b|
  {
    if b == "" {
      assert a + b == a;
    } else {
      var s := a + b;
      ColonsConcat(a, b[..|b| - 1]);
      assert s[..|s| - 1] == a + b[..|b| - 1] && s[|s| - 1] == b[|b| - 1];
    }
  }

  lemma {:induction false} NoColons(s: string)
    ensures Colons(s) == 0 <==> ':' !in s
  {
    if s != "" {
      NoColons(s[..|s| - 1]);
      assert s == s[..|s| - 1] + [s[|s| - 1]];
    }
  }

  lemma ColonsOfField(a: string, rest: string)
    ensures Colons(Field(a, rest)) == Colons(a) + 1 + Colons(rest)
  {
    ColonsConcat(a + [':'], rest);
    ColonsConcat(a, [':']);
  }

  function FreeColons(t: Transaction): nat {
    Colons(t.from) + Colons(t.to) + Colons(t.vesselId) + Colons(t.occurrenceId) + Colons(t.payload)
  }

  lemma ColonsOfTail(t: Transaction)
    ensures Colons(TxTail(t)) == 2 + Colons(t.payload)
  {
    hide Decimal;
    DecimalHasNo(t.timestamp, ':'); DecimalHasNo(t.nonce, ':');
    NoColons(Decimal(t.timestamp)); NoColons(Decimal(t.nonce));
    ColonsOfField(t.payload, Decimal(t.timestamp));
    ColonsOfField(t.payload + [':'] + Decimal(t.timestamp), Decimal(t.nonce));
  }

  /** The hashed text has eight colons of its own; the rest come from the free texts. */
  lemma ColonsOfContent(t: Transaction)
    ensures Colons(TxContent(t)) == 8 + FreeColons(t)
  {
    hide AmountText, TxTail, KindName, Field, Colons;
    KindNameHasNo(t.kind);
    ParseOfAmountText(t.amount);
    NoColons(KindName(t.kind)); NoColons(AmountText(t.amount));
    ColonsOfTail(t);
    var t5 := Field(t.occurrenceId, TxTail(t));
    var t4 := Field(t.vesselId, t5);
    var t3 := Field(AmountText(t.amount), t4);
    var t2 := Field(t.to, t3);
    ColonsOfField(t.occurrenceId, TxTail(t)); ColonsOfField(t.vesselId, t5);
    ColonsOfField(AmountText(t.amount), t4); ColonsOfField(t.to, t3);
    ColonsOfField(t.from, t2); ColonsOfField(KindName(t.kind), Field(t.from, t2));
  }

  lemma PlainByColons(t: Transaction)
    ensures Plain(t) <==> FreeColons(t) == 0
  {
    NoColons(t.from); NoColons(t.to); NoColons(t.vesselId); NoColons(t.occurrenceId); NoColons(t.payload);
  }

  // --- What the hashed text of a transaction determines -----------------------------

  /** The hashed text of a plain transaction determines every hashed field: any other with it is the same. */
  lemma TxContentInjective(t: Transaction, u: Transaction)
    requires Plain(t) && TxContent(t) == TxContent(u)
    ensures SameHashedFields(t, u) && Plain(u)
  {
    hide AmountText, TxTail, KindName, Colons;
    ColonsOfContent(t); ColonsOfContent(u);
    PlainByColons(t); PlainByColons(u);
    ParseOfAmountText(t.amount);
    ParseOfAmountText(u.amount);
    var t5, u5 := Field(t.occurrenceId, TxTail(t)), Field(u.occurrenceId, TxTail(u));
    var t4, u4 := Field(t.vesselId, t5), Field(u.vesselId, u5);
    var t3, u3 := Field(AmountText(t.amount), t4), Field(AmountText(u.amount), u4);
    var t2, u2 := Field(t.to, t3), Field(u.to, u3);
    KindNameHasNo(t.kind);
    KindNameHasNo(u.kind);
    CutAtFirst(KindName(t.kind), Field(t.from, t2), KindName(u.kind), Field(u.from, u2), ':');
    KindNameInjective(t.kind, u.kind);
    CutAtFirst(t.from, t2, u.from, u2, ':');
    CutAtFirst(t.to, t3, u.to, u3, ':');
    CutAtFirst(AmountText(t.amount), t4, AmountText(u.amount), u4, ':');
    CutAtFirst(t.vesselId, t5, u.vesselId, u5, ':');
    CutAtFirst(t.occurrenceId, TxTail(t), u.occurrenceId, TxTail(u), ':');
    TxTailInjective(t, u);
  }

  lemma TxTailInjective(t: Transaction, u: Transaction)
    requires TxTail(t) == TxTail(u)
    ensures t.payload == u.payload && t.timestamp == u.timestamp && t.nonce == u.nonce
  {
    DecimalHasNo(t.timestamp, ':'); DecimalHasNo(u.timestamp, ':');
    DecimalHasNo(t.nonce, ':'); DecimalHasNo(u.nonce, ':');
    CutAtLast(t.payload + [':'] + Decimal(t.timestamp), Decimal(t.nonce),
              u.payload + [':'] + Decimal(u.timestamp), Decimal(u.nonce), ':');
    CutAtLast(t.payload, Decimal(t.timestamp), u.payload, Decimal(u.timestamp), ':');
    ParseOfDecimal(t.timestamp); ParseOfDecimal(u.timestamp);
    ParseOfDecimal(t.nonce); ParseOfDecimal(u.nonce);
  }

  lemma ShiftColon(p: string, q: string, c: string, rest: string)
    ensures Field(p + [':'] + q, Field(c, rest)) == Field(p, Field(q + [':'] + c, rest))
  {
  }

  lemma CutColon(s: string) returns (p: string, q: string)
    requires ':' in s
    ensures s == p + [':'] + q
  {
    var k :| 0 <= k < |s| && s[k] == ':';
    p, q := s[..k], s[k + 1..];
  }

  /** Every transaction that is not plain shares its hashed text with a different transaction. */
  lemma TxContentAmbiguous(t: Transaction) returns (u: Transaction)
    requires !Plain(t)
    ensures TxContent(u) == TxContent(t) && !SameHashedFields(t, u)
  {
    if ':' in t.from {
      var p, q := CutColon(t.from);
      u := t.(from := p, to := q + [':'] + t.to);
      ShiftColon(p, q, t.to, Field(AmountText(t.amount), Field(t.vesselId, Field(t.occurrenceId, TxTail(t)))));
      assert |u.from| < |t.from|;
    } else if ':' in t.to {
      var p, q := CutColon(t.to);
      u := t.(from := t.from + [':'] + p, to := q);
      ShiftColon(t.from, p, q, Field(AmountText(t.amount), Field(t.vesselId, Field(t.occurrenceId, TxTail(t)))));
      assert |u.to| < |t.to|;
    } else if ':' in t.vesselId {
      var p, q := CutColon(t.vesselId);
      u := t.(vesselId := p, occurrenceId := q + [':'] + t.occurrenceId);
      ShiftColon(p, q, t.occurrenceId, TxTail(t));
      assert |u.vesselId| < |t.vesselId|;
    } else if ':' in t.occurrenceId {
      var p, q := CutColon(t.occurrenceId);
      u := t.(vesselId := t.vesselId + [':'] + p, occurrenceId := q);
      ShiftColon(t.vesselId, p, q, TxTail(t));
      assert |u.occurrenceId| < |t.occurrenceId|;
    } else {
      var p, q := CutColon(t.payload);
      u := t.(occurrenceId := t.occurrenceId + [':'] + p, payload := q);
      ShiftIntoTail(t, p, q);
      assert |u.payload| < |t.payload|;
    }
  }

  lemma ShiftIntoTail(t: Transaction, p: string, q: string)
    requires t.payload == p + [':'] + q
    ensures var u := t.(occurrenceId := t.occurrenceId + [':'] + p, payload := q);
            Field(t.occurrenceId, TxTail(t)) == Field(u.occurrenceId, TxTail(u))
  {
    hide Decimal;
  }

  /** Exactly the plain transactions are determined by their hashed text. */
  lemma HashTextDetermines(t: Transaction)
    ensures (forall u :: TxContent(u) == TxContent(t) ==> SameHashedFields(t, u)) <==> Plain(t)
  {
    hide Plain, TxContent;
    if Plain(t) {
      forall u | TxContent(u) == TxContent(t) ensures SameHashedFields(t, u) {
        TxContentInjective(t, u);
      }
    } else {
      var u := TxContentAmbiguous(t);
      assert TxContent(u) == TxContent(t) && !SameHashedFields(t, u);
    }
  }

  /** The hashed text is the nine printed fields, in this order, joined with colons. */
  lemma HashTextFields(t: Transaction)
    ensures TxContent(t) == Join([KindName(t.kind), t.from, t.to, AmountText(t.amount), t.vesselId, t.occurrenceId,
                                  t.payload, Decimal(t.timestamp), Decimal(t.nonce)], ':')
  {
    hide KindName, AmountText, Decimal, Join;
    var r8 := [Decimal(t.nonce)];
    var r7 := [Decimal(t.timestamp)] + r8;
    var r6 := [t.payload] + r7;
    var r5 := [t.occurrenceId] + r6;
    var r4 := [t.vesselId] + r5;
    var r3 := [AmountText(t.amount)] + r4;
    var r2 := [t.to] + r3;
    var r1 := [t.from] + r2;
    JoinOne(Decimal(t.nonce));
    JoinField(Decimal(t.timestamp), r8); JoinField(t.payload, r7); JoinField(t.occurrenceId, r6);
    JoinField(t.vesselId, r5); JoinField(AmountText(t.amount), r4); JoinField(t.to, r3);
    JoinField(t.from, r2); JoinField(KindName(t.kind), r1);
    assert TxTail(t) == Field(t.payload, Field(Decimal(t.timestamp), Decimal(t.nonce)));
    assert [KindName(t.kind)] + r1 == [KindName(t.kind), t.from, t.to, AmountText(t.amount), t.vesselId,
                                       t.occurrenceId, t.payload, Decimal(t.timestamp), Decimal(t.nonce)];
  }

  lemma JoinOne(a: string)
    ensures Join([a], ':') == a
  {
  }

  lemma JoinField(a: string, rest: seq<string>)
    requires rest != []
    ensures Join([a] + rest, ':') == Field(a, Join(rest, ':'))
  {
    assert ([a] + rest)[1..] == rest;
  }

  /** A mint of 1.5 ELIS as it is hashed. */
  lemma HashTextExample(t: Transaction)
    requires t.kind == Mint && t.from == "" && t.to == "a" && t.amount == 1_500_000 && t.vesselId == ""
    requires t.occurrenceId == "" && t.payload == "p" && t.timestamp == 70 && t.nonce == -3
    ensures TxContent(t) == "MINT::a:1.500000:::p:70:-3"
  {
    hide AmountText, Decimal;
    NumberExamples();
  }

  lemma NumberExamples()
    ensures AmountText(1_500_000) == "1.500000" && Decimal(70) == "70" && Decimal(-3) == "-3"
  {
    hide Padded;
    HalfAUnit();
    assert Digits(7) == "7";
  }

  lemma HalfAUnit()
    ensures Padded(500_000, 6) == "500000"
  {
    TwoDigits(50, '5', '0');
    hide Padded;
    OneDigitMore(50, 2);
    OneDigitMore(500, 3);
    OneDigitMore(5_000, 4);
    OneDigitMore(50_000, 5);
  }

  lemma OneDigitMore(n: nat, width: nat)
    ensures Padded(10 * n, width + 1) == Padded(n, width) + ['0']
  {
  }

  // --- Blocks -----------------------------------------------------------------

  function HashTxs(txs: seq<Transaction>): (hs: seq<Digest>)
    ensures |hs| == |txs|
    ensures forall i :: 0 <= i < |txs| ==> hs[i] == HashTx(txs[i])
  {
    seq(|txs|, i requires 0 <= i < |txs| => HashTx(txs[i]))
  }

  /** The digest of the block's contents; `BlockContentInjective` says why it may be structured. */
  function HashBlock(b: Block): Digest {
    BlockDigest(b.index, b.timestamp.second, HashTxs(b.transactions), b.prevHash, b.validator)
  }

  /** `Format("2006-01-02 15:04:05")`. */
  function SecondText(s: Second): (t: string)
    ensures |t| == 19
  {
    Padded(s.year, 4) + "-" + Padded(s.month, 2) + "-" + Padded(s.day, 2) + " "
    + Padded(s.hour, 2) + ":" + Padded(s.minute, 2) + ":" + Padded(s.second, 2)
  }

  function Concat(hs: seq<string>): string {
    if hs == [] then "" else Concat(hs[..|hs| - 1]) + hs[|hs| - 1]
  }

  /** The text that HashBlock hashes, over the hexadecimal texts of the digests. */
  function BlockContent(index: int, s: Second, hashes: seq<string>, prev: string, validator: string): string {
    Field(Decimal(index), SecondText(s) + ([':'] + Field(Concat(hashes), prev + ([':'] + validator))))
  }

  /** The text of a block is its five printed parts, in this order, joined with colons. */
  lemma BlockTextFields(index: int, s: Second, hashes: seq<string>, prev: string, validator: string)
    ensures BlockContent(index, s, hashes, prev, validator)
         == Join([Decimal(index), SecondText(s), Concat(hashes), prev, validator], ':')
  {
    hide Decimal, SecondText, Concat, Join;
    var r4 := [validator];
    var r3 := [prev] + r4;
    var r2 := [Concat(hashes)] + r3;
    var r1 := [SecondText(s)] + r2;
    JoinOne(validator);
    JoinField(prev, r4); JoinField(Concat(hashes), r3); JoinField(SecondText(s), r2); JoinField(Decimal(index), r1);
    assert [Decimal(index)] + r1 == [Decimal(index), SecondText(s), Concat(hashes), prev, validator];
  }

  lemma SecondExample()
    ensures SecondText(Second(2024, 6, 4, 11, 20, 0)) == "2024-06-04 11:20:00"
  {
    hide Padded;
    YearExample();
    TwoDigits(6, '0', '6'); TwoDigits(4, '0', '4'); TwoDigits(11, '1', '1');
    TwoDigits(20, '2', '0'); TwoDigits(0, '0', '0');
  }

  lemma TwoDigits(n: nat, a: char, b: char)
    requires n < 100 && a == Digit(n / 10) && b == Digit(n % 10)
    ensures Padded(n, 2) == [a, b]
  {
    assert Padded(n / 10, 1) == Padded(n / 10 / 10, 0) + [a];
  }

  lemma YearExample()
    ensures Padded(2024, 4) == "2024"
  {
    TwoDigits(20, '2', '0');
    assert Padded(202, 3) == Padded(20, 2) + ['2'];
  }

  method BuildBlockContent(index: int, s: Second, hashes: seq<string>, prev: string, validator: string)
    returns (content: string)
    ensures content == BlockContent(index, s, hashes, prev, validator)
  {
    var txsHash := "";
    for i := 0 to |hashes|
      invariant txsHash == Concat(hashes[..i])
    {
      assert hashes[..i + 1][..i] == hashes[..i];
      txsHash := txsHash + hashes[i];
    }
    assert hashes[..|hashes|] == hashes;
    content := Decimal(index) + [':'] + (SecondText(s) + ([':'] + (txsHash + [':'] + (prev + ([':'] + validator)))));
  }

  predicate IsHashText(h: string) {
    |h| == 64 && ':' !in h
  }

  lemma {:induction false} ConcatInjective(gs: seq<string>, hs: seq<string>)
    requires forall g :: g in gs ==> |g| == 64
    requires forall h :: h in hs ==> |h| == 64
    requires Concat(gs) == Concat(hs)
    ensures gs == hs
  {
    ConcatLength(gs);
    ConcatLength(hs);
    if gs != [] {
      var g, h := gs[..|gs| - 1], hs[..|hs| - 1];
      ConcatLength(g);
      ConcatLength(h);
      CutAt(Concat(g), gs[|gs| - 1], Concat(h), hs[|hs| - 1]);
      ConcatInjective(g, h);
      assert gs == g + [gs[|gs| - 1]] && hs == h + [hs[|hs| - 1]];
    }
  }

  lemma {:induction false} ConcatLength(hs: seq<string>)
    requires forall h :: h in hs ==> |h| == 64
    ensures |Concat(hs)| == 64 * |hs|
    ensures (forall h :: h in hs ==> ':' !in h) ==> ':' !in Concat(hs)
  {
    if hs != [] {
      var init, last := hs[..|hs| - 1], hs[|hs| - 1];
      assert forall h :: h in init ==> h in hs;
      assert last in hs;
      ConcatLength(init);
    }
  }

  lemma {:induction false} SecondTextInjective(s: Second, t: Second)
    requires s.FourDigitYear() && t.FourDigitYear()
    requires SecondText(s) == SecondText(t)
    ensures s == t
  {
    var a, b := SecondText(s), SecondText(t);
    assert a[0..4] == Padded(s.year, 4) && b[0..4] == Padded(t.year, 4);
    assert a[5..7] == Padded(s.month, 2) && b[5..7] == Padded(t.month, 2);
    assert a[8..10] == Padded(s.day, 2) && b[8..10] == Padded(t.day, 2);
    assert a[11..13] == Padded(s.hour, 2) && b[11..13] == Padded(t.hour, 2);
    assert a[14..16] == Padded(s.minute, 2) && b[14..16] == Padded(t.minute, 2);
    assert a[17..19] == Padded(s.second, 2) && b[17..19] == Padded(t.second, 2);
    PaddedInjective(s.year, t.year, 4);
    PaddedInjective(s.month, t.month, 2);
    PaddedInjective(s.day, t.day, 2);
    PaddedInjective(s.hour, t.hour, 2);
    PaddedInjective(s.minute, t.minute, 2);
    PaddedInjective(s.second, t.second, 2);
  }

  lemma PaddedInjective(m: nat, n: nat, width: nat)
    requires m < Power10(width) && n < Power10(width) && Padded(m, width) == Padded(n, width)
    ensures m == n
  {
    ValueOfPadded(m, width);
    ValueOfPadded(n, width);
  }

  /**
   * The text that HashBlock hashes determines the index, the second, the list of transaction
   * hashes, the previous hash and the validator.
   */
  lemma {:induction false} BlockContentInjective(
      i: int, s: Second, gs: seq<string>, p: string, v: string,
      j: int, t: Second, hs: seq<string>, q: string, w: string)
    requires s.FourDigitYear() && t.FourDigitYear()
    requires forall g :: g in gs ==> IsHashText(g)
    requires forall h :: h in hs ==> IsHashText(h)
    requires |p| == 64 && |q| == 64
    requires BlockContent(i, s, gs, p, v) == BlockContent(j, t, hs, q, w)
    ensures i == j && s == t && gs == hs && p == q && v == w
  {
    DecimalHasNo(i, ':');
    DecimalHasNo(j, ':');
    var x3, y3 := p + ([':'] + v), q + ([':'] + w);
    var x2, y2 := Field(Concat(gs), x3), Field(Concat(hs), y3);
    var x1, y1 := SecondText(s) + ([':'] + x2), SecondText(t) + ([':'] + y2);
    CutAtFirst(Decimal(i), x1, Decimal(j), y1, ':');
    ParseOfDecimal(i);
    ParseOfDecimal(j);
    CutAt(SecondText(s), [':'] + x2, SecondText(t), [':'] + y2);
    SecondTextInjective(s, t);
    CutAt([':'], x2, [':'], y2);
    ConcatLength(gs);
    ConcatLength(hs);
    CutAtFirst(Concat(gs), x3, Concat(hs), y3, ':');
    ConcatInjective(gs, hs);
    CutAt(p, [':'] + v, q, [':'] + w);
    CutAt([':'], v, [':'], w);
  }

  // --- Keys and signatures ------------------------------------------------------

  /** DeterministicKey: the public key made from a seed. */
  function KeyOf(seed: string): (key: string)
    ensures |key| == |seed| + 2
  {
    "04" + seed
  }

  function GetAddress(publicKey: string): string {
    "0x" + publicKey
  }

  function Sign(seed: string, message: Digest, nonce: int): Text {
    [Seal(KeyOf(seed), message, nonce)]
  }

  predicate Verify(publicKey: string, message: Digest, signature: Text) {
    |signature| == 1 && signature[0].Seal? && signature[0].key == publicKey && signature[0].message == message
  }

  function SignBlock(b: Block, seed: string, nonce: int): Block {
    b.(hash := HashBlock(b), signature := Sign(seed, HashBlock(b), nonce))
  }

  predicate VerifyBlockSignature(b: Block, publicKey: string) {
    Verify(publicKey, HashBlock(b), b.signature)
  }

  /** A payment for an occurrence is signed over the occurrence id, everything else over its hash. */
  predicate VerifyTxSignature(tx: Transaction) {
    if tx.kind == Mint then true
    else if tx.kind == Transfer && tx.occurrenceId != "" then
      Verify(tx.publicKey, Literal(tx.occurrenceId), tx.signature)
    else Verify(tx.publicKey, HashTx(tx), tx.signature)
  }
}
