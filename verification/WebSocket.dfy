/** wsFrame and wsLer: the frame printer and parser of the monitor (sections 5.2 and 5.3 of RFC 6455). */
module WebSocket {
  import opened Models

  newtype Byte = b: int | 0 <= b < 256

  type Bytes = seq<Byte>

  const LIMIT := 0x1_0000_0000

  // --- Bytes ----------------------------------------------------------------------------

  /** `byte(l >> (8 * k))`, with `unit` the k-th power of 256. */
  function ByteAt(l: nat, unit: nat): Byte
    requires unit > 0
  {
    (l / unit % 256) as Byte
  }

  /** Exclusive or, bit by bit. */
  function XorNat(a: nat, b: nat): (c: nat)
    decreases a + b
  {
    if a == 0 && b == 0 then 0 else (if a % 2 != b % 2 then 1 else 0) + 2 * XorNat(a / 2, b / 2)
  }

  lemma {:induction false} XorBound(a: nat, b: nat, bits: nat)
    requires a < Pow2(bits) && b < Pow2(bits)
    ensures XorNat(a, b) < Pow2(bits)
    decreases bits
  {
    if bits > 0 && (a != 0 || b != 0) {
      XorBound(a / 2, b / 2, bits - 1);
    }
  }

  function Pow2(n: nat): nat {
    if n == 0 then 1 else 2 * Pow2(n - 1)
  }

  lemma Halves(x: nat, y: nat)
    requires x < 2
    ensures (x + 2 * y) % 2 == x && (x + 2 * y) / 2 == y
  {
  }

  lemma {:induction false} XorTwice(a: nat, b: nat)
    ensures XorNat(XorNat(a, b), b) == a
    decreases a + b
  {
    if a != 0 || b != 0 {
      XorTwice(a / 2, b / 2);
      Halves(if a % 2 != b % 2 then 1 else 0, XorNat(a / 2, b / 2));
      var c := XorNat(a, b);
      assert XorNat(c, b) == (if c % 2 != b % 2 then 1 else 0) + 2 * XorNat(c / 2, b / 2);
    }
  }

  /** The k-th binary digit, counted from the lowest. */
  predicate Bit(a: nat, k: nat) {
    if k == 0 then a % 2 == 1 else Bit(a / 2, k - 1)
  }

  /** A bit of the result is set exactly when it differs in the operands. */
  lemma {:induction false} XorBits(a: nat, b: nat, k: nat)
    ensures Bit(XorNat(a, b), k) <==> Bit(a, k) != Bit(b, k)
    decreases k
  {
    if a == 0 && b == 0 {
      NoBits(k);
    } else {
      Halves(if a % 2 != b % 2 then 1 else 0, XorNat(a / 2, b / 2));
      if k > 0 {
        XorBits(a / 2, b / 2, k - 1);
      }
    }
  }

  lemma {:induction false} NoBits(k: nat)
    ensures !Bit(0, k)
  {
    if k > 0 {
      NoBits(k - 1);
    }
  }

  function Xor(a: Byte, b: Byte): (c: Byte)
    ensures c as int == XorNat(a as int, b as int)
  {
    assert Pow2(8) == 256;
    XorBound(a as int, b as int, 8);
    XorNat(a as int, b as int) as Byte
  }

  /** The payload under a four-byte key; masking twice is no masking. */
  function Masked(p: Bytes, key: Bytes): (m: Bytes)
    requires |key| == 4
    ensures |m| == |p| && forall i :: 0 <= i < |p| ==> m[i] == Xor(p[i], key[i % 4])
  {
    seq(|p|, i requires 0 <= i < |p| => Xor(p[i], key[i % 4]))
  }

  lemma MaskTwice(p: Bytes, key: Bytes)
    requires |key| == 4
    ensures Masked(Masked(p, key), key) == p
  {
    forall i | 0 <= i < |p| ensures Masked(Masked(p, key), key)[i] == p[i] {
      XorTwice(p[i] as int, key[i % 4] as int);
    }
  }

  // --- Frames ---------------------------------------------------------------------------

  /** The length field: seven bits, or 126 and two bytes, or 127 and eight, the upper four zero. */
  function LengthField(l: nat): (f: Bytes)
    ensures f != []
  {
    if l <= 125 then [l as Byte]
    else if l <= 65535 then [126, ByteAt(l, 0x100), ByteAt(l, 1)]
    else [127, 0, 0, 0, 0, ByteAt(l, 0x100_0000), ByteAt(l, 0x1_0000), ByteAt(l, 0x100), ByteAt(l, 1)]
  }

  function Frame(p: Bytes): Bytes {
    [0x81] + LengthField(|p|) + p
  }

  method WsFrame(payload: Bytes) returns (frame: Bytes)
    ensures frame == Frame(payload)
  {
    var l := |payload|;
    var h: Bytes := [];
    h := h + [0x81];
    if l <= 125 {
      h := h + [l as Byte];
    } else if l <= 65535 {
      h := h + [126, ByteAt(l, 0x100), ByteAt(l, 1)];
    } else {
      h := h + [127, 0, 0, 0, 0, ByteAt(l, 0x100_0000), ByteAt(l, 0x1_0000), ByteAt(l, 0x100), ByteAt(l, 1)];
    }
    return h + payload;
  }

  /** What a client sends: the mask bit, the key and the masked payload. */
  function MaskedFrame(p: Bytes, key: Bytes): Bytes
    requires |key| == 4
  {
    var len := LengthField(|p|);
    [0x81, len[0] + 128] + len[1..] + key + Masked(p, key)
  }

  // --- The parser -------------------------------------------------------------------------

  /** What ReadFull leaves in a buffer of n zero bytes: a short stream fills only its front. */
  function Filled(s: Bytes, n: nat): (r: Bytes)
    ensures |r| == n
  {
    if n <= |s| then s[..n] else s + Zeros(n - |s|)
  }

  function Zeros(n: nat): (z: Bytes)
    ensures |z| == n
  {
    seq(n, _ => 0 as Byte)
  }

  function After(s: Bytes, n: nat): Bytes {
    if n <= |s| then s[n..] else []
  }

  /** The payload length that the header and the extension bytes announce, and how many those are. */
  function Announced(second: Byte, s: Bytes): (nat, nat) {
    var low := second as int % 128;
    if low == 126 then
      var e := Filled(s, 2);
      (e[0] as int * 0x100 + e[1] as int, 2)
    else if low == 127 then
      var e := Filled(s, 8);
      (e[4] as int * 0x100_0000 + e[5] as int * 0x1_0000 + e[6] as int * 0x100 + e[7] as int, 8)
    else (low, 0)
  }

  /** wsLer as a function: the payload and the rest of the stream, or None without a full header. */
  function Parse(s: Bytes): Option<(Bytes, Bytes)> {
    if |s| < 2 then None
    else
      var (plen, ext) := Announced(s[1], s[2..]);
      var s1 := After(s[2..], ext);
      if s[1] >= 128 then
        var key, s2 := Filled(s1, 4), After(s1, 4);
        Some((Masked(Filled(s2, plen), key), After(s2, plen)))
      else Some((Filled(s1, plen), After(s1, plen)))
  }

  /** An io.Reader over the bytes still to come. */
  class Reader {
    var rest: Bytes

    constructor (stream: Bytes)
      ensures rest == stream
    {
      rest := stream;
    }

    method ReadFull(buf: array<Byte>) returns (ok: bool)
      modifies this, buf
      ensures ok <==> buf.Length <= |old(rest)|
      ensures rest == After(old(rest), buf.Length)
      ensures (forall i :: 0 <= i < buf.Length ==> old(buf[i]) == 0) ==> buf[..] == Filled(old(rest), buf.Length)
    {
      var n := 0;
      while n < buf.Length && n < |rest|
        invariant 0 <= n <= buf.Length && n <= |rest| && rest == old(rest)
        invariant forall i :: 0 <= i < n ==> buf[i] == rest[i]
        invariant forall i :: n <= i < buf.Length ==> buf[i] == old(buf[i])
      {
        buf[n] := rest[n];
        n := n + 1;
      }
      ok := n == buf.Length;
      rest := rest[n..];
    }
  }

  method WsLer(r: Reader) returns (payload: Option<Bytes>)
    modifies r
    ensures match Parse(old(r.rest))
            case None => payload == None
            case Some((p, rest)) => payload == Some(p) && r.rest == rest
  {
    var hdr := new Byte[2](_ => 0);
    var ok := r.ReadFull(hdr);
    if !ok {
      return None;
    }
    var first, second := hdr[0], hdr[1];
    assert hdr[..] == old(r.rest)[..2];
    assert second == hdr[..][1];
    var masked := second >= 128;
    var plen := PayloadLength(r, second);
    var mk := new Byte[4](_ => 0);
    if masked {
      var _ := r.ReadFull(mk);
    }
    var buf := new Byte[plen](_ => 0);
    var _ := r.ReadFull(buf);
    if masked {
      UnmaskInPlace(buf, mk);
    }
    return Some(buf[..]);
  }

  /** The switch over 126 and 127. */
  method PayloadLength(r: Reader, second: Byte) returns (plen: nat)
    modifies r
    ensures plen == Announced(second, old(r.rest)).0
    ensures r.rest == After(old(r.rest), Announced(second, old(r.rest)).1)
  {
    plen := second as int % 128;
    if plen == 126 {
      var ext := new Byte[2](_ => 0);
      var _ := r.ReadFull(ext);
      assert ext[0] == ext[..][0] && ext[1] == ext[..][1];
      plen := ext[0] as int * 0x100 + ext[1] as int;
    } else if plen == 127 {
      var ext := new Byte[8](_ => 0);
      var _ := r.ReadFull(ext);
      assert ext[4] == ext[..][4] && ext[5] == ext[..][5] && ext[6] == ext[..][6] && ext[7] == ext[..][7];
      plen := ext[4] as int * 0x100_0000 + ext[5] as int * 0x1_0000 + ext[6] as int * 0x100 + ext[7] as int;
    }
  }

  method UnmaskInPlace(payload: array<Byte>, mk: array<Byte>)
    requires mk.Length == 4 && mk != payload
    modifies payload
    ensures payload[..] == Masked(old(payload[..]), old(mk[..]))
  {
    for i := 0 to payload.Length
      invariant mk[..] == old(mk[..])
      invariant forall k :: 0 <= k < i ==> payload[k] == Masked(old(payload[..]), old(mk[..]))[k]
      invariant forall k :: i <= k < payload.Length ==> payload[k] == old(payload[k])
    {
      assert mk[i % 4] == mk[..][i % 4];
      payload[i] := Xor(payload[i], mk[i % 4]);
    }
  }

  // --- Round trips ------------------------------------------------------------------------

  /** The announced length is the length modulo 2^32. */
  lemma LengthReadBack(l: nat, rest: Bytes)
    ensures var f := LengthField(l); f[0] < 128 && Announced(f[0], f[1..] + rest) == (l % LIMIT, |f| - 1)
  {
    var f := LengthField(l);
    var s := f[1..] + rest;
    if 125 < l <= 65535 {
      assert Filled(s, 2) == f[1..];
      assert l == (l / 0x100) * 0x100 + l % 0x100;
    } else if l > 65535 {
      assert Filled(s, 8) == f[1..];
      FourBytes(l);
    }
  }

  lemma FourBytes(l: nat)
    ensures (l / 0x100_0000 % 256) * 0x100_0000 + (l / 0x1_0000 % 256) * 0x1_0000 + (l / 0x100 % 256) * 0x100 + l % 256
         == l % LIMIT
  {
    var a, b, c, d := l / 0x100_0000, l / 0x1_0000, l / 0x100, l / LIMIT;
    assert l == c * 0x100 + l % 0x100;
    assert c / 0x100 == b && c == b * 0x100 + c % 0x100;
    assert b / 0x100 == a && b == a * 0x100 + b % 0x100;
    assert a / 0x100 == d && a == d * 0x100 + a % 0x100;
  }

  /** Parsing a printed frame returns the payload cut to its length modulo 2^32. */
  lemma {:induction false} ParseOfFrame(p: Bytes, rest: Bytes)
    ensures Parse(Frame(p) + rest) == Some((p[..|p| % LIMIT], p[|p| % LIMIT..] + rest))
  {
    hide LengthField, Announced, Filled;
    var f := LengthField(|p|);
    var s := Frame(p) + rest;
    LengthReadBack(|p|, p + rest);
    assert s[1] == f[0] && s[2..] == f[1..] + (p + rest);
    assert After(s[2..], |f| - 1) == p + rest;
    FilledFront(p, |p| % LIMIT, rest);
  }

  lemma FilledFront(p: Bytes, n: nat, rest: Bytes)
    requires n <= |p|
    ensures Filled(p + rest, n) == p[..n] && After(p + rest, n) == p[n..] + rest
  {
  }

  /** The round trip returns the payload and consumes exactly the frame, just for payloads below 2^32 bytes. */
  lemma FrameRoundTrip(p: Bytes, rest: Bytes)
    ensures Parse(Frame(p) + rest) == Some((p, rest)) <==> |p| < LIMIT
  {
    hide Parse, Frame;
    ParseOfFrame(p, rest);
    if |p| < LIMIT {
      assert p[..|p|] == p && p[|p|..] + rest == rest;
    } else {
      assert |p[..|p| % LIMIT]| < |p|;
    }
  }

  /** The masked frame comes back unmasked, and exactly the frame is consumed. */
  lemma {:induction false} MaskedFrameParses(p: Bytes, key: Bytes, rest: Bytes)
    requires |key| == 4 && |p| < LIMIT
    ensures Parse(MaskedFrame(p, key) + rest) == Some((p, rest))
  {
    hide LengthField, Announced, MaskedFrame, Filled;
    var f, m := LengthField(|p|), Masked(p, key);
    var s := MaskedFrame(p, key) + rest;
    var tail := key + (m + rest);
    MaskedHeader(p, key, rest);
    FilledFront(key, 4, m + rest);
    FilledFront(m, |p|, rest);
    assert key[..4] == key && key[4..] + (m + rest) == m + rest;
    assert m[..|p|] == m && m[|p|..] + rest == rest;
    MaskTwice(p, key);
  }

  lemma MaskedHeader(p: Bytes, key: Bytes, rest: Bytes)
    requires |key| == 4 && |p| < LIMIT
    ensures var f := LengthField(|p|);
            var s := MaskedFrame(p, key) + rest;
            && |s| >= 2 && s[1] >= 128 && Announced(s[1], s[2..]) == (|p|, |f| - 1)
            && After(s[2..], |f| - 1) == key + (Masked(p, key) + rest)
  {
    hide LengthField, Announced, Filled;
    var f := LengthField(|p|);
    var s := MaskedFrame(p, key) + rest;
    var tail := key + (Masked(p, key) + rest);
    LengthReadBack(|p|, tail);
    assert s == [0x81, f[0] + 128] + (f[1..] + tail);
    assert s[2..] == f[1..] + tail;
    SameLowBits(f[0], s[2..]);
  }

  lemma SameLowBits(b: Byte, s: Bytes)
    requires b < 128
    ensures Announced(b + 128, s) == Announced(b, s)
  {
    assert (b + 128) as int % 128 == b as int % 128;
  }

  /**
   * A printed frame is one final text frame without a mask: the byte 0x81, a byte below 0x80, one of the three
   * header sizes, and the payload as its end.
   */
  lemma FrameBytes(p: Bytes)
    ensures var f, n := Frame(p), |Frame(p)| - |p|;
            && f[0] == 0x81 && n == (if |p| <= 125 then 2 else if |p| <= 65535 then 4 else 10)
            && f[1] == (if |p| <= 125 then |p| as Byte else if |p| <= 65535 then 126 else 127)
            && f[n..] == p
  {
    assert Frame(p) == ([0x81] + LengthField(|p|)) + p;
  }

  /** What the parser returns does not depend on the first byte, and a stream that ends early reads as zeros. */
  lemma ShortStream(first: Byte, l: nat, s: Bytes)
    requires |s| < l <= 125
    ensures Parse([first, l as Byte] + s).Some?
    ensures var (payload, rest) := Parse([first, l as Byte] + s).value;
            && |payload| == l && rest == []
            && forall i :: 0 <= i < l ==> payload[i] == if i < |s| then s[i] else 0
  {
    var t := [first, l as Byte] + s;
    assert t[2..] == s && Announced(t[1], t[2..]) == (l, 0) && After(s, 0) == s;
  }

  /** No shorter length field announces the same length. */
  lemma ShortestForm(l: nat, g: Bytes, rest: Bytes)
    requires l < LIMIT && g != [] && g[0] < 128
    requires Announced(g[0], g[1..] + rest) == (l, |g| - 1)
    ensures |LengthField(l)| <= |g|
  {
  }
}
