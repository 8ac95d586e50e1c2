/** Splitting, joining and number formatting, as the Go code does them. */
module Texts {

  // --- Splitting and joining ------------------------------------------------

  /** Position of the first `sep`, or the length when there is none. */
  function FirstIndex<T(==)>(s: seq<T>, sep: T): (k: nat)
    ensures k <= |s|
    ensures sep !in s[..k]
    ensures k < |s| ==> s[k] == sep
  {
    if s == [] || s[0] == sep then 0
    else
      var k := 1 + FirstIndex(s[1..], sep);
      assert s[..k] == [s[0]] + s[1..][..k - 1];
      k
  }

  /** The pieces that `sep` ends, then what is left over unless it is empty. */
  function Split<T(==)>(s: seq<T>, sep: T): seq<seq<T>>
    decreases |s|
  {
    if s == [] then []
    else
      var k := FirstIndex(s, sep);
      if k == |s| then [s] else [s[..k]] + Split(s[k + 1..], sep)
  }

  function Join<T>(parts: seq<seq<T>>, sep: T): seq<T>
  {
    if |parts| == 0 then []
    else if |parts| == 1 then parts[0]
    else parts[0] + [sep] + Join(parts[1..], sep)
  }

  lemma FirstIndexIs<T>(a: seq<T>, sep: T, rest: seq<T>)
    requires sep !in a
    ensures FirstIndex(a + [sep] + rest, sep) == |a|
  {
    if a != [] {
      assert (a + [sep] + rest)[1..] == a[1..] + [sep] + rest;
      FirstIndexIs(a[1..], sep, rest);
    }
  }

  lemma SplitStep<T>(a: seq<T>, sep: T, rest: seq<T>)
    requires sep !in a
    ensures Split(a + [sep] + rest, sep) == [a] + Split(rest, sep)
  {
    var s := a + [sep] + rest;
    FirstIndexIs(a, sep, rest);
    assert s[..|a|] == a && s[|a| + 1..] == rest;
  }

  lemma FirstIndexNone<T>(a: seq<T>, sep: T)
    requires sep !in a
    ensures FirstIndex(a, sep) == |a|
  {
  }

  lemma SplitLast<T>(a: seq<T>, sep: T)
    requires sep !in a
    ensures Split(a, sep) == if a == [] then [] else [a]
  {
    FirstIndexNone(a, sep);
  }

  /** Pieces without the separator survive joining and splitting. */
  lemma {:induction false} SplitOfJoin<T>(parts: seq<seq<T>>, sep: T)
    requires forall p :: p in parts ==> sep !in p
    requires |parts| > 0 ==> parts[|parts| - 1] != []
    ensures Split(Join(parts, sep), sep) == parts
  {
    if |parts| == 1 {
      SplitLast(parts[0], sep);
    } else if |parts| > 1 {
      var tail := parts[1..];
      assert forall p :: p in tail ==> p in parts;
      SplitOfJoin(tail, sep);
      SplitStep(parts[0], sep, Join(tail, sep));
      assert parts == [parts[0]] + tail;
    }
  }

  /** Joining the pieces restores the text, except for one final separator. */
  lemma {:induction false} JoinOfSplit<T>(s: seq<T>, sep: T)
    ensures s == Join(Split(s, sep), sep) + Ending(s, sep)
    decreases |s|
  {
    hide Join, Ending;
    var k := FirstIndex(s, sep);
    if k == |s| {
      JoinWhole(s, sep);
    } else {
      var head, rest := s[..k], s[k + 1..];
      var parts := Split(rest, sep);
      JoinOfSplit(rest, sep);
      JoinAfter(head, parts, sep);
      GlueBack(s, head, rest, parts, sep);
      assert Split(s, sep) == [head] + parts;
    }
  }

  lemma JoinWhole<T>(s: seq<T>, sep: T)
    requires FirstIndex(s, sep) == |s|
    ensures s == Join(Split(s, sep), sep) + Ending(s, sep)
  {
    assert s[..|s|] == s;
    SplitLast(s, sep);
  }

  lemma GlueBack<T>(s: seq<T>, head: seq<T>, rest: seq<T>, parts: seq<seq<T>>, sep: T)
    requires s == head + [sep] + rest
    requires rest == Join(parts, sep) + Ending(rest, sep)
    requires rest == [] <==> parts == []
    ensures s == head + (if parts == [] then [] else [sep] + Join(parts, sep)) + Ending(s, sep)
  {
    if rest != [] {
      assert rest[|rest| - 1] == s[|s| - 1];
    }
  }

  function Ending<T(==)>(s: seq<T>, sep: T): seq<T> {
    if s != [] && s[|s| - 1] == sep then [sep] else []
  }

  lemma JoinAfter<T>(head: seq<T>, parts: seq<seq<T>>, sep: T)
    ensures Join([head] + parts, sep) == head + if parts == [] then [] else [sep] + Join(parts, sep)
  {
    assert ([head] + parts)[1..] == parts;
  }

  // --- Reading a text with separators from either end ------------------------

  lemma CutAtFirst<T>(a: seq<T>, x: seq<T>, b: seq<T>, y: seq<T>, sep: T)
    requires sep !in a && sep !in b
    requires a + [sep] + x == b + [sep] + y
    ensures a == b && x == y
  {
    FirstIndexIs(a, sep, x);
    FirstIndexIs(b, sep, y);
    var s, t := a + [sep] + x, b + [sep] + y;
    assert s[..|a|] == a && t[..|b|] == b;
    assert s[|a| + 1..] == x && t[|b| + 1..] == y;
  }

  /** Position of the last `sep`, or -1. */
  function LastIndex<T(==)>(s: seq<T>, sep: T): int {
    if s == [] then -1
    else if s[|s| - 1] == sep then |s| - 1
    else LastIndex(s[..|s| - 1], sep)
  }

  lemma {:induction false} LastIndexIs<T>(x: seq<T>, sep: T, a: seq<T>)
    requires sep !in a
    ensures LastIndex(x + [sep] + a, sep) == |x|
  {
    var s := x + [sep] + a;
    if a != [] {
      var init := a[..|a| - 1];
      assert s[|s| - 1] == a[|a| - 1];
      assert s[..|s| - 1] == x + [sep] + init;
      LastIndexIs(x, sep, init);
    }
  }

  lemma CutAtLast<T>(x: seq<T>, a: seq<T>, y: seq<T>, b: seq<T>, sep: T)
    requires sep !in a && sep !in b
    requires x + [sep] + a == y + [sep] + b
    ensures x == y && a == b
  {
    LastIndexIs(x, sep, a);
    LastIndexIs(y, sep, b);
    var s, t := x + [sep] + a, y + [sep] + b;
    assert s[..|x|] == x && t[..|y|] == y;
    assert s[|x| + 1..] == a && t[|y| + 1..] == b;
  }

  lemma CutAt<T>(a: seq<T>, x: seq<T>, b: seq<T>, y: seq<T>)
    requires |a| == |b| && a + x == b + y
    ensures a == b && x == y
  {
    var s, t := a + x, b + y;
    assert s[..|a|] == a && t[..|b|] == b;
    assert s[|a|..] == x && t[|b|..] == y;
  }

  // --- Decimal numbers --------------------------------------------------------

  function Digit(d: nat): (c: char)
    requires d < 10
    ensures '0' <= c <= '9' && c as int - '0' as int == d
  {
    ('0' as int + d) as char
  }

  ghost predicate AllDigits(s: string) {
    forall i :: 0 <= i < |s| ==> '0' <= s[i] <= '9'
  }

  /** `%d` of a natural number. */
  function Digits(n: nat): (s: string)
    ensures s != [] && AllDigits(s)
  {
    if n < 10 then [Digit(n)] else Digits(n / 10) + [Digit(n % 10)]
  }

  /** `%d`: a minus sign before a negative number. */
  function Decimal(n: int): string {
    if n < 0 then "-" + Digits(-n) else Digits(n)
  }

  /** Exactly `width` digits, padded with zeros on the left. */
  function Padded(n: nat, width: nat): (s: string)
    ensures |s| == width && AllDigits(s)
  {
    if width == 0 then "" else Padded(n / 10, width - 1) + [Digit(n % 10)]
  }

  function Power10(w: nat): (p: nat)
    ensures p > 0
  {
    if w == 0 then 1 else 10 * Power10(w - 1)
  }

  /** The number that a text of digits stands for. */
  function Value(s: string): (n: int) {
    if s == "" then 0
    else 10 * Value(s[..|s| - 1]) + (s[|s| - 1] as int - '0' as int)
  }

  /** Reads what `Decimal` writes. */
  function ParseDecimal(s: string): int {
    if s != "" && s[0] == '-' then -Value(s[1..]) else Value(s)
  }

  lemma {:induction false} ValueOfDigits(n: nat)
    ensures Value(Digits(n)) == n
  {
    if n >= 10 {
      ValueOfDigits(n / 10);
      var s := Digits(n);
      assert s[..|s| - 1] == Digits(n / 10);
    } else {
      assert Value([Digit(n)]) == 10 * Value([Digit(n)][..0]) + n;
    }
  }

  lemma {:induction false} ValueOfPadded(n: nat, width: nat)
    requires n < Power10(width)
    ensures Value(Padded(n, width)) == n
    decreases width
  {
    if width > 0 {
      ValueOfPadded(n / 10, width - 1);
      var s := Padded(n, width);
      assert s[..|s| - 1] == Padded(n / 10, width - 1);
    }
  }

  lemma ParseOfDecimal(n: int)
    ensures ParseDecimal(Decimal(n)) == n
  {
    var d := Digits(if n < 0 then -n else n);
    assert d[0] >= '0';
    assert ("-" + d)[1..] == d;
    ValueOfDigits(if n < 0 then -n else n);
  }

  lemma DecimalHasNo(n: int, c: char)
    requires !('0' <= c <= '9') && c != '-'
    ensures c !in Decimal(n)
  {
    assert AllDigits(Digits(if n < 0 then -n else n));
  }
}
