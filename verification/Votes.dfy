/** consensus.go: the proposer of a height and the check of a block's collected votes. */
module Votes {
  import opened Models
  import opened Texts
  import opened Hashing

  const VALIDATORS := ["B1", "B2", "B3", "B4"]
  const QUORUM := 3

  /** The validator of a height; negative heights have none (Go would panic on them). */
  function GetProposer(index: int): string {
    if index < 0 then "" else VALIDATORS[index % |VALIDATORS|]
  }

  /** The four validators take turns by height, B1 at the heights divisible by four. */
  lemma TakingTurns(h: nat)
    ensures h % 4 == 0 ==> GetProposer(h) == "B1"
    ensures h % 4 == 1 ==> GetProposer(h) == "B2"
    ensures h % 4 == 2 ==> GetProposer(h) == "B3"
    ensures h % 4 == 3 ==> GetProposer(h) == "B4"
    ensures {GetProposer(h), GetProposer(h + 1), GetProposer(h + 2), GetProposer(h + 3)} == {"B1", "B2", "B3", "B4"}
  {
  }

  /** splitSemicolon and splitColon. */
  method SplitText(s: Text, sep: char) returns (res: seq<Text>)
    ensures res == Split(s, Ch(sep))
  {
    res := [];
    var cur: Text := [];
    assert cur + s[0..] == s;
    for i := 0 to |s|
      invariant Ch(sep) !in cur
      invariant res + Split(cur + s[i..], Ch(sep)) == Split(s, Ch(sep))
    {
      Consume(cur, s, i, Ch(sep));
      if s[i] == Ch(sep) {
        res := res + [cur];
        cur := [];
      } else {
        cur := cur + [s[i]];
      }
    }
    assert cur + s[|s|..] == cur;
    SplitLast(cur, Ch(sep));
    if cur != [] {
      res := res + [cur];
    }
  }

  lemma Consume(cur: Text, s: Text, i: nat, sep: Sym)
    requires sep !in cur && i < |s|
    ensures s[i] == sep ==> Split(cur + s[i..], sep) == [cur] + Split([] + s[i + 1..], sep)
    ensures s[i] != sep ==> cur + s[i..] == (cur + [s[i]]) + s[i + 1..]
  {
    assert cur + s[i..] == cur + [s[i]] + s[i + 1..];
    assert [] + s[i + 1..] == s[i + 1..];
    if s[i] == sep {
      SplitStep(cur, sep, s[i + 1..]);
    }
  }

  /** `part` is "v:signature" with v's valid signature of the block's digest. */
  predicate ValidVote(b: Block, part: Text, v: string) {
    var sub := Split(part, Ch(':'));
    |sub| == 2 && sub[0] == Str(v) && Verify(KeyOf(v), HashBlock(b), sub[1])
  }

  predicate ValidPart(b: Block, part: Text) {
    exists i :: 0 <= i < |VALIDATORS| && ValidVote(b, part, VALIDATORS[i])
  }

  /** The distinct valid parts of a signature text. */
  function ValidParts(b: Block, parts: seq<Text>): set<Text> {
    set p | p in parts && ValidPart(b, p)
  }

  /** What VerifyBlockVotes decides: three distinct valid parts, whoever signed them. */
  predicate VotesAccept(b: Block) {
    if b.index == 0 then b.validator == "GENESIS"
    else |ValidParts(b, Split(b.signature, Ch(';')))| >= QUORUM
  }

  method VerifyBlockVotes(b: Block) returns (ok: bool)
    ensures ok == VotesAccept(b)
  {
    hide ValidPart, ValidParts, Split;
    NoParts(b);
    if b.index == 0 {
      return b.validator == "GENESIS";
    }
    var parts := SplitText(b.signature, ';');
    var validVotes := 0;
    var voted: set<Text> := {};
    for i := 0 to |parts|
      invariant voted == ValidParts(b, parts[..i])
      invariant validVotes == |voted|
    {
      ghost var before := voted;
      var part := parts[i];
      var sub := SplitText(part, ':');
      if |sub| == 2 {
        var k := 0;
        while k < |VALIDATORS| && Str(VALIDATORS[k]) != sub[0]
          invariant 0 <= k <= |VALIDATORS|
          invariant forall j :: 0 <= j < k ==> Str(VALIDATORS[j]) != sub[0]
        {
          k := k + 1;
        }
        if k < |VALIDATORS| {
          FirstNameOnly(b, part, sub, k);
          if part !in voted && VerifyBlockSignature(b.(signature := sub[1]), KeyOf(VALIDATORS[k])) {
            validVotes := validVotes + 1;
            voted := voted + {part};
          }
        }
      }
      UnknownName(b, part, sub);
      PartsAreValid(b, parts[..i], part);
      MorePart(b, parts, i, before, voted);
    }
    assert parts[..|parts|] == parts;
    return validVotes >= QUORUM;
  }

  lemma NoParts(b: Block)
    ensures ValidParts(b, []) == {}
  {
  }

  lemma PartsAreValid(b: Block, parts: seq<Text>, part: Text)
    ensures part in ValidParts(b, parts) ==> ValidPart(b, part)
  {
  }

  lemma UnknownName(b: Block, part: Text, sub: seq<Text>)
    requires sub == Split(part, Ch(':'))
    ensures |sub| != 2 || (forall j :: 0 <= j < |VALIDATORS| ==> Str(VALIDATORS[j]) != sub[0]) ==> !ValidPart(b, part)
  {
  }

  /** Once a name matches, the part is valid exactly when that validator's signature is. */
  lemma FirstNameOnly(b: Block, part: Text, sub: seq<Text>, k: nat)
    requires sub == Split(part, Ch(':')) && |sub| == 2
    requires k < |VALIDATORS| && Str(VALIDATORS[k]) == sub[0]
    ensures ValidPart(b, part) <==> Verify(KeyOf(VALIDATORS[k]), HashBlock(b), sub[1])
  {
    assert ValidVote(b, part, VALIDATORS[k]) <==> Verify(KeyOf(VALIDATORS[k]), HashBlock(b), sub[1]);
    forall j | 0 <= j < |VALIDATORS| && ValidVote(b, part, VALIDATORS[j])
      ensures VALIDATORS[j] == VALIDATORS[k]
    {
      StrInjective(VALIDATORS[j], VALIDATORS[k]);
    }
  }

  lemma MorePart(b: Block, parts: seq<Text>, i: nat, before: set<Text>, after: set<Text>)
    requires i < |parts| && before == ValidParts(b, parts[..i])
    requires after == if ValidPart(b, parts[i]) then before + {parts[i]} else before
    ensures after == ValidParts(b, parts[..i + 1])
  {
    assert parts[..i + 1] == parts[..i] + [parts[i]];
  }

  lemma StrInjective(a: string, b: string)
    requires Str(a) == Str(b)
    ensures a == b
  {
    forall i | 0 <= i < |a| ensures a[i] == b[i] {
      assert Str(a)[i] == Ch(a[i]) && Str(b)[i] == Ch(b[i]);
    }
  }

  // --- Ballots ------------------------------------------------------------------------

  /** The vote text "voter:signature" that a broker files. */
  function VoteText(voter: string, signature: Text): Text {
    Str(voter) + [Ch(':')] + signature
  }

  function Ballot(v: string, hash: Digest, nonce: int): Text {
    VoteText(v, [Seal(KeyOf(v), hash, nonce)])
  }

  /** The name in front of a vote text of a two-letter validator. */
  function VoterOf(t: Text): string {
    if |t| >= 2 && t[0].Ch? && t[1].Ch? then [t[0].c, t[1].c] else ""
  }

  predicate IsBallot(t: Text, hash: Digest) {
    && VoterOf(t) in VALIDATORS && |t| == 4 && t[3].Seal?
    && t == Ballot(VoterOf(t), hash, t[3].nonce)
  }

  predicate DistinctVoters(ballots: seq<Text>) {
    forall i, j :: 0 <= i < j < |ballots| ==> VoterOf(ballots[i]) != VoterOf(ballots[j])
  }

  /** A quorum of ballots for one digest by different validators. */
  predicate Quorum(ballots: seq<Text>, hash: Digest) {
    && |ballots| >= QUORUM && DistinctVoters(ballots)
    && forall i :: 0 <= i < |ballots| ==> IsBallot(ballots[i], hash)
  }

  /** strings.HasPrefix. */
  predicate HasPrefix(t: Text, prefix: Text) {
    prefix <= t
  }

  lemma ValidatorNames(v: string)
    requires v in VALIDATORS
    ensures |v| == 2 && ':' !in v && ';' !in v
  {
  }

  lemma BallotIs(v: string, hash: Digest, nonce: int)
    requires v in VALIDATORS
    ensures IsBallot(Ballot(v, hash, nonce), hash) && VoterOf(Ballot(v, hash, nonce)) == v
  {
    ValidatorNames(v);
    assert VoterOf(Ballot(v, hash, nonce)) == v;
  }

  /** On ballots the textual prefix test compares voters. */
  lemma PrefixIsVoter(t: Text, hash: Digest, v: string)
    requires IsBallot(t, hash) && v in VALIDATORS
    ensures HasPrefix(t, Str(v) + [Ch(':')]) <==> VoterOf(t) == v
  {
    ValidatorNames(v);
    ValidatorNames(VoterOf(t));
    assert t[..2] == Str(VoterOf(t)) && t[2] == Ch(':');
    if HasPrefix(t, Str(v) + [Ch(':')]) {
      assert t[0] == Str(v)[0] && t[1] == Str(v)[1];
      assert VoterOf(t) == v;
    }
  }

  lemma BallotIsValidPart(t: Text, b: Block)
    requires IsBallot(t, HashBlock(b))
    ensures ValidPart(b, t) && Ch(';') !in t
  {
    var v := VoterOf(t);
    ValidatorNames(v);
    var sig := [t[3]];
    assert t == Str(v) + [Ch(':')] + sig;
    assert forall i :: 0 <= i < |v| ==> Str(v)[i] != Ch(':') && Str(v)[i] != Ch(';');
    SplitStep(Str(v), Ch(':'), sig);
    SplitLast(sig, Ch(':'));
    assert ValidVote(b, t, v);
    var i :| 0 <= i < |VALIDATORS| && VALIDATORS[i] == v;
    assert ValidVote(b, t, VALIDATORS[i]);
  }

  lemma JoinedPartsAccepted(b: Block, parts: seq<Text>)
    requires b.index != 0 && b.signature == Join(parts, Ch(';')) && |parts| >= 3
    requires forall i :: 0 <= i < |parts| ==> IsBallot(parts[i], HashBlock(b))
    requires parts[0] != parts[1] && parts[1] != parts[2] && parts[0] != parts[2]
    ensures Split(b.signature, Ch(';')) == parts && VotesAccept(b)
  {
    forall p | p in parts ensures ValidPart(b, p) && Ch(';') !in p && p != [] {
      BallotIsValidPart(p, b);
    }
    SplitOfJoin(parts, Ch(';'));
    assert parts[0] in parts && parts[1] in parts && parts[2] in parts;
    ThreeElements(ValidParts(b, parts), parts[0], parts[1], parts[2]);
  }

  lemma ThreeElements<T>(s: set<T>, x: T, y: T, z: T)
    requires x in s && y in s && z in s && x != y && y != z && x != z
    ensures |s| >= 3
  {
    CardinalityGrows({x, y, z}, s);
  }

  /** The joined votes of a quorum split back into those votes and are accepted. */
  lemma QuorumAccepted(b: Block, ballots: seq<Text>)
    requires b.index != 0 && Quorum(ballots, HashBlock(b)) && b.signature == Join(ballots, Ch(';'))
    ensures Split(b.signature, Ch(';')) == ballots && VotesAccept(b)
  {
    assert VoterOf(ballots[0]) != VoterOf(ballots[1]) && VoterOf(ballots[1]) != VoterOf(ballots[2]);
    assert VoterOf(ballots[0]) != VoterOf(ballots[2]);
    JoinedPartsAccepted(b, ballots);
  }

  /** A valid part is "v:" with one seal of v over the block's digest, and possibly one colon more. */
  lemma ValidVoteExactly(b: Block, part: Text, v: string)
    requires v in VALIDATORS
    ensures ValidVote(b, part, v) <==>
            exists x :: part == Ballot(v, HashBlock(b), x) || part == Ballot(v, HashBlock(b), x) + [Ch(':')]
  {
    hide HashBlock;
    var h := HashBlock(b);
    if ValidVote(b, part, v) {
      var sub := Split(part, Ch(':'));
      JoinOfSplit(part, Ch(':'));
      assert Join(sub, Ch(':')) == sub[0] + [Ch(':')] + sub[1];
      assert sub[1] == [Seal(KeyOf(v), h, sub[1][0].nonce)];
      assert part == Ballot(v, h, sub[1][0].nonce) || part == Ballot(v, h, sub[1][0].nonce) + [Ch(':')];
    }
    forall x | part == Ballot(v, h, x) || part == Ballot(v, h, x) + [Ch(':')] ensures ValidVote(b, part, v) {
      BallotSplits(v, h, x);
    }
  }

  lemma BallotSplits(v: string, hash: Digest, x: int)
    requires v in VALIDATORS
    ensures var t := Ballot(v, hash, x);
            Split(t, Ch(':')) == Split(t + [Ch(':')], Ch(':')) == [Str(v), [Seal(KeyOf(v), hash, x)]]
  {
    hide Split, KeyOf;
    var sig, c := [Seal(KeyOf(v), hash, x)], Ch(':');
    ValidatorNames(v);
    assert forall i :: 0 <= i < |v| ==> Str(v)[i] != c;
    SplitStep(Str(v), c, sig);
    SplitLast(sig, c);
    assert Ballot(v, hash, x) + [c] == Str(v) + [c] + (sig + [c]);
    SplitStep(Str(v), c, sig + [c]);
    SplitEnded(sig, c);
  }

  lemma SplitEnded(a: Text, sep: Sym)
    requires sep !in a
    ensures Split(a + [sep], sep) == [a]
  {
    assert a + [sep] == a + [sep] + [];
    SplitStep(a, sep, []);
    SplitLast([], sep);
  }

  /** Above the genesis block three different valid parts are what it takes, and all it takes. */
  lemma AcceptsExactly(b: Block)
    requires b.index != 0
    ensures VotesAccept(b) <==> exists x, y, z :: {x, y, z} <= Counted(b) && x != y && y != z && x != z
  {
    hide Split, ValidPart;
    if VotesAccept(b) {
      var x, y, z := ThreeOf(Counted(b));
      assert {x, y, z} <= Counted(b);
    }
    forall x, y, z | {x, y, z} <= Counted(b) && x != y && y != z && x != z ensures VotesAccept(b) {
      ThreeElements(Counted(b), x, y, z);
    }
  }

  // --- When the count of parts is a count of validators ---------------------------------------

  function Names(parts: set<Text>): set<string> {
    set p | p in parts :: VoterOf(p)
  }

  /** No two different parts carry one name. */
  ghost predicate OneVoteEach(parts: set<Text>) {
    forall p, q :: p in parts && q in parts && VoterOf(p) == VoterOf(q) ==> p == q
  }

  lemma {:induction false} NamesCount(parts: set<Text>)
    ensures |Names(parts)| <= |parts|
    ensures |Names(parts)| == |parts| <==> OneVoteEach(parts)
    decreases |parts|
  {
    hide VoterOf;
    if parts == {} {
      assert Names(parts) == {};
    } else {
      var p :| p in parts;
      var rest := parts - {p};
      NamesCount(rest);
      assert Names(parts) == Names(rest) + {VoterOf(p)};
      assert parts == rest + {p};
      if VoterOf(p) in Names(rest) {
        var q :| q in rest && VoterOf(q) == VoterOf(p);
        assert Names(parts) == Names(rest);
      } else {
        assert OneVoteEach(parts) <==> OneVoteEach(rest);
      }
    }
  }

  /** The name in front of a valid part is the validator whose signature it holds. */
  lemma NameOfValidPart(b: Block, p: Text)
    requires ValidPart(b, p)
    ensures VoterOf(p) in VALIDATORS && ValidVote(b, p, VoterOf(p))
  {
    hide HashBlock;
    var i :| 0 <= i < |VALIDATORS| && ValidVote(b, p, VALIDATORS[i]);
    var v := VALIDATORS[i];
    ValidatorNames(v);
    FirstPiece(p, v);
    assert VoterOf(p) == v;
  }

  lemma FirstPiece(p: Text, v: string)
    requires |Split(p, Ch(':'))| == 2 && Split(p, Ch(':'))[0] == Str(v) && |v| == 2
    ensures |p| >= 2 && p[0] == Ch(v[0]) && p[1] == Ch(v[1])
  {
    assert p[..FirstIndex(p, Ch(':'))] == Str(v);
  }

  /** The valid parts that VerifyBlockVotes counts. */
  function Counted(b: Block): set<Text> {
    ValidParts(b, Split(b.signature, Ch(';')))
  }

  /**
   * The number of parts counted is the number of validators that signed exactly when no two different
   * parts carry one name; otherwise some validator is counted twice.
   */
  lemma CountsValidatorsExactly(b: Block)
    ensures |Names(Counted(b))| == |Counted(b)| <==> OneVoteEach(Counted(b))
    ensures forall v :: v in Names(Counted(b)) <==> v in VALIDATORS && exists p :: p in Counted(b) && ValidVote(b, p, v)
  {
    hide ValidVote, Split, VoterOf;
    NamesCount(Counted(b));
    forall p | p in Counted(b) ensures VoterOf(p) in VALIDATORS && ValidVote(b, p, VoterOf(p)) {
      NameOfValidPart(b, p);
    }
    forall v, p | p in Counted(b) && v in VALIDATORS && ValidVote(b, p, v) ensures VoterOf(p) == v {
      OneName(b, p, v);
    }
  }

  lemma OneName(b: Block, p: Text, v: string)
    requires v in VALIDATORS && ValidVote(b, p, v)
    ensures VoterOf(p) == v
  {
    hide HashBlock;
    ValidatorNames(v);
    FirstPiece(p, v);
  }

  /** With that condition, which a caller can test, an accepted block carries valid signatures of three validators. */
  lemma AcceptedByThree(b: Block) returns (x: Text, y: Text, z: Text)
    requires b.index != 0 && VotesAccept(b) && OneVoteEach(Counted(b))
    ensures x in Counted(b) && y in Counted(b) && z in Counted(b)
    ensures VoterOf(x) != VoterOf(y) && VoterOf(y) != VoterOf(z) && VoterOf(x) != VoterOf(z)
    ensures ValidVote(b, x, VoterOf(x)) && ValidVote(b, y, VoterOf(y)) && ValidVote(b, z, VoterOf(z))
  {
    hide ValidVote, Split, VoterOf, ValidPart;
    var s := Counted(b);
    x, y, z := ThreeOf(s);
    NameOfValidPart(b, x);
    NameOfValidPart(b, y);
    NameOfValidPart(b, z);
  }

  lemma ThreeOf<T>(s: set<T>) returns (x: T, y: T, z: T)
    requires |s| >= 3
    ensures x in s && y in s && z in s && x != y && y != z && x != z
  {
    x :| x in s;
    var rest := s - {x};
    assert |rest| >= 2;
    y :| y in rest;
    assert |rest - {y}| >= 1;
    z :| z in rest - {y};
  }

  lemma CardinalityGrows<T>(a: set<T>, b: set<T>)
    requires a <= b
    ensures |a| <= |b|
  {
    assert b == a + (b - a);
  }

  /**
   * The count is of distinct texts, not of distinct validators: three signatures of one validator
   * are accepted. Distinct voters come from handleBlockVote, not from this check.
   */
  lemma OneVoterThreeParts(draft: Block) returns (b: Block)
    requires draft.index != 0
    ensures VotesAccept(b) && b == draft.(signature := b.signature)
    ensures forall p :: p in Split(b.signature, Ch(';')) ==> VoterOf(p) == "B1"
  {
    var h := HashBlock(draft);
    BallotIs("B1", h, 0);
    BallotIs("B1", h, 1);
    BallotIs("B1", h, 2);
    var x, y, z := Ballot("B1", h, 0), Ballot("B1", h, 1), Ballot("B1", h, 2);
    b := draft.(signature := Join([x, y, z], Ch(';')));
    assert x[3].nonce == 0 && y[3].nonce == 1 && z[3].nonce == 2;
    JoinedPartsAccepted(b, [x, y, z]);
  }
}
