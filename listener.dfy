/** The example listener's keyword filter: the names of the example
    source's keywords that are all set in an event's keyword mask. */
module KeywordListener {
  import opened Wrappers
  import Tracing

  /** The keywords the example event source declares. */
  datatype ExampleKeyword = ExceptionData | Debug | Warning | Informational | Critical | Error

  /** Their masks: ExceptionData 0x0001, Debug 0x0002, Warning 0x0004,
      Informational 0x0008, Critical 0x0010, Error 0x0020. */
  function KeywordMask(k: ExampleKeyword): nat
  {
    match k
    case ExceptionData => 0x0001
    case Debug => 0x0002
    case Warning => 0x0004
    case Informational => 0x0008
    case Critical => 0x0010
    case Error => 0x0020
  }

  /** The keyword as an EventKeywords value. */
  function KeywordValue(k: ExampleKeyword): Tracing.Keywords
  {
    Tracing.MaskBits(KeywordMask(k))
  }

  /** The bit each mask sets. */
  function KeywordBit(k: ExampleKeyword): Tracing.Bit
  {
    match k
    case ExceptionData => 0
    case Debug => 1
    case Warning => 2
    case Informational => 3
    case Critical => 4
    case Error => 5
  }

  /** The constants are distinct single bits. */
  lemma KeywordsAreSingleBits(k: ExampleKeyword, j: ExampleKeyword)
    ensures KeywordValue(k) == {KeywordBit(k)}
    ensures KeywordValue(k) * KeywordValue(j) == {} <==> k != j
  {
    SingleBit(k);
    SingleBit(j);
    if k == j {
      assert KeywordBit(k) in KeywordValue(k) * KeywordValue(j);
    }
  }

  lemma SingleBit(k: ExampleKeyword)
    ensures KeywordValue(k) == {KeywordBit(k)}
  {
    var b := KeywordBit(k);
    assert Tracing.Pow2(b) == KeywordMask(k) by {
      assert Tracing.Pow2(0) == 1;
      assert Tracing.Pow2(1) == 2;
      assert Tracing.Pow2(2) == 4;
      assert Tracing.Pow2(3) == 8;
      assert Tracing.Pow2(4) == 16;
      assert Tracing.Pow2(5) == 32;
    }
    Tracing.MaskBitsSingle(b);
  }

  /** The identifier of each constant. */
  function KeywordName(k: ExampleKeyword): string
  {
    match k
    case ExceptionData => "ExceptionData"
    case Debug => "Debug"
    case Warning => "Warning"
    case Informational => "Informational"
    case Critical => "Critical"
    case Error => "Error"
  }

  /** The order the listener tests them in. */
  const AvailableKeywords: seq<ExampleKeyword> := [Warning, Critical, Debug, Error, ExceptionData, Informational]

  /** Each keyword's position in AvailableKeywords. */
  function Rank(k: ExampleKeyword): (i: nat)
    ensures i < |AvailableKeywords| && AvailableKeywords[i] == k
  {
    match k
    case Warning => 0
    case Critical => 1
    case Debug => 2
    case Error => 3
    case ExceptionData => 4
    case Informational => 5
  }

  /** The names of the given keywords whose bits are all set in the mask,
      in the given order: a keyword's name is yielded exactly when the
      keyword is given and (keyword & k) == k. */
  function MatchingNames(keyword: Tracing.Keywords, ks: seq<ExampleKeyword>): (names: seq<string>)
    ensures |names| <= |ks|
    ensures forall k :: KeywordName(k) in names <==> k in ks && KeywordValue(k) <= keyword
  {
    if ks == [] then []
    else
      assert ks == [ks[0]] + ks[1..];
      assert forall k :: KeywordName(k) == KeywordName(ks[0]) ==> k == ks[0];
      (if KeywordValue(ks[0]) <= keyword then [KeywordName(ks[0])] else []) + MatchingNames(keyword, ks[1..])
  }

  /** GetKeywordStrings: the matching names, in AvailableKeywords order; a
      keyword's name is yielded exactly when all of its bits are set. */
  function GetKeywordStrings(keyword: Tracing.Keywords): (names: seq<string>)
    ensures |names| <= |AvailableKeywords|
    ensures forall k :: KeywordName(k) in names <==> KeywordValue(k) <= keyword
  {
    assert forall k :: AvailableKeywords[Rank(k)] == k;
    MatchingNames(keyword, AvailableKeywords)
  }

  /** Only the six identifiers are ever yielded. */
  lemma {:induction false} MatchingNamesAreNames(keyword: Tracing.Keywords, ks: seq<ExampleKeyword>)
    ensures forall s :: s in MatchingNames(keyword, ks) ==> exists k :: k in ks && s == KeywordName(k)
  {
    if ks != [] {
      MatchingNamesAreNames(keyword, ks[1..]);
    }
  }

  /** The inverse of KeywordName: the keyword a string names, if any. */
  function KeywordOfName(name: string): (k: Option<ExampleKeyword>)
    ensures forall j :: KeywordName(j) == name <==> k == Some(j)
  {
    if name == "ExceptionData" then Some(ExceptionData)
    else if name == "Debug" then Some(Debug)
    else if name == "Warning" then Some(Warning)
    else if name == "Informational" then Some(Informational)
    else if name == "Critical" then Some(Critical)
    else if name == "Error" then Some(Error)
    else None
  }

  /** The position of the named keyword in AvailableKeywords; -1 for any
      other string. */
  function RankOfName(name: string): int
  {
    match KeywordOfName(name)
    case None => -1
    case Some(k) => Rank(k)
  }

  /** Names appear in AvailableKeywords order, so none appears twice. */
  predicate InRankOrder(names: seq<string>)
  {
    forall i, j :: 0 <= i < j < |names| ==> RankOfName(names[i]) < RankOfName(names[j])
  }

  /** Names yielded from keywords ranked above a bound are ranked above it. */
  lemma {:induction false} MatchingNamesAbove(keyword: Tracing.Keywords, ks: seq<ExampleKeyword>, bound: int)
    requires forall i :: 0 <= i < |ks| ==> Rank(ks[i]) > bound
    ensures forall s :: s in MatchingNames(keyword, ks) ==> RankOfName(s) > bound
  {
    if ks != [] {
      MatchingNamesAbove(keyword, ks[1..], bound);
      assert RankOfName(KeywordName(ks[0])) == Rank(ks[0]);
    }
  }

  /** Putting an element in front of a list that is strictly increasing
      under rank, and whose elements all rank above it, keeps the list
      strictly increasing. */
  lemma ConsIncreasing<T>(rank: T -> int, x: T, rest: seq<T>)
    requires forall i, j :: 0 <= i < j < |rest| ==> rank(rest[i]) < rank(rest[j])
    requires forall k :: 0 <= k < |rest| ==> rank(rest[k]) > rank(x)
    ensures forall i, j :: 0 <= i < j < |[x] + rest| ==> rank(([x] + rest)[i]) < rank(([x] + rest)[j])
  {
    var names := [x] + rest;
    forall i, j | 0 <= i < j < |names|
      ensures rank(names[i]) < rank(names[j])
    {
      assert names[j] == rest[j - 1];
      if i > 0 {
        assert names[i] == rest[i - 1];
      }
    }
  }

  lemma {:induction false} MatchingNamesOrdered(keyword: Tracing.Keywords, ks: seq<ExampleKeyword>)
    requires forall i, j :: 0 <= i < j < |ks| ==> Rank(ks[i]) < Rank(ks[j])
    ensures InRankOrder(MatchingNames(keyword, ks))
  {
    if ks != [] {
      var rest := MatchingNames(keyword, ks[1..]);
      MatchingNamesOrdered(keyword, ks[1..]);
      MatchingNamesAbove(keyword, ks[1..], Rank(ks[0]));
      var names := MatchingNames(keyword, ks);
      if KeywordValue(ks[0]) <= keyword {
        assert names == [KeywordName(ks[0])] + rest;
        assert RankOfName(KeywordName(ks[0])) == Rank(ks[0]);
        ConsIncreasing(RankOfName, KeywordName(ks[0]), rest);
      } else {
        assert names == rest;
      }
    }
  }

  /** GetKeywordStrings yields only the six identifiers, in
      AvailableKeywords order, each at most once. */
  lemma GetKeywordStringsOrdered(keyword: Tracing.Keywords)
    ensures forall s :: s in GetKeywordStrings(keyword) ==> KeywordOfName(s).Some?
    ensures InRankOrder(GetKeywordStrings(keyword))
    ensures forall i, j :: 0 <= i < j < |GetKeywordStrings(keyword)| ==> GetKeywordStrings(keyword)[i] != GetKeywordStrings(keyword)[j]
  {
    MatchingNamesAreNames(keyword, AvailableKeywords);
    forall i | 0 <= i < |AvailableKeywords|
      ensures Rank(AvailableKeywords[i]) == i
    {
    }
    MatchingNamesOrdered(keyword, AvailableKeywords);
  }

  /** An event without keywords yields no names. */
  lemma NoKeywordsNoNames(keyword: Tracing.Keywords)
    requires keyword == Tracing.KeywordsNone
    ensures GetKeywordStrings(keyword) == []
  {
    forall k ensures !(KeywordValue(k) <= keyword) {
      SingleBit(k);
    }
    assert AvailableKeywords[1..][1..][1..][1..][1..][1..] == [];
  }

  /** The union of the masks of the named keywords; other strings add
      nothing. */
  function MaskOfNames(names: seq<string>): Tracing.Keywords
  {
    if names == [] then {}
    else
      match KeywordOfName(names[0])
      case None => MaskOfNames(names[1..])
      case Some(k) => KeywordValue(k) + MaskOfNames(names[1..])
  }

  /** The six example bits. */
  function ExampleBits(ks: seq<ExampleKeyword>): Tracing.Keywords
  {
    if ks == [] then {} else KeywordValue(ks[0]) + ExampleBits(ks[1..])
  }

  lemma {:induction false} MaskOfMatchingNames(keyword: Tracing.Keywords, ks: seq<ExampleKeyword>)
    ensures MaskOfNames(MatchingNames(keyword, ks)) == keyword * ExampleBits(ks)
  {
    if ks != [] {
      MaskOfMatchingNames(keyword, ks[1..]);
      var k := ks[0];
      SingleBit(k);
      var names := MatchingNames(keyword, ks);
      var rest := MatchingNames(keyword, ks[1..]);
      if KeywordValue(k) <= keyword {
        assert names == [KeywordName(k)] + rest;
        assert names[1..] == rest;
      } else {
        assert names == rest;
      }
    }
  }

  /** Reading the names back gives the mask restricted to the six example
      bits: nothing is lost and nothing is invented. */
  lemma GetKeywordStringsRoundTrip(keyword: Tracing.Keywords)
    ensures MaskOfNames(GetKeywordStrings(keyword)) == keyword * Tracing.MaskBits(0x3F)
  {
    MaskOfMatchingNames(keyword, AvailableKeywords);
    AllExampleBits();
  }

  lemma AllExampleBits()
    ensures ExampleBits(AvailableKeywords) == Tracing.MaskBits(0x3F)
  {
    SingleBit(Warning);
    SingleBit(Critical);
    SingleBit(Debug);
    SingleBit(Error);
    SingleBit(ExceptionData);
    SingleBit(Informational);
    assert AvailableKeywords[1..] == [Critical, Debug, Error, ExceptionData, Informational];
    assert ExampleBits(AvailableKeywords) == {0, 1, 2, 3, 4, 5} by {
      assert AvailableKeywords[1..][1..] == [Debug, Error, ExceptionData, Informational];
      assert AvailableKeywords[1..][1..][1..] == [Error, ExceptionData, Informational];
      assert AvailableKeywords[1..][1..][1..][1..] == [ExceptionData, Informational];
      assert AvailableKeywords[1..][1..][1..][1..][1..] == [Informational];
    }
    forall b: Tracing.Bit
      ensures b in Tracing.MaskBits(0x3F) <==> b < 6
    {
      LowBits(b);
    }
  }

  /** Bit b of 0x3F, the six low bits. */
  lemma LowBits(b: Tracing.Bit)
    ensures Tracing.HasBit(0x3F, b) <==> b < 6
  {
    assert Tracing.Pow2(6) == 64;
    Run(0x3F, 6, b);
  }

  /** The k low bits set: bit c is set exactly when c < k. */
  lemma {:induction false} Run(mask: nat, k: nat, c: nat)
    requires mask + 1 == Tracing.Pow2(k)
    ensures Tracing.HasBit(mask, c) <==> c < k
    decreases c
  {
    if k == 0 {
      Tracing.ZeroHasNoBit(c);
    } else if c > 0 {
      assert Tracing.Pow2(k) == 2 * Tracing.Pow2(k - 1);
      Run(mask / 2, k - 1, c - 1);
    }
  }
}
