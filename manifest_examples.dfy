/** The manifest the event source generator writes for a source with keyword
    declarations, and what the reader makes of it: the keyword test source
    with keywords FirstKeyword 0x1, SecondKeyword 0x2, ThirdKeyword 0x4 and
    FourthKeyword 0x8, and the events OneKeywordExample (id 1, FirstKeyword),
    ThreeKeywordExample (id 3, Second | Third | Fourth) and
    TwoKeywordExample (id 2, Second | Third). */
module ManifestExamples {
  import opened Wrappers
  import opened Primitives
  import opened Tracing
  import opened ManifestDocument
  import opened Manifest

  /** An <event> element as the generator writes it: the id in decimal, the
      method name as symbol, the level token and the keyword names separated
      by spaces. */
  function EventDeclaration(symbol: string, id: int, keywordNames: seq<string>): EventElement
  {
    EventElement(Some(DecimalText(id)), Some(symbol), Some(LevelToken(Informational)), None, Some(Join(keywordNames, ' ')))
  }

  /** Keyword names as the generator writes them: non-blank words without a
      space. */
  predicate Words(names: seq<string>) {
    forall i :: 0 <= i < |names| ==> !IsBlank(names[i]) && ' ' !in names[i]
  }

  lemma {:induction false} NonBlankOfWords(names: seq<string>)
    requires Words(names)
    ensures NonBlank(names) == names
  {
    if names != [] {
      var n := |names| - 1;
      NonBlankOfWords(names[..n]);
      assert names[..n] + [names[n]] == names;
    }
  }

  /** The joined text starts with the first name, so it is not blank. */
  lemma JoinedWordsNotBlank(names: seq<string>)
    requires |names| >= 1 && Words(names)
    ensures !IsBlank(Join(names, ' '))
  {
    var text := Join(names, ' ');
    assert text[..|names[0]|] == names[0];
    var j :| 0 <= j < |names[0]| && !IsWhiteSpace(names[0][j]);
    assert text[j] == names[0][j];
  }

  /** The keywords attribute of a declared event parses to the OR of the
      masks of its names. */
  lemma DeclaredKeywordsParsed(table: map<string, Keywords>, names: seq<string>)
    requires |names| >= 1 && Words(names)
    ensures ParseKeywordsSpec(Success(table), Some(Join(names, ' '))) == Success(OrKnown(table, names))
  {
    JoinedWordsNotBlank(names);
    SplitJoin(names, ' ');
    NonBlankOfWords(names);
  }

  /** A declared event with a non-zero Int32 id and non-blank symbol is
      accepted with that id. */
  lemma DeclaredEventAccepted(symbol: string, id: int, names: seq<string>)
    requires !IsBlank(symbol) && id != 0 && Int32Min <= id <= Int32Max
    ensures AcceptedEventId(EventDeclaration(symbol, id, names)) == Some(id)
  {
    ParseDecimalText(id, Int32Min, Int32Max);
    assert !IsBlank(DecimalText(id)) by {
      assert !IsWhiteSpace(DecimalText(id)[0]);
    }
  }

  /** A declared event with a non-zero Int32 id and non-blank symbol is
      recorded under its symbol with its id, the level it names, no channel,
      and the OR of its keywords' masks. */
  lemma DeclaredEventRecorded(table: map<string, Keywords>, symbol: string, id: int, names: seq<string>)
    requires !IsBlank(symbol) && id != 0 && Int32Min <= id <= Int32Max
    requires |names| >= 1 && Words(names)
    ensures var c := EventCandidate(Success(table), EventDeclaration(symbol, id, names));
      && Present(c) && KeyOf(c) == symbol
      && ValueOf(c) == EventAttribute(id, Informational, ChannelNone, OrKnown(table, names))
  {
    var e := EventDeclaration(symbol, id, names);
    DeclaredEventAccepted(symbol, id, names);
    DeclaredKeywordsParsed(table, names);
    LevelTokenNotBlank(Informational);
    var kw := OrKnown(table, names);
    assert BuildEventAttribute(id, e, kw) == EventAttribute(id, Informational, ChannelNone, kw);
    assert ParseKeywordsSpec(Success(table), e.keywords) == Success(kw);
  }

  /** Three entries with distinct keys fill the dictionary with all three:
      AddAllSucceeds and AddAllContents for three candidates. */
  lemma AddThree<V>(cs: seq<Candidate<V>>, k1: string, v1: V, k2: string, v2: V, k3: string, v3: V)
    requires k1 != k2 && k1 != k3 && k2 != k3
    requires |cs| == 3 && cs[0] == Success(Some(Entry(k1, v1))) && cs[1] == Success(Some(Entry(k2, v2)))
    requires cs[2] == Success(Some(Entry(k3, v3)))
    ensures AddAll(cs) == Success(map[k1 := v1, k2 := v2, k3 := v3])
  {
    assert Present(cs[0]) && Present(cs[1]) && Present(cs[2]);
    assert DistinctKeys(cs);
    AddAllSucceeds(cs);
    var m := AddAll(cs).value;
    AddAllContents(cs, m);
    assert m[k1] == v1 && m[k2] == v2 && m[k3] == v3;
    assert m.Keys == {k1, k2, k3};
    assert m == map[k1 := v1, k2 := v2, k3 := v3];
  }

  /** Four entries with distinct keys fill the dictionary with all four. */
  lemma AddFour<V>(cs: seq<Candidate<V>>, k1: string, v1: V, k2: string, v2: V, k3: string, v3: V, k4: string, v4: V)
    requires k1 != k2 && k1 != k3 && k1 != k4 && k2 != k3 && k2 != k4 && k3 != k4
    requires |cs| == 4 && cs[0] == Success(Some(Entry(k1, v1))) && cs[1] == Success(Some(Entry(k2, v2)))
    requires cs[2] == Success(Some(Entry(k3, v3))) && cs[3] == Success(Some(Entry(k4, v4)))
    ensures AddAll(cs) == Success(map[k1 := v1, k2 := v2, k3 := v3, k4 := v4])
  {
    assert Present(cs[0]) && Present(cs[1]) && Present(cs[2]) && Present(cs[3]);
    assert DistinctKeys(cs);
    AddAllSucceeds(cs);
    var m := AddAll(cs).value;
    AddAllContents(cs, m);
    assert m[k1] == v1 && m[k2] == v2 && m[k3] == v3 && m[k4] == v4;
    assert m.Keys == {k1, k2, k3, k4};
    assert m == map[k1 := v1, k2 := v2, k3 := v3, k4 := v4];
  }

  const FirstKeyword: string := "FirstKeyword"
  const SecondKeyword: string := "SecondKeyword"
  const ThirdKeyword: string := "ThirdKeyword"
  const FourthKeyword: string := "FourthKeyword"
  const KeywordsSourceName: string := "KeywordsEventSource"

  function KeywordsSourceManifest(): Document
  {
    Document([ProviderElement(
      Some(KeywordsSourceName),
      [EventDeclaration("OneKeywordExample", 1, [FirstKeyword]),
       EventDeclaration("ThreeKeywordExample", 3, [SecondKeyword, ThirdKeyword, FourthKeyword]),
       EventDeclaration("TwoKeywordExample", 2, [SecondKeyword, ThirdKeyword])],
      [KeywordDeclaration(FirstKeyword, HexDigits(0x1)),
       KeywordDeclaration(SecondKeyword, HexDigits(0x2)),
       KeywordDeclaration(ThirdKeyword, HexDigits(0x4)),
       KeywordDeclaration(FourthKeyword, HexDigits(0x8))])])
  }

  lemma KeywordsSourceProvider()
    ensures ProviderNameOf(KeywordsSourceManifest()) == Success(KeywordsSourceName)
    ensures QuotableInXPath(KeywordsSourceName)
    ensures KeywordElementsOf(KeywordsSourceManifest().providers, KeywordsSourceName) == KeywordsSourceManifest().providers[0].keywords
    ensures EventElementsOf(KeywordsSourceManifest().providers, KeywordsSourceName) == KeywordsSourceManifest().providers[0].events
  {
    assert !IsWhiteSpace(KeywordsSourceName[0]);
    assert KeywordsSourceManifest().providers[1..] == [];
  }

  lemma KeywordsSourceCandidates()
    ensures KeywordCandidates(KeywordsSourceManifest().providers[0].keywords)
         == [Success(Some(Entry(FirstKeyword, MaskBits(0x1)))), Success(Some(Entry(SecondKeyword, MaskBits(0x2)))),
             Success(Some(Entry(ThirdKeyword, MaskBits(0x4)))), Success(Some(Entry(FourthKeyword, MaskBits(0x8))))]
  {
    assert !IsWhiteSpace(FirstKeyword[0]) && !IsWhiteSpace(SecondKeyword[0]);
    assert !IsWhiteSpace(ThirdKeyword[0]) && !IsWhiteSpace(FourthKeyword[0]);
    KeywordDeclarationAccepted(FirstKeyword, 0x1);
    KeywordDeclarationAccepted(SecondKeyword, 0x2);
    KeywordDeclarationAccepted(ThirdKeyword, 0x4);
    KeywordDeclarationAccepted(FourthKeyword, 0x8);
  }

  /** The keyword table of the test source holds the four declared masks. */
  lemma KeywordsSourceTable()
    ensures KeywordTableOf(KeywordsSourceManifest())
         == Success(map[FirstKeyword := MaskBits(0x1), SecondKeyword := MaskBits(0x2),
                        ThirdKeyword := MaskBits(0x4), FourthKeyword := MaskBits(0x8)])
  {
    KeywordsSourceProvider();
    KeywordsSourceCandidates();
    AddFour(KeywordCandidates(KeywordsSourceManifest().providers[0].keywords), FirstKeyword, MaskBits(0x1), SecondKeyword, MaskBits(0x2), ThirdKeyword, MaskBits(0x4), FourthKeyword, MaskBits(0x8));
  }

  lemma KeywordsSourceMasks(table: map<string, Keywords>)
    requires table == map[FirstKeyword := MaskBits(0x1), SecondKeyword := MaskBits(0x2),
                          ThirdKeyword := MaskBits(0x4), FourthKeyword := MaskBits(0x8)]
    ensures OrKnown(table, [FirstKeyword]) == MaskBits(0x1)
    ensures OrKnown(table, [SecondKeyword, ThirdKeyword]) == MaskBits(0x2) + MaskBits(0x4)
    ensures OrKnown(table, [SecondKeyword, ThirdKeyword, FourthKeyword]) == MaskBits(0x2) + MaskBits(0x4) + MaskBits(0x8)
  {
    OrKnownStep(table, [], FirstKeyword);
    OrKnownStep(table, [], SecondKeyword);
    OrKnownStep(table, [SecondKeyword], ThirdKeyword);
    OrKnownStep(table, [SecondKeyword, ThirdKeyword], FourthKeyword);
    assert [] + [FirstKeyword] == [FirstKeyword] && [] + [SecondKeyword] == [SecondKeyword];
    assert [SecondKeyword] + [ThirdKeyword] == [SecondKeyword, ThirdKeyword];
    assert [SecondKeyword, ThirdKeyword] + [FourthKeyword] == [SecondKeyword, ThirdKeyword, FourthKeyword];
  }

  /** The keyword lists of the three test events are written as words. */
  lemma KeywordNamesAreWords()
    ensures Words([FirstKeyword])
    ensures Words([SecondKeyword, ThirdKeyword])
    ensures Words([SecondKeyword, ThirdKeyword, FourthKeyword])
  {
    assert !IsWhiteSpace(FirstKeyword[0]) && !IsWhiteSpace(SecondKeyword[0]);
    assert !IsWhiteSpace(ThirdKeyword[0]) && !IsWhiteSpace(FourthKeyword[0]);
  }

  /** OneKeywordExample: id 1, keyword FirstKeyword. */
  lemma OneKeywordExampleRead(table: map<string, Keywords>, e: EventElement)
    requires e == KeywordsSourceManifest().providers[0].events[0]
    ensures EventCandidate(Success(table), e)
         == Success(Some(Entry("OneKeywordExample", EventAttribute(1, Informational, ChannelNone, OrKnown(table, [FirstKeyword])))))
  {
    KeywordNamesAreWords();
    assert !IsWhiteSpace("OneKeywordExample"[0]);
    DeclaredEventRecorded(table, "OneKeywordExample", 1, [FirstKeyword]);
  }

  /** ThreeKeywordExample: id 3, keywords SecondKeyword, ThirdKeyword and
      FourthKeyword. */
  lemma ThreeKeywordExampleRead(table: map<string, Keywords>, e: EventElement)
    requires e == KeywordsSourceManifest().providers[0].events[1]
    ensures EventCandidate(Success(table), e)
         == Success(Some(Entry("ThreeKeywordExample",
                               EventAttribute(3, Informational, ChannelNone, OrKnown(table, [SecondKeyword, ThirdKeyword, FourthKeyword])))))
  {
    KeywordNamesAreWords();
    assert !IsWhiteSpace("ThreeKeywordExample"[0]);
    DeclaredEventRecorded(table, "ThreeKeywordExample", 3, [SecondKeyword, ThirdKeyword, FourthKeyword]);
  }

  /** TwoKeywordExample: id 2, keywords SecondKeyword and ThirdKeyword. */
  lemma TwoKeywordExampleRead(table: map<string, Keywords>, e: EventElement)
    requires e == KeywordsSourceManifest().providers[0].events[2]
    ensures EventCandidate(Success(table), e)
         == Success(Some(Entry("TwoKeywordExample", EventAttribute(2, Informational, ChannelNone, OrKnown(table, [SecondKeyword, ThirdKeyword])))))
  {
    KeywordNamesAreWords();
    assert !IsWhiteSpace("TwoKeywordExample"[0]);
    DeclaredEventRecorded(table, "TwoKeywordExample", 2, [SecondKeyword, ThirdKeyword]);
  }

  /** What the reader records for the test source: each event under its
      method name with its declared id, its declared level, and the OR of
      its keywords. */
  lemma KeywordsSourceEvents(doc: Document)
    requires doc == KeywordsSourceManifest()
    ensures EventAttributesOf(doc)
         == Success(map[
              "OneKeywordExample" := EventAttribute(1, Informational, ChannelNone, MaskBits(0x1)),
              "ThreeKeywordExample" := EventAttribute(3, Informational, ChannelNone, MaskBits(0x2) + MaskBits(0x4) + MaskBits(0x8)),
              "TwoKeywordExample" := EventAttribute(2, Informational, ChannelNone, MaskBits(0x2) + MaskBits(0x4))])
  {
    KeywordsSourceProvider();
    KeywordsSourceTable();
    var table := KeywordTableOf(doc).value;
    var events := doc.providers[0].events;
    var cs := EventCandidates(Success(table), events);
    OneKeywordExampleRead(table, events[0]);
    ThreeKeywordExampleRead(table, events[1]);
    TwoKeywordExampleRead(table, events[2]);
    KeywordsSourceMasks(table);
    var a1 := EventAttribute(1, Informational, ChannelNone, MaskBits(0x1));
    var a3 := EventAttribute(3, Informational, ChannelNone, MaskBits(0x2) + MaskBits(0x4) + MaskBits(0x8));
    var a2 := EventAttribute(2, Informational, ChannelNone, MaskBits(0x2) + MaskBits(0x4));
    AddThree(cs, "OneKeywordExample", a1, "ThreeKeywordExample", a3, "TwoKeywordExample", a2);
  }
}
