/** EventSourceManifest: reads the keyword table and the per-symbol event
    attributes out of an event source's own instrumentation manifest.

    The specification is given as functions of the parsed document
    (ProviderNameOf, KeywordTableOf, EventAttributesOf); the class below
    computes the same values with the loops and lazily cached fields of
    the original. */
module Manifest {
  import opened Wrappers
  import opened Primitives
  import opened Tracing
  import opened ManifestDocument

  // ---------------------------------------------------------------------------
  // Levels

  /** GetLevel: the six win: level tokens to their EventLevel; any other
      text is Informational. Every level survives being written as its
      token and read back. */
  function GetLevel(manifestLevel: string): (level: EventLevel)
    ensures forall l :: manifestLevel == LevelToken(l) ==> level == l
    ensures level == Informational || manifestLevel == LevelToken(level)
  {
    if manifestLevel == "win:LogAlways" then LogAlways
    else if manifestLevel == "win:Warning" then Warning
    else if manifestLevel == "win:Critical" then Critical
    else if manifestLevel == "win:Error" then Error
    else if manifestLevel == "win:Informational" then Informational
    else if manifestLevel == "win:Verbose" then Verbose
    else Informational
  }

  /** The token the manifest generator writes for each level. */
  function LevelToken(level: EventLevel): string
  {
    match level
    case LogAlways => "win:LogAlways"
    case Critical => "win:Critical"
    case Error => "win:Error"
    case Warning => "win:Warning"
    case Informational => "win:Informational"
    case Verbose => "win:Verbose"
  }

  /** Every token starts with "win:", so none is blank. */
  lemma LevelTokenNotBlank(level: EventLevel)
    ensures |LevelToken(level)| > 4 && LevelToken(level)[..4] == "win:"
    ensures !IsBlank(LevelToken(level))
  {
    assert !IsWhiteSpace(LevelToken(level)[0]);
  }

  // ---------------------------------------------------------------------------
  // ParseKeywords

  /** keywords.Split(' ').Where(x => !string.IsNullOrWhiteSpace(x)) */
  function NonBlank(parts: seq<string>): (tokens: seq<string>)
    ensures |tokens| <= |parts|
    ensures forall i :: 0 <= i < |tokens| ==> !IsBlank(tokens[i])
  {
    if parts == [] then []
    else
      var last := parts[|parts| - 1];
      NonBlank(parts[..|parts| - 1]) + (if IsBlank(last) then [] else [last])
  }

  /** The keyword names of an attribute: at most one per space-separated
      piece, none of them blank. */
  function KeywordTokens(keywords: string): (tokens: seq<string>)
    ensures |tokens| <= |Split(keywords, ' ')|
    ensures forall i :: 0 <= i < |tokens| ==> !IsBlank(tokens[i])
  {
    NonBlank(Split(keywords, ' '))
  }

  /** Every non-blank token of the attribute is kept, and nothing else. */
  lemma {:induction false} NonBlankKeepsTokens(parts: seq<string>, t: string)
    ensures t in NonBlank(parts) <==> t in parts && !IsBlank(t)
  {
    if parts != [] {
      var n := |parts| - 1;
      NonBlankKeepsTokens(parts[..n], t);
      assert parts == parts[..n] + [parts[n]];
    }
  }

  /** The tokens are exactly the non-blank space-separated words of the
      attribute: none holds a space, and joining the words back with
      spaces rebuilds the attribute. */
  lemma KeywordTokensAreWords(keywords: string, t: string)
    ensures t in KeywordTokens(keywords) <==> t in Split(keywords, ' ') && !IsBlank(t)
    ensures t in KeywordTokens(keywords) ==> ' ' !in t
    ensures Join(Split(keywords, ' '), ' ') == keywords
  {
    NonBlankKeepsTokens(Split(keywords, ' '), t);
    JoinSplit(keywords, ' ');
  }

  /** The OR of the table masks of the tokens found in the table; tokens
      the table does not know contribute nothing. */
  function OrKnown(table: map<string, Keywords>, tokens: seq<string>): (k: Keywords)
    ensures (forall i :: 0 <= i < |tokens| ==> tokens[i] !in table) ==> k == KeywordsNone
  {
    if tokens == [] then KeywordsNone
    else
      var n := |tokens| - 1;
      assert forall i :: 0 <= i < n ==> tokens[..n][i] == tokens[i];
      OrKnown(table, tokens[..n]) + (if tokens[n] in table then table[tokens[n]] else KeywordsNone)
  }

  /** The result covers the mask of every token found in the table ... */
  lemma {:induction false} OrKnownCoversHits(table: map<string, Keywords>, tokens: seq<string>)
    ensures forall i :: 0 <= i < |tokens| && tokens[i] in table ==> table[tokens[i]] <= OrKnown(table, tokens)
  {
    if tokens != [] {
      var n := |tokens| - 1;
      OrKnownCoversHits(table, tokens[..n]);
      assert forall i :: 0 <= i < n ==> tokens[..n][i] == tokens[i];
    }
  }

  /** ... and nothing more: every bit of the result comes from the mask of
      a token found in the table, so unknown tokens contribute nothing. */
  lemma {:induction false} OrKnownOnlyHits(table: map<string, Keywords>, tokens: seq<string>, b: Bit)
    requires b in OrKnown(table, tokens)
    ensures exists i :: 0 <= i < |tokens| && tokens[i] in table && b in table[tokens[i]]
  {
    var n := |tokens| - 1;
    if b in OrKnown(table, tokens[..n]) {
      OrKnownOnlyHits(table, tokens[..n], b);
      var i :| 0 <= i < n && tokens[..n][i] in table && b in table[tokens[..n][i]];
      assert tokens[..n][i] == tokens[i];
    } else {
      assert tokens[n] in table && b in table[tokens[n]];
    }
  }

  lemma NonBlankStep(parts: seq<string>, i: nat)
    requires i < |parts|
    ensures NonBlank(parts[..i + 1]) == NonBlank(parts[..i]) + (if IsBlank(parts[i]) then [] else [parts[i]])
  {
    assert parts[..i + 1][..i] == parts[..i];
  }

  lemma OrKnownStep(table: map<string, Keywords>, tokens: seq<string>, t: string)
    ensures OrKnown(table, tokens + [t]) == OrKnown(table, tokens) + (if t in table then table[t] else KeywordsNone)
  {
    assert (tokens + [t])[..|tokens|] == tokens;
  }

  /** One more space-separated piece ORs in its mask when it is a known,
      non-blank token, and changes nothing otherwise. */
  lemma OrKnownTokensStep(table: map<string, Keywords>, parts: seq<string>, i: nat)
    requires i < |parts|
    ensures OrKnown(table, NonBlank(parts[..i + 1]))
         == OrKnown(table, NonBlank(parts[..i])) + (if !IsBlank(parts[i]) && parts[i] in table then table[parts[i]] else KeywordsNone)
  {
    NonBlankStep(parts, i);
    if !IsBlank(parts[i]) {
      OrKnownStep(table, NonBlank(parts[..i]), parts[i]);
    } else {
      assert NonBlank(parts[..i + 1]) == NonBlank(parts[..i]);
    }
  }

  /** ParseKeywords: None for a null or blank attribute; otherwise the
      keyword table is needed (and an exception building it propagates)
      and the result is the OR of the masks of the known tokens. */
  function ParseKeywordsSpec(table: Result<map<string, Keywords>, ManifestError>, keywords: Option<string>): (r: Result<Keywords, ManifestError>)
    ensures IsNullOrWhiteSpace(keywords) ==> r == Success(KeywordsNone)
    ensures r.Failure? <==> !IsNullOrWhiteSpace(keywords) && table.Failure?
    ensures r.Failure? ==> r.error == table.error
  {
    if IsNullOrWhiteSpace(keywords) then Success(KeywordsNone)
    else if table.Failure? then Failure(table.error)
    else Success(OrKnown(table.value, KeywordTokens(keywords.value)))
  }

  // ---------------------------------------------------------------------------
  // RetrieveKeywords

  /** The name and mask locals of the attribute loop of RetrieveKeywords. */
  datatype KeywordScan = KeywordScan(name: Option<string>, mask: int)

  predicate StartsWith(s: string, prefix: string) {
    |prefix| <= |s| && s[..|prefix|] == prefix
  }

  /** One attribute: a blank name or value is skipped; "name" sets the name;
      a "mask" that starts with "0x" is converted with Convert.ToInt64(…, 16),
      whose exceptions propagate; anything else is ignored. */
  function ScanAttribute(scan: KeywordScan, a: XmlAttribute): (r: Result<KeywordScan, ManifestError>)
    requires -TwoTo63 <= scan.mask < TwoTo63
    ensures r.Success? ==> -TwoTo63 <= r.value.mask < TwoTo63
    ensures r.Success? && r.value.name.Some? ==> !IsBlank(r.value.name.value) || r.value.name == scan.name
  {
    if IsBlank(a.name) || IsBlank(a.value) then Success(scan)
    else if a.name == "name" then Success(scan.(name := Some(a.value)))
    else if a.name == "mask" && StartsWith(a.value, "0x") then
      match HexToInt64(a.value[2..])
      case Failure(FormatError) => Failure(InvalidMask(a.value))
      case Failure(OverflowError) => Failure(MaskOverflow(a.value))
      case Success(v) => Success(scan.(mask := v))
    else Success(scan)
  }

  /** The locals after the whole attribute loop, starting from name null
      and mask 0. */
  function ScanAttributes(attributes: seq<XmlAttribute>): (r: Result<KeywordScan, ManifestError>)
    ensures r.Success? ==> -TwoTo63 <= r.value.mask < TwoTo63
  {
    if attributes == [] then Success(KeywordScan(None, 0))
    else
      var prev := ScanAttributes(attributes[..|attributes| - 1]);
      if prev.Failure? then prev else ScanAttribute(prev.value, attributes[|attributes| - 1])
  }

  /** What RetrieveKeywords adds for one <keyword> element: the name and
      mask when the name is non-blank and the Int64 mask is positive (so a
      zero mask or one with the top bit set is dropped). */
  function KeywordCandidate(k: KeywordElement): (c: Candidate<Keywords>)
    ensures Present(c) <==> (ScanAttributes(k.attributes).Success? && !IsNullOrWhiteSpace(ScanAttributes(k.attributes).value.name)
                             && ScanAttributes(k.attributes).value.mask > 0)
    ensures Present(c) ==> !IsBlank(KeyOf(c))
  {
    match ScanAttributes(k.attributes)
    case Failure(e) => Failure(e)
    case Success(scan) =>
      if !IsNullOrWhiteSpace(scan.name) && scan.mask > 0 then Success(Some(Entry(scan.name.value, MaskBits(scan.mask))))
      else Success(None)
  }

  function KeywordCandidates(ks: seq<KeywordElement>): (cs: seq<Candidate<Keywords>>)
    ensures |cs| == |ks|
    ensures forall i :: 0 <= i < |ks| ==> cs[i] == KeywordCandidate(ks[i])
  {
    seq(|ks|, i requires 0 <= i < |ks| => KeywordCandidate(ks[i]))
  }

  /** A keyword element whose only attributes are name and mask, as the
      manifest generator writes them. */
  function KeywordDeclaration(name: string, maskDigits: string): KeywordElement {
    KeywordElement([XmlAttribute("name", name), XmlAttribute("mask", "0x" + maskDigits)])
  }

  /** A declared keyword with a non-blank name and a mask in 1 .. 2^63 - 1
      enters the table with exactly that mask. */
  lemma KeywordDeclarationAccepted(name: string, mask: nat)
    requires !IsBlank(name) && 0 < mask < TwoTo63
    ensures KeywordCandidate(KeywordDeclaration(name, HexDigits(mask))) == Success(Some(Entry(name, MaskBits(mask))))
  {
    var attrs := KeywordDeclaration(name, HexDigits(mask)).attributes;
    HexRoundTrip(mask);
    assert !IsBlank("name") by { assert !IsWhiteSpace("name"[0]); }
    assert !IsBlank("mask") by { assert !IsWhiteSpace("mask"[0]); }
    var maskText := "0x" + HexDigits(mask);
    assert !IsBlank(maskText) by { assert !IsWhiteSpace(maskText[0]); }
    assert StartsWith(maskText, "0x") && maskText[2..] == HexDigits(mask);
    assert attrs[..1] == [XmlAttribute("name", name)];
    assert attrs[..1][..0] == [];
    assert ScanAttributes(attrs[..1]) == Success(KeywordScan(Some(name), 0));
  }

  /** A mask with the top bit set is negative as an Int64, so it is
      dropped without an error. */
  lemma HighBitMaskDropped(name: string, mask: nat)
    requires !IsBlank(name) && TwoTo63 <= mask < TwoTo64
    ensures KeywordCandidate(KeywordDeclaration(name, HexDigits(mask))) == Success(None)
  {
    var attrs := KeywordDeclaration(name, HexDigits(mask)).attributes;
    HexRoundTrip(mask);
    assert !IsBlank("name") by { assert !IsWhiteSpace("name"[0]); }
    assert !IsBlank("mask") by { assert !IsWhiteSpace("mask"[0]); }
    var maskText := "0x" + HexDigits(mask);
    assert !IsBlank(maskText) by { assert !IsWhiteSpace(maskText[0]); }
    assert StartsWith(maskText, "0x") && maskText[2..] == HexDigits(mask);
    assert attrs[..1] == [XmlAttribute("name", name)];
    assert attrs[..1][..0] == [];
    assert ScanAttributes(attrs[..1]) == Success(KeywordScan(Some(name), 0));
  }

  // ---------------------------------------------------------------------------
  // The provider and its elements

  /** The first provider name in document order (the //e:provider/@name
      query). */
  function FirstProviderName(ps: seq<ProviderElement>): (name: Option<string>)
    ensures name.None? <==> forall i :: 0 <= i < |ps| ==> ps[i].name.None?
    ensures name.Some? ==> exists i :: 0 <= i < |ps| && ps[i].name == name && forall j :: 0 <= j < i ==> ps[j].name.None?
  {
    if ps == [] then None
    else if ps[0].name.Some? then ps[0].name
    else FirstProviderName(ps[1..])
  }

  /** RetrieveEventProviderName: a missing or blank name throws
      InvalidOperationException. */
  function ProviderNameOf(doc: Document): (r: Result<string, ManifestError>)
    ensures r.Success? ==> !IsBlank(r.value) && FirstProviderName(doc.providers) == Some(r.value)
    ensures r.Failure? ==> r.error == ProviderNameMissing
  {
    var name := FirstProviderName(doc.providers);
    if IsNullOrWhiteSpace(name) then Failure(ProviderNameMissing) else Success(name.value)
  }

  /** The <event> elements of every provider with the given name. */
  function EventElementsOf(ps: seq<ProviderElement>, provider: string): seq<EventElement>
  {
    if ps == [] then []
    else (if ps[0].name == Some(provider) then ps[0].events else []) + EventElementsOf(ps[1..], provider)
  }

  /** The <keyword> elements of every provider with the given name. */
  function KeywordElementsOf(ps: seq<ProviderElement>, provider: string): seq<KeywordElement>
  {
    if ps == [] then []
    else (if ps[0].name == Some(provider) then ps[0].keywords else []) + KeywordElementsOf(ps[1..], provider)
  }

  /** The provider name is spliced unescaped between single quotes into
      the XPath queries for the keywords and the events; an apostrophe in
      it ends the string literal early and the query throws
      XPathException. */
  predicate QuotableInXPath(provider: string) {
    '\'' !in provider
  }

  /** RetrieveKeywords: the keyword dictionary of the manifest's provider.
      Every name in it is non-blank. */
  function KeywordTableOf(doc: Document): (r: Result<map<string, Keywords>, ManifestError>)
    ensures r.Success? ==> ProviderNameOf(doc).Success? && QuotableInXPath(ProviderNameOf(doc).value)
    ensures ProviderNameOf(doc).Success? && !QuotableInXPath(ProviderNameOf(doc).value) ==>
              r == Failure(ProviderQueryInvalid(ProviderNameOf(doc).value))
    ensures r.Success? ==> forall name :: name in r.value ==> !IsBlank(name)
  {
    match ProviderNameOf(doc)
    case Failure(e) => Failure(e)
    case Success(provider) =>
      if !QuotableInXPath(provider) then Failure(ProviderQueryInvalid(provider))
      else
        var cs := KeywordCandidates(KeywordElementsOf(doc.providers, provider));
        KeysNonBlank(cs);
        AddAll(cs)
  }

  /** The keys of a filled dictionary are keys of present candidates. */
  lemma KeysNonBlank<V>(cs: seq<Candidate<V>>)
    requires forall i :: 0 <= i < |cs| && Present(cs[i]) ==> !IsBlank(KeyOf(cs[i]))
    ensures AddAll(cs).Success? ==> forall k :: k in AddAll(cs).value ==> !IsBlank(k)
  {
    if AddAll(cs).Success? {
      AddAllContents(cs, AddAll(cs).value);
    }
  }

  /** The table holds the entry of every accepted keyword element. */
  lemma KeywordTableEntries(doc: Document, table: map<string, Keywords>)
    requires KeywordTableOf(doc) == Success(table)
    ensures forall k :: k in KeywordElementsOf(doc.providers, ProviderNameOf(doc).value) && Present(KeywordCandidate(k)) ==>
      KeyOf(KeywordCandidate(k)) in table && table[KeyOf(KeywordCandidate(k))] == ValueOf(KeywordCandidate(k))
    ensures forall name :: name in table ==>
      exists k :: k in KeywordElementsOf(doc.providers, ProviderNameOf(doc).value) && Present(KeywordCandidate(k))
                  && KeyOf(KeywordCandidate(k)) == name && ValueOf(KeywordCandidate(k)) == table[name]
  {
    var ks := KeywordElementsOf(doc.providers, ProviderNameOf(doc).value);
    var cs := KeywordCandidates(ks);
    AddAllContents(cs, table);
    forall k | k in ks && Present(KeywordCandidate(k))
      ensures KeyOf(KeywordCandidate(k)) in table && table[KeyOf(KeywordCandidate(k))] == ValueOf(KeywordCandidate(k))
    {
      var i :| 0 <= i < |ks| && ks[i] == k;
      assert cs[i] == KeywordCandidate(k);
    }
    forall name | name in table
      ensures exists k :: k in ks && Present(KeywordCandidate(k))
                          && KeyOf(KeywordCandidate(k)) == name && ValueOf(KeywordCandidate(k)) == table[name]
    {
      var i :| 0 <= i < |cs| && Present(cs[i]) && KeyOf(cs[i]) == name && ValueOf(cs[i]) == table[name];
      assert cs[i] == KeywordCandidate(ks[i]) && ks[i] in ks;
    }
  }

  /** Building the table throws exactly when the provider name breaks the
      query, a mask cannot be converted, or two accepted keywords share a
      name. */
  lemma KeywordTableFailsIff(doc: Document)
    requires ProviderNameOf(doc).Success?
    ensures var cs := KeywordCandidates(KeywordElementsOf(doc.providers, ProviderNameOf(doc).value));
      KeywordTableOf(doc).Failure? <==> !QuotableInXPath(ProviderNameOf(doc).value) || !AllComputed(cs) || !DistinctKeys(cs)
  {
    AddAllSucceeds(KeywordCandidates(KeywordElementsOf(doc.providers, ProviderNameOf(doc).value)));
  }

  // ---------------------------------------------------------------------------
  // RetrieveEventAttributes

  /** The id of an <event> element the reader records, or None when it is
      skipped: value and symbol must be non-blank and value must parse as an
      Int32 other than 0 (negative ids are accepted). */
  function AcceptedEventId(e: EventElement): (r: Option<int>)
    ensures r.Some? <==> (!IsNullOrWhiteSpace(e.value) && !IsNullOrWhiteSpace(e.symbol)
                          && TryParseInt32(e.value).Some? && TryParseInt32(e.value).value != 0)
    ensures r.Some? ==> r == TryParseInt32(e.value)
  {
    if IsNullOrWhiteSpace(e.value) || IsNullOrWhiteSpace(e.symbol) then None
    else
      match TryParseInt32(e.value)
      case None => None
      case Some(id) => if id == 0 then None else Some(id)
  }

  /** The EventAttribute recorded for an accepted element: a non-blank level
      goes through GetLevel, a channel that parses as a byte is cast to
      EventChannel, and non-None keywords are assigned. So the level and
      channel fall back to Informational and None, and the keywords are
      always the parsed keywords (the default is None too). */
  function BuildEventAttribute(id: int, e: EventElement, keywords: Keywords): (a: EventAttribute)
    ensures a.eventId == id
    ensures a.level == (if IsNullOrWhiteSpace(e.level) then Informational else GetLevel(e.level.value))
    ensures a.channel == (if TryParseByte(e.channel).Some? then TryParseByte(e.channel).value else ChannelNone)
    ensures a.keywords == keywords
  {
    var a0 := NewEventAttribute(id);
    var a1 := if !IsNullOrWhiteSpace(e.level) then a0.(level := GetLevel(e.level.value)) else a0;
    var a2 := match TryParseByte(e.channel) case Some(b) => a1.(channel := b) case None => a1;
    if keywords != KeywordsNone then a2.(keywords := keywords) else a2
  }

  /** What one loop iteration adds: nothing for a skipped element;
      otherwise ParseKeywords runs first (its exception propagates) and then
      the symbol and its attribute are added. */
  function EventCandidate(table: Result<map<string, Keywords>, ManifestError>, e: EventElement): (c: Candidate<EventAttribute>)
    ensures c.Success? && c.value.None? <==> AcceptedEventId(e).None?
    ensures Present(c) ==> e.symbol == Some(KeyOf(c)) && ValueOf(c).eventId == AcceptedEventId(e).value
    ensures Present(c) ==> !IsBlank(KeyOf(c))
  {
    match AcceptedEventId(e)
    case None => Success(None)
    case Some(id) =>
      match ParseKeywordsSpec(table, e.keywords)
      case Failure(err) => Failure(err)
      case Success(kw) => Success(Some(Entry(e.symbol.value, BuildEventAttribute(id, e, kw))))
  }

  function EventCandidates(table: Result<map<string, Keywords>, ManifestError>, es: seq<EventElement>): (cs: seq<Candidate<EventAttribute>>)
    ensures |cs| == |es|
    ensures forall i :: 0 <= i < |es| ==> cs[i] == EventCandidate(table, es[i])
  {
    seq(|es|, i requires 0 <= i < |es| => EventCandidate(table, es[i]))
  }

  /** RetrieveEventAttributes: the EventAttribute of every accepted event
      of the manifest's provider, keyed by symbol. Every symbol in it is
      non-blank. */
  function EventAttributesOf(doc: Document): (r: Result<map<string, EventAttribute>, ManifestError>)
    ensures r.Success? ==> ProviderNameOf(doc).Success? && QuotableInXPath(ProviderNameOf(doc).value)
    ensures ProviderNameOf(doc).Success? && !QuotableInXPath(ProviderNameOf(doc).value) ==>
              r == Failure(ProviderQueryInvalid(ProviderNameOf(doc).value))
    ensures r.Success? ==> forall symbol :: symbol in r.value ==> !IsBlank(symbol)
  {
    match ProviderNameOf(doc)
    case Failure(e) => Failure(e)
    case Success(provider) =>
      if !QuotableInXPath(provider) then Failure(ProviderQueryInvalid(provider))
      else
        var cs := EventCandidates(KeywordTableOf(doc), EventElementsOf(doc.providers, provider));
        KeysNonBlank(cs);
        AddAll(cs)
  }

  /** The recorded symbols are exactly those of the accepted elements, each
      with the id parsed from its own value attribute. */
  lemma RecordedEvents(doc: Document, events: map<string, EventAttribute>)
    requires EventAttributesOf(doc) == Success(events)
    ensures ProviderNameOf(doc).Success?
    ensures var es := EventElementsOf(doc.providers, ProviderNameOf(doc).value);
      && (forall e :: e in es && AcceptedEventId(e).Some? ==>
            e.symbol.value in events && events[e.symbol.value].eventId == AcceptedEventId(e).value)
      && (forall s :: s in events ==>
            exists e :: e in es && AcceptedEventId(e).Some? && e.symbol == Some(s) && events[s].eventId == AcceptedEventId(e).value)
  {
    var es := EventElementsOf(doc.providers, ProviderNameOf(doc).value);
    var cs := EventCandidates(KeywordTableOf(doc), es);
    AddAllContents(cs, events);
    AddAllSucceeds(cs);
    forall e | e in es && AcceptedEventId(e).Some?
      ensures e.symbol.value in events && events[e.symbol.value].eventId == AcceptedEventId(e).value
    {
      var i :| 0 <= i < |es| && es[i] == e;
      assert cs[i].Success?;
      assert Present(cs[i]);
    }
    forall s | s in events
      ensures exists e :: e in es && AcceptedEventId(e).Some? && e.symbol == Some(s) && events[s].eventId == AcceptedEventId(e).value
    {
      var i :| 0 <= i < |cs| && Present(cs[i]) && KeyOf(cs[i]) == s && ValueOf(cs[i]) == events[s];
      assert es[i] in es;
    }
  }

  /** Every recorded attribute carries the level, channel and keywords read
      from its own element. */
  lemma RecordedEventFields(doc: Document, events: map<string, EventAttribute>, e: EventElement)
    requires EventAttributesOf(doc) == Success(events)
    requires ProviderNameOf(doc).Success?
    requires e in EventElementsOf(doc.providers, ProviderNameOf(doc).value) && AcceptedEventId(e).Some?
    ensures KeywordTableOf(doc).Success? || IsNullOrWhiteSpace(e.keywords)
    ensures e.symbol.value in events
    ensures events[e.symbol.value] == BuildEventAttribute(AcceptedEventId(e).value, e, ParseKeywordsSpec(KeywordTableOf(doc), e.keywords).value)
  {
    var es := EventElementsOf(doc.providers, ProviderNameOf(doc).value);
    var cs := EventCandidates(KeywordTableOf(doc), es);
    AddAllContents(cs, events);
    AddAllSucceeds(cs);
    var i :| 0 <= i < |es| && es[i] == e;
    assert cs[i].Success?;
  }

  /** An event's entry cannot be computed exactly when the event is
      accepted, has keywords, and the keyword table could not be built. */
  lemma {:induction false} EventCandidatesComputedIff(table: Result<map<string, Keywords>, ManifestError>, es: seq<EventElement>)
    ensures !AllComputed(EventCandidates(table, es)) <==>
              (table.Failure? && exists e :: e in es && AcceptedEventId(e).Some? && !IsNullOrWhiteSpace(e.keywords))
  {
    var cs := EventCandidates(table, es);
    if !AllComputed(cs) {
      var i :| 0 <= i < |cs| && !cs[i].Success?;
      assert es[i] in es && AcceptedEventId(es[i]).Some? && !IsNullOrWhiteSpace(es[i].keywords);
    }
    if table.Failure? && exists e :: e in es && AcceptedEventId(e).Some? && !IsNullOrWhiteSpace(e.keywords) {
      var e :| e in es && AcceptedEventId(e).Some? && !IsNullOrWhiteSpace(e.keywords);
      var i :| 0 <= i < |es| && es[i] == e;
      assert !cs[i].Success?;
    }
  }

  /** Reading the events throws exactly when the provider name breaks the
      query, two accepted events share a symbol, or an accepted event with
      keywords forces a keyword table that cannot be built. */
  lemma EventAttributesFailIff(doc: Document)
    requires ProviderNameOf(doc).Success?
    ensures var es := EventElementsOf(doc.providers, ProviderNameOf(doc).value);
      EventAttributesOf(doc).Failure? <==>
        (|| !QuotableInXPath(ProviderNameOf(doc).value)
         || (KeywordTableOf(doc).Failure? && exists e :: e in es && AcceptedEventId(e).Some? && !IsNullOrWhiteSpace(e.keywords))
         || !DistinctKeys(EventCandidates(KeywordTableOf(doc), es)))
  {
    var es := EventElementsOf(doc.providers, ProviderNameOf(doc).value);
    AddAllSucceeds(EventCandidates(KeywordTableOf(doc), es));
    EventCandidatesComputedIff(KeywordTableOf(doc), es);
  }

  /** Two accepted events with the same symbol make the read throw
      (Dictionary.Add): the later one never overwrites the earlier. */
  lemma DuplicateSymbolThrows(doc: Document, i: nat, j: nat)
    requires ProviderNameOf(doc).Success?
    requires var es := EventElementsOf(doc.providers, ProviderNameOf(doc).value);
      i < j < |es| && AcceptedEventId(es[i]).Some? && AcceptedEventId(es[j]).Some? && es[i].symbol == es[j].symbol
    ensures EventAttributesOf(doc).Failure?
  {
    var es := EventElementsOf(doc.providers, ProviderNameOf(doc).value);
    var cs := EventCandidates(KeywordTableOf(doc), es);
    AddAllSucceeds(cs);
    if AllComputed(cs) {
      assert Present(cs[i]) && Present(cs[j]) && KeyOf(cs[i]) == KeyOf(cs[j]);
    }
  }

  // ---------------------------------------------------------------------------
  // Loading

  /** The constructor's guards: null or white-space text throws
      ArgumentNullException, text that does not parse throws XmlException. */
  function LoadDocument(manifestXml: Option<string>, parse: string -> Option<Document>): (r: Result<Document, ManifestError>)
    ensures r.Failure? <==> IsNullOrWhiteSpace(manifestXml) || parse(manifestXml.value).None?
    ensures IsNullOrWhiteSpace(manifestXml) ==> r == Failure(ManifestXmlMissing)
  {
    if IsNullOrWhiteSpace(manifestXml) then Failure(ManifestXmlMissing)
    else
      match parse(manifestXml.value)
      case None => Failure(XmlSyntaxError)
      case Some(doc) => Success(doc)
  }

  // ---------------------------------------------------------------------------
  // The class

  /** The manifest reader. Its three lazily computed values are cache
      fields; Valid says a filled cache holds the specified value. */
  class EventSourceManifest {
    const document: Document
    var lazyEventProviderName: Option<Result<string, ManifestError>>
    var lazyKeywords: Option<Result<map<string, Keywords>, ManifestError>>
    var lazyEventAttributes: Option<Result<map<string, EventAttribute>, ManifestError>>

    ghost predicate Valid()
      reads this
    {
      && (lazyEventProviderName.Some? ==> lazyEventProviderName.value == ProviderNameOf(document))
      && (lazyKeywords.Some? ==> lazyKeywords.value == KeywordTableOf(document))
      && (lazyEventAttributes.Some? ==> lazyEventAttributes.value == EventAttributesOf(document))
    }

    constructor FromDocument(doc: Document)
      ensures Valid() && document == doc
      ensures lazyEventProviderName.None? && lazyKeywords.None? && lazyEventAttributes.None?
    {
      document := doc;
      lazyEventProviderName := None;
      lazyKeywords := None;
      lazyEventAttributes := None;
    }

    /** new EventSourceManifest(manifestXml): the guards throw; nothing is
        read from the document until it is asked for. */
    static method Load(manifestXml: Option<string>, parse: string -> Option<Document>) returns (r: Result<EventSourceManifest, ManifestError>)
      ensures LoadDocument(manifestXml, parse).Failure? ==> r == Failure(LoadDocument(manifestXml, parse).error)
      ensures LoadDocument(manifestXml, parse).Success? ==>
                (r.Success? && fresh(r.value) && r.value.Valid() && r.value.document == LoadDocument(manifestXml, parse).value)
    {
      if IsNullOrWhiteSpace(manifestXml) {
        return Failure(ManifestXmlMissing);
      }
      var parsed := parse(manifestXml.value);
      if parsed.None? {
        return Failure(XmlSyntaxError);
      }
      var m := new EventSourceManifest.FromDocument(parsed.value);
      return Success(m);
    }

    /** The EventAttributes property: computed on first use, then cached
        (an exception is cached too). */
    method EventAttributes() returns (r: Result<map<string, EventAttribute>, ManifestError>)
      requires Valid()
      modifies this`lazyEventProviderName, this`lazyKeywords, this`lazyEventAttributes
      ensures Valid()
      ensures r == EventAttributesOf(document) && lazyEventAttributes == Some(r)
    {
      if lazyEventAttributes.None? {
        var computed := RetrieveEventAttributes();
        lazyEventAttributes := Some(computed);
      }
      r := lazyEventAttributes.value;
    }

    method EventProviderName() returns (r: Result<string, ManifestError>)
      requires Valid()
      modifies this`lazyEventProviderName
      ensures Valid()
      ensures r == ProviderNameOf(document) && lazyEventProviderName == Some(r)
      ensures lazyKeywords == old(lazyKeywords) && lazyEventAttributes == old(lazyEventAttributes)
    {
      if lazyEventProviderName.None? {
        var computed := RetrieveEventProviderName();
        lazyEventProviderName := Some(computed);
      }
      r := lazyEventProviderName.value;
    }

    method KeywordTable() returns (r: Result<map<string, Keywords>, ManifestError>)
      requires Valid()
      modifies this`lazyEventProviderName, this`lazyKeywords
      ensures Valid()
      ensures r == KeywordTableOf(document) && lazyKeywords == Some(r)
      ensures lazyEventAttributes == old(lazyEventAttributes)
    {
      if lazyKeywords.None? {
        var computed := RetrieveKeywords();
        lazyKeywords := Some(computed);
      }
      r := lazyKeywords.value;
    }

    method RetrieveEventProviderName() returns (r: Result<string, ManifestError>)
      ensures r == ProviderNameOf(document)
    {
      var providerName := FirstProviderName(document.providers);
      if IsNullOrWhiteSpace(providerName) {
        return Failure(ProviderNameMissing);
      }
      return Success(providerName.value);
    }

    method RetrieveKeywords() returns (r: Result<map<string, Keywords>, ManifestError>)
      requires Valid()
      modifies this`lazyEventProviderName
      ensures Valid()
      ensures r == KeywordTableOf(document)
      ensures lazyKeywords == old(lazyKeywords) && lazyEventAttributes == old(lazyEventAttributes)
    {
      var provider := EventProviderName();
      if provider.Failure? {
        return Failure(provider.error);
      }
      if !QuotableInXPath(provider.value) {
        return Failure(ProviderQueryInvalid(provider.value));
      }
      r := AddKeywords(KeywordElementsOf(document.providers, provider.value));
    }

    /** The element loop of RetrieveKeywords: each <keyword> element's
        attributes are scanned and an accepted one is added. */
    static method AddKeywords(nodes: seq<KeywordElement>) returns (r: Result<map<string, Keywords>, ManifestError>)
      ensures r == AddAll(KeywordCandidates(nodes))
    {
      var keywordDictionary: map<string, Keywords> := map[];
      ghost var cs := KeywordCandidates(nodes);
      var i := 0;
      while i < |nodes|
        invariant 0 <= i <= |nodes|
        invariant AddAll(cs[..i]) == Success(keywordDictionary)
      {
        var scan := ScanKeywordAttributes(nodes[i].attributes);
        AddAllStep(cs, i);
        if scan.Failure? {
          AddAllFailureStops(cs, i + 1);
          return Failure(scan.error);
        }
        var name := scan.value.name;
        var mask := scan.value.mask;
        if !IsNullOrWhiteSpace(name) && mask > 0 {
          if name.value in keywordDictionary {
            AddAllFailureStops(cs, i + 1);
            return Failure(DuplicateKey(name.value));
          }
          keywordDictionary := keywordDictionary[name.value := MaskBits(mask)];
        }
        i := i + 1;
      }
      assert cs[..i] == cs;
      r := Success(keywordDictionary);
    }

    /** The attribute loop of RetrieveKeywords over one <keyword> element. */
    static method ScanKeywordAttributes(attributes: seq<XmlAttribute>) returns (r: Result<KeywordScan, ManifestError>)
      ensures r == ScanAttributes(attributes)
    {
      var mask := 0;
      var name: Option<string> := None;
      var i := 0;
      while i < |attributes|
        invariant 0 <= i <= |attributes|
        invariant ScanAttributes(attributes[..i]) == Success(KeywordScan(name, mask))
      {
        assert attributes[..i + 1][..i] == attributes[..i];
        var attribute := attributes[i];
        if IsBlank(attribute.name) || IsBlank(attribute.value) {
        } else if attribute.name == "name" {
          name := Some(attribute.value);
        } else if attribute.name == "mask" && StartsWith(attribute.value, "0x") {
          var converted := HexToInt64(attribute.value[2..]);
          if converted.Failure? {
            ScanFailureStops(attributes, i + 1);
            return if converted.error == FormatError then Failure(InvalidMask(attribute.value))
                   else Failure(MaskOverflow(attribute.value));
          }
          mask := converted.value;
        }
        i := i + 1;
      }
      assert attributes[..i] == attributes;
      r := Success(KeywordScan(name, mask));
    }

    /** ParseKeywords: the keyword table is only forced for a non-blank
        attribute. */
    method ParseKeywords(keywords: Option<string>) returns (r: Result<Keywords, ManifestError>)
      requires Valid()
      modifies this`lazyEventProviderName, this`lazyKeywords
      ensures Valid()
      ensures r == ParseKeywordsSpec(KeywordTableOf(document), keywords)
      ensures lazyEventAttributes == old(lazyEventAttributes)
    {
      if IsNullOrWhiteSpace(keywords) {
        return Success(KeywordsNone);
      }
      var availableKeywords := KeywordTable();
      if availableKeywords.Failure? {
        return Failure(availableKeywords.error);
      }
      var mask := OrKeywordTokens(availableKeywords.value, keywords.value);
      r := Success(mask);
    }

    /** The token loop of ParseKeywords: OR in the mask of every non-blank
        token found in the table. */
    static method OrKeywordTokens(table: map<string, Keywords>, keywords: string) returns (eventKeywords: Keywords)
      ensures eventKeywords == OrKnown(table, KeywordTokens(keywords))
    {
      var parts := Split(keywords, ' ');
      eventKeywords := KeywordsNone;
      var i := 0;
      while i < |parts|
        invariant 0 <= i <= |parts|
        invariant eventKeywords == OrKnown(table, NonBlank(parts[..i]))
      {
        var keywordString := parts[i];
        if !IsBlank(keywordString) && keywordString in table {
          eventKeywords := eventKeywords + table[keywordString];
        }
        OrKnownTokensStep(table, parts, i);
        assert eventKeywords == OrKnown(table, NonBlank(parts[..i + 1]));
        i := i + 1;
      }
      assert parts[..i] == parts;
    }

    /** The body of the event loop of RetrieveEventAttributes for one
        <event> element: skipped (None), the exception of ParseKeywords, or
        the symbol and its EventAttribute. */
    method ReadEvent(e: EventElement) returns (entry: Candidate<EventAttribute>)
      requires Valid()
      modifies this`lazyEventProviderName, this`lazyKeywords
      ensures Valid()
      ensures entry == EventCandidate(KeywordTableOf(document), e)
      ensures lazyEventAttributes == old(lazyEventAttributes)
    {
      if IsNullOrWhiteSpace(e.value) || IsNullOrWhiteSpace(e.symbol) {
        return Success(None);
      }
      var eventId := TryParseInt32(e.value);
      if eventId.None? || eventId.value == 0 {
        return Success(None);
      }
      var eventKeywords := ParseKeywords(e.keywords);
      if eventKeywords.Failure? {
        return Failure(eventKeywords.error);
      }
      var eventAttribute := NewEventAttribute(eventId.value);
      if !IsNullOrWhiteSpace(e.level) {
        eventAttribute := eventAttribute.(level := GetLevel(e.level.value));
      }
      var channel := TryParseByte(e.channel);
      if channel.Some? {
        eventAttribute := eventAttribute.(channel := channel.value);
      }
      if eventKeywords.value != KeywordsNone {
        eventAttribute := eventAttribute.(keywords := eventKeywords.value);
      }
      return Success(Some(Entry(e.symbol.value, eventAttribute)));
    }

    method RetrieveEventAttributes() returns (r: Result<map<string, EventAttribute>, ManifestError>)
      requires Valid()
      modifies this`lazyEventProviderName, this`lazyKeywords
      ensures Valid()
      ensures r == EventAttributesOf(document)
      ensures lazyEventAttributes == old(lazyEventAttributes)
    {
      var provider := EventProviderName();
      if provider.Failure? {
        return Failure(provider.error);
      }
      if !QuotableInXPath(provider.value) {
        return Failure(ProviderQueryInvalid(provider.value));
      }
      r := AddEvents(EventElementsOf(document.providers, provider.value));
    }

    /** The event loop of RetrieveEventAttributes: each <event> element is
        read and an accepted one is added under its symbol. */
    method AddEvents(events: seq<EventElement>) returns (r: Result<map<string, EventAttribute>, ManifestError>)
      requires Valid()
      modifies this`lazyEventProviderName, this`lazyKeywords
      ensures Valid()
      ensures r == AddAll(EventCandidates(KeywordTableOf(document), events))
      ensures lazyEventAttributes == old(lazyEventAttributes)
    {
      ghost var table := KeywordTableOf(document);
      ghost var cs := EventCandidates(table, events);
      var eventAttributeDictionary: map<string, EventAttribute> := map[];
      var i := 0;
      while i < |events|
        invariant 0 <= i <= |events|
        invariant Valid() && lazyEventAttributes == old(lazyEventAttributes)
        invariant AddAll(cs[..i]) == Success(eventAttributeDictionary)
      {
        var entry := ReadEvent(events[i]);
        var next := AddCandidate(eventAttributeDictionary, entry);
        AddAllNext(cs, i, eventAttributeDictionary);
        if next.Failure? {
          return next;
        }
        eventAttributeDictionary := next.value;
        i := i + 1;
      }
      assert cs[..i] == cs;
      r := Success(eventAttributeDictionary);
    }
  }

  lemma {:induction false} ScanFailureStops(attributes: seq<XmlAttribute>, n: nat)
    requires n <= |attributes|
    requires ScanAttributes(attributes[..n]).Failure?
    ensures ScanAttributes(attributes) == ScanAttributes(attributes[..n])
    decreases |attributes| - n
  {
    if n < |attributes| {
      assert attributes[..n + 1][..n] == attributes[..n];
      ScanFailureStops(attributes, n + 1);
    } else {
      assert attributes[..n] == attributes;
    }
  }
}
