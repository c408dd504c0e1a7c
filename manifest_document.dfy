/** The parsed form of an instrumentation manifest (the Windows event
    schema, namespace http://schemas.microsoft.com/win/2004/08/events) as the
    manifest reader queries it, the errors reading it can raise, and the
    semantics of filling a Dictionary<string, V> with Add. */
module ManifestDocument {
  import opened Wrappers

  /** An attribute of a <keyword> element, in document order. */
  datatype XmlAttribute = XmlAttribute(name: string, value: string)

  /** An <event> element: its value, symbol, level, channel and keywords
      attributes (None when absent). */
  datatype EventElement = EventElement(
    value: Option<string>,
    symbol: Option<string>,
    level: Option<string>,
    channel: Option<string>,
    keywords: Option<string>)

  /** A <keyword> element, as the list of its attributes. */
  datatype KeywordElement = KeywordElement(attributes: seq<XmlAttribute>)

  /** A <provider> element with its name attribute and the <event> and
      <keyword> elements under its <events> and <keywords> children. */
  datatype ProviderElement = ProviderElement(
    name: Option<string>,
    events: seq<EventElement>,
    keywords: seq<KeywordElement>)

  /** The <provider> elements of the manifest, in document order. The
      manifest generator writes every provider under
      instrumentation/events, where both the rooted event query and the
      //e:provider queries for the name and the keywords find it. */
  datatype Document = Document(providers: seq<ProviderElement>)

  /** What reading a manifest can throw. */
  datatype ManifestError =
    | ManifestXmlMissing     // ArgumentNullException: null or white-space XML
    | XmlSyntaxError         // XmlException from parsing the text
    | ProviderNameMissing    // InvalidOperationException: no provider name
    | DuplicateKey(key: string)   // ArgumentException from Dictionary.Add
    | InvalidMask(mask: string)   // FormatException from Convert.ToInt64
    | MaskOverflow(mask: string)  // OverflowException from Convert.ToInt64
    | ProviderQueryInvalid(provider: string)  // XPathException: the name breaks the query

  // ---------------------------------------------------------------------------
  // Filling a dictionary with Dictionary.Add

  datatype Entry<V> = Entry(key: string, value: V)

  /** What one loop iteration hands to Dictionary.Add: an exception raised
      while computing the entry, nothing (the element is skipped), or an
      entry. */
  type Candidate<V> = Result<Option<Entry<V>>, ManifestError>

  predicate Present<V>(c: Candidate<V>) {
    c.Success? && c.value.Some?
  }

  function KeyOf<V>(c: Candidate<V>): string
    requires Present(c)
  {
    c.value.value.key
  }

  function ValueOf<V>(c: Candidate<V>): V
    requires Present(c)
  {
    c.value.value.value
  }

  /** One Dictionary.Add: a key already present throws. */
  function AddOne<V>(m: map<string, V>, c: Candidate<V>): Result<map<string, V>, ManifestError>
  {
    match c
    case Failure(e) => Failure(e)
    case Success(None) => Success(m)
    case Success(Some(Entry(k, v))) =>
      if k in m then Failure(DuplicateKey(k)) else Success(m[k := v])
  }

  /** One pass of a reading loop after the element is read: a skipped
      element adds nothing, an exception propagates, and Dictionary.Add
      throws on a key already present. */
  method AddCandidate<V>(m: map<string, V>, c: Candidate<V>) returns (next: Result<map<string, V>, ManifestError>)
    ensures next == AddOne(m, c)
  {
    if c.Failure? {
      return Failure(c.error);
    }
    if c.value.None? {
      return Success(m);
    }
    var key, value := c.value.value.key, c.value.value.value;
    if key in m {
      return Failure(DuplicateKey(key));
    }
    next := Success(m[key := value]);
  }

  /** A loop that adds every candidate in order to a new dictionary; the
      first exception ends it. */
  function AddAll<V>(cs: seq<Candidate<V>>): Result<map<string, V>, ManifestError>
  {
    if cs == [] then Success(map[])
    else
      var prev := AddAll(cs[..|cs| - 1]);
      if prev.Failure? then prev else AddOne(prev.value, cs[|cs| - 1])
  }

  predicate AllComputed<V>(cs: seq<Candidate<V>>) {
    forall i :: 0 <= i < |cs| ==> cs[i].Success?
  }

  predicate DistinctKeys<V>(cs: seq<Candidate<V>>) {
    forall i, j :: 0 <= i < j < |cs| && Present(cs[i]) && Present(cs[j]) ==> KeyOf(cs[i]) != KeyOf(cs[j])
  }

  /** The dictionary holds exactly the present candidates, each under its
      own key with its own value. */
  lemma {:induction false} AddAllContents<V>(cs: seq<Candidate<V>>, m: map<string, V>)
    requires AddAll(cs) == Success(m)
    ensures forall i :: 0 <= i < |cs| && Present(cs[i]) ==> KeyOf(cs[i]) in m && m[KeyOf(cs[i])] == ValueOf(cs[i])
    ensures forall k :: k in m ==> exists i :: 0 <= i < |cs| && Present(cs[i]) && KeyOf(cs[i]) == k && ValueOf(cs[i]) == m[k]
  {
    if cs != [] {
      var n := |cs| - 1;
      var prefix := cs[..n];
      var prev := AddAll(prefix);
      assert prev.Success?;
      AddAllContents(prefix, prev.value);
      forall i | 0 <= i < |cs| && Present(cs[i])
        ensures KeyOf(cs[i]) in m && m[KeyOf(cs[i])] == ValueOf(cs[i])
      {
        if i < n {
          assert prefix[i] == cs[i];
        }
      }
      forall k | k in m
        ensures exists i :: 0 <= i < |cs| && Present(cs[i]) && KeyOf(cs[i]) == k && ValueOf(cs[i]) == m[k]
      {
        if Present(cs[n]) && KeyOf(cs[n]) == k {
          assert ValueOf(cs[n]) == m[k];
        } else {
          assert k in prev.value;
          var i :| 0 <= i < |prefix| && Present(prefix[i]) && KeyOf(prefix[i]) == k && ValueOf(prefix[i]) == prev.value[k];
          assert cs[i] == prefix[i];
        }
      }
    }
  }

  /** Filling the dictionary succeeds exactly when every candidate could be
      computed and no two present candidates share a key. */
  lemma {:induction false} AddAllSucceeds<V>(cs: seq<Candidate<V>>)
    ensures AddAll(cs).Success? <==> AllComputed(cs) && DistinctKeys(cs)
  {
    if cs != [] {
      var n := |cs| - 1;
      var prefix := cs[..n];
      AddAllSucceeds(prefix);
      assert forall i :: 0 <= i < n ==> prefix[i] == cs[i];
      var prev := AddAll(prefix);
      if prev.Success? {
        AddAllContents(prefix, prev.value);
        if Present(cs[n]) {
          var k := KeyOf(cs[n]);
          if k in prev.value {
            var i :| 0 <= i < |prefix| && Present(prefix[i]) && KeyOf(prefix[i]) == k && ValueOf(prefix[i]) == prev.value[k];
            assert !DistinctKeys(cs) by {
              assert KeyOf(cs[i]) == KeyOf(cs[n]);
            }
          } else {
            assert forall i :: 0 <= i < n && Present(cs[i]) ==> KeyOf(cs[i]) != k by {
              forall i | 0 <= i < n && Present(cs[i]) ensures KeyOf(cs[i]) != k {
                assert KeyOf(prefix[i]) in prev.value;
              }
            }
          }
        }
      } else {
        assert !(AllComputed(prefix) && DistinctKeys(prefix));
      }
    }
  }

  /** One more iteration of the loop: Add the next candidate. */
  lemma AddAllStep<V>(cs: seq<Candidate<V>>, i: nat)
    requires i < |cs| && AddAll(cs[..i]).Success?
    ensures AddAll(cs[..i + 1]) == AddOne(AddAll(cs[..i]).value, cs[i])
  {
    assert cs[..i + 1][..i] == cs[..i];
  }

  /** One iteration of the loop on the dictionary m built so far: an Add
      that throws ends the loop with its exception, and one that succeeds
      is the dictionary after i + 1 candidates. */
  lemma AddAllNext<V>(cs: seq<Candidate<V>>, i: nat, m: map<string, V>)
    requires i < |cs| && AddAll(cs[..i]) == Success(m)
    ensures AddOne(m, cs[i]).Failure? ==> AddAll(cs) == AddOne(m, cs[i])
    ensures AddOne(m, cs[i]).Success? ==> AddAll(cs[..i + 1]) == AddOne(m, cs[i])
  {
    AddAllStep(cs, i);
    if AddOne(m, cs[i]).Failure? {
      AddAllFailureStops(cs, i + 1);
    }
  }

  /** After the first failure the remaining candidates are never looked at. */
  lemma {:induction false} AddAllFailureStops<V>(cs: seq<Candidate<V>>, n: nat)
    requires n <= |cs|
    requires AddAll(cs[..n]).Failure?
    ensures AddAll(cs) == AddAll(cs[..n])
    decreases |cs| - n
  {
    if n < |cs| {
      assert cs[..n + 1][..n] == cs[..n];
      AddAllFailureStops(cs, n + 1);
    } else {
      assert cs[..n] == cs;
    }
  }
}
