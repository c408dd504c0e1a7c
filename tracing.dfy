/** The System.Diagnostics.Tracing vocabulary the logging core speaks:
    levels, channels, keyword masks, the EventAttribute the manifest reader
    fills, the listener state an EventSource queries, and the records an
    EventSource hands to ETW. */
module Tracing {
  import opened Wrappers

  /** EventLevel, most severe first (LogAlways = 0 … Verbose = 5). */
  datatype EventLevel = LogAlways | Critical | Error | Warning | Informational | Verbose

  /** EventChannel is a byte-sized enum; any byte can be cast to it. */
  type Channel = b: int | 0 <= b < 256

  const ChannelNone: Channel := 0
  const ChannelAdmin: Channel := 16
  const ChannelOperational: Channel := 17
  const ChannelAnalytic: Channel := 18
  const ChannelDebug: Channel := 19

  /** A bit position of a 64-bit flags value: bit b has the value 2^b. */
  type Bit = b: int | 0 <= b < 64

  /** EventKeywords is a 64-bit flags enum; a value is the set of the
      positions of its set bits, so | is union, & is intersection and
      (k & m) == m is m <= k. */
  type Keywords = set<Bit>

  const KeywordsNone: Keywords := {}
  /** EventKeywords.All is -1: every bit set. */
  const KeywordsAll: Keywords := set b: Bit | 0 <= b < 64

  function Pow2(n: nat): (p: nat)
    ensures p >= 1
  {
    if n == 0 then 1 else 2 * Pow2(n - 1)
  }

  /** Bit b of a non-negative integer: the low bit after b halvings. */
  predicate HasBit(mask: nat, b: nat)
    decreases b
  {
    if b == 0 then mask % 2 == 1 else HasBit(mask / 2, b - 1)
  }

  /** The flags value of a non-negative 64-bit integer, as the cast
      (EventKeywords)mask reads it. */
  function MaskBits(mask: nat): (k: Keywords)
    ensures forall b: Bit :: b in k <==> HasBit(mask, b)
  {
    set b: Bit | 0 <= b < 64 && HasBit(mask, b)
  }

  lemma {:induction false} ZeroHasNoBit(b: nat)
    ensures !HasBit(0, b)
  {
    if b > 0 {
      ZeroHasNoBit(b - 1);
    }
  }

  /** Bit c of 2^b is set exactly when c is b. */
  lemma {:induction false} Pow2Bits(b: nat, c: nat)
    ensures HasBit(Pow2(b), c) <==> c == b
  {
    if b == 0 {
      if c > 0 {
        ZeroHasNoBit(c - 1);
      }
    } else if c > 0 {
      assert Pow2(b) / 2 == Pow2(b - 1);
      Pow2Bits(b - 1, c - 1);
    }
  }

  /** The mask 2^b, as (EventKeywords)2^b reads it, is the single bit b. */
  lemma MaskBitsSingle(b: Bit)
    ensures MaskBits(Pow2(b)) == {b}
  {
    forall c: Bit
      ensures c in MaskBits(Pow2(b)) <==> c == b
    {
      Pow2Bits(b, c);
    }
  }

  /** The fields of an EventAttribute that the manifest reader sets. */
  datatype EventAttribute = EventAttribute(eventId: int, level: EventLevel, channel: Channel, keywords: Keywords)

  /** new EventAttribute(eventId): Level Informational, Channel None and
      Keywords None until they are assigned. */
  function NewEventAttribute(eventId: int): (a: EventAttribute)
    ensures a.eventId == eventId && a.level == Informational
    ensures a.channel == ChannelNone && a.keywords == KeywordsNone
  {
    EventAttribute(eventId, Informational, ChannelNone, KeywordsNone)
  }

  /** What an EventSource can learn about its listeners: IsEnabled() (some
      session has the source on) and IsEnabled(level, keywords, channel). */
  datatype Listeners = Listeners(sourceEnabled: bool, subscribed: (EventLevel, Keywords, Channel) -> bool)

  /** The listener state the runtime reports: IsEnabled(level, keywords,
      channel) is false while the source itself is disabled. */
  type Session = s: Listeners | SubscribesWhileEnabled(s)
    witness Listeners(false, (l, k, c) => false)

  /** EventSource.IsEnabled(level, keywords, channel) returns false while
      the source is disabled. */
  ghost predicate SubscribesWhileEnabled(s: Listeners) {
    forall l, k, c :: s.subscribed(l, k, c) ==> s.sourceEnabled
  }

  /** An exception as the façades read it: GetType().FullName, Message and
      ToString(). */
  datatype Exception = Exception(typeFullName: string, message: string, text: string)

  /** One EventData entry: a string and its size in bytes. */
  datatype EventData = EventData(text: string, size: int)

  /** One call of WriteEventCore: the event id and its payload. */
  datatype EventRecord = EventRecord(eventId: int, payload: seq<EventData>)

  /** A null string argument is written as the empty string. */
  function OrEmpty(s: Option<string>): (r: string)
    ensures s.Some? ==> r == s.value
    ensures s.None? ==> r == ""
  {
    if s.None? then "" else s.value
  }

  /** A character outside the Basic Multilingual Plane, which UTF-16
      stores as a surrogate pair. */
  predicate IsSupplementary(c: char) {
    c as int >= 0x1_0000
  }

  /** string.Length: the number of UTF-16 code units. Each character counts
      once, a supplementary one twice. */
  function Utf16Length(s: string): (n: nat)
    ensures |s| <= n <= 2 * |s|
  {
    if s == [] then 0
    else Utf16Length(s[..|s| - 1]) + (if IsSupplementary(s[|s| - 1]) then 2 else 1)
  }

  /** The UTF-16 length and the character count agree exactly on text
      without supplementary characters. */
  lemma {:induction false} Utf16LengthBmp(s: string)
    ensures Utf16Length(s) == |s| <==> forall i :: 0 <= i < |s| ==> !IsSupplementary(s[i])
  {
    if s != [] {
      var init := s[..|s| - 1];
      Utf16LengthBmp(init);
      assert forall i :: 0 <= i < |init| ==> init[i] == s[i];
    }
  }

  /** The `if (arg == null) arg = string.Empty;` of the five-string
      WriteEvent methods. */
  method NullAsEmpty(arg: Option<string>) returns (s: string)
    ensures s == OrEmpty(arg)
  {
    s := "";
    if arg.Some? {
      s := arg.value;
    }
  }

  /** The EventData of a string argument: null becomes "", and the size is
      that of the UTF-16 text and its terminating NUL, (Length + 1) * 2
      bytes. */
  function Field(s: Option<string>): (d: EventData)
    ensures d.text == OrEmpty(s)
    ensures d.size == (Utf16Length(d.text) + 1) * 2
    ensures 2 * |d.text| + 2 <= d.size <= 4 * |d.text| + 2
  {
    var text := OrEmpty(s);
    EventData(text, (Utf16Length(text) + 1) * 2)
  }

  /** A character outside the Basic Multilingual Plane takes two UTF-16
      code units: U+1F600 alone is sized (2 + 1) * 2 = 6 bytes. */
  lemma SurrogatePairField()
    ensures Field(Some("\U{1F600}")).size == 6
  {
    assert Utf16Length("\U{1F600}") == Utf16Length("") + 2;
  }

  function Payload(args: seq<Option<string>>): (p: seq<EventData>)
    ensures |p| == |args|
    ensures forall i :: 0 <= i < |p| ==> p[i] == Field(args[i])
  {
    seq(|args|, i requires 0 <= i < |args| => Field(args[i]))
  }

  /** The payload of a five-string WriteEvent, field by field. */
  lemma PayloadOfFive(a1: Option<string>, a2: Option<string>, a3: Option<string>, a4: Option<string>, a5: Option<string>)
    ensures Payload([a1, a2, a3, a4, a5]) == [Field(a1), Field(a2), Field(a3), Field(a4), Field(a5)]
  {
  }
}
