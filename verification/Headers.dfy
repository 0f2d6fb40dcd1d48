/** Delivery headers: the bounded set read from a delivery, and its validation against the envelope. */
module Headers {
  import opened Foundation
  import opened Grammar
  import opened Text
  import opened MessageDomain
  import opened Routing
  import opened UuidText

  type Pair = (string, string)

  const MAX_HEADERS: nat := 32
  const MESSAGE_ID_HEADER := "Nats-Msg-Id"
  const EXPECTED_STREAM_HEADER := "Nats-Expected-Stream"
  const CONTENT_TYPE_HEADER := "Content-Type"

  datatype HeaderError = HeaderMismatch

  predicate NoControl(s: string) { forall i | 0 <= i < |s| :: !IsControl(s[i]) }

  predicate PairFits(pair: Pair) {
    1 <= |pair.0| <= 128 && |pair.1| <= 512 && IsAscii(pair.0) && IsAscii(pair.1) && NoControl(pair.0) && NoControl(pair.1)
  }

  /** The values given for one name, in order. */
  function ValuesOf(pairs: seq<Pair>, name: string): seq<string> {
    if pairs == [] then []
    else
      var last := pairs[|pairs| - 1];
      ValuesOf(pairs[..|pairs| - 1], name) + if last.0 == name then [last.1] else []
  }

  function NamesOf(pairs: seq<Pair>): set<string> { set i | 0 <= i < |pairs| :: pairs[i].0 }

  /** `InboundHeaderSet::from_pairs`. */
  method FromPairs(pairs: seq<Pair>) returns (r: Result<map<string, seq<string>>, HeaderError>)
    ensures r.Success? <==> |pairs| <= MAX_HEADERS && forall i | 0 <= i < |pairs| :: PairFits(pairs[i])
    ensures r.Success? ==> r.value == HeaderSet(pairs)
  {
    var values: map<string, seq<string>> := map[];
    var i := 0;
    while i < |pairs|
      invariant 0 <= i <= |pairs| && i <= MAX_HEADERS
      invariant forall k | 0 <= k < i :: PairFits(pairs[k])
      invariant values == HeaderSet(pairs[..i])
    {
      if i + 1 > MAX_HEADERS || !PairFits(pairs[i]) { return Failure(HeaderMismatch); }
      var (name, value) := pairs[i];
      assert pairs[..i + 1] == pairs[..i] + [pairs[i]];
      HeaderAppend(pairs[..i], pairs[i]);
      values := values[name := (if name in values then values[name] else []) + [value]];
      i := i + 1;
    }
    assert pairs[..i] == pairs;
    return Success(values);
  }

  function HeaderSet(pairs: seq<Pair>): map<string, seq<string>> {
    map name | name in NamesOf(pairs) :: ValuesOf(pairs, name)
  }

  lemma ValuesAppend(front: seq<Pair>, pair: Pair, name: string)
    ensures ValuesOf(front + [pair], name) == ValuesOf(front, name) + if pair.0 == name then [pair.1] else []
  {
    assert (front + [pair])[..|front|] == front;
  }

  lemma NamesAppend(front: seq<Pair>, pair: Pair)
    ensures NamesOf(front + [pair]) == NamesOf(front) + {pair.0}
  {
    var all := front + [pair];
    assert all[|front|] == pair;
    forall k | 0 <= k < |front| ensures all[k] == front[k] {}
  }

  lemma {:induction false} PresentNames(pairs: seq<Pair>, name: string)
    ensures name in NamesOf(pairs) <==> ValuesOf(pairs, name) != []
  {
    if pairs != [] {
      var (front, last) := (pairs[..|pairs| - 1], pairs[|pairs| - 1]);
      PresentNames(front, name);
      NamesAppend(front, last);
      assert front + [last] == pairs;
    }
  }

  lemma HeaderAppend(front: seq<Pair>, pair: Pair)
    ensures var before := HeaderSet(front);
      HeaderSet(front + [pair]) == before[pair.0 := (if pair.0 in before then before[pair.0] else []) + [pair.1]]
  {
    hide ValuesOf;
    NamesAppend(front, pair);
    PresentNames(front, pair.0);
    var (before, after) := (HeaderSet(front), HeaderSet(front + [pair]));
    var updated := before[pair.0 := (if pair.0 in before then before[pair.0] else []) + [pair.1]];
    assert after.Keys == updated.Keys;
    forall name | name in after ensures after[name] == updated[name] { ValuesAppend(front, pair, name); }
    assert after == updated;
  }

  // ---- Validation -----------------------------------------------------------------------------

  function Lowered(c: char): char { if 'A' <= c <= 'Z' then ((c as int) + 32) as char else c }

  function LowerCase(s: string): (r: string)
    ensures |r| == |s|
  { seq(|s|, i requires 0 <= i < |s| => Lowered(s[i])) }

  const KNOWN_HEADERS: set<string> := {"nats-msg-id", "nats-expected-stream", "content-type", "nats-stream", "nats-sequence",
    "nats-time-stamp", "nats-subject", "nats-last-sequence", "nats-last-subject-sequence", "nats-pending-messages",
    "nats-pending-bytes"}

  /** Names are known in any case; values are looked up in the written case only. */
  predicate KnownHeader(name: string) { LowerCase(name) in KNOWN_HEADERS }

  function OptionalOne(headers: map<string, seq<string>>, name: string): Result<Option<string>, HeaderError> {
    if name !in headers then Success(None)
    else if |headers[name]| == 1 then Success(Some(headers[name][0]))
    else Failure(HeaderMismatch)
  }

  function ExactlyOne(headers: map<string, seq<string>>, name: string): Result<string, HeaderError> {
    var value :- OptionalOne(headers, name);
    if value.None? then Failure(HeaderMismatch) else Success(value.value)
  }

  /** `InboundHeaderSet::validate`. */
  function Validate(headers: map<string, seq<string>>, id: Uuid, stream: TransportStream): Result<(), HeaderError> {
    if exists name | name in headers :: !KnownHeader(name) then Failure(HeaderMismatch)
    else
      var text :- ExactlyOne(headers, MESSAGE_ID_HEADER);
      if ParseIdentifier(text) != Some(id) then Failure(HeaderMismatch)
      else
        var contentType :- ExactlyOne(headers, CONTENT_TYPE_HEADER);
        if contentType != MESSAGE_CONTENT_TYPE then Failure(HeaderMismatch)
        else
          var expected :- OptionalOne(headers, EXPECTED_STREAM_HEADER);
          if expected.Some? && expected.value != stream.Name() then Failure(HeaderMismatch) else Success(())
  }

  /** Exactly these headers pass: known names, one fitting identity and content type, at most one fitting stream. */
  lemma ValidatesIff(pairs: seq<Pair>, id: Uuid, stream: TransportStream)
    ensures Validate(HeaderSet(pairs), id, stream).Success? <==>
      && (forall i | 0 <= i < |pairs| :: KnownHeader(pairs[i].0))
      && |ValuesOf(pairs, "Nats-Msg-Id")| == 1 && ParseIdentifier(ValuesOf(pairs, "Nats-Msg-Id")[0]) == Some(id)
      && ValuesOf(pairs, "Content-Type") == ["application/vnd.edtech.message+json;version=1"]
      && (ValuesOf(pairs, "Nats-Expected-Stream") == [] || ValuesOf(pairs, "Nats-Expected-Stream") == [stream.Name()])
  {
    hide KnownHeader, ParseIdentifier, ValuesOf, HeaderSet, TransportStream.Name;
    AllNamesKnown(pairs);
    OptionalOneIs(pairs, MESSAGE_ID_HEADER);
    OptionalOneIs(pairs, CONTENT_TYPE_HEADER);
    OptionalOneIs(pairs, EXPECTED_STREAM_HEADER);
  }

  lemma AllNamesKnown(pairs: seq<Pair>)
    ensures (forall name | name in HeaderSet(pairs) :: KnownHeader(name)) <==> (forall i | 0 <= i < |pairs| :: KnownHeader(pairs[i].0))
  {
    hide KnownHeader;
    forall i | 0 <= i < |pairs| ensures pairs[i].0 in HeaderSet(pairs) {}
  }

  lemma OptionalOneIs(pairs: seq<Pair>, name: string)
    ensures OptionalOne(HeaderSet(pairs), name) ==
      match |ValuesOf(pairs, name)|
      case 0 => Success(None)
      case 1 => Success(Some(ValuesOf(pairs, name)[0]))
      case _ => Failure(HeaderMismatch)
  {
    PresentNames(pairs, name);
  }

  /** The headers that `publish_exact` sends. */
  function PublishedHeaders(id: Uuid, stream: TransportStream): seq<Pair> {
    [(MESSAGE_ID_HEADER, FormatUuid(id)), (EXPECTED_STREAM_HEADER, stream.Name()), (CONTENT_TYPE_HEADER, MESSAGE_CONTENT_TYPE)]
  }

  /** What is published under each name. */
  lemma PublishedValues(id: Uuid, stream: TransportStream)
    ensures var pairs := PublishedHeaders(id, stream);
      && |pairs| == 3
      && ValuesOf(pairs, "Nats-Msg-Id") == [FormatUuid(id)]
      && ValuesOf(pairs, "Content-Type") == ["application/vnd.edtech.message+json;version=1"]
      && ValuesOf(pairs, "Nats-Expected-Stream") == [stream.Name()]
  {
    hide FormatUuid;
    assert |MESSAGE_ID_HEADER| == 11 && |CONTENT_TYPE_HEADER| == 12 && |EXPECTED_STREAM_HEADER| == 20;
    ValuesOfThree(PublishedHeaders(id, stream), MESSAGE_ID_HEADER);
    ValuesOfThree(PublishedHeaders(id, stream), CONTENT_TYPE_HEADER);
    ValuesOfThree(PublishedHeaders(id, stream), EXPECTED_STREAM_HEADER);
  }

  lemma ValuesOfThree(pairs: seq<Pair>, name: string)
    requires |pairs| == 3
    ensures ValuesOf(pairs, name) == (if pairs[0].0 == name then [pairs[0].1] else [])
      + (if pairs[1].0 == name then [pairs[1].1] else []) + (if pairs[2].0 == name then [pairs[2].1] else [])
  {
    assert pairs == [] + [pairs[0]] + [pairs[1]] + [pairs[2]];
    ValuesAppend([], pairs[0], name);
    ValuesAppend([] + [pairs[0]], pairs[1], name);
    ValuesAppend([] + [pairs[0]] + [pairs[1]], pairs[2], name);
  }

  /** What is published passes validation for its own identity and stream, and for no other. */
  lemma PublishedHeadersValidate(id: Uuid, stream: TransportStream, other: Uuid, at: TransportStream)
    requires IsUuidV7(id)
    ensures Validate(HeaderSet(PublishedHeaders(id, stream)), other, at).Success? <==> other == id && at == stream
  {
    hide FormatUuid, KnownHeader, ParseIdentifier, IsUuidV7, ValuesOf;
    PublishedValues(id, stream);
    IdentityBound(id);
    UuidRoundTrip(id);
    KnownNames();
    ValidatesIff(PublishedHeaders(id, stream), other, at);
    assert |Commands.Name()| != |Events.Name()|;
  }

  lemma KnownNames()
    ensures KnownHeader(MESSAGE_ID_HEADER) && KnownHeader(EXPECTED_STREAM_HEADER) && KnownHeader(CONTENT_TYPE_HEADER)
    ensures KnownHeader("content-type")
  {
    assert LowerCase(MESSAGE_ID_HEADER) == "nats-msg-id";
    assert LowerCase(EXPECTED_STREAM_HEADER) == "nats-expected-stream";
    assert LowerCase(CONTENT_TYPE_HEADER) == "content-type";
    assert LowerCase("content-type") == "content-type";
  }

  /** A second content type under another case is not noticed: known names ignore case, duplicates do not. */
  lemma CaseVariantDuplicatePasses(id: Uuid, stream: TransportStream, contentType: string)
    requires IsUuidV7(id)
    ensures Validate(HeaderSet(PublishedHeaders(id, stream) + [("content-type", contentType)]), id, stream).Success?
  {
    hide FormatUuid, KnownHeader, ParseIdentifier, IsUuidV7, ValuesOf;
    var pairs := PublishedHeaders(id, stream);
    var extra := ("content-type", contentType);
    assert extra.0[0] != CONTENT_TYPE_HEADER[0];
    assert |MESSAGE_ID_HEADER| == 11 && |EXPECTED_STREAM_HEADER| == 20 && |extra.0| == 12;
    PublishedValues(id, stream);
    ValuesAppend(pairs, extra, MESSAGE_ID_HEADER);
    ValuesAppend(pairs, extra, CONTENT_TYPE_HEADER);
    ValuesAppend(pairs, extra, EXPECTED_STREAM_HEADER);
    IdentityBound(id);
    UuidRoundTrip(id);
    KnownNames();
    ValidatesIff(pairs + [extra], id, stream);
  }
}
