/**
  What `callOpenAI` does with the provider's reply: fail on a non-ok status, and
  otherwise recover the structured answer through a fixed three-step ladder.
 */
module Response {
  import opened Wrappers
  import opened JsText
  import opened JsonValue

  /** The provider's reply once its body has been decoded by `r.json()`. */
  datatype Reply = Reply(ok: bool, status: nat, body: Json)

  // ---------------------------------------------------------------------------
  // Status gate
  // ---------------------------------------------------------------------------

  const ErrorPrefix: JsString := Lit("OpenAI error ")
  const ErrorSeparator: JsString := Lit(": ")

  /** `OpenAI error ${status}: ${payload}` */
  function ErrorMessage(status: nat, payload: JsString): JsString {
    ErrorPrefix + Decimal(status) + ErrorSeparator + payload
  }

  /**
    Recovers the status and the payload from an error message, if it is one: the
    numeral must be written as `${status}` writes it, with no leading zero.
   */
  function ParseErrorMessage(msg: JsString): Option<(nat, JsString)> {
    match StripPrefix(ErrorPrefix, msg)
    case None => None
    case Some(rest) =>
      var k := LeadingDigits(rest);
      if k == 0 || (k > 1 && rest[0] == 0x30) then None
      else
        match StripPrefix(ErrorSeparator, rest[k..])
        case None => None
        case Some(payload) => Some((DigitsValue(rest[..k]), payload))
  }

  /** The error message determines the status code and the serialized payload it was made from. */
  lemma ErrorMessageRoundTrip(status: nat, payload: JsString)
    ensures ParseErrorMessage(ErrorMessage(status, payload)) == Some((status, payload))
  {
    var d := Decimal(status);
    var tail := ErrorSeparator + payload;
    assert ErrorMessage(status, payload) == ErrorPrefix + (d + tail);
    StripPrefixOfConcat(ErrorPrefix, d + tail);
    LeadingDigitsOfNumeral(d, tail);
    assert (d + tail)[..|d|] == d;
    assert (d + tail)[|d|..] == tail;
    StripPrefixOfConcat(ErrorSeparator, payload);
    DecimalRoundTrip(status);
  }

  /** Conversely, whatever parses as an error message is exactly the message of what it parses to. */
  lemma ErrorMessageParsedExactly(msg: JsString, status: nat, payload: JsString)
    requires ParseErrorMessage(msg) == Some((status, payload))
    ensures msg == ErrorMessage(status, payload)
  {
    var rest := StripPrefix(ErrorPrefix, msg).value;
    var k := LeadingDigits(rest);
    var d := rest[..k];
    assert Canonical(d) by {
      assert forall i :: 0 <= i < k ==> d[i] == rest[i];
    }
    DecimalOfDigits(d);
    assert rest == d + rest[k..];
  }

  // ---------------------------------------------------------------------------
  // Extraction ladder
  // ---------------------------------------------------------------------------

  const OutputKey: JsString := Lit("output")
  const JsonKey: JsString := Lit("json")
  const OutputTextKey: JsString := Lit("output_text")

  /** `output?.[0]?.content?.[0]?.json` */
  const NestedPath: seq<Step> := [Key(OutputKey), Index(0), Key(ContentKey), Index(0), Key(JsonKey)]

  /** Step 1: `j?.output?.[0]?.content?.[0]?.json`. */
  function Nested(j: Json): Option<Json> {
    Follow(Some(j), NestedPath)
  }

  /**
    Step 2: `typeof j?.output_text === 'string' ? safeParse(j.output_text) : null`,
    with the helper `safeParse` (not part of this model) as a parameter.
   */
  function ParsedText(j: Json, safeParse: JsString -> Option<Json>): Option<Json> {
    match Member(Some(j), OutputTextKey)
    case Some(JStr(t)) => safeParse(t)
    case _ => Some(JNull)
  }

  /**
    `(step1 ?? step2) ?? j`: the first of the two candidates that is neither null nor
    undefined, and otherwise the envelope itself. It never fails.
   */
  function Extract(j: Json, safeParse: JsString -> Option<Json>): (r: Json)
    ensures Present(Nested(j)) ==> r == Nested(j).value
    ensures !Present(Nested(j)) && Present(ParsedText(j, safeParse)) ==> r == ParsedText(j, safeParse).value
    ensures !Present(Nested(j)) && !Present(ParsedText(j, safeParse)) ==> r == j
  {
    var out := Coalesce(Nested(j), ParsedText(j, safeParse));
    if Present(out) then out.value else j
  }

  /** The result is always one of the three rungs' values. */
  lemma ExtractIsOneOfThree(j: Json, safeParse: JsString -> Option<Json>)
    ensures var r := Extract(j, safeParse);
            Nested(j) == Some(r) || ParsedText(j, safeParse) == Some(r) || r == j
  {
  }

  /** `(nested ?? parsed) ?? j` is the single ladder `nested ?? (parsed ?? j)`. */
  lemma ExtractAsLadder(j: Json, safeParse: JsString -> Option<Json>)
    ensures Some(Extract(j, safeParse)) == Coalesce(Nested(j), Coalesce(ParsedText(j, safeParse), Some(j)))
  {
  }

  /** The property of the same name on a JSON object, if any. */
  function Field(fields: map<JsString, Json>, k: JsString): Option<Json> {
    if k in fields then Some(fields[k]) else None
  }

  /**
    An envelope `{ ..., output: [{ ..., content: [{ ..., json: v }, ...] }, ...] }`
    with a non-null `v` yields `v`, whatever its `output_text` holds and whatever
    `safeParse` would do.
   */
  lemma NestedWins(envelope: map<JsString, Json>, item: map<JsString, Json>, part: map<JsString, Json>,
                   moreItems: seq<Json>, moreParts: seq<Json>, v: Json,
                   safeParse: JsString -> Option<Json>)
    requires v != JNull
    ensures var p := JObj(part[JsonKey := v]);
            var i := JObj(item[ContentKey := JArr([p] + moreParts)]);
            Extract(JObj(envelope[OutputKey := JArr([i] + moreItems)]), safeParse) == v
  {
    var p := JObj(part[JsonKey := v]);
    var i := JObj(item[ContentKey := JArr([p] + moreParts)]);
    var j := JObj(envelope[OutputKey := JArr([i] + moreItems)]);
    assert Follow(Some(p), [Key(JsonKey)]) == Some(v);
    assert Follow(Some(JArr([p] + moreParts)), [Index(0), Key(JsonKey)]) == Some(v);
    assert Follow(Some(i), [Key(ContentKey), Index(0), Key(JsonKey)]) == Some(v);
    assert Follow(Some(JArr([i] + moreItems)), [Index(0), Key(ContentKey), Index(0), Key(JsonKey)]) == Some(v);
    assert Follow(Some(j), NestedPath) == Some(v);
  }

  /**
    When the nested value is absent or null and `output_text` is a string whose
    parse is neither null nor undefined, the parsed value is returned.
   */
  lemma ParsedTextSecond(envelope: map<JsString, Json>, t: JsString, safeParse: JsString -> Option<Json>)
    requires !Present(Nested(JObj(envelope)))
    requires Field(envelope, OutputTextKey) == Some(JStr(t))
    requires Present(safeParse(t))
    ensures Extract(JObj(envelope), safeParse) == safeParse(t).value
  {
  }

  /**
    Without a usable nested value, the envelope comes back unchanged when
    `output_text` is missing or not a string, when its parse fails, or when it
    parses to JSON null.
   */
  lemma EnvelopeOtherwise(envelope: map<JsString, Json>, safeParse: JsString -> Option<Json>)
    requires !Present(Nested(JObj(envelope)))
    requires match Field(envelope, OutputTextKey)
             case Some(JStr(t)) => !Present(safeParse(t))
             case _ => true
    ensures Extract(JObj(envelope), safeParse) == JObj(envelope)
  {
  }

  /** A reply that is not an object at all (array, string, number, boolean, null) is returned as it is. */
  lemma NonObjectEnvelope(j: Json, safeParse: JsString -> Option<Json>)
    requires !j.JObj?
    ensures Extract(j, safeParse) == j
  {
    assert Member(Some(j), OutputKey) == None;
    FollowNone(NestedPath[1..]);
  }

  /**
    The text fallback completes a round trip: if the envelope has no nested value
    and its `output_text` is the serialization of a non-null document that
    `safeParse` reads back, the document itself is returned.
   */
  lemma TextRoundTrip(doc: Json, stringify: Json -> JsString, safeParse: JsString -> Option<Json>)
    requires doc != JNull
    requires safeParse(stringify(doc)) == Some(doc)
    ensures Extract(JObj(map[OutputTextKey := JStr(stringify(doc))]), safeParse) == doc
  {
    var j := JObj(map[OutputTextKey := JStr(stringify(doc))]);
    assert OutputKey != OutputTextKey by { assert |OutputKey| != |OutputTextKey|; }
    assert Member(Some(j), OutputKey) == None;
    FollowNone(NestedPath[1..]);
  }

  // ---------------------------------------------------------------------------
  // The reply as a whole
  // ---------------------------------------------------------------------------

  /**
    Lines 36-46 of `callOpenAI` after the reply arrives: a non-ok reply fails with
    its status and serialized body and nothing is extracted; an ok reply is
    extracted.
   */
  function HandleReply(r: Reply, stringify: Json -> JsString, safeParse: JsString -> Option<Json>): (res: Result<Json, JsString>)
    ensures res.Err? <==> !r.ok
    ensures res.Err? ==> ParseErrorMessage(res.error) == Some((r.status, stringify(r.body)))
    ensures res.Ok? ==> res.value == Extract(r.body, safeParse)
  {
    if !r.ok then
      ErrorMessageRoundTrip(r.status, stringify(r.body));
      Err(ErrorMessage(r.status, stringify(r.body)))
    else
      Ok(Extract(r.body, safeParse))
  }
}
