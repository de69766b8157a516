/**
  The request body `callOpenAI` builds from (company_name, website, evidence)
  before sending it to the provider's Responses endpoint.
 */
module Request {
  import opened Wrappers
  import opened JsText
  import opened JsonValue

  const ModelName: JsString := Lit("gpt-4.1-mini")

  const SystemRole: JsString := Lit("system")
  const UserRole: JsString := Lit("user")

  /** The analyst instruction encoding the RobCo screening rubric. */
  const SystemInstruction: JsString := Lit(SystemInstructionSource)
  const SystemInstructionSource: string := "You are an M&A analyst. Evaluate targets strictly against RobCo criteria (size >$3M rev, >15y, >30 FTE; alignment to VBU; EU/NA with English operations; >50% recurring; owns IP; buy-and-hold understood; no broker; valuation not key; founder >50%; debt/investment <1x revenue). Use only the inputs provided. If a field is unknown, set it to null and explain uncertainties in notes. Return JSON EXACTLY matching the JSON Schema."

  const TextKind: JsString := Lit("text")

  const CompanyLabel: JsString := Lit("company_name: ")
  const WebsiteLabel: JsString := Lit("website: ")
  const EvidenceLabel: JsString := Lit("evidence: ")

  /** The serialized evidence is cut after this many UTF-16 code units. */
  const EvidenceLimit: nat := 20000

  const FormatKind: JsString := Lit("json_schema")
  const SchemaName: JsString := Lit("qualification_output")

  /** `{ type, text }` */
  datatype Part = Part(kind: JsString, text: JsString)

  /** A message's `content`: one string, or a list of typed parts. */
  datatype Content = Text(text: JsString) | Parts(parts: seq<Part>)

  /** `{ role, content }` */
  datatype Message = Message(role: JsString, content: Content)

  /** `text: { format, json_schema: { name, schema } }` */
  datatype TextFormat = TextFormat(format: JsString, name: JsString, schema: Json)

  /** `{ model, input, text }` */
  datatype Body = Body(model: JsString, input: seq<Message>, text: TextFormat)

  /** The three user-supplied values as they can be read back out of a body. */
  datatype UserFields = UserFields(companyName: JsString, website: JsString, evidence: JsString)

  // ---------------------------------------------------------------------------
  // Construction
  // ---------------------------------------------------------------------------

  /** `serialized.slice(0, 20000)`: a prefix, never longer than the limit. */
  function TruncateEvidence(serialized: JsString): (r: JsString)
    ensures |r| == Min(|serialized|, EvidenceLimit)
    ensures r == serialized[..|r|]
  {
    SlicePrefix(serialized, EvidenceLimit);
    Slice(serialized, 0, EvidenceLimit)
  }

  /** `{ type: 'text', text: `${prefix}${value}` }` */
  function TextPart(prefix: JsString, value: JsString): Part {
    Part(TextKind, prefix + value)
  }

  function SystemMessage(): Message {
    Message(SystemRole, Text(SystemInstruction))
  }

  function UserMessage(companyName: JsString, website: JsString, serializedEvidence: JsString): Message {
    Message(UserRole, Parts([
      TextPart(CompanyLabel, companyName),
      TextPart(WebsiteLabel, website),
      TextPart(EvidenceLabel, TruncateEvidence(serializedEvidence))
    ]))
  }

  /**
    The body literal of `callOpenAI`. `JSON.stringify` and the response schema are
    not part of this model and come in as `stringify` and `schema`.
   */
  function BuildBody(companyName: JsString, website: JsString, evidence: Json,
                     stringify: Json -> JsString, schema: Json): (b: Body)
    ensures b.model == ModelName
    ensures |b.input| == 2 && b.input[0] == SystemMessage()
    ensures b.text == TextFormat(FormatKind, SchemaName, schema)
    ensures ReadUserFields(b) == Some(UserFields(companyName, website, TruncateEvidence(stringify(evidence))))
  {
    Body(ModelName,
         [SystemMessage(), UserMessage(companyName, website, stringify(evidence))],
         TextFormat(FormatKind, SchemaName, schema))
  }

  // ---------------------------------------------------------------------------
  // Reading a body back
  // ---------------------------------------------------------------------------

  /** The value of a text part carrying `prefix`, if it is one. */
  function ReadPart(prefix: JsString, p: Part): (r: Option<JsString>)
    ensures r.Some? ==> p == TextPart(prefix, r.value)
  {
    if p.kind == TextKind then StripPrefix(prefix, p.text) else None
  }

  /** The inputs of a body whose second message is a user message of exactly three labelled text parts. */
  function ReadUserFields(b: Body): (r: Option<UserFields>)
    ensures r.Some? ==> |b.input| >= 2 && b.input[1] == Message(UserRole, Parts([
      TextPart(CompanyLabel, r.value.companyName),
      TextPart(WebsiteLabel, r.value.website),
      TextPart(EvidenceLabel, r.value.evidence)]))
  {
    if |b.input| < 2 || b.input[1].role != UserRole || !b.input[1].content.Parts? then None
    else
      var parts := b.input[1].content.parts;
      if |parts| != 3 then None
      else
        match (ReadPart(CompanyLabel, parts[0]), ReadPart(WebsiteLabel, parts[1]), ReadPart(EvidenceLabel, parts[2]))
        case (Some(c), Some(w), Some(e)) => Some(UserFields(c, w, e))
        case _ => None
  }

  // ---------------------------------------------------------------------------
  // Properties of the construction
  // ---------------------------------------------------------------------------

  /**
    The user message is exactly three text parts, in the order company name,
    website, evidence; the evidence part is "evidence: " followed by the first
    min(|s|, 20000) code units of the serialized evidence s.
   */
  lemma UserPartsInOrder(companyName: JsString, website: JsString, evidence: Json,
                         stringify: Json -> JsString, schema: Json)
    ensures var b := BuildBody(companyName, website, evidence, stringify, schema);
            var s := stringify(evidence);
            b.input[1].role == UserRole && b.input[1].content.Parts? &&
            var parts := b.input[1].content.parts;
            |parts| == 3 &&
            (forall i :: 0 <= i < 3 ==> parts[i].kind == TextKind) &&
            parts[0].text == CompanyLabel + companyName &&
            parts[1].text == WebsiteLabel + website &&
            parts[2].text == EvidenceLabel + s[..Min(|s|, EvidenceLimit)]
  {
  }

  /** The evidence embedded in the request never exceeds the limit and is a prefix of the serialization. */
  lemma EvidenceBounded(companyName: JsString, website: JsString, evidence: Json,
                        stringify: Json -> JsString, schema: Json)
    ensures var e := ReadUserFields(BuildBody(companyName, website, evidence, stringify, schema)).value.evidence;
            |e| <= EvidenceLimit && IsPrefix(e, stringify(evidence))
  {
  }

  /** Serialized evidence within the limit is embedded verbatim. */
  lemma ShortEvidenceVerbatim(companyName: JsString, website: JsString, evidence: Json,
                              stringify: Json -> JsString, schema: Json)
    requires |stringify(evidence)| <= EvidenceLimit
    ensures ReadUserFields(BuildBody(companyName, website, evidence, stringify, schema)).value.evidence
            == stringify(evidence)
  {
  }

  /** Truncation only cuts a tail: what is kept followed by what is dropped is the whole serialization. */
  lemma TruncationKeepsContent(serialized: JsString)
    ensures TruncateEvidence(serialized) + serialized[|TruncateEvidence(serialized)|..] == serialized
    ensures |serialized| > EvidenceLimit ==> |TruncateEvidence(serialized)| == EvidenceLimit
  {
  }

  /** Model name, system instruction and output-format directive do not depend on the inputs. */
  lemma ConstantsIndependent(c1: JsString, w1: JsString, e1: Json,
                             c2: JsString, w2: JsString, e2: Json,
                             stringify: Json -> JsString, schema: Json)
    ensures var b1 := BuildBody(c1, w1, e1, stringify, schema);
            var b2 := BuildBody(c2, w2, e2, stringify, schema);
            b1.model == b2.model && b1.input[0] == b2.input[0] && b1.text == b2.text
  {
  }

  // ---------------------------------------------------------------------------
  // The body as the JSON value sent on the wire (`JSON.stringify(body)`)
  // ---------------------------------------------------------------------------

  const ModelKey: JsString := Lit("model")
  const InputKey: JsString := Lit("input")
  const TextKey: JsString := Lit("text")
  const RoleKey: JsString := Lit("role")
  const TypeKey: JsString := Lit("type")
  const FormatKey: JsString := Lit("format")
  const JsonSchemaKey: JsString := Lit("json_schema")
  const NameKey: JsString := Lit("name")
  const SchemaKey: JsString := Lit("schema")

  function PartJson(p: Part): Json {
    JObj(map[TypeKey := JStr(p.kind), TextKey := JStr(p.text)])
  }

  function ContentJson(c: Content): Json {
    match c
    case Text(t) => JStr(t)
    case Parts(ps) => JArr(seq(|ps|, i requires 0 <= i < |ps| => PartJson(ps[i])))
  }

  function MessageJson(m: Message): Json {
    JObj(map[RoleKey := JStr(m.role), ContentKey := ContentJson(m.content)])
  }

  function FormatJson(f: TextFormat): Json {
    JObj(map[FormatKey := JStr(f.format), JsonSchemaKey := JObj(map[NameKey := JStr(f.name), SchemaKey := f.schema])])
  }

  function BodyJson(b: Body): Json {
    JObj(map[
      ModelKey := JStr(b.model),
      InputKey := JArr(seq(|b.input|, i requires 0 <= i < |b.input| => MessageJson(b.input[i]))),
      TextKey := FormatJson(b.text)
    ])
  }

  /** Where the k-th user input lands in the JSON that is sent: `input[1].content[k].text`. */
  function UserTextPath(k: nat): seq<Step> {
    [Key(InputKey), Index(1), Key(ContentKey), Index(k), Key(TextKey)]
  }

  /** The property names of one object literal are pairwise different. */
  lemma KeysDistinct()
    ensures ModelKey != InputKey && ModelKey != TextKey && InputKey != TextKey
    ensures RoleKey != ContentKey && TypeKey != TextKey
    ensures FormatKey != JsonSchemaKey && NameKey != SchemaKey
  {
    assert ModelKey[0] != InputKey[0] && ModelKey[0] != TextKey[0] && InputKey[0] != TextKey[0];
    assert RoleKey[0] != ContentKey[0] && TypeKey[1] != TextKey[1];
    assert FormatKey[0] != JsonSchemaKey[0] && NameKey[0] != SchemaKey[0];
  }

  /** The serialized request carries the model name, the system instruction and the format directive. */
  lemma WireConstants(companyName: JsString, website: JsString, evidence: Json,
                      stringify: Json -> JsString, schema: Json)
    ensures var j := Some(BodyJson(BuildBody(companyName, website, evidence, stringify, schema)));
            Follow(j, [Key(ModelKey)]) == Some(JStr(ModelName)) &&
            Follow(j, [Key(InputKey), Index(0), Key(ContentKey)]) == Some(JStr(SystemInstruction)) &&
            Follow(j, [Key(TextKey), Key(FormatKey)]) == Some(JStr(FormatKind)) &&
            Follow(j, [Key(TextKey), Key(JsonSchemaKey), Key(NameKey)]) == Some(JStr(SchemaName))
  {
    KeysDistinct();
    var b := BuildBody(companyName, website, evidence, stringify, schema);
    var j := BodyJson(b);
    var input := JArr(seq(|b.input|, i requires 0 <= i < |b.input| => MessageJson(b.input[i])));
    var system := MessageJson(SystemMessage());
    var format := FormatJson(b.text);
    var named := JObj(map[NameKey := JStr(SchemaName), SchemaKey := schema]);
    assert Member(Some(j), ModelKey) == Some(JStr(ModelName));
    assert Member(Some(j), InputKey) == Some(input);
    assert Element(Some(input), 0) == Some(system);
    assert Follow(Some(system), [Key(ContentKey)]) == Some(JStr(SystemInstruction));
    assert Follow(Some(input), [Index(0), Key(ContentKey)]) == Some(JStr(SystemInstruction));
    assert Member(Some(j), TextKey) == Some(format);
    assert Follow(Some(format), [Key(FormatKey)]) == Some(JStr(FormatKind));
    assert Member(Some(format), JsonSchemaKey) == Some(named);
    assert Follow(Some(named), [Key(NameKey)]) == Some(JStr(SchemaName));
    assert Follow(Some(format), [Key(JsonSchemaKey), Key(NameKey)]) == Some(JStr(SchemaName));
  }

  /** The serialized request carries the three labelled inputs at `input[1].content[0..2].text`. */
  lemma WireUserTexts(companyName: JsString, website: JsString, evidence: Json,
                      stringify: Json -> JsString, schema: Json)
    ensures var j := Some(BodyJson(BuildBody(companyName, website, evidence, stringify, schema)));
            Follow(j, UserTextPath(0)) == Some(JStr(CompanyLabel + companyName)) &&
            Follow(j, UserTextPath(1)) == Some(JStr(WebsiteLabel + website)) &&
            Follow(j, UserTextPath(2)) == Some(JStr(EvidenceLabel + TruncateEvidence(stringify(evidence))))
  {
  }

  /** One link at a time down `input[1].content[k].text` of a body whose second message has parts. */
  lemma WireUserText(b: Body, k: nat)
    requires |b.input| >= 2 && b.input[1].content.Parts? && k < |b.input[1].content.parts|
    ensures Follow(Some(BodyJson(b)), UserTextPath(k)) == Some(JStr(b.input[1].content.parts[k].text))
  {
    KeysDistinct();
    var input := JArr(seq(|b.input|, i requires 0 <= i < |b.input| => MessageJson(b.input[i])));
    var user := MessageJson(b.input[1]);
    var part := b.input[1].content.parts[k];
    var content := ContentJson(b.input[1].content);
    var text := Some(JStr(part.text));
    assert Follow(Some(PartJson(part)), [Key(TextKey)]) == text;
    assert Follow(Some(content), [Index(k), Key(TextKey)]) == text;
    assert Follow(Some(user), [Key(ContentKey), Index(k), Key(TextKey)]) == text;
    assert Follow(Some(input), [Index(1), Key(ContentKey), Index(k), Key(TextKey)]) == text;
    assert Member(Some(BodyJson(b)), InputKey) == Some(input);
  }
}
