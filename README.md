# callOpenAI: structured-qualification request and response

This project is a Dafny model of `callOpenAI` in `index.js`, the core of the RobCo
screening service. The function sends company evidence to a language-model
provider and gets back a qualification record. The model covers its two pure
pieces. The network call in between is a parameter.

- **Request construction** (`Request`). `BuildBody` builds the provider body from
  `(company_name, website, evidence)`. It holds a fixed model name, a fixed
  analyst instruction with the RobCo rubric, a user message of exactly three
  labelled text parts, and a fixed `json_schema` output directive named
  `qualification_output`. The serialized evidence is cut with `slice(0, 20000)`.
  `BodyJson` is the JSON value that gets serialized and posted.
- **Status gate and extraction** (`Response`). A non-ok reply fails with
  `OpenAI error <status>: <serialized body>`, and nothing is extracted.
  An ok reply goes through the `??` ladder in `Extract`:
  1. `output[0].content[0].json`;
  2. otherwise `safeParse(output_text)`, when `output_text` is a string;
  3. otherwise the envelope itself, unchanged.

Supporting modules:

- `JsText` models JavaScript strings as sequences of UTF-16 code units (`CodeUnit`),
  so lengths and the slice cut count code units, as they do in JavaScript. It also
  holds `String.prototype.slice`, decimal rendering of the status (`Decimal`) with
  its reader, and prefix stripping.
- `JsonValue` holds `Json` values, optional chaining as `Follow` over a path of
  `?.name` / `?.[i]` steps, and `??` (`Coalesce`, with `Present` meaning neither
  null nor undefined). A JavaScript `undefined` is `None`.
- `OpenAICall` composes the pieces. The collaborators the function does not define
  come in through `Env`: `JSON.stringify`, `safeParse`, the response `schema`, and the
  POST plus `r.json()` as `send`.

The lemmas state what the code promises. The evidence text is `"evidence: "`
followed by a prefix of the serialization. That prefix has min(length of s, 20000) code
units, and the evidence is verbatim when it fits. The three user parts come in
order and can be read back (`ReadUserFields`). The constants do not depend on the
inputs. The error message records the status and the payload: both can be
parsed back out of it, and a message that parses is exactly the one they make. The extraction ladder keeps its order, never fails, and in
every remaining case returns the envelope unchanged.

## Model

| member | source | states |
|---|---|---|
| `JsText.Slice` | index.js:16 | `s.slice(start, end)` is the contiguous run of `s` from the clamped start, of length max(clamped end − clamped start, 0) |
| `JsText.ClampIndex` | index.js:16 | the position `slice` resolves an argument to lies in [0, length]; the case index.js:16 uses is fixed by SlicePrefix |
| `JsText.SlicePrefix` | index.js:16 | `s.slice(0, n)` with n ≥ 0 is the prefix of length min(n, length of `s`) |
| `JsText.Decimal` | index.js:38 | the `${status}` numeral is non-empty, all digits, with no leading zero unless the status is 0 |
| `JsText.DecimalRoundTrip` | index.js:38 | reading the decimal numeral of `n` back gives `n` |
| `JsText.LitIsUtf16` | index.js:4-24 | for literals in the Basic Multilingual Plane, the one-unit-per-character encoding used for the constants is their UTF-16 value; that the literals of index.js are of this kind (plain ASCII) is by inspection |
| `JsText.DecimalOfDigits` | index.js:38 | every numeral with no leading zero (other than `0` itself) is the `${n}` rendering of the number it denotes |
| `JsonValue.FollowNone` | index.js:43 | optional chaining short-circuits: a chain applied to undefined is undefined |
| `JsonValue.FollowAppend` | index.js:43 | a chain `v?.p?.q` equals `(v?.p)?.q`, so any chain may be split at any link |
| `JsonValue.Follow` | index.js:43 | a chain `v?.s0?.s1…` applied link by link; FollowNone, FollowAppend, FollowScalar, FollowMissingKey, FollowKey, FollowIndex and FollowIndexOutOfRange state how it short-circuits and composes |
| `JsonValue.FollowScalar` | index.js:43 | a non-empty chain applied to null, a number or a boolean is undefined |
| `JsonValue.FollowMissingKey` | index.js:43 | a chain whose first link names a property the object lacks is undefined, whatever follows |
| `JsonValue.FollowKey` | index.js:43 | through a property the object has, a chain continues from that property's value |
| `JsonValue.FollowIndex` | index.js:43 | through an in-range array element, a chain continues from that element |
| `JsonValue.FollowIndexOutOfRange` | index.js:43 | a chain whose first link indexes past the end of an array is undefined, whatever follows |
| `JsonValue.Member` | index.js:43-44 | `v?.name`: a property of an object, undefined otherwise; FollowScalar, FollowMissingKey and FollowKey state its effect in a chain |
| `JsonValue.Element` | index.js:43 | `v?.[i]`: an array element, a numeral-named object property or a one-unit string; FollowScalar, FollowIndex and FollowIndexOutOfRange state its effect in a chain |
| `JsonValue.Coalesce` | index.js:43-46 | `a ?? b`; CoalesceAssociative and CoalescePresent state how it chains and when its result is present |
| `JsonValue.CoalesceAssociative` | index.js:42-46 | `(a ?? b) ?? c` equals `a ?? (b ?? c)`, so the two `??` of the source form one ladder |
| `JsonValue.CoalescePresent` | index.js:42-46 | `a ?? b` is neither null nor undefined exactly when `a` or `b` is not |
| `Request.TextPart` | index.js:14-16 | one `{ type: 'text', text: label + value }` part; ReadPart reads `value` back from it |
| `Request.SystemMessage` | index.js:6-10 | the system message holding the fixed rubric instruction; ConstantsIndependent and WireConstants fix it |
| `Request.UserMessage` | index.js:11-18 | the user message of three labelled parts; UserPartsInOrder and ReadUserFields fix its contents |
| `Request.TruncateEvidence` | index.js:16 | `JSON.stringify(evidence).slice(0, 20000)` is the prefix of the serialization of length min(length of s, 20000) |
| `Request.BuildBody` | index.js:3-25 | the body has the fixed model, the system message first, the fixed `json_schema`/`qualification_output` directive with the given schema, and a user message from which exactly (company_name, website, truncated evidence) are read back |
| `Request.ReadPart` | index.js:14-16 | a part read back under a label is exactly the `text` part `label + value` |
| `Request.ReadUserFields` | index.js:13-17 | a body reads back only when its second message is a user message of exactly three text parts labelled company_name, website, evidence, in that order |
| `Request.UserPartsInOrder` | index.js:13-17 | the user message has exactly three parts, all of type `text`, in order `company_name: …`, `website: …`, `evidence: …` + the first min(length of s, 20000) code units of the serialization |
| `Request.EvidenceBounded` | index.js:16 | the embedded evidence is never longer than 20000 code units and is a prefix of the serialization |
| `Request.ShortEvidenceVerbatim` | index.js:16 | a serialization of at most 20000 code units is embedded unchanged |
| `Request.TruncationKeepsContent` | index.js:16 | what is kept followed by what is dropped is the whole serialization, and an overlong one keeps exactly 20000 code units |
| `Request.ConstantsIndependent` | index.js:3-25 | any two calls build the same model name, system message and output-format directive, whatever their inputs |
| `Request.KeysDistinct` | index.js:3-24 | the property names of each object literal in the body are pairwise distinct |
| `Request.WireConstants` | index.js:3-24 | in the posted JSON, `model`, `input[0].content`, `text.format` and `text.json_schema.name` hold the fixed constants |
| `Request.WireUserTexts` | index.js:13-17 | in the posted JSON, `input[1].content[k].text` holds the k-th labelled input for k = 0, 1, 2 |
| `Request.WireUserText` | index.js:13-17 | in the posted JSON of any body whose second message has parts, `input[1].content[k].text` is the k-th part's text |
| `Request.BodyJson` | index.js:3-25 | the body as the object literal that is serialized; WireConstants, WireUserTexts and WireUserText fix what each path holds, KeysDistinct that no property is lost |
| `Response.ErrorMessage` | index.js:38 | `OpenAI error ${status}: ${payload}`; ErrorMessageRoundTrip proves both parts can be read back out of it |
| `Response.ErrorMessageRoundTrip` | index.js:38 | the status code and the serialized payload can both be parsed back out of the error message |
| `Response.ErrorMessageParsedExactly` | index.js:38 | conversely, a message that parses to a status and a payload is exactly the error message of those two |
| `Response.Nested` | index.js:43 | the first rung `j?.output?.[0]?.content?.[0]?.json`; NestedWins, NonObjectEnvelope and TextRoundTrip fix its value on concrete envelopes |
| `Response.ParsedText` | index.js:44 | the second rung `typeof j?.output_text === 'string' ? safeParse(j.output_text) : null`; Extract, ParsedTextSecond and EnvelopeOtherwise state its role |
| `Response.ExtractAsLadder` | index.js:42-46 | the extraction is the single ladder `nested ?? (parsed ?? j)` |
| `Response.Extract` | index.js:42-46 | a present, non-null nested value wins; otherwise a present, non-null parse of the text wins; otherwise the envelope is returned |
| `Response.ExtractIsOneOfThree` | index.js:42-46 | the result is always the nested value, the parsed text or the envelope itself |
| `Response.NestedWins` | index.js:43-46 | an envelope carrying a non-null `output[0].content[0].json` returns it, whatever `output_text` and `safeParse` are |
| `Response.ParsedTextSecond` | index.js:44-46 | with no usable nested value and `output_text` a string whose parse is non-null, the parsed value is returned |
| `Response.EnvelopeOtherwise` | index.js:42-46 | with no usable nested value, a missing or non-string `output_text`, a failed parse or a parse to null returns the envelope unchanged |
| `Response.NonObjectEnvelope` | index.js:42-46 | an envelope that is not an object is returned unchanged |
| `Response.TextRoundTrip` | index.js:44-46 | an envelope whose `output_text` is the serialization of a non-null document that `safeParse` reads back returns that document |
| `Response.HandleReply` | index.js:36-46 | the reply fails exactly when it is not ok, with a message that yields its status and serialized body; an ok reply returns the extraction |
| `OpenAICall.RequestText` | index.js:33 | the posted text is `JSON.stringify` of the body built from the three inputs (BodyJson of BuildBody) |
| `OpenAICall.ReplyTo` | index.js:27-36 | the decoded reply the provider gives to exactly that posted text |
| `OpenAICall.CallOpenAI` | index.js:2-47 | the call to the provider's reply fails exactly when that reply is not ok, with status and body recoverable from the message; otherwise it returns the extraction of the reply body |

## Left out

- The `fetch` call, its URL, method and headers, the bearer credential `OPENAI_API_KEY`, and `await r.json()` (index.js:27-36). These are network I/O. They are the `send` parameter of `Env`, which maps the posted text to a decoded reply `(ok, status, body)`.
- A reply body that is not JSON. `r.json()` runs before the `ok` test, so such a reply would throw before the status is looked at. The model takes the body as already decoded.
- Transport failures and other rejections of `fetch`.
- The relation between `ok` and `status`. Fetch sets `ok` exactly for statuses 200-299. The model keeps `ok` as its own field.
- `async`/`await` scheduling. The model is sequential.
- `JSON.stringify`, the body of `safeParse` and the `schema` object are not part of this model. They are parameters, and nothing is assumed about them except in the hypotheses of `Response.TextRoundTrip`.
- A `JSON.stringify(evidence)` that returns `undefined` (for an `undefined` evidence), which would make `.slice` throw. The evidence is always a JSON value here.
- JSON numbers are integers. Floating point is not modelled.
- The key order of objects is not modelled (`map`). It matters only to the serialization, which is abstract.
- Property lookups see only a JSON object's own keys. Built-in properties of strings and arrays, such as `length`, are not modelled. None of the names the code looks up (`output`, `content`, `json`, `output_text`) is one of them.
- `company_name` and `website` are taken to be strings. A template literal would render any other value with `String(...)`.
- The last rung returns the bare envelope `j` (index.js:46), with no `raw` field and no note; the model returns it unchanged.
- The HTTP server, routing, CORS, validation of `/analyze`, derivation of the hostname and the stub generator are not in index.js and are not part of this model.
