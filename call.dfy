/**
  `callOpenAI` as a whole: build the body, send its serialization, gate on the
  status and extract. What the program takes from its surroundings is passed in.
 */
module OpenAICall {
  import opened Wrappers
  import opened JsText
  import opened JsonValue
  import opened Request
  import opened Response

  /**
    The collaborators of `callOpenAI` that are not part of this model:
    `JSON.stringify`, the `safeParse` helper, the response `schema`, and the
    HTTPS POST to the provider (with its credential) followed by `r.json()`,
    taken as a function from the request text to the decoded reply.
   */
  datatype Env = Env(stringify: Json -> JsString,
                     safeParse: JsString -> Option<Json>,
                     schema: Json,
                     send: JsString -> Reply)

  /** The request text that is posted: `JSON.stringify(body)`. */
  function RequestText(env: Env, companyName: JsString, website: JsString, evidence: Json): JsString {
    env.stringify(BodyJson(BuildBody(companyName, website, evidence, env.stringify, env.schema)))
  }

  /** The reply the provider gives to that request. */
  function ReplyTo(env: Env, companyName: JsString, website: JsString, evidence: Json): Reply {
    env.send(RequestText(env, companyName, website, evidence))
  }

  /**
    One call: it fails exactly when the reply is not ok, with a message from which
    the status and the serialized reply body can be read back; otherwise it
    returns what the extraction ladder recovers from the reply body.
   */
  function CallOpenAI(env: Env, companyName: JsString, website: JsString, evidence: Json): (res: Result<Json, JsString>)
    ensures var r := ReplyTo(env, companyName, website, evidence);
            (res.Err? <==> !r.ok) &&
            (res.Err? ==> ParseErrorMessage(res.error) == Some((r.status, env.stringify(r.body)))) &&
            (res.Ok? ==> res.value == Extract(r.body, env.safeParse))
  {
    HandleReply(ReplyTo(env, companyName, website, evidence), env.stringify, env.safeParse)
  }
}
