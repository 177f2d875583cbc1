/** The base agent shared by every Ollama-backed agent: its settings, the
    request payload, the status check on the reply, and the routing of a
    reply to the result model, to the agent's fallback parser, or to the
    model's default. The HTTP exchange is an input (the reply the server
    gave), and so are `json.loads` (a decode oracle) and the construction of
    the result model from a decoded object (the model's `build`). */
module BaseAgent {
  import opened Common
  import opened Text

  const DefaultModelName := "mistral:latest"
  const DefaultBaseUrl := "http://localhost:11434"
  const DefaultTemperature := 0.7
  const DefaultNumCtx := 4096

  const NotImplementedFallback := "Fallback parsing must be implemented by subclasses"
  const NotImplementedPrompt := "Prompt preparation must be implemented by subclasses"
  /** The message of the `KeyError` for a reply without a "response" key. */
  const MissingResponse := "'response'"
  /** The message of the `TypeError` when the reply is not a JSON object. */
  const NotSubscriptable := "reply is not subscriptable"
  /** The message of the `TypeError` when the "response" value is not a string. */
  const NotText := "the JSON object must be str, bytes or bytearray"
  /** The message of the `TypeError` when the decoded value is not an object. */
  const NotMapping := "argument after ** must be a mapping"

  /** A result model: its JSON schema, the outcome of building it from a
      decoded object (validation included), and the outcome of building it
      with no arguments. */
  datatype ResultModel<T> = ResultModel(schema: Json, build: map<string, Json> -> Outcome<T>, default: Outcome<T>)

  /** What `parse_structured_output` returns: a built model, or the decoded
      value itself when the agent has no result model. */
  datatype Parsed<T> = Built(value: T) | Raw(json: Json)

  /** The settings `__init__` stores. */
  datatype Config<T> = Config(modelName: string, baseUrl: string, temperature: real, numCtx: int,
                              resultModel: Option<ResultModel<T>>, schema: Option<Json>)

  /** `BaseAgent.__init__`: the schema is computed only when a result model is given. */
  function Configure<T>(modelName: string, baseUrl: string, temperature: real, numCtx: int, model: Option<ResultModel<T>>): (c: Config<T>)
    ensures c.schema.Some? <==> model.Some?
    ensures model.Some? ==> c.schema == Some(model.value.schema)
    ensures c.resultModel == model && c.modelName == modelName && c.numCtx == numCtx
    ensures c.baseUrl == baseUrl && c.temperature == temperature
  {
    Config(modelName, baseUrl, temperature, numCtx, model, if model.Some? then Some(model.value.schema) else None)
  }

  /** The request body of `call_ollama`; "format" is added in place only when
      the schema is truthy. */
  method BuildPayload<T>(c: Config<T>, prompt: string) returns (payload: map<string, Json>)
    ensures payload.Keys == {"model", "prompt", "stream", "options"} + (if c.schema.Some? && Truthy(c.schema.value) then {"format"} else {})
    ensures payload["model"] == JStr(c.modelName) && payload["prompt"] == JStr(prompt) && payload["stream"] == JBool(false)
    ensures payload["options"] == JObject(map["temperature" := JNum(c.temperature), "num_ctx" := JNum(c.numCtx as real)])
    ensures "format" in payload ==> payload["format"] == c.schema.value
  {
    payload := map[
      "model" := JStr(c.modelName),
      "prompt" := JStr(prompt),
      "stream" := JBool(false),
      "options" := JObject(map["temperature" := JNum(c.temperature), "num_ctx" := JNum(c.numCtx as real)])];
    if c.schema.Some? && Truthy(c.schema.value) {
      payload := payload["format" := c.schema.value];
    }
  }

  /** The server's answer: its status, its body as text, and the outcome of
      decoding the body as JSON. */
  datatype HttpReply = HttpReply(status: int, text: string, body: Outcome<Json>)

  function ApiError(status: int, text: string): string {
    "API error (" + IntToString(status) + "): " + text
  }

  /** `call_ollama` after the request: a status other than 200 raises with the
      status and the body in the message; otherwise the decoded body. */
  function CallOllama(reply: HttpReply): (r: Outcome<Json>)
    ensures reply.status != 200 ==> r == Raised(ApiError(reply.status, reply.text))
    ensures reply.status == 200 ==> r == reply.body
  {
    if reply.status != 200 then Raised(ApiError(reply.status, reply.text)) else reply.body
  }

  /** A status other than 200 raises a message from which both the status
      and the body can be read back: the body ends it, and the decimal
      digits between "API error (" and "): " are the status. */
  lemma ApiErrorMessage(reply: HttpReply)
    requires reply.status != 200
    ensures CallOllama(reply).Raised?
    ensures var m, n, t := CallOllama(reply).message, IntToString(reply.status), reply.text;
      && |m| == 14 + |n| + |t|
      && m[..11] == "API error (" && m[11 + |n|..14 + |n|] == "): " && m[14 + |n|..] == t
      && (reply.status >= 0 ==> DigitsValue(m[11..11 + |n|]) == reply.status)
      && (reply.status < 0 ==> m[11] == '-' && DigitsValue(m[12..11 + |n|]) == -reply.status)
  {
    var m, n, t := CallOllama(reply).message, IntToString(reply.status), reply.text;
    assert m == "API error (" + n + "): " + t;
    ErrorLayout(n, t);
    StatusDigits(reply.status);
    assert m[11..11 + |n|] == n;
    assert n[1..] == m[12..11 + |n|];
  }

  /** The decimal form of a status reads back as the status, after a minus
      sign when it is negative. */
  lemma StatusDigits(i: int)
    ensures i >= 0 ==> DigitsValue(IntToString(i)) == i
    ensures i < 0 ==> |IntToString(i)| >= 2 && IntToString(i)[0] == '-' && DigitsValue(IntToString(i)[1..]) == -i
  {
    if i >= 0 {
      NatToStringRoundTrip(i);
    } else {
      NatToStringRoundTrip(-i);
      assert IntToString(i)[1..] == NatToString(-i);
    }
  }

  /** Where the status and the body sit in the message. */
  lemma ErrorLayout(n: string, t: string)
    ensures var m := "API error (" + n + "): " + t;
      && |m| == 14 + |n| + |t| && m[..11] == "API error ("
      && m[11..11 + |n|] == n && m[11 + |n|..14 + |n|] == "): " && m[14 + |n|..] == t
  {
  }

  /** `parse_structured_output`: the "response" text is decoded; a decoded
      object builds the result model (or is returned as it is without one);
      a decode error hands the text to the agent's fallback parser. A reply
      without "response" raises again inside the handler, so the fallback is
      never reached from it. */
  function ParseStructuredOutput<T>(c: Config<T>, result: Json, decode: string -> Option<Json>,
                                    fallback: string -> Outcome<Parsed<T>>): Outcome<Parsed<T>>
  {
    match result
    case JObject(fields) =>
      if "response" !in fields then Raised(MissingResponse)
      else (match fields["response"]
        case JStr(text) =>
          (match decode(text)
            case None => fallback(text)
            case Some(d) =>
              if c.resultModel.None? then Ok(Raw(d))
              else (match d
                case JObject(m) =>
                  (match c.resultModel.value.build(m)
                    case Ok(v) => Ok(Built(v))
                    case Raised(e) => Raised(e))
                case _ => Raised(NotMapping)))
        case _ => Raised(NotText))
    case _ => Raised(NotSubscriptable)
  }

  /** The text the model answered with, when the call succeeded and the
      reply is an object with a string "response". */
  function ResponseText(reply: Outcome<HttpReply>): Option<string> {
    if reply.Ok? && reply.value.status == 200 && reply.value.body.Ok? && reply.value.body.value.JObject?
       && "response" in reply.value.body.value.fields && reply.value.body.value.fields["response"].JStr?
    then Some(reply.value.body.value.fields["response"].s)
    else None
  }

  /** What `run` gives after an error: the model built with no arguments. */
  function Defaulted<T>(c: Config<T>, error: string): Outcome<Parsed<T>> {
    if c.resultModel.None? then Raised(error)
    else match c.resultModel.value.default
      case Ok(d) => Ok(Built(d))
      case Raised(m) => Raised(m)
  }

  /** `BaseAgent.run`: prompt, call and parse; any error gives the result
      model built with no arguments when there is a model, and is raised
      again otherwise. */
  function Run<T>(c: Config<T>, prompt: Outcome<string>, reply: Outcome<HttpReply>, decode: string -> Option<Json>,
                  fallback: string -> Outcome<Parsed<T>>): Outcome<Parsed<T>>
  {
    var attempt :=
      if prompt.Raised? then Raised(prompt.message)
      else if reply.Raised? then Raised(reply.message)
      else match CallOllama(reply.value)
        case Raised(m) => Raised(m)
        case Ok(result) => ParseStructuredOutput(c, result, decode, fallback);
    if attempt.Ok? then attempt else Defaulted(c, attempt.message)
  }

  /** Without a usable "response" text, `run` ends in the model's default. */
  lemma RunWithoutResponse<T>(c: Config<T>, prompt: string, reply: Outcome<HttpReply>, decode: string -> Option<Json>,
                              fallback: string -> Outcome<Parsed<T>>)
    requires ResponseText(reply).None? && c.resultModel.Some?
    ensures Run(c, Ok(prompt), reply, decode, fallback) == Defaulted(c, "")
  {
  }

  /** An undecodable text goes to the fallback parser, whose error in turn
      ends in the model's default. */
  lemma RunDecodeError<T>(c: Config<T>, prompt: string, reply: Outcome<HttpReply>, decode: string -> Option<Json>,
                          fallback: string -> Outcome<Parsed<T>>)
    requires ResponseText(reply).Some? && decode(ResponseText(reply).value).None?
    ensures var f := fallback(ResponseText(reply).value);
      Run(c, Ok(prompt), reply, decode, fallback) == if f.Ok? then f else Defaulted(c, f.message)
  {
  }

  /** A decoded object builds the model; a failed build ends in the model's
      default. Without a model the decoded value is returned as it is. */
  lemma RunDecoded<T>(c: Config<T>, prompt: string, reply: Outcome<HttpReply>, decode: string -> Option<Json>,
                      fallback: string -> Outcome<Parsed<T>>, d: Json)
    requires ResponseText(reply).Some? && decode(ResponseText(reply).value) == Some(d)
    ensures c.resultModel.None? ==> Run(c, Ok(prompt), reply, decode, fallback) == Ok(Raw(d))
    ensures c.resultModel.Some? && d.JObject? && c.resultModel.value.build(d.fields).Ok? ==>
      Run(c, Ok(prompt), reply, decode, fallback) == Ok(Built(c.resultModel.value.build(d.fields).value))
    ensures c.resultModel.Some? && (!d.JObject? || c.resultModel.value.build(d.fields).Raised?) ==>
      Run(c, Ok(prompt), reply, decode, fallback) == Defaulted(c, "")
  {
  }

  /** With a result model whose no-argument construction succeeds, `run`
      never raises; without a model every error is raised again unchanged. */
  lemma RunNeverRaisesWithDefault<T>(c: Config<T>, prompt: Outcome<string>, reply: Outcome<HttpReply>,
                                     decode: string -> Option<Json>, fallback: string -> Outcome<Parsed<T>>)
    requires c.resultModel.Some? && c.resultModel.value.default.Ok?
    ensures Run(c, prompt, reply, decode, fallback).Ok?
  {
  }

  /** The base agent's own prompt and fallback always raise "not implemented". */
  function BasePrompt<I>(input: I): (r: Outcome<string>)
    ensures r.Raised?
  {
    Raised(NotImplementedPrompt)
  }

  function BaseFallback<T>(raw: string): (r: Outcome<Parsed<T>>)
    ensures r.Raised?
  {
    Raised(NotImplementedFallback)
  }

  /** Run with the base prompt never reaches the server: it gives the
      model's default, or raises "not implemented" without a model. */
  lemma BaseRunNeverCalls<T, I>(c: Config<T>, input: I, reply: Outcome<HttpReply>, decode: string -> Option<Json>,
                                fallback: string -> Outcome<Parsed<T>>)
    ensures c.resultModel.None? ==> Run(c, BasePrompt(input), reply, decode, fallback) == Raised(NotImplementedPrompt)
    ensures c.resultModel.Some? ==> Run(c, BasePrompt(input), reply, decode, fallback) == Defaulted(c, "")
  {
  }

  /** A reply without "response" raises whatever the fallback parser would do. */
  lemma MissingResponseNoFallback<T>(c: Config<T>, fields: map<string, Json>, decode: string -> Option<Json>,
                                     f1: string -> Outcome<Parsed<T>>, f2: string -> Outcome<Parsed<T>>)
    requires "response" !in fields
    ensures ParseStructuredOutput(c, JObject(fields), decode, f1) == Raised(MissingResponse)
    ensures ParseStructuredOutput(c, JObject(fields), decode, f1) == ParseStructuredOutput(c, JObject(fields), decode, f2)
  {
  }
}
