/** The video-enhancement agent: a base agent whose result model is the
    analysis record, which remembers the video it was last run on and falls
    back to parsing the model's free text, and to parsing an empty text when
    everything else fails. */
module AnalysisAgent {
  import opened Common
  import opened Text
  import opened AnalysisRecords
  import opened AnalysisSections
  import opened AnalysisFallback
  import opened BaseAgent

  const AgentModelName := "llama3.1:8b-instruct-q8_0"
  const AgentTemperature := 0.7
  /** A larger context window, for whole transcripts. */
  const AgentNumCtx := 8192
  /** Reading `input_data` before `run` has set it raises an `AttributeError`. */
  const NoInputData := "'VideoEnhancementAgent' object has no attribute 'input_data'"
  /** The analysis record has required fields, so building it with no
      arguments raises a validation error. */
  const MissingFields := "validation errors for VideoAnalysisData: field required"

  /** The analysis record as a result model: its schema and its validation
      are inputs; its no-argument construction always fails. */
  function AnalysisModel(schema: Json, validate: map<string, Json> -> Outcome<AnalysisRecord>): ResultModel<AnalysisRecord> {
    ResultModel(schema, validate, Raised(MissingFields))
  }

  function AsParsed(r: Outcome<AnalysisRecord>): Outcome<Parsed<AnalysisRecord>> {
    match r
    case Ok(a) => Ok(Built(a))
    case Raised(m) => Raised(m)
  }

  /** The agent's settings: its model name, the analysis record as the
      result model, a temperature of 0.7 and a context of 8192 tokens. */
  function AgentConfig(modelName: string, schema: Json, validate: map<string, Json> -> Outcome<AnalysisRecord>): (c: Config<AnalysisRecord>)
    ensures c.schema == Some(schema) && c.resultModel == Some(AnalysisModel(schema, validate))
  {
    Configure(modelName, DefaultBaseUrl, AgentTemperature, AgentNumCtx, Some(AnalysisModel(schema, validate)))
  }

  /** What the base agent's `run` gives inside the agent's `run`, before the
      agent's own handler: a decoded object that validates, the fallback
      parse of a text that does not decode, or else the failed no-argument
      construction of the record. */
  function Attempt(validate: map<string, Json> -> Outcome<AnalysisRecord>, video: AnalysisVideo,
                   reply: Outcome<HttpReply>, decode: string -> Option<Json>): Outcome<AnalysisRecord>
  {
    match ResponseText(reply)
    case None => Raised(MissingFields)
    case Some(text) =>
      match decode(text)
      case None => (match Fallback(text, video) case Ok(a) => Ok(a) case Raised(_) => Raised(MissingFields))
      case Some(d) => if d.JObject? && validate(d.fields).Ok? then validate(d.fields) else Raised(MissingFields)
  }

  /** `run`: the attempt, and `fallback_parsing("")` when it raises, which is
      the analysis of an empty text (`FallbackOfEmpty`). */
  function AnalysisRun(validate: map<string, Json> -> Outcome<AnalysisRecord>, video: AnalysisVideo,
                       reply: Outcome<HttpReply>, decode: string -> Option<Json>): AnalysisRecord
  {
    match Attempt(validate, video, reply, decode)
    case Ok(a) => a
    case Raised(_) => EmptyAnalysis(video)
  }

  /** The model's answer decoded to an object that validates. */
  predicate Accepted(validate: map<string, Json> -> Outcome<AnalysisRecord>, reply: Outcome<HttpReply>, decode: string -> Option<Json>) {
    && ResponseText(reply).Some?
    && decode(ResponseText(reply).value).Some?
    && decode(ResponseText(reply).value).value.JObject?
    && validate(decode(ResponseText(reply).value).value.fields).Ok?
  }

  /** `run` never raises: it gives the validated answer when there is one,
      and otherwise a well-formed record about the given video whose
      segments all end at the video's end (or five minutes after their start
      without a transcript). */
  lemma AnalysisRunShape(validate: map<string, Json> -> Outcome<AnalysisRecord>, video: AnalysisVideo,
                         reply: Outcome<HttpReply>, decode: string -> Option<Json>)
    ensures var r := AnalysisRun(validate, video, reply, decode);
      && (Accepted(validate, reply, decode) ==>
            r == validate(decode(ResponseText(reply).value).value.fields).value)
      && (!Accepted(validate, reply, decode) ==>
            && WellFormedRecord(r, video)
            && forall k :: 0 <= k < |r.topicSegments| ==> EndsWell(r.topicSegments[k], video.transcript))
  {
    if Accepted(validate, reply, decode) {
      AcceptedAttempt(validate, video, reply, decode);
    } else {
      RejectedRun(validate, video, reply, decode);
    }
  }

  lemma RejectedRun(validate: map<string, Json> -> Outcome<AnalysisRecord>, video: AnalysisVideo,
                    reply: Outcome<HttpReply>, decode: string -> Option<Json>)
    requires !Accepted(validate, reply, decode)
    ensures var r := AnalysisRun(validate, video, reply, decode);
      && WellFormedRecord(r, video)
      && forall k :: 0 <= k < |r.topicSegments| ==> EndsWell(r.topicSegments[k], video.transcript)
  {
    if Attempt(validate, video, reply, decode).Ok? {
      FallbackRun(validate, video, reply, decode);
    } else {
      EmptyRun(validate, video, reply, decode);
    }
  }

  lemma FallbackRun(validate: map<string, Json> -> Outcome<AnalysisRecord>, video: AnalysisVideo,
                    reply: Outcome<HttpReply>, decode: string -> Option<Json>)
    requires !Accepted(validate, reply, decode) && Attempt(validate, video, reply, decode).Ok?
    ensures var r := AnalysisRun(validate, video, reply, decode);
      && WellFormedRecord(r, video)
      && forall k :: 0 <= k < |r.topicSegments| ==> EndsWell(r.topicSegments[k], video.transcript)
  {
    AttemptFallsBack(validate, video, reply, decode);
    FallbackWellFormed(ResponseText(reply).value, video);
  }

  lemma EmptyRun(validate: map<string, Json> -> Outcome<AnalysisRecord>, video: AnalysisVideo,
                 reply: Outcome<HttpReply>, decode: string -> Option<Json>)
    requires Attempt(validate, video, reply, decode).Raised?
    ensures var r := AnalysisRun(validate, video, reply, decode);
      && WellFormedRecord(r, video)
      && forall k :: 0 <= k < |r.topicSegments| ==> EndsWell(r.topicSegments[k], video.transcript)
  {
    EmptyAnalysisShape(video);
    assert AnalysisRun(validate, video, reply, decode) == EmptyAnalysis(video);
  }

  lemma FallbackWellFormed(raw: string, video: AnalysisVideo)
    ensures Fallback(raw, video).Ok? ==> var r := Fallback(raw, video).value;
      && WellFormedRecord(r, video)
      && forall k :: 0 <= k < |r.topicSegments| ==> EndsWell(r.topicSegments[k], video.transcript)
  {
    FallbackShape(raw, video);
  }

  lemma AcceptedAttempt(validate: map<string, Json> -> Outcome<AnalysisRecord>, video: AnalysisVideo,
                        reply: Outcome<HttpReply>, decode: string -> Option<Json>)
    requires Accepted(validate, reply, decode)
    ensures Attempt(validate, video, reply, decode) == validate(decode(ResponseText(reply).value).value.fields)
  {
  }

  /** An attempt that succeeds without an accepted answer is the fallback
      parse of the reply's text. */
  lemma AttemptFallsBack(validate: map<string, Json> -> Outcome<AnalysisRecord>, video: AnalysisVideo,
                         reply: Outcome<HttpReply>, decode: string -> Option<Json>)
    requires !Accepted(validate, reply, decode) && Attempt(validate, video, reply, decode).Ok?
    ensures ResponseText(reply).Some? && Attempt(validate, video, reply, decode) == Fallback(ResponseText(reply).value, video)
  {
  }

  /** The attempt is the base agent's `run` with this agent's settings and
      with any fallback parser that agrees with `fallback_parsing` on the
      reply's text; no reply, an error status, a reply that is not an object
      with a text "response", and a decoded value that does not validate
      all end in the failed default. */
  lemma AttemptIsBaseRun(modelName: string, schema: Json, validate: map<string, Json> -> Outcome<AnalysisRecord>,
                         video: AnalysisVideo, prompt: string, reply: Outcome<HttpReply>, decode: string -> Option<Json>,
                         fallback: string -> Outcome<Parsed<AnalysisRecord>>)
    requires ResponseText(reply).Some? ==> fallback(ResponseText(reply).value) == AsParsed(Fallback(ResponseText(reply).value, video))
    ensures BaseAgent.Run(AgentConfig(modelName, schema, validate), Ok(prompt), reply, decode, fallback)
         == AsParsed(Attempt(validate, video, reply, decode))
  {
    var c := AgentConfig(modelName, schema, validate);
    if ResponseText(reply).None? {
      AttemptWithoutText(c, schema, validate, video, prompt, reply, decode, fallback);
    } else if decode(ResponseText(reply).value).None? {
      AttemptUndecoded(c, schema, validate, video, prompt, reply, decode, fallback);
    } else {
      AttemptDecoded(c, schema, validate, video, prompt, reply, decode, fallback, decode(ResponseText(reply).value).value);
    }
  }

  lemma AttemptWithoutText(c: Config<AnalysisRecord>, schema: Json, validate: map<string, Json> -> Outcome<AnalysisRecord>,
                           video: AnalysisVideo, prompt: string, reply: Outcome<HttpReply>, decode: string -> Option<Json>,
                           fallback: string -> Outcome<Parsed<AnalysisRecord>>)
    requires c.resultModel == Some(AnalysisModel(schema, validate))
    requires ResponseText(reply).None?
    ensures BaseAgent.Run(c, Ok(prompt), reply, decode, fallback) == AsParsed(Attempt(validate, video, reply, decode))
  {
    RunWithoutResponse(c, prompt, reply, decode, fallback);
  }

  lemma AttemptUndecoded(c: Config<AnalysisRecord>, schema: Json, validate: map<string, Json> -> Outcome<AnalysisRecord>,
                         video: AnalysisVideo, prompt: string, reply: Outcome<HttpReply>, decode: string -> Option<Json>,
                         fallback: string -> Outcome<Parsed<AnalysisRecord>>)
    requires c.resultModel == Some(AnalysisModel(schema, validate))
    requires ResponseText(reply).Some? && decode(ResponseText(reply).value).None?
    requires fallback(ResponseText(reply).value) == AsParsed(Fallback(ResponseText(reply).value, video))
    ensures BaseAgent.Run(c, Ok(prompt), reply, decode, fallback) == AsParsed(Attempt(validate, video, reply, decode))
  {
    RunDecodeError(c, prompt, reply, decode, fallback);
  }

  lemma AttemptDecoded(c: Config<AnalysisRecord>, schema: Json, validate: map<string, Json> -> Outcome<AnalysisRecord>,
                       video: AnalysisVideo, prompt: string, reply: Outcome<HttpReply>, decode: string -> Option<Json>,
                       fallback: string -> Outcome<Parsed<AnalysisRecord>>, d: Json)
    requires c.resultModel == Some(AnalysisModel(schema, validate))
    requires ResponseText(reply).Some? && decode(ResponseText(reply).value) == Some(d)
    ensures BaseAgent.Run(c, Ok(prompt), reply, decode, fallback) == AsParsed(Attempt(validate, video, reply, decode))
  {
    RunDecoded(c, prompt, reply, decode, fallback, d);
  }

  class VideoEnhancementAgent {
    const modelName: string
    const schema: Json
    const validate: map<string, Json> -> Outcome<AnalysisRecord>
    /** The video of the last run; unset until `run` is called. */
    var inputData: Option<AnalysisVideo>

    /** The settings the base agent's `__init__` stores for this agent. */
    function Config(): Config<AnalysisRecord> {
      AgentConfig(modelName, schema, validate)
    }

    constructor(modelName: string, schema: Json, validate: map<string, Json> -> Outcome<AnalysisRecord>)
      ensures this.modelName == modelName && this.schema == schema && this.validate == validate
      ensures inputData.None?
    {
      this.modelName := modelName;
      this.schema := schema;
      this.validate := validate;
      inputData := None;
    }

    /** `fallback_parsing(raw_text)`: the sections are built and read in
        order, the whole text is searched for list items when no topics were
        found, and the record is assembled. */
    method FallbackParsing(raw: string) returns (r: Outcome<AnalysisRecord>)
      ensures inputData.None? ==> r == Raised(NoInputData)
      ensures inputData.Some? ==> r == Fallback(raw, inputData.value)
    {
      if inputData.None? {
        return Raised(NoInputData);
      }
      var video := inputData.value;
      var lines := Split(raw, {'\n'});
      var sections := BuildSections(lines);
      var acc := ReadSections(sections, video.transcript);
      if acc.Raised? {
        return Raised(acc.message);
      }
      var record := AssembleRecord(acc.value, lines, video);
      r := Ok(record);
    }

    /** The base agent's `run` on the reply, with `parse_structured_output`
        handing an undecodable text to this agent's `fallback_parsing`; every
        error becomes the failed construction of an empty record. */
    method TryRun(reply: Outcome<HttpReply>, decode: string -> Option<Json>) returns (r: Outcome<AnalysisRecord>)
      requires inputData.Some?
      ensures r == Attempt(validate, inputData.value, reply, decode)
    {
      if reply.Raised? {
        return Raised(MissingFields);
      }
      var called := CallOllama(reply.value);
      if called.Raised? || !called.value.JObject? || "response" !in called.value.fields
         || !called.value.fields["response"].JStr? {
        return Raised(MissingFields);
      }
      var text := called.value.fields["response"].s;
      assert ResponseText(reply) == Some(text);
      match decode(text)
      case None =>
        r := FallbackParsing(text);
        if r.Raised? {
          r := Raised(MissingFields);
        }
      case Some(d) =>
        if d.JObject? && validate(d.fields).Ok? {
          r := validate(d.fields);
        } else {
          r := Raised(MissingFields);
        }
    }

    /** `run(video_data)`: the video is stored for the fallback parser, the
        base agent runs, and an error gives `fallback_parsing("")`. */
    method Run(video: AnalysisVideo, reply: Outcome<HttpReply>, decode: string -> Option<Json>)
      returns (r: AnalysisRecord)
      modifies this
      ensures inputData == Some(video)
      ensures r == AnalysisRun(validate, video, reply, decode)
    {
      inputData := Some(video);
      var attempt := TryRun(reply, decode);
      if attempt.Ok? {
        return attempt.value;
      }
      var empty := FallbackParsing("");
      FallbackOfEmpty(video);
      r := empty.value;
    }
  }
}
