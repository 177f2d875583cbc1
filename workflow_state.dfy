/** The workflow state passed between the workflow manager and the analysis
    node: a record with defaults, written out as a map (`model_dump`) and
    read back from one (`WorkflowState(**d)`). */
module WorkflowStateModule {
  import opened Common

  datatype WorkflowState = WorkflowState(
    videoId: Option<string>,
    videoUrl: Option<string>,
    modelName: Option<string>,
    transcriptExtractionCompleted: bool,
    transcriptAnalysisCompleted: bool,
    videoData: Option<map<string, Json>>,
    analysisResult: Option<map<string, Json>>,
    error: Option<string>,
    errorNode: Option<string>,
    startTime: Option<string>,
    endTime: Option<string>)

  /** `WorkflowState()`: both flags false, everything else unset. */
  const Default := WorkflowState(None, None, None, false, false, None, None, None, None, None, None)

  /** The message of a pydantic validation error. */
  const InvalidField := "validation error for WorkflowState"

  function OptStrJson(v: Option<string>): Json {
    match v case Some(s) => JStr(s) case None => JNull
  }

  function OptDictJson(v: Option<map<string, Json>>): Json {
    match v case Some(d) => JObject(d) case None => JNull
  }

  /** `model_dump()`: every field under its name, `None` as null. */
  function ToDict(s: WorkflowState): (d: map<string, Json>)
    ensures d.Keys == {"video_id", "video_url", "model_name", "transcript_extraction_completed",
                       "transcript_analysis_completed", "video_data", "analysis_result", "error",
                       "error_node", "start_time", "end_time"}
  {
    map[
      "video_id" := OptStrJson(s.videoId),
      "video_url" := OptStrJson(s.videoUrl),
      "model_name" := OptStrJson(s.modelName),
      "transcript_extraction_completed" := JBool(s.transcriptExtractionCompleted),
      "transcript_analysis_completed" := JBool(s.transcriptAnalysisCompleted),
      "video_data" := OptDictJson(s.videoData),
      "analysis_result" := OptDictJson(s.analysisResult),
      "error" := OptStrJson(s.error),
      "error_node" := OptStrJson(s.errorNode),
      "start_time" := OptStrJson(s.startTime),
      "end_time" := OptStrJson(s.endTime)]
  }

  /** An `Optional[str]` field: a string or null; missing means `None`. */
  function OptStrField(d: map<string, Json>, key: string): Outcome<Option<string>> {
    if key !in d then Ok(None)
    else match d[key]
      case JStr(s) => Ok(Some(s))
      case JNull => Ok(None)
      case _ => Raised(InvalidField)
  }

  /** A `bool` field defaulting to false. */
  function FlagField(d: map<string, Json>, key: string): Outcome<bool> {
    if key !in d then Ok(false)
    else match d[key]
      case JBool(b) => Ok(b)
      case _ => Raised(InvalidField)
  }

  /** An `Optional[Dict[str, Any]]` field: an object or null; missing means `None`. */
  function OptDictField(d: map<string, Json>, key: string): Outcome<Option<map<string, Json>>> {
    if key !in d then Ok(None)
    else match d[key]
      case JObject(m) => Ok(Some(m))
      case JNull => Ok(None)
      case _ => Raised(InvalidField)
  }

  /** `WorkflowState(**d)`: each field read from its key, with its default
      when the key is missing; other keys are ignored, and a value of the
      wrong kind fails validation. */
  function FromDict(d: map<string, Json>): Outcome<WorkflowState> {
    var videoId := OptStrField(d, "video_id");
    var videoUrl := OptStrField(d, "video_url");
    var modelName := OptStrField(d, "model_name");
    var extracted := FlagField(d, "transcript_extraction_completed");
    var analyzed := FlagField(d, "transcript_analysis_completed");
    var videoData := OptDictField(d, "video_data");
    var analysisResult := OptDictField(d, "analysis_result");
    var error := OptStrField(d, "error");
    var errorNode := OptStrField(d, "error_node");
    var startTime := OptStrField(d, "start_time");
    var endTime := OptStrField(d, "end_time");
    if videoId.Ok? && videoUrl.Ok? && modelName.Ok? && extracted.Ok? && analyzed.Ok? && videoData.Ok?
       && analysisResult.Ok? && error.Ok? && errorNode.Ok? && startTime.Ok? && endTime.Ok?
    then Ok(WorkflowState(videoId.value, videoUrl.value, modelName.value, extracted.value, analyzed.value,
                          videoData.value, analysisResult.value, error.value, errorNode.value,
                          startTime.value, endTime.value))
    else Raised(InvalidField)
  }

  /** Reading back a written-out state gives the same state. */
  lemma FromDictToDict(s: WorkflowState)
    ensures FromDict(ToDict(s)) == Ok(s)
  {
    ReadsBack(ToDict(s), s);
  }

  /** A map holding every field of `s` under its key reads as `s`. */
  lemma ReadsBack(d: map<string, Json>, s: WorkflowState)
    requires "video_id" in d && d["video_id"] == OptStrJson(s.videoId)
    requires "video_url" in d && d["video_url"] == OptStrJson(s.videoUrl)
    requires "model_name" in d && d["model_name"] == OptStrJson(s.modelName)
    requires "transcript_extraction_completed" in d && d["transcript_extraction_completed"] == JBool(s.transcriptExtractionCompleted)
    requires "transcript_analysis_completed" in d && d["transcript_analysis_completed"] == JBool(s.transcriptAnalysisCompleted)
    requires "video_data" in d && d["video_data"] == OptDictJson(s.videoData)
    requires "analysis_result" in d && d["analysis_result"] == OptDictJson(s.analysisResult)
    requires "error" in d && d["error"] == OptStrJson(s.error)
    requires "error_node" in d && d["error_node"] == OptStrJson(s.errorNode)
    requires "start_time" in d && d["start_time"] == OptStrJson(s.startTime)
    requires "end_time" in d && d["end_time"] == OptStrJson(s.endTime)
    ensures FromDict(d) == Ok(s)
  {
    StrReadsBack(d, "video_id", s.videoId);
    StrReadsBack(d, "video_url", s.videoUrl);
    StrReadsBack(d, "model_name", s.modelName);
    StrReadsBack(d, "error", s.error);
    StrReadsBack(d, "error_node", s.errorNode);
    StrReadsBack(d, "start_time", s.startTime);
    StrReadsBack(d, "end_time", s.endTime);
    DictReadsBack(d, "video_data", s.videoData);
    DictReadsBack(d, "analysis_result", s.analysisResult);
  }

  lemma StrReadsBack(d: map<string, Json>, key: string, v: Option<string>)
    requires key in d && d[key] == OptStrJson(v)
    ensures OptStrField(d, key) == Ok(v)
  {
  }

  lemma DictReadsBack(d: map<string, Json>, key: string, v: Option<map<string, Json>>)
    requires key in d && d[key] == OptDictJson(v)
    ensures OptDictField(d, key) == Ok(v)
  {
  }

  /** An empty map reads as the default state: both flags false, everything
      else unset. */
  lemma FromEmpty()
    ensures FromDict(map[]) == Ok(Default)
    ensures !Default.transcriptExtractionCompleted && !Default.transcriptAnalysisCompleted
    ensures Default.videoId.None? && Default.videoUrl.None? && Default.modelName.None?
    ensures Default.videoData.None? && Default.analysisResult.None?
    ensures Default.error.None? && Default.errorNode.None? && Default.startTime.None? && Default.endTime.None?
  {
  }

  /** Keys the record does not know are ignored. */
  lemma ExtraKeysIgnored(s: WorkflowState, key: string, v: Json)
    requires key !in ToDict(s)
    ensures FromDict(ToDict(s)[key := v]) == Ok(s)
  {
    var d := ToDict(s)[key := v];
    ReadsBack(d, s);
  }

  /** Replacing the three values the analysis node writes, with values of
      the right kinds, reads back as the state with those three fields
      replaced. */
  lemma FromDictNodeFields(s: WorkflowState, error: Option<string>, result: Option<map<string, Json>>, completed: bool)
    ensures FromDict(ToDict(s)["error" := OptStrJson(error)]["analysis_result" := OptDictJson(result)]
                                ["transcript_analysis_completed" := JBool(completed)])
         == Ok(s.(error := error, analysisResult := result, transcriptAnalysisCompleted := completed))
  {
    var t := s.(error := error, analysisResult := result, transcriptAnalysisCompleted := completed);
    assert ToDict(s)["error" := OptStrJson(error)]["analysis_result" := OptDictJson(result)]
                    ["transcript_analysis_completed" := JBool(completed)] == ToDict(t);
    FromDictToDict(t);
  }
}
