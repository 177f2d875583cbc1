/** The transcript-analysis node: it reads the video data out of the
    workflow's state map, runs the insights agent on it, and writes the
    result, the error and the completion flag back into the same map. The
    agent's run (the conversion of the map to a video record, the run and
    `model_dump` of its result) is an input, and so is the outcome of
    writing the output file. */
module AnalysisNode {
  import opened Common
  import opened WorkflowStateModule

  const MissingVideoData := "Missing video data"
  /** The message of the `AttributeError` for video data that is neither a
      mapping nor a record. */
  const NoVideoId := "object has no attribute 'video_id'"

  /** The three keys the node writes. */
  const ErrorKey := "error"
  const ResultKey := "analysis_result"
  const CompletedKey := "transcript_analysis_completed"

  /** `process(state)` on the map's contents: no truthy video data sets
      only the error; video data that is not a mapping, a failed analysis or
      a failed write sets the error and clears the flag; otherwise the
      result is stored and the flag set. */
  function NodeProcess(entries: map<string, Json>, analyze: map<string, Json> -> Outcome<map<string, Json>>,
                       saveOutput: bool, writeError: Option<string>): map<string, Json>
  {
    var video := Get(entries, "video_data", JNull);
    if !Truthy(video) then entries[ErrorKey := JStr(MissingVideoData)]
    else if !video.JObject? then entries[ErrorKey := JStr(NoVideoId)][CompletedKey := JBool(false)]
    else match analyze(video.fields)
      case Raised(m) => entries[ErrorKey := JStr(m)][CompletedKey := JBool(false)]
      case Ok(result) =>
        var stored := entries[ResultKey := JObject(result)];
        if saveOutput && writeError.Some? then stored[ErrorKey := JStr(writeError.value)][CompletedKey := JBool(false)]
        else stored[CompletedKey := JBool(true)]
  }

  /** The node writes only the error, the result and the flag; in particular
      it never sets "error_node". */
  lemma NodeWritesThreeKeys(entries: map<string, Json>, analyze: map<string, Json> -> Outcome<map<string, Json>>,
                            saveOutput: bool, writeError: Option<string>, k: string)
    requires k != ErrorKey && k != ResultKey && k != CompletedKey
    ensures var r := NodeProcess(entries, analyze, saveOutput, writeError);
      (k in r <==> k in entries) && (k in r ==> r[k] == entries[k])
  {
  }

  /** The flag is set exactly when the analysis ran, succeeded and its
      output (when asked for) was written; then the result is stored and
      the error is left as it was. Without video data the flag is left
      untouched. */
  lemma NodeCompletion(entries: map<string, Json>, analyze: map<string, Json> -> Outcome<map<string, Json>>,
                       saveOutput: bool, writeError: Option<string>)
    ensures var r := NodeProcess(entries, analyze, saveOutput, writeError);
      var video := Get(entries, "video_data", JNull);
      && ((CompletedKey in r && r[CompletedKey] == JBool(true) && Truthy(video)) <==>
            (video.JObject? && Truthy(video) && analyze(video.fields).Ok? && !(saveOutput && writeError.Some?)))
      && (video.JObject? && Truthy(video) && analyze(video.fields).Ok? && !(saveOutput && writeError.Some?) ==>
            && r[ResultKey] == JObject(analyze(video.fields).value)
            && (ErrorKey in r <==> ErrorKey in entries)
            && (ErrorKey in r ==> r[ErrorKey] == entries[ErrorKey]))
      && (!Truthy(video) ==> r == entries[ErrorKey := JStr(MissingVideoData)])
  {
  }

  /** The node on a written-out workflow state reads back as that state with
      the error, the result and the flag replaced. */
  function NodeOnState(s: WorkflowState, analyze: map<string, Json> -> Outcome<map<string, Json>>,
                       saveOutput: bool, writeError: Option<string>): (t: WorkflowState)
    ensures t.videoId == s.videoId && t.videoUrl == s.videoUrl && t.modelName == s.modelName
    ensures t.videoData == s.videoData && t.errorNode == s.errorNode
    ensures t.startTime == s.startTime && t.endTime == s.endTime
    ensures t.transcriptExtractionCompleted == s.transcriptExtractionCompleted
  {
    if s.videoData.None? || s.videoData.value == map[] then s.(error := Some(MissingVideoData))
    else match analyze(s.videoData.value)
      case Raised(m) => s.(error := Some(m), transcriptAnalysisCompleted := false)
      case Ok(result) =>
        if saveOutput && writeError.Some? then
          s.(analysisResult := Some(result), error := writeError, transcriptAnalysisCompleted := false)
        else s.(analysisResult := Some(result), transcriptAnalysisCompleted := true)
  }

  /** Running the node on the map form of a state and reading the map back
      never fails, and gives `NodeOnState`. */
  lemma NodeOnStateRoundTrip(s: WorkflowState, analyze: map<string, Json> -> Outcome<map<string, Json>>,
                             saveOutput: bool, writeError: Option<string>)
    ensures FromDict(NodeProcess(ToDict(s), analyze, saveOutput, writeError)) == Ok(NodeOnState(s, analyze, saveOutput, writeError))
  {
    var d := ToDict(s);
    assert Get(d, "video_data", JNull) == OptDictJson(s.videoData);
    var r := NodeProcess(d, analyze, saveOutput, writeError);
    var t := NodeOnState(s, analyze, saveOutput, writeError);
    assert r == Written(d, t.error, t.analysisResult, t.transcriptAnalysisCompleted) by {
      NodeWritesFields(s, analyze, saveOutput, writeError);
    }
    FromDictNodeFields(s, t.error, t.analysisResult, t.transcriptAnalysisCompleted);
  }

  /** The map with the node's three keys set to the given values. */
  function Written(d: map<string, Json>, error: Option<string>, result: Option<map<string, Json>>, completed: bool): map<string, Json> {
    d[ErrorKey := OptStrJson(error)][ResultKey := OptDictJson(result)][CompletedKey := JBool(completed)]
  }

  lemma NodeWritesFields(s: WorkflowState, analyze: map<string, Json> -> Outcome<map<string, Json>>,
                         saveOutput: bool, writeError: Option<string>)
    ensures var t := NodeOnState(s, analyze, saveOutput, writeError);
      NodeProcess(ToDict(s), analyze, saveOutput, writeError)
        == Written(ToDict(s), t.error, t.analysisResult, t.transcriptAnalysisCompleted)
  {
    var d := ToDict(s);
    assert Get(d, "video_data", JNull) == OptDictJson(s.videoData);
    NodeWritesOn(d, s, analyze, saveOutput, writeError);
  }

  lemma NodeWritesOn(d: map<string, Json>, s: WorkflowState, analyze: map<string, Json> -> Outcome<map<string, Json>>,
                     saveOutput: bool, writeError: Option<string>)
    requires Get(d, "video_data", JNull) == OptDictJson(s.videoData)
    requires ErrorKey in d && d[ErrorKey] == OptStrJson(s.error)
    requires ResultKey in d && d[ResultKey] == OptDictJson(s.analysisResult)
    requires CompletedKey in d && d[CompletedKey] == JBool(s.transcriptAnalysisCompleted)
    ensures var t := NodeOnState(s, analyze, saveOutput, writeError);
      NodeProcess(d, analyze, saveOutput, writeError) == Written(d, t.error, t.analysisResult, t.transcriptAnalysisCompleted)
  {
    if s.videoData.None? || s.videoData.value == map[] {
      WrittenKeeps(d, JStr(MissingVideoData));
    } else {
      match analyze(s.videoData.value)
      case Raised(m) =>
        WrittenKeepsResult(d, JStr(m), JBool(false));
      case Ok(result) =>
        if !(saveOutput && writeError.Some?) {
          assert d[ErrorKey := d[ErrorKey]] == d;
        }
    }
  }

  /** Writing the error alone is `Written` with the other two values kept. */
  lemma WrittenKeeps(d: map<string, Json>, v: Json)
    requires ResultKey in d && CompletedKey in d
    ensures d[ErrorKey := v] == d[ErrorKey := v][ResultKey := d[ResultKey]][CompletedKey := d[CompletedKey]]
  {
  }

  /** Writing the error and the flag keeps the result. */
  lemma WrittenKeepsResult(d: map<string, Json>, e: Json, c: Json)
    requires ResultKey in d
    ensures d[ErrorKey := e][CompletedKey := c] == d[ErrorKey := e][ResultKey := d[ResultKey]][CompletedKey := c]
  {
  }

  /** The state map the node reads and writes in place. */
  class StateDict {
    var entries: map<string, Json>

    constructor(entries: map<string, Json>)
      ensures this.entries == entries
    {
      this.entries := entries;
    }
  }

  /** The node holds its settings only; `process` changes the map it is
      given, not the node. */
  datatype TranscriptAnalysisNode = TranscriptAnalysisNode(modelName: Option<string>, saveOutput: bool)
  {
    /** `process(state)`: the keys are written one by one into the given
        map, which is returned. */
    method Process(state: StateDict, analyze: map<string, Json> -> Outcome<map<string, Json>>, writeError: Option<string>)
      returns (r: StateDict)
      modifies state
      ensures r == state
      ensures state.entries == NodeProcess(old(state.entries), analyze, saveOutput, writeError)
    {
      r := state;
      var video := Get(state.entries, "video_data", JNull);
      if !Truthy(video) {
        state.entries := state.entries[ErrorKey := JStr(MissingVideoData)];
        return;
      }
      if !video.JObject? {
        state.entries := state.entries[ErrorKey := JStr(NoVideoId)];
        state.entries := state.entries[CompletedKey := JBool(false)];
        return;
      }
      var result := analyze(video.fields);
      if result.Raised? {
        state.entries := state.entries[ErrorKey := JStr(result.message)];
        state.entries := state.entries[CompletedKey := JBool(false)];
        return;
      }
      state.entries := state.entries[ResultKey := JObject(result.value)];
      if saveOutput && writeError.Some? {
        state.entries := state.entries[ErrorKey := JStr(writeError.value)];
        state.entries := state.entries[CompletedKey := JBool(false)];
        return;
      }
      state.entries := state.entries[CompletedKey := JBool(true)];
    }
  }
}
