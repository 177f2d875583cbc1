/** The workflow manager: it starts a fresh state for a URL, extracts the
    video id, runs the transcript agent and then the analysis node, and
    records errors in the state rather than raising them. The clock, the
    API key from the environment, the transcript agent's dumped record, the
    insights agent and the outcomes of writing files are inputs. */
module Workflow {
  import opened Common
  import opened WorkflowStateModule
  import opened AnalysisNode
  import TranscriptService

  const InvalidUrl := "Invalid YouTube URL"
  const MissingApiKey := "Missing YouTube API key"
  /** The node name recorded with the errors the manager itself catches. */
  const ManagerNode := "workflow_manager"

  /** `_init_state`: the default state with the URL, the model and the start
      time. */
  function InitialState(url: string, modelName: Option<string>, startTime: string): (s: WorkflowState)
    ensures s == Default.(videoUrl := Some(url), modelName := modelName, startTime := Some(startTime))
  {
    WorkflowState(None, Some(url), modelName, false, false, None, None, None, None, Some(startTime), None)
  }

  /** The state after an exception reaches the manager's handler. */
  function Failed(s: WorkflowState, message: string, errorTime: string): WorkflowState {
    s.(error := Some(message), errorNode := Some(ManagerNode), endTime := Some(errorTime))
  }

  /** A usable id or key: present and non-empty. */
  predicate Given(v: Option<string>) {
    v.Some? && v.value != ""
  }

  /** The rest of the run once the transcript agent's record is in the
      state `s`: the node runs on the written-out state and its map is read
      back (`NodeOnStateRoundTrip` shows that this never fails and gives
      `NodeOnState`, used here directly), the end time is stored and the
      state is saved when asked for. */
  function Analysed(s: WorkflowState, saveOutput: bool, endTime: string, errorTime: string,
                    analyze: map<string, Json> -> Outcome<map<string, Json>>,
                    nodeWriteError: Option<string>, stateWriteError: Option<string>): WorkflowState
  {
    var finished := NodeOnState(s, analyze, saveOutput, nodeWriteError).(endTime := Some(endTime));
    if saveOutput && Given(finished.videoId) && stateWriteError.Some? then Failed(finished, stateWriteError.value, errorTime)
    else finished
  }

  /** `run_workflow` as a function of its inputs. */
  function WorkflowRun(url: string, modelName: Option<string>, saveOutput: bool, apiKey: Option<string>,
                       startTime: string, endTime: string, errorTime: string,
                       transcript: string -> map<string, Json>,
                       analyze: map<string, Json> -> Outcome<map<string, Json>>,
                       nodeWriteError: Option<string>, stateWriteError: Option<string>): WorkflowState
  {
    WorkflowFrom(InitialState(url, modelName, startTime), TranscriptService.VideoIdFromUrl(url), apiKey, saveOutput,
                 endTime, errorTime, transcript, analyze, nodeWriteError, stateWriteError)
  }

  /** The run from the initial state `init` once the id has been read from
      the URL. */
  function WorkflowFrom(init: WorkflowState, id: Option<string>, apiKey: Option<string>, saveOutput: bool,
                        endTime: string, errorTime: string,
                        transcript: string -> map<string, Json>,
                        analyze: map<string, Json> -> Outcome<map<string, Json>>,
                        nodeWriteError: Option<string>, stateWriteError: Option<string>): WorkflowState
  {
    if !Given(id) then init.(error := Some(InvalidUrl), errorNode := Some(ManagerNode))
    else if !Given(apiKey) then init.(error := Some(MissingApiKey), errorNode := Some(ManagerNode))
    else Analysed(Extracted(init, id.value, transcript), saveOutput, endTime, errorTime, analyze, nodeWriteError, stateWriteError)
  }

  /** The state after the transcript step. */
  function Extracted(init: WorkflowState, id: string, transcript: string -> map<string, Json>): WorkflowState {
    init.(videoId := Some(id), videoData := Some(transcript(id)), transcriptExtractionCompleted := true)
  }

  /** After the transcript step, the run ends without an error exactly when
      there was none before, the record is non-empty, the analysis succeeds
      and no requested file fails to be written; then the analysis stage is
      marked complete and its result and the end time are stored. A failure
      inside the node names no error node; only a failed save of the state
      names the manager. Everything the node does not write is kept. */
  lemma AnalysedOutcome(s: WorkflowState, saveOutput: bool, endTime: string, errorTime: string,
                        analyze: map<string, Json> -> Outcome<map<string, Json>>,
                        nodeWriteError: Option<string>, stateWriteError: Option<string>)
    requires Given(s.videoId) && s.videoData.Some?
    ensures var r := Analysed(s, saveOutput, endTime, errorTime, analyze, nodeWriteError, stateWriteError);
      var m := s.videoData.value;
      && r.videoId == s.videoId && r.videoData == s.videoData && r.videoUrl == s.videoUrl
      && r.modelName == s.modelName && r.startTime == s.startTime
      && r.transcriptExtractionCompleted == s.transcriptExtractionCompleted
      && (r.error.None? <==>
            && s.error.None? && m != map[] && analyze(m).Ok?
            && !(saveOutput && nodeWriteError.Some?) && !(saveOutput && stateWriteError.Some?))
      && (r.error.None? ==>
            && r.transcriptAnalysisCompleted && r.analysisResult == Some(analyze(m).value)
            && r.errorNode == s.errorNode && r.endTime == Some(endTime))
      && (!(saveOutput && stateWriteError.Some?) ==> r.errorNode == s.errorNode && r.endTime == Some(endTime))
      && (m == map[] && !(saveOutput && stateWriteError.Some?) ==> r.error == Some(MissingVideoData))
      && (m != map[] && analyze(m).Raised? && !(saveOutput && stateWriteError.Some?) ==>
            r.error == Some(analyze(m).message) && !r.transcriptAnalysisCompleted)
  {
  }

  /** A URL without a usable id stops the run at once: the error and the
      manager's node name are recorded, nothing else is set. */
  lemma InvalidUrlOutcome(url: string, modelName: Option<string>, saveOutput: bool, apiKey: Option<string>,
                          startTime: string, endTime: string, errorTime: string,
                          transcript: string -> map<string, Json>,
                          analyze: map<string, Json> -> Outcome<map<string, Json>>,
                          nodeWriteError: Option<string>, stateWriteError: Option<string>)
    requires !Given(TranscriptService.VideoIdFromUrl(url))
    ensures var r := WorkflowRun(url, modelName, saveOutput, apiKey, startTime, endTime, errorTime, transcript, analyze,
                                 nodeWriteError, stateWriteError);
      && r.error == Some(InvalidUrl) && r.errorNode == Some(ManagerNode)
      && r.videoId.None? && r.videoData.None? && r.analysisResult.None? && r.endTime.None?
      && !r.transcriptExtractionCompleted && !r.transcriptAnalysisCompleted
  {
  }

  /** A usable id without a usable key stops the run in the same way, with
      its own message. */
  lemma MissingKeyOutcome(url: string, modelName: Option<string>, saveOutput: bool, apiKey: Option<string>,
                          startTime: string, endTime: string, errorTime: string,
                          transcript: string -> map<string, Json>,
                          analyze: map<string, Json> -> Outcome<map<string, Json>>,
                          nodeWriteError: Option<string>, stateWriteError: Option<string>)
    requires Given(TranscriptService.VideoIdFromUrl(url)) && !Given(apiKey)
    ensures var r := WorkflowRun(url, modelName, saveOutput, apiKey, startTime, endTime, errorTime, transcript, analyze,
                                 nodeWriteError, stateWriteError);
      && r.error == Some(MissingApiKey) && r.errorNode == Some(ManagerNode)
      && r.videoId.None? && r.videoData.None? && r.endTime.None?
      && !r.transcriptExtractionCompleted && !r.transcriptAnalysisCompleted
  {
  }

  /** A run that reaches the final save and fails to write the state file
      goes through the manager's own handler: the error is the write's
      message, the manager is the error node and the end time is the time
      of the error. The transcript step's results stay, and the analysis
      stage is complete exactly when the node succeeded. */
  lemma StateSaveFailure(url: string, modelName: Option<string>, apiKey: Option<string>,
                         startTime: string, endTime: string, errorTime: string,
                         transcript: string -> map<string, Json>,
                         analyze: map<string, Json> -> Outcome<map<string, Json>>,
                         nodeWriteError: Option<string>, stateWriteError: Option<string>)
    requires Given(TranscriptService.VideoIdFromUrl(url)) && Given(apiKey) && stateWriteError.Some?
    ensures var r := WorkflowRun(url, modelName, true, apiKey, startTime, endTime, errorTime, transcript, analyze,
                                 nodeWriteError, stateWriteError);
      var id := TranscriptService.VideoIdFromUrl(url);
      var m := transcript(id.value);
      && r.error == stateWriteError && r.errorNode == Some(ManagerNode) && r.endTime == Some(errorTime)
      && r.videoUrl == Some(url) && r.modelName == modelName && r.startTime == Some(startTime)
      && r.videoId == id && r.videoData == Some(m) && r.transcriptExtractionCompleted
      && (r.transcriptAnalysisCompleted <==> m != map[] && analyze(m).Ok? && nodeWriteError.None?)
  {
    var id := TranscriptService.VideoIdFromUrl(url);
    var s := Extracted(InitialState(url, modelName, startTime), id.value, transcript);
    var finished := NodeOnState(s, analyze, true, nodeWriteError).(endTime := Some(endTime));
    assert !s.transcriptAnalysisCompleted;
    assert WorkflowRun(url, modelName, true, apiKey, startTime, endTime, errorTime, transcript, analyze,
                       nodeWriteError, stateWriteError)
        == Failed(finished, stateWriteError.value, errorTime);
  }

  /** The run ends without an error exactly when the id and the key are
      usable, the transcript agent's record is non-empty, the analysis
      succeeds and no requested file fails to be written; then both stages
      are marked complete, the analysis result and the end time are stored
      and no error node is named. The URL, the model and the start time are
      kept whatever happens. */
  lemma WorkflowSucceeds(url: string, modelName: Option<string>, saveOutput: bool, apiKey: Option<string>,
                         startTime: string, endTime: string, errorTime: string,
                         transcript: string -> map<string, Json>,
                         analyze: map<string, Json> -> Outcome<map<string, Json>>,
                         nodeWriteError: Option<string>, stateWriteError: Option<string>)
    ensures var r := WorkflowRun(url, modelName, saveOutput, apiKey, startTime, endTime, errorTime, transcript, analyze,
                                 nodeWriteError, stateWriteError);
      var id := TranscriptService.VideoIdFromUrl(url);
      && r.videoUrl == Some(url) && r.modelName == modelName && r.startTime == Some(startTime)
      && (r.error.None? <==>
            && Given(id) && Given(apiKey) && transcript(id.value) != map[] && analyze(transcript(id.value)).Ok?
            && !(saveOutput && nodeWriteError.Some?) && !(saveOutput && stateWriteError.Some?))
      && (r.error.None? ==>
            && r.videoId == id && r.videoData == Some(transcript(id.value))
            && r.transcriptExtractionCompleted && r.transcriptAnalysisCompleted
            && r.analysisResult == Some(analyze(transcript(id.value)).value)
            && r.errorNode.None? && r.endTime == Some(endTime))
  {
    var id := TranscriptService.VideoIdFromUrl(url);
    if Given(id) && Given(apiKey) {
      var s := Extracted(InitialState(url, modelName, startTime), id.value, transcript);
      AnalysedOutcome(s, saveOutput, endTime, errorTime, analyze, nodeWriteError, stateWriteError);
    }
  }

  /** A watch-page URL runs the transcript agent on the id it was built
      from. */
  lemma WatchUrlWorkflow(id: string, modelName: Option<string>, saveOutput: bool, apiKey: Option<string>,
                         startTime: string, endTime: string, errorTime: string,
                         transcript: string -> map<string, Json>,
                         analyze: map<string, Json> -> Outcome<map<string, Json>>,
                         nodeWriteError: Option<string>, stateWriteError: Option<string>)
    requires TranscriptService.PlainId(id) && Given(apiKey)
    ensures var r := WorkflowRun(TranscriptService.WatchUrl(id), modelName, saveOutput, apiKey, startTime, endTime,
                                 errorTime, transcript, analyze, nodeWriteError, stateWriteError);
      r.videoId == Some(id) && r.videoData == Some(transcript(id)) && r.transcriptExtractionCompleted
  {
    TranscriptService.WatchUrlRoundTrip(id);
    var s := Extracted(InitialState(TranscriptService.WatchUrl(id), modelName, startTime), id, transcript);
    AnalysedOutcome(s, saveOutput, endTime, errorTime, analyze, nodeWriteError, stateWriteError);
  }

  class WorkflowManager {
    var saveOutput: bool
    var state: WorkflowState

    constructor(saveOutput: bool)
      ensures this.saveOutput == saveOutput && state == Default
    {
      this.saveOutput := saveOutput;
      state := Default;
    }

    /** `_init_state`. */
    method InitState(url: string, modelName: Option<string>, startTime: string)
      modifies this
      ensures state == InitialState(url, modelName, startTime) && saveOutput == old(saveOutput)
    {
      state := WorkflowState(None, None, None, false, false, None, None, None, None, None, None);
      state := state.(videoUrl := Some(url), modelName := modelName, startTime := Some(startTime));
    }

    /** Lines 75-97 of `run_workflow`: the transcript agent's record is
        stored, the node runs on the written-out state, the map it returns
        is read back, and the state is finished and saved when asked for. */
    method Analyse(node: TranscriptAnalysisNode, id: string, transcript: string -> map<string, Json>,
                   analyze: map<string, Json> -> Outcome<map<string, Json>>, nodeWriteError: Option<string>,
                   endTime: string, errorTime: string, stateWriteError: Option<string>)
      requires node.saveOutput == saveOutput
      modifies this
      ensures saveOutput == old(saveOutput)
      ensures state == Analysed(Extracted(old(state), id, transcript), saveOutput, endTime, errorTime, analyze,
                                nodeWriteError, stateWriteError)
    {
      var videoData := transcript(id);
      state := state.(videoId := Some(id), videoData := Some(videoData), transcriptExtractionCompleted := true);
      var dict := new StateDict(ToDict(state));
      var updated := node.Process(dict, analyze, nodeWriteError);
      NodeOnStateRoundTrip(state, analyze, saveOutput, nodeWriteError);
      // Reading the node's map back cannot raise.
      state := FromDict(updated.entries).value;
      state := state.(endTime := Some(endTime));
      if saveOutput && Given(state.videoId) && stateWriteError.Some? {
        state := Failed(state, stateWriteError.value, errorTime);
      }
    }

    /** `run_workflow`: the state is updated step by step and returned. */
    method RunWorkflow(url: string, modelName: Option<string>, saveOutput: bool, apiKey: Option<string>,
                       startTime: string, endTime: string, errorTime: string,
                       transcript: string -> map<string, Json>,
                       analyze: map<string, Json> -> Outcome<map<string, Json>>,
                       nodeWriteError: Option<string>, stateWriteError: Option<string>)
      returns (r: WorkflowState)
      modifies this
      ensures r == state
      ensures state == WorkflowRun(url, modelName, saveOutput, apiKey, startTime, endTime, errorTime, transcript, analyze,
                                   nodeWriteError, stateWriteError)
      ensures this.saveOutput == saveOutput
    {
      InitState(url, modelName, startTime);
      this.saveOutput := saveOutput;
      var node := TranscriptAnalysisNode(modelName, this.saveOutput);
      var id := TranscriptService.VideoIdFromUrl(url);
      RunFrom(node, id, apiKey, transcript, analyze, nodeWriteError, endTime, errorTime, stateWriteError);
      r := state;
    }

    /** Lines 56-97 of `run_workflow`, once the id has been read from the
        URL: a missing id or API key ends the run with the manager's error,
        otherwise the video is analysed. */
    method RunFrom(node: TranscriptAnalysisNode, id: Option<string>, apiKey: Option<string>,
                   transcript: string -> map<string, Json>,
                   analyze: map<string, Json> -> Outcome<map<string, Json>>, nodeWriteError: Option<string>,
                   endTime: string, errorTime: string, stateWriteError: Option<string>)
      requires node.saveOutput == saveOutput
      modifies this
      ensures saveOutput == old(saveOutput)
      ensures state == WorkflowFrom(old(state), id, apiKey, saveOutput, endTime, errorTime, transcript, analyze,
                                    nodeWriteError, stateWriteError)
    {
      if id.None? || id.value == "" {
        state := state.(error := Some(InvalidUrl));
        state := state.(errorNode := Some(ManagerNode));
        return;
      }
      if apiKey.None? || apiKey.value == "" {
        state := state.(error := Some(MissingApiKey));
        state := state.(errorNode := Some(ManagerNode));
        return;
      }
      Analyse(node, id.value, transcript, analyze, nodeWriteError, endTime, errorTime, stateWriteError);
    }
  }
}
