/** The command-line driver: one video, or a file of URLs processed one
    after the other, each through a fresh workflow manager. The lines of the
    file, the environment each run sees (API key, clock readings, the
    transcript agent's record, the insights agent, the outcomes of writing
    files) are inputs. */
module Batch {
  import opened Common
  import opened Text
  import opened WorkflowStateModule
  import opened Workflow
  import TranscriptService

  /** What one run of the workflow sees besides the URL, the model and the
      save flag. */
  datatype RunInputs = RunInputs(
    apiKey: Option<string>,
    startTime: string,
    endTime: string,
    errorTime: string,
    transcript: string -> map<string, Json>,
    analyze: map<string, Json> -> Outcome<map<string, Json>>,
    nodeWriteError: Option<string>,
    stateWriteError: Option<string>)

  /** The state a run of the workflow ends in. */
  function FinalState(url: string, modelName: Option<string>, saveOutput: bool, env: RunInputs): WorkflowState {
    WorkflowRun(url, modelName, saveOutput, env.apiKey, env.startTime, env.endTime, env.errorTime, env.transcript,
                env.analyze, env.nodeWriteError, env.stateWriteError)
  }

  /** The check on the final state: a state whose error is set and non-empty
      is dropped, any other one is handed back. */
  function Reported(st: WorkflowState): Option<WorkflowState> {
    if Given(st.error) then None else Some(st)
  }

  /** `process_video_with_workflow`. */
  method ProcessVideoWithWorkflow(url: string, modelName: Option<string>, saveOutput: bool, env: RunInputs)
    returns (r: Option<WorkflowState>)
    ensures r == Reported(FinalState(url, modelName, saveOutput, env))
  {
    var manager := new WorkflowManager(true);
    var finalState := manager.RunWorkflow(url, modelName, saveOutput, env.apiKey, env.startTime, env.endTime,
                                          env.errorTime, env.transcript, env.analyze, env.nodeWriteError,
                                          env.stateWriteError);
    if Given(finalState.error) {
      r := None;
    } else {
      r := Some(finalState);
    }
  }

  /** A video is handed back exactly when its run succeeded, and then it is
      the final state of that run. The one exception is an error recorded
      with an empty message, which the check on the final state reads as
      success. */
  lemma ReportedRun(url: string, modelName: Option<string>, saveOutput: bool, env: RunInputs)
    ensures var r := FinalState(url, modelName, saveOutput, env);
      && (Reported(r).Some? <==> r.error.None? || r.error == Some(""))
      && (Reported(r).Some? ==> Reported(r).value == r && r.videoUrl == Some(url))
      && (r.error.None? ==> Reported(r) == Some(r) && r.transcriptAnalysisCompleted && r.analysisResult.Some?)
  {
    WorkflowSucceeds(url, modelName, saveOutput, env.apiKey, env.startTime, env.endTime, env.errorTime,
                     env.transcript, env.analyze, env.nodeWriteError, env.stateWriteError);
  }

  /** A URL the id cannot be read from, or a run without an API key, never
      yields a result. */
  lemma UnusableRunDropped(url: string, modelName: Option<string>, saveOutput: bool, env: RunInputs)
    requires !Given(TranscriptService.VideoIdFromUrl(url)) || !Given(env.apiKey)
    ensures Reported(FinalState(url, modelName, saveOutput, env)).None?
  {
    if !Given(TranscriptService.VideoIdFromUrl(url)) {
      InvalidUrlDropped(url, modelName, saveOutput, env);
    } else {
      MissingKeyDropped(url, modelName, saveOutput, env);
    }
  }

  lemma InvalidUrlDropped(url: string, modelName: Option<string>, saveOutput: bool, env: RunInputs)
    requires !Given(TranscriptService.VideoIdFromUrl(url))
    ensures Reported(FinalState(url, modelName, saveOutput, env)).None?
  {
    InvalidUrlOutcome(url, modelName, saveOutput, env.apiKey, env.startTime, env.endTime, env.errorTime,
                      env.transcript, env.analyze, env.nodeWriteError, env.stateWriteError);
    ErrorDropped(FinalState(url, modelName, saveOutput, env), Workflow.InvalidUrl);
  }

  lemma MissingKeyDropped(url: string, modelName: Option<string>, saveOutput: bool, env: RunInputs)
    requires Given(TranscriptService.VideoIdFromUrl(url)) && !Given(env.apiKey)
    ensures Reported(FinalState(url, modelName, saveOutput, env)).None?
  {
    MissingKeyOutcome(url, modelName, saveOutput, env.apiKey, env.startTime, env.endTime, env.errorTime,
                      env.transcript, env.analyze, env.nodeWriteError, env.stateWriteError);
    ErrorDropped(FinalState(url, modelName, saveOutput, env), Workflow.MissingApiKey);
  }

  /** A state whose error is a non-empty message is not reported. */
  lemma ErrorDropped(st: WorkflowState, message: string)
    requires st.error == Some(message) && message != ""
    ensures Reported(st).None?
  {
  }

  /** A failed analysis whose exception has an empty message still counts as
      a success. */
  lemma EmptyMessagePassesCheck(url: string, modelName: Option<string>, saveOutput: bool, env: RunInputs)
    requires Given(TranscriptService.VideoIdFromUrl(url)) && Given(env.apiKey)
    requires env.transcript(TranscriptService.VideoIdFromUrl(url).value) != map[]
    requires env.analyze(env.transcript(TranscriptService.VideoIdFromUrl(url).value)) == Raised("")
    requires !saveOutput
    ensures var r := FinalState(url, modelName, saveOutput, env);
      Reported(r) == Some(r) && r.error == Some("") && !r.transcriptAnalysisCompleted
  {
    var id := TranscriptService.VideoIdFromUrl(url);
    var s := Extracted(InitialState(url, modelName, env.startTime), id.value, env.transcript);
    AnalysedOutcome(s, saveOutput, env.endTime, env.errorTime, env.analyze, env.nodeWriteError, env.stateWriteError);
  }

  /** One line of the URL file, as iterating over the file yields it (line
      ending included): kept, stripped, when it is not blank and does not
      itself start with `#`. */
  function UrlOfLine(line: string): Option<string> {
    var url := Strip(line);
    if url != "" && !StartsWith(line, "#") then Some(url) else None
  }

  /** The list of URLs read from the file. */
  function UrlLines(lines: seq<string>): seq<string> {
    FilterMap(UrlOfLine, lines)
  }

  /** A URL is in the list exactly when some line strips to it, is not blank
      and does not start with `#`. */
  lemma UrlLinesIff(lines: seq<string>, url: string)
    ensures url in UrlLines(lines) <==>
      exists j :: 0 <= j < |lines| && url == Strip(lines[j]) && url != "" && !StartsWith(lines[j], "#")
  {
    FilterMapIff(UrlOfLine, lines, url);
  }

  /** Every URL in the list is non-empty and has no whitespace at either
      end, so stripping it again changes nothing; there are never more URLs
      than lines. */
  lemma UrlsAreClean(lines: seq<string>)
    ensures |UrlLines(lines)| <= |lines|
    ensures forall url <- UrlLines(lines) :: url != "" && !IsSpace(url[0]) && !IsSpace(url[|url| - 1]) && Strip(url) == url
  {
    forall url <- UrlLines(lines)
      ensures url != "" && !IsSpace(url[0]) && !IsSpace(url[|url| - 1]) && Strip(url) == url
    {
      UrlLinesIff(lines, url);
      var j :| 0 <= j < |lines| && url == Strip(lines[j]) && url != "" && !StartsWith(lines[j], "#");
      StrippedEnds(lines[j]);
      StripFixedPoint(url);
    }
  }

  /** A stripped, non-empty text begins and ends with a non-space. */
  lemma StrippedEnds(s: string)
    requires Strip(s) != ""
    ensures !IsSpace(Strip(s)[0]) && !IsSpace(Strip(s)[|Strip(s)| - 1])
  {
    var t := TrimStart(s);
    assert Strip(s)[0] == t[0];
  }

  /** Only a `#` in the very first column marks a comment: the same comment
      indented by whitespace is read as a URL. */
  lemma IndentedCommentIsRead(indent: string, comment: string, ending: string)
    requires indent != [] && forall j :: 0 <= j < |indent| ==> IsSpace(indent[j])
    requires forall j :: 0 <= j < |ending| ==> IsSpace(ending[j])
    requires comment != [] && comment[0] == '#' && !IsSpace(comment[|comment| - 1])
    ensures UrlOfLine(comment + ending) == None
    ensures UrlOfLine(indent + comment + ending) == Some(comment)
  {
    assert (comment + ending)[..1] == "#";
    StripAround(indent, comment, ending);
    assert (indent + comment + ending)[0] == indent[0];
  }

  /** The final state of the run for each URL. */
  function FinalStates(modelName: Option<string>, saveOutput: bool, env: string -> RunInputs): string -> WorkflowState {
    url => FinalState(url, modelName, saveOutput, env(url))
  }

  /** The state handed back for each URL, if any. */
  function ReportedBy(final: string -> WorkflowState): string -> Option<WorkflowState> {
    url => Reported(final(url))
  }

  /** The states handed back for a list of URLs, in order, when `final`
      gives the state each URL's run ends in. */
  function Collected(urls: seq<string>, final: string -> WorkflowState): seq<WorkflowState> {
    FilterMap(ReportedBy(final), urls)
  }

  /** `process_batch_with_workflow` as a function: the successful final
      states of the runs, in the order of the file, or nothing at all when
      the file cannot be read. */
  function BatchResults(file: Outcome<seq<string>>, final: string -> WorkflowState): seq<WorkflowState> {
    match file
    case Raised(_) => []
    case Ok(lines) => Collected(UrlLines(lines), final)
  }

  /** `process_batch_with_workflow`: a file that cannot be read gives an
      empty list, otherwise its URLs are processed in order. */
  method ProcessBatchWithWorkflow(file: Outcome<seq<string>>, modelName: Option<string>, saveOutput: bool,
                                  env: string -> RunInputs)
    returns (results: seq<WorkflowState>)
    ensures results == BatchResults(file, FinalStates(modelName, saveOutput, env))
  {
    if file.Raised? {
      return [];
    }
    results := CollectResults(UrlLines(file.value), modelName, saveOutput, env, FinalStates(modelName, saveOutput, env));
  }

  /** The loop of `process_batch_with_workflow`: each URL is run through the
      workflow and the state of every successful run is appended. `final`
      names the state each run ends in. */
  method CollectResults(urls: seq<string>, modelName: Option<string>, saveOutput: bool, env: string -> RunInputs,
                        ghost final: string -> WorkflowState)
    returns (results: seq<WorkflowState>)
    requires forall url {:trigger FinalState(url, modelName, saveOutput, env(url))} ::
      final(url) == FinalState(url, modelName, saveOutput, env(url))
    ensures results == Collected(urls, final)
  {
    results := [];
    var i := 0;
    while i < |urls|
      invariant 0 <= i <= |urls|
      invariant results + Collected(urls[i..], final) == Collected(urls, final)
    {
      FilterMapStep(ReportedBy(final), urls, i, results);
      var result := ProcessUrl(urls[i], modelName, saveOutput, env, final);
      if result.Some? {
        results := results + [result.value];
      } else {
        assert results + [] == results;
      }
      i := i + 1;
    }
    assert urls[i..] == [];
    assert results + [] == results;
  }

  /** One URL of the batch through `process_video_with_workflow`. */
  method ProcessUrl(url: string, modelName: Option<string>, saveOutput: bool, env: string -> RunInputs,
                    ghost final: string -> WorkflowState)
    returns (r: Option<WorkflowState>)
    requires forall url {:trigger FinalState(url, modelName, saveOutput, env(url))} ::
      final(url) == FinalState(url, modelName, saveOutput, env(url))
    ensures r == Reported(final(url))
  {
    r := ProcessVideoWithWorkflow(url, modelName, saveOutput, env(url));
  }

  /** A state is collected exactly when it is the reported final state of
      one of the URLs. */
  lemma CollectedIff(urls: seq<string>, final: string -> WorkflowState, st: WorkflowState)
    ensures st in Collected(urls, final) <==> exists j :: 0 <= j < |urls| && Reported(final(urls[j])) == Some(st)
  {
    FilterMapIff(ReportedBy(final), urls, st);
  }

  /** When every run that is handed back ended without an error (or with an
      empty one) and kept its URL, so does every collected state. */
  lemma CollectedSuccesses(urls: seq<string>, final: string -> WorkflowState, st: WorkflowState)
    requires forall url :: Reported(final(url)).Some? ==>
      final(url).videoUrl == Some(url) && (final(url).error.None? || final(url).error == Some(""))
    requires st in Collected(urls, final)
    ensures st.videoUrl.Some? && st.videoUrl.value in urls
    ensures st.error.None? || st.error == Some("")
  {
    CollectedIff(urls, final, st);
    var j :| 0 <= j < |urls| && Reported(final(urls[j])) == Some(st);
  }

  /** Every state the batch collects is the final state of a run on one of
      the file's URLs that ended without an error, or with an empty one;
      `final` names the state each run ends in. */
  lemma BatchCollectsSuccesses(lines: seq<string>, modelName: Option<string>, saveOutput: bool,
                               env: string -> RunInputs, final: string -> WorkflowState, st: WorkflowState)
    requires forall url {:trigger FinalState(url, modelName, saveOutput, env(url))} ::
      final(url) == FinalState(url, modelName, saveOutput, env(url))
    requires st in BatchResults(Ok(lines), final)
    ensures st.videoUrl.Some? && st.videoUrl.value in UrlLines(lines)
    ensures st.error.None? || st.error == Some("")
  {
    forall url
      ensures Reported(final(url)).Some? ==>
        final(url).videoUrl == Some(url) && (final(url).error.None? || final(url).error == Some(""))
    {
      ReportedRun(url, modelName, saveOutput, env(url));
    }
    CollectedSuccesses(UrlLines(lines), final, st);
  }
}
