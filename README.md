# youtube_ollama in Dafny

This is a model of the core of youtube_ollama, a Python tool that works on one
YouTube video at a time. It:

- reads the video id from its URL;
- builds a video record from the metadata and transcript services
  (`YouTubeTranscriptAgent`);
- passes the record through a workflow state to a transcript-analysis node,
  which asks an Ollama model for insights (`TranscriptInsightsAgent`);
- reports the final state, for a single URL or for a file of URLs (`main.py`).

A second agent, `VideoEnhancementAgent`, analyses a video record with the
model. When the model's answer does not decode, the agent parses the raw text
itself.

One Dafny module models each core source file:

| module | source file |
|---|---|
| `BaseAgent` | `agents/base_agent.py` |
| `AnalysisAgent` | `agents/analysis_agent.py`: the agent class, its configuration and `run` |
| `TranscriptPrompt` | `agents/analysis_agent.py`: `_format_transcript_for_prompt` |
| `Timestamps` | `agents/analysis_agent.py`: `_format_duration` and `_extract_timestamps` |
| `AnalysisSections` | `agents/analysis_agent.py`: the section splitting of `fallback_parsing` |
| `AnalysisFallback` | `agents/analysis_agent.py`: the rest of `fallback_parsing` |
| `TranscriptAgent` | `agents/youtube_transcript_agent.py` |
| `InsightAgent` | `agents/transcript_insight_agent.py` |
| `TranscriptService` | `api_services/transcript_service.py`, with the part of `urllib.parse.urlparse` and `parse_qs` it relies on |
| `WorkflowStateModule` | `state/workflow_state.py` |
| `AnalysisNode` | `nodes/transcript_analysis_node.py` |
| `Workflow` | `graph/workflow_manager.py` |
| `Batch` | `main.py` |

Four modules support the others:

- `Common` holds `Option`, `Outcome` (a value or a raised exception with its
  message) and a JSON value type.
- `Text` holds the string operations of Python that the code uses.
- `VideoRecords` and `AnalysisRecords` stand in for the record types the
  agents exchange.

The model's shape follows the source:

- The agents, the workflow manager and the state dictionary the node mutates
  are classes. Their methods update fields in place and are proved equal to
  specification functions.
- The loops of the source are `while` loops with invariants.
- The properties are lemmas about the specification functions.

Everything outside the program is a parameter:

- the HTTP reply of the Ollama server;
- `json.loads` (`decode`);
- the pydantic validation of the analysis record;
- the metadata and transcript services;
- the clock readings;
- file-write failures.

Each agent's output is fed to the next stage as a function of its input.

## Model

| member | source | states |
|---|---|---|
| BaseAgent.Configure | agents/base_agent.py:12-41 | A schema is derived exactly when a result model is given, and it is that model's schema; the model name, base URL, temperature, context size and result model are kept |
| BaseAgent.BuildPayload | agents/base_agent.py:46-58 | The request has model, prompt, `stream: false` and the options {temperature, num_ctx}, and carries `format` exactly when the schema is present and non-empty, with the schema as its value |
| BaseAgent.CallOllama | agents/base_agent.py:60-69 | A status other than 200 raises `API error (status): text`; status 200 gives the decoded body |
| BaseAgent.ApiErrorMessage | agents/base_agent.py:62-64 | A status other than 200 raises; the message starts `API error (`, ends with `): ` and the body, and the digits between read back as the status |
| BaseAgent.RunWithoutResponse | agents/base_agent.py:102-120 | Without a `response` text, `run` with a result model ends in the no-argument construction of that model |
| BaseAgent.RunDecodeError | agents/base_agent.py:76-84 | A response that is not JSON goes to `fallback_parsing`; its result is returned, and if it raises, the default construction is returned |
| BaseAgent.RunDecoded | agents/base_agent.py:76-86 | Decoded JSON is returned raw without a result model; with a result model, an object that builds gives the built record, and anything else gives the default construction |
| BaseAgent.RunNeverRaisesWithDefault | agents/base_agent.py:102-120 | When the result model has a valid default, `run` never raises, whatever the server answers |
| BaseAgent.BasePrompt | agents/base_agent.py:95-100 | The base `_prepare_prompt` always raises |
| BaseAgent.BaseFallback | agents/base_agent.py:88-93 | The base `fallback_parsing` always raises |
| BaseAgent.BaseRunNeverCalls | agents/base_agent.py:95-120 | With the base prompt, `run` never reaches the server: it raises without a result model, and gives the default construction with one |
| BaseAgent.MissingResponseNoFallback | agents/base_agent.py:71-86 | A reply without `response` raises the missing-response error, whichever fallback parser is installed |
| AnalysisAgent.AgentConfig | agents/analysis_agent.py:42-48 | The enhancement agent's configuration carries the analysis record as its result model and that model's schema |
| AnalysisAgent.AnalysisRunShape | agents/analysis_agent.py:300-309 | An accepted decoded answer is the validated record. In every other case the result is a well-formed fallback record for the same video whose topic segments end at the video's end |
| AnalysisAgent.RejectedRun | agents/analysis_agent.py:300-309 | A rejected answer yields a well-formed record whose segments all end well |
| AnalysisAgent.FallbackRun | agents/analysis_agent.py:300-309 | When the fallback parse succeeds, its record is what `run` returns, and it is well formed |
| AnalysisAgent.EmptyRun | agents/analysis_agent.py:305-309 | When the attempt raises, the record of `fallback_parsing("")` is returned and is well formed |
| AnalysisAgent.FallbackWellFormed | agents/analysis_agent.py:166-298 | Every record the fallback parser returns is about the input video and respects the list bounds and fixed fields |
| AnalysisAgent.AcceptedAttempt | agents/base_agent.py:76-86 | An answer that decodes to an object and validates is returned as validated |
| AnalysisAgent.AttemptFallsBack | agents/base_agent.py:80-84 | A successful attempt that was not accepted is exactly the fallback parse of the response text |
| AnalysisAgent.AttemptIsBaseRun | agents/analysis_agent.py:300-309 | The enhancement agent's attempt is the base agent's `run` under the agent's configuration and fallback parser |
| AnalysisAgent.AttemptWithoutText | agents/base_agent.py:71-75 | A reply without text: the base run and the attempt agree |
| AnalysisAgent.AttemptUndecoded | agents/base_agent.py:80-84 | A text that does not decode: the base run and the attempt agree |
| AnalysisAgent.AttemptDecoded | agents/base_agent.py:76-79 | A decoded text: the base run and the attempt agree |
| AnalysisAgent.VideoEnhancementAgent.constructor | agents/analysis_agent.py:42-48 | The agent keeps its model name, schema and validator, and has no input yet |
| AnalysisAgent.VideoEnhancementAgent.FallbackParsing | agents/analysis_agent.py:166-183 | Without input data it raises; with input data it is the fallback analysis of the text for that video |
| AnalysisAgent.VideoEnhancementAgent.TryRun | agents/base_agent.py:102-120 | The inner `run` call equals the attempt specification |
| AnalysisAgent.VideoEnhancementAgent.Run | agents/analysis_agent.py:300-309 | It records the video as input data and returns the run specification's record |
| TranscriptPrompt.FormatTranscript | agents/analysis_agent.py:54-69 | The prompt text is the timestamped lines joined by newlines, cut by the character budget `max_tokens * 4` |
| TranscriptPrompt.KeepEntries | agents/analysis_agent.py:59-67 | The loop gives the kept lines of the specification, marker included |
| TranscriptPrompt.Append | agents/analysis_agent.py:61-67 | One entry is appended and counted; the loop stops, with the marker appended, exactly when the count passes the budget |
| TranscriptPrompt.KeptShape | agents/analysis_agent.py:59-69 | When all lines fit the budget, all are kept and no marker is added. Otherwise the lines are kept up to and including the first one that takes the running total over the budget, followed by the truncation marker |
| TranscriptPrompt.Lines | agents/analysis_agent.py:60-62 | One prompt line per transcript entry |
| Timestamps.Trunc | agents/analysis_agent.py:52 | `int()` truncates toward zero, on both sides of zero |
| Timestamps.Pad2 | agents/analysis_agent.py:52 | The two-digit field of a clock has value `n` |
| Timestamps.ClockRoundTrip | agents/analysis_agent.py:50-52 | A duration under a day is written as `H:MM:SS`, and `_extract_timestamps`'s ladder reads it back as the same number of seconds |
| Timestamps.GreedyAgrees | agents/analysis_agent.py:123-142 | For the ladder's patterns, the greedy match exists exactly when the regular expression matches |
| Timestamps.Search | agents/analysis_agent.py:142-143 | The first match found is the leftmost one |
| Timestamps.LadderPrecedence | agents/analysis_agent.py:141-162 | The first pattern of the ladder that matches anywhere decides the value, and its leftmost match is converted |
| Timestamps.LineEntry | agents/analysis_agent.py:133-138 | Only a line with a `:` can set a key |
| Timestamps.TimesOfKeys | agents/analysis_agent.py:133-162 | Every key of the result is the stripped text before the first `:` of some line that yields a time |
| Timestamps.TimesOfLastWins | agents/analysis_agent.py:133-162 | The last line carrying a key decides its value |
| Timestamps.OneLineOneKey | agents/analysis_agent.py:133-162 | A text without a line break yields at most one key |
| Timestamps.ReadTimestamp | agents/analysis_agent.py:141-162 | The pattern loop gives the ladder's value |
| Timestamps.ReadLine | agents/analysis_agent.py:134-162 | The loop body for one line gives the line's entry |
| Timestamps.ExtractTimestamps | agents/analysis_agent.py:121-164 | The whole loop gives the map of all lines' entries, later ones overwriting |
| AnalysisSections.Classify | agents/analysis_agent.py:192-199 | A line is a header exactly when the header test holds, and it then carries the section name; otherwise it is body text, stripped |
| AnalysisSections.PutKeepsUnique | agents/analysis_agent.py:193-197 | Opening a section keeps names unique; a new name is appended and a known one keeps its place |
| AnalysisSections.BuildSections | agents/analysis_agent.py:186-199 | The loop gives the section map of the specification |
| AnalysisSections.Advance | agents/analysis_agent.py:187-199 | One loop iteration is one step of the specification |
| AnalysisSections.PreambleDiscarded | agents/analysis_agent.py:186-199 | Body lines before the first header are dropped |
| AnalysisSections.HeaderResets | agents/analysis_agent.py:192-197 | A header opens its section empty and makes it the current one |
| AnalysisSections.SectionsClean | agents/analysis_agent.py:198-199 | Every stored content line is non-empty and stripped |
| AnalysisSections.SectionsNoBreak | agents/analysis_agent.py:186-199 | No stored content line holds a line break |
| AnalysisSections.SectionNames | agents/analysis_agent.py:186-199 | A section exists exactly when some header line names it |
| AnalysisSections.BlankHasNoSections | agents/analysis_agent.py:186-199 | An empty answer has no sections |
| AnalysisFallback.BulletsIff | agents/analysis_agent.py:206-209 | A bullet topic is exactly the un-bulleted text of some bullet line |
| AnalysisFallback.SplitTopicsRoundTrip | agents/analysis_agent.py:210-215 | Splitting comma-joined clean topics gives them back |
| AnalysisFallback.LastDelimitedWins | agents/analysis_agent.py:210-215 | The last line with a comma or semicolon decides the topics |
| AnalysisFallback.NoDelimiterKeeps | agents/analysis_agent.py:210-215 | Without such a line, the topics found so far stay |
| AnalysisFallback.LastDelimitedTopics | agents/analysis_agent.py:210-215 | The loop gives the specification's topics |
| AnalysisFallback.FirstKeyword | agents/analysis_agent.py:218-231 | The first keyword of the list that occurs in the text, or none exactly when no keyword occurs |
| AnalysisFallback.ScanKeywords | agents/analysis_agent.py:220-223 | The keyword loop finds that first keyword |
| AnalysisFallback.KeywordSearch | agents/analysis_agent.py:218-231 | The loop gives the capitalised keyword or the old value |
| AnalysisFallback.NextTimeNearest | agents/analysis_agent.py:248-253 | The next time is the smallest later time of another listed topic, and none exactly when there is no such topic |
| AnalysisFallback.SingleKeyNoNext | agents/analysis_agent.py:244-253 | With at most one timestamp key, no next topic is ever found |
| AnalysisFallback.FindNextTime | agents/analysis_agent.py:248-253 | The loop gives that next time |
| AnalysisFallback.EndTime | agents/analysis_agent.py:255-259 | The end time raises exactly when no usable next time exists and the last entry's duration is `None`, for entries typed as `Entry` |
| AnalysisFallback.TopicSegments | agents/analysis_agent.py:245-266 | The loop gives the specification's segments |
| AnalysisFallback.SegmentFoldEnds | agents/analysis_agent.py:244-266 | Every segment ends at the video's end (or start + 300 s for an empty transcript); a failure comes only from a `None` last duration, for entries typed as `Entry` |
| AnalysisFallback.TopicSearch | agents/analysis_agent.py:206-215 | The topics of a section |
| AnalysisFallback.AbsorbSection | agents/analysis_agent.py:202-241 | One section's effect on the accumulated fields |
| AnalysisFallback.ReadSection | agents/analysis_agent.py:202-266 | One section's effect, with segments |
| AnalysisFallback.ReadSections | agents/analysis_agent.py:202-266 | The loop over the sections gives the specification's result |
| AnalysisFallback.ProcessAllSound | agents/analysis_agent.py:202-266 | Sentiment and level are `Unknown` or a capitalised keyword, and segments end well; a failure comes only from a `None` last duration, for entries typed as `Entry` |
| AnalysisFallback.SectionOneKey | agents/analysis_agent.py:244 | A section's joined content has at most one timestamp key |
| AnalysisFallback.ScrubRemovesMarks | agents/analysis_agent.py:273 | No `-`, `*` or `•` survives the clean-up substitution |
| AnalysisFallback.CleanListItemMarks | agents/analysis_agent.py:273 | A cleaned list item holds none of those marks |
| AnalysisFallback.RawTopicsIff | agents/analysis_agent.py:269-275 | A raw topic is exactly the cleaned text, 4 to 99 characters long, of some listed line |
| AnalysisFallback.ListTopics | agents/analysis_agent.py:271-275 | The loop gives those topics in order |
| AnalysisFallback.ListItem | agents/analysis_agent.py:272-275 | One line's topic, if any |
| AnalysisFallback.Take | agents/analysis_agent.py:286-288 | `[:n]` is the prefix of length min(n, len) |
| AnalysisFallback.AssembleRecord | agents/analysis_agent.py:277-298 | The record is the one the specification assembles |
| AnalysisFallback.AssembleShape | agents/analysis_agent.py:277-298 | It has between 1 and 7 topics and 1 and 8 key points, the fixed audience and quality, and a summary other than the failure sentinel |
| AnalysisFallback.FallbackShape | agents/analysis_agent.py:166-298 | A fallback record is well formed, with sound sentiment, level and segments; it raises only on a `None` last duration, for entries typed as `Entry` |
| AnalysisFallback.EmptyAnalysisShape | agents/analysis_agent.py:277-298 | The analysis of an empty text is well formed and has no segments |
| AnalysisFallback.FallbackOfEmpty | agents/analysis_agent.py:166-298 | The fallback analysis of `""` succeeds and gives that empty analysis |
| TranscriptService.TrimC0 | api_services/transcript_service.py:12 | Leading C0 controls and spaces are removed, and nothing else |
| TranscriptService.TrimC0Removes | api_services/transcript_service.py:12 | Everything removed was a control character or a space |
| TranscriptService.RemoveUnsafe | api_services/transcript_service.py:12 | Tabs and line breaks are removed; a clean URL is unchanged |
| TranscriptService.SplitScheme | api_services/transcript_service.py:12 | Without a scheme, the whole URL is the rest |
| TranscriptService.SplitNetloc | api_services/transcript_service.py:12 | The network location runs from `//` to the first `/`, `?` or `#` |
| TranscriptService.PlusToSpace | api_services/transcript_service.py:17-18 | `parse_qs` reads `+` as a space |
| TranscriptService.FirstValue | api_services/transcript_service.py:17-18 | There is no value exactly when the name is absent from the query |
| TranscriptService.FirstValueFirst | api_services/transcript_service.py:17-18 | Otherwise the value is that of the first field with the name |
| TranscriptService.WatchUrlRoundTrip | api_services/transcript_service.py:9-26 | The watch URL of a plain id gives back that id |
| TranscriptService.ShortUrlRoundTrip | api_services/transcript_service.py:14-15 | The `youtu.be` URL of an id gives back the id |
| TranscriptService.OtherHostNoId | api_services/transcript_service.py:11-23 | A host other than the three YouTube hosts gives no id |
| TranscriptService.TranscriptDataFor | api_services/transcript_service.py:29-46 | A URL without a usable id gives nothing; a result is the fetch of the URL's own id |
| TranscriptService.WatchUrlFetchesId | api_services/transcript_service.py:29-46 | For a watch URL, a result exists exactly when the fetch for the id succeeds, and it is that fetch |
| TranscriptAgent.Designated | agents/youtube_transcript_agent.py:161-178 | A designator is read forward from its position, and is 0 when absent |
| TranscriptAgent.TimePart | agents/youtube_transcript_agent.py:161-178 | The time part is read forward |
| TranscriptAgent.DurationRoundTrip | agents/youtube_transcript_agent.py:161-178 | `P{d}DT{h}H{m}M{s}S` reads back as `d*86400 + h*3600 + m*60 + s` |
| TranscriptAgent.MinutesSecondsRoundTrip | agents/youtube_transcript_agent.py:161-178 | `PT{m}M{s}S`, the form of the documented example, reads back as `m*60 + s` |
| TranscriptAgent.SegmentOf | agents/youtube_transcript_agent.py:58-76 | A segment takes `text`, `start` and `duration` with their defaults |
| TranscriptAgent.Segments | agents/youtube_transcript_agent.py:58-76 | The transcript converts exactly when every item is a mapping, item by item; otherwise it raises |
| TranscriptAgent.SegmentsPrefix | agents/youtube_transcript_agent.py:58-76 | A bad item raises for the whole transcript |
| TranscriptAgent.TranscriptRunShape | agents/youtube_transcript_agent.py:78-159 | The record is for the requested id. A raising metadata service gives the minimal record; metadata without its parts gives the error title, unknown channel and zero duration |
| TranscriptAgent.TranscriptOfId | agents/youtube_transcript_agent.py:94-122 | The transcript is the converted fetch for that very id |
| TranscriptAgent.NoTranscriptOnFailure | agents/youtube_transcript_agent.py:94-100 | A failed fetch leaves the transcript empty |
| TranscriptAgent.YouTubeTranscriptAgent.constructor | agents/youtube_transcript_agent.py:17-39 | The agent keeps its key and model name and has no input yet |
| TranscriptAgent.YouTubeTranscriptAgent.ProcessTranscript | agents/youtube_transcript_agent.py:58-76 | The loop gives the converted transcript |
| TranscriptAgent.YouTubeTranscriptAgent.Run | agents/youtube_transcript_agent.py:78-159 | The record of the run specification is returned and stored as input data |
| TranscriptAgent.YouTubeTranscriptAgent.FallbackParsing | agents/youtube_transcript_agent.py:180-204 | The stored record is returned, or a fallback record when there is none |
| InsightAgent.ModelResponseShape | agents/transcript_insight_agent.py:74-96 | A transport failure gives the error text; a 200 object reply gives its `response` (default `""`) |
| InsightAgent.NoFence | agents/transcript_insight_agent.py:139-147 | An answer without backticks has no fenced block |
| InsightAgent.FencedBody | agents/transcript_insight_agent.py:139-147 | A fenced `json` block yields its stripped body |
| InsightAgent.BracedBody | agents/transcript_insight_agent.py:139-147 | Otherwise it is the span from the first `{` to the last `}` |
| InsightAgent.WholeAnswer | agents/transcript_insight_agent.py:139-147 | An answer with neither is used whole |
| InsightAgent.KeyValue | agents/transcript_insight_agent.py:153-162 | A match lies between quotes and holds no quote |
| InsightAgent.FirstKeyValue | agents/transcript_insight_agent.py:153-154 | The first match is non-empty and quote-free |
| InsightAgent.AllKeyValues | agents/transcript_insight_agent.py:156-162 | Every match is non-empty and quote-free |
| InsightAgent.SummaryFound | agents/transcript_insight_agent.py:153-154 | A `"summary": "v"` entry after quote-free text is found |
| InsightAgent.NoQuoteNoSummary | agents/transcript_insight_agent.py:153-154 | A text without quotes has no summary |
| InsightAgent.AllEntriesFound | agents/transcript_insight_agent.py:156-162 | When the separator between entries holds no `"`, all `name` entries are found, in order |
| InsightAgent.FallbackNames | agents/transcript_insight_agent.py:149-170 | The fallback record of named entries with quote-free separators keeps the video, has empty topics and points, and has one mention per name with the fixed description |
| InsightAgent.FallbackWithoutQuotes | agents/transcript_insight_agent.py:149-170 | A quote-free answer gives the no-summary record with empty lists |
| InsightAgent.MapAll | agents/transcript_insight_agent.py:119-125 | Each list element converts, or the whole conversion fails |
| InsightAgent.TranscriptText | agents/transcript_insight_agent.py:39 | The transcript joins only when every text is a string |
| InsightAgent.InsightRunShape | agents/transcript_insight_agent.py:98-137 | The record is about the video. An empty transcript never reaches the model; a well-typed decoded answer is taken; anything else goes to the fallback parser |
| InsightAgent.SummaryOnly | agents/transcript_insight_agent.py:112-129 | A decoded summary alone gives that summary and empty lists |
| InsightAgent.MentionsMustBeAList | agents/transcript_insight_agent.py:112-133 | `software_mentions` that is anything but a list, an empty text or an empty object (a non-empty text or object, null, a boolean, a number) rejects the decoded answer |
| InsightAgent.EmptyMentionsLikeEmptyList | agents/transcript_insight_agent.py:120-126 | `software_mentions` that is an empty text or an empty object reads exactly like an empty list |
| InsightAgent.TranscriptInsightsAgent.constructor | agents/transcript_insight_agent.py:22-34 | The agent's settings, with a context of 4096 tokens |
| InsightAgent.TranscriptInsightsAgent.FallbackParsing | agents/transcript_insight_agent.py:149-170 | The fallback record for the stored video |
| InsightAgent.TranscriptInsightsAgent.Run | agents/transcript_insight_agent.py:98-137 | It stores the video and returns the run specification's record |
| WorkflowStateModule.ToDict | state/workflow_state.py:5-27 | `model_dump` has exactly the eleven field keys |
| WorkflowStateModule.FromDictToDict | state/workflow_state.py:5-27 | Reading a dumped state back gives the same state |
| WorkflowStateModule.FromEmpty | state/workflow_state.py:9-27 | An empty dictionary gives the default state: flags false, all else unset |
| WorkflowStateModule.ExtraKeysIgnored | state/workflow_state.py:5-27 | An extra key does not change the state read back |
| WorkflowStateModule.FromDictNodeFields | state/workflow_state.py:5-27 | Overwriting the node's three keys reads back as the state with those three fields changed |
| AnalysisNode.NodeWritesThreeKeys | nodes/transcript_analysis_node.py:20-64 | The node changes only `error`, `analysis_result` and `transcript_analysis_completed` |
| AnalysisNode.NodeCompletion | nodes/transcript_analysis_node.py:32-64 | Completion is set exactly when video data exists, the analysis succeeds and no requested write fails, and the result is the analysis |
| AnalysisNode.NodeOnState | nodes/transcript_analysis_node.py:20-64 | Every field other than the three is kept |
| AnalysisNode.NodeOnStateRoundTrip | graph/workflow_manager.py:84-86 | Dumping, processing and reading back equals the node applied to the state |
| AnalysisNode.NodeWritesFields | nodes/transcript_analysis_node.py:20-64 | On a dumped state the node writes exactly those three values |
| AnalysisNode.StateDict.constructor | nodes/transcript_analysis_node.py:20 | The dictionary holds the given entries |
| AnalysisNode.StateDict.Process | nodes/transcript_analysis_node.py:20-64 | The same dictionary is mutated into the node's result and returned |
| Workflow.InitialState | graph/workflow_manager.py:23-29 | The default state with the URL, model and start time set |
| Workflow.AnalysedOutcome | graph/workflow_manager.py:75-97 | The analysis step keeps the id, data, URL, model, start time and extraction flag |
| Workflow.InvalidUrlOutcome | graph/workflow_manager.py:55-61 | A URL without an id ends with `Invalid YouTube URL` from the manager, with nothing extracted |
| Workflow.MissingKeyOutcome | graph/workflow_manager.py:63-69 | A missing key ends with `Missing YouTube API key`, with nothing extracted |
| Workflow.StateSaveFailure | graph/workflow_manager.py:91-104 | A failed save of the final state is caught by the manager: the error is the write's message, the error node is the manager and the end time is the error time; the transcript results stay, and the analysis is complete exactly when the node succeeded |
| Workflow.WorkflowSucceeds | graph/workflow_manager.py:31-104 | No error exactly when the id and key exist, the transcript is non-empty, the analysis succeeds and no requested write fails; then both flags, the result and the end time are set |
| Workflow.WatchUrlWorkflow | graph/workflow_manager.py:55-80 | A watch URL's run extracts the transcript of its id |
| Workflow.WorkflowManager.constructor | graph/workflow_manager.py:18-21 | The manager starts with the default state |
| Workflow.WorkflowManager.InitState | graph/workflow_manager.py:23-29 | The state becomes the initial state |
| Workflow.WorkflowManager.Analyse | graph/workflow_manager.py:75-97 | The state becomes the analysed state |
| Workflow.WorkflowManager.RunFrom | graph/workflow_manager.py:55-104 | The state after the id and key checks |
| Workflow.WorkflowManager.RunWorkflow | graph/workflow_manager.py:31-104 | The final state is the run specification's, and it is returned |
| Batch.ProcessVideoWithWorkflow | main.py:25-35 | Gives the run's final state unless its error is truthy |
| Batch.ReportedRun | main.py:30-35 | A state is reported exactly when its error is unset or empty, for the same URL; a clean run has a result |
| Batch.UnusableRunDropped | graph/workflow_manager.py:55-69 | An invalid URL or a missing key reports nothing |
| Batch.InvalidUrlDropped | graph/workflow_manager.py:55-61 | A URL without a video id is never reported |
| Batch.MissingKeyDropped | graph/workflow_manager.py:63-69 | A run without an API key is never reported |
| Batch.EmptyMessagePassesCheck | main.py:30-35 | An analysis raising with an empty message is reported as a success, though incomplete |
| Batch.UrlLinesIff | main.py:40-41 | A URL is read exactly from a line that is non-empty once stripped and does not start with `#` |
| Batch.UrlsAreClean | main.py:40-41 | The URLs read are non-empty and stripped, at most one per line |
| Batch.IndentedCommentIsRead | main.py:40-41 | An indented `#` line is read as a URL, because only the unstripped line is tested |
| Batch.ProcessBatchWithWorkflow | main.py:37-56 | A file that cannot be read gives []; otherwise the reported states of its URLs in order |
| Batch.CollectResults | main.py:45-52 | The loop gives the reported states of the URLs in order |
| Batch.ProcessUrl | main.py:46-52 | One URL's report |
| Batch.CollectedIff | main.py:45-52 | A state is collected exactly when some URL reports it |
| Batch.BatchCollectsSuccesses | main.py:37-56 | Each collected state belongs to a URL of the file and has no error, or an empty one |

## Left out

- ASCII only: `str.lower` and `str.capitalize` change ASCII letters only; other Unicode case mappings are not modelled. Likewise `\d` in the timestamp patterns and in the numbered-item test and scrub matches only the ASCII digits here, where Python's `re` also matches other Unicode decimal digits.
- InsightAgent.AllEntriesFound: stated for separators without `"`, so a quoted description between two names (as in the prompt's own layout) is not covered; ruling out a `"name"` match that starts inside it is not proved.
- InsightAgent.FallbackNames: stated for separators without `"`, for the same reason as `AllEntriesFound`.
- Durations: `_parse_duration` covers integer components, a sign, `P`, `W`, `D` and the `T` part. Years and months are ignored, and a component with a fraction (`PT1.5S`, which `isodate` reads as 1.5 seconds, so 1) gives 0 here. The alternative form `P` followed by a date and time (`P0001-02-03T04:05:06`), which `isodate` accepts, also gives 0 here.
- `urllib.parse`: percent-decoding is not modelled. The URL split covers scheme, network location, path, parameters, query and fragment, with the IPv6 bracket check, and no more.
- Transcript entries: the agent's transcript is a list of `Dict[str, Any]` (agents/analysis_agent.py:13); here each entry is an `Entry` with a numeric `start`, a string `text` and a `duration` that is numeric, `None` or absent. Entries outside that typing are not modelled: a numeric-string `start`, which `int()` accepts at line 61 but whose addition at line 257 raises `TypeError`; a last entry without `start` (reachable after the `break` at lines 64-66), which raises `KeyError` at line 257; and a non-numeric `duration`, which raises `TypeError` there.
- AnalysisFallback.EndTime: its failure is characterised only for entries typed as `Entry` (see the line on transcript entries).
- AnalysisFallback.SegmentFoldEnds: "a failure comes only from a `None` last duration" holds only for entries typed as `Entry`.
- AnalysisFallback.ProcessAllSound: "a failure comes only from a `None` last duration" holds only for entries typed as `Entry`.
- AnalysisFallback.FallbackShape: "it raises only on a `None` last duration" holds only for entries typed as `Entry`.
- `models/data_models.py` is not part of this model. `VideoRecords` and `AnalysisRecords` stand in for its records; pydantic's field validation and lax coercions are parameters or are left out.
- Exception messages: those raised by pydantic and by Python's own errors are placeholders.
- `timedelta`: its range limit is not modelled.
- Logging, `print`, file writes, HTTP (httpx, aiohttp), `asyncio`, environment variables and clocks are parameters.
- Graph files: `graph/workflow.py`, `graph/state.py` and `graph/nodes/` are not part of this model.
- Prompts: the bodies of the `_prepare_prompt` methods are not modelled (the base version is). The insight agent's request payload is not modelled.
- Inheritance: the agents do not inherit from `BaseAgent`. `AnalysisAgent.AttemptIsBaseRun` relates the enhancement agent to `BaseAgent.Run`.
- Import names: the node imports `TranscriptInsightAgent` while the class is named `TranscriptInsightsAgent`. The model connects them as the code evidently intends; the import failure is not modelled.
- Agents as inputs: the stages are connected through function inputs (`transcript`, `analyze`), not by constructing the agents.
- InsightAgent.TranscriptInsightsAgent.FallbackParsing: requires that input data is present. The source reads `self.input_data` and would fail otherwise; `run` always sets it first.
- TranscriptAgent: `list_transcripts` and the transcript fetch are folded into one `fetch` input. The service's own handler for a failing fetch (api_services/transcript_service.py:44-46) is folded into that input too: a failed fetch is `fetch` giving nothing.
- `WorkflowState(**d)`: the failure branch when reading back the node's dictionary cannot happen (`AnalysisNode.NodeOnStateRoundTrip`), so it is not modelled.
- The node: `TranscriptAnalysisNode` is a value; only the dictionary it mutates is a class.
- Batch environment: in the batch, each URL's environment (clock readings, services, write failures) is a function of the URL, so duplicate URLs see the same environment.
- Batch exceptions: exceptions escaping `run_workflow` inside the batch loop are not modelled; `run_workflow` catches its own.
- `main()`: argument parsing, `load_dotenv`, `os.makedirs` and the exit on a missing API key are not modelled.
