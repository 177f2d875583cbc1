/** The records local to the video-enhancement agent: the video it is given
    (with its transcript as a list of entries) and the analysis it returns. */
module AnalysisRecords {
  import opened Common

  /** The `duration` of a transcript entry: the key may be absent, hold
      `None`, or hold a number of seconds. */
  datatype EntryDuration = Absent | Null | Seconds(x: real)

  /** One transcript entry: its start in seconds, its text and its duration.
      The source's entries are untyped dictionaries; entries of other shapes
      are not modelled. */
  datatype Entry = Entry(start: real, text: string, duration: EntryDuration)

  /** The fields of the agent's video record that the agent reads; the
      remaining fields are carried through unread. */
  datatype AnalysisVideo = AnalysisVideo(title: string, channel: string, description: string, transcript: seq<Entry>)

  /** A topic and the span of the video it covers. */
  datatype TopicSegment = TopicSegment(topic: string, startTime: real, endTime: real, keyPoints: seq<string>)

  /** The analysis record the agent returns. */
  datatype AnalysisRecord = AnalysisRecord(
    originalData: AnalysisVideo,
    mainTopics: seq<string>,
    topicSegments: seq<TopicSegment>,
    keyPoints: seq<string>,
    sentiment: string,
    targetAudience: seq<string>,
    languageLevel: string,
    contentQuality: int,
    engagementHooks: seq<string>,
    summary: string,
    educationalValue: Option<string>,
    contentWarnings: seq<string>,
    relatedTopics: seq<string>)
}
