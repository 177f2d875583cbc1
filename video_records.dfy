/** The video record the transcript agent builds and the insight agent and
    the workflow pass on. The field values that come from the metadata and
    transcript services are kept as those services decoded them; checking
    them against the record's declared field types is not part of this
    model. */
module VideoRecords {
  import opened Common

  /** One transcript segment: its text, its start and its duration. */
  datatype Segment = Segment(text: Json, start: Json, duration: Json)

  /** The fields only a populated record sets; a minimal record leaves them
      at the record's defaults. */
  datatype Details = Details(thumbnailUrl: Json, viewCount: Json, likeCount: Json, commentCount: Json, tags: Json)

  datatype VideoData = VideoData(
    videoId: string,
    title: Json,
    description: Json,
    channel: Json,
    channelId: Json,
    publishedAt: Json,
    transcript: seq<Segment>,
    details: Option<Details>,
    duration: int)
}
