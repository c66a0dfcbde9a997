/**
 * The playlist entry as it flows through the pipeline: the dict the parser
 * builds, extended by the prober's results and the classifier's fields.
 * Every key that may be absent is an Option; None stands for both a missing
 * key and a key holding Python's None. Download speed is a plain number.
 */
module Records {
  import opened Wrappers

  datatype Source = Source(
    name: string,
    url: string,
    logo: Option<string>,
    group: Option<string>,
    sourceType: Option<string>,
    sourcePath: Option<string>,
    userAgent: Option<string>,
    category: Option<string>,
    country: Option<string>,
    region: Option<string>,
    province: Option<string>,
    city: Option<string>,
    continent: Option<string>,
    language: Option<string>,
    channelType: Option<string>,
    status: Option<string>,
    mediaType: Option<string>,
    resolution: Option<string>,
    responseTime: Option<int>,
    bitrate: Option<int>,
    downloadSpeed: Option<int>,
    isHd: Option<bool>,
    is4k: Option<bool>,
    hasVideoStream: Option<bool>)

  /** The `[Filter]` settings the qualification predicates read. */
  datatype FilterParams = FilterParams(
    maxLatency: int,
    minBitrate: int,
    mustHd: bool,
    must4k: bool,
    minSpeed: int,
    minResolution: string,
    maxResolution: string,
    mode: Option<string>)

  /** Python's `x or d` on an optional int: None and 0 both give `d`. */
  function IntOr(o: Option<int>, d: int): (r: int)
    ensures o.Some? && o.value != 0 ==> r == o.value
    ensures o.None? || o.value == 0 ==> r == d
  {
    if o.Some? && o.value != 0 then o.value else d
  }

  /** Python's `x or d` on an optional str: None and "" both give `d`. */
  function StrOr(o: Option<string>, d: string): (r: string)
    ensures Truthy(o) ==> r == o.value
    ensures !Truthy(o) ==> r == d
  {
    if Truthy(o) then o.value else d
  }

  predicate IsSuccess(s: Source) {
    s.status == Some("success")
  }

  /** `source.get('media_type', 'video')`. */
  function MediaTypeOf(s: Source): string {
    s.mediaType.GetOr("video")
  }

  /** Media types judged as sound only. */
  predicate IsAudioLike(s: Source) {
    MediaTypeOf(s) == "radio" || MediaTypeOf(s) == "audio"
  }
}
