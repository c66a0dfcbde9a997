/**
 * The orchestrator, the prober and the generator each carry their own copy of
 * the media-type, resolution and qualification logic, and the parser reads
 * back the URL lines the generator writes. These lemmas relate the copies:
 * where they agree for every entry, and concrete entries on which they part.
 */
module Agreement {
  import opened Wrappers
  import opened Text
  import opened Records
  import opened Resolution
  import opened Classification
  import opened Pipeline
  import opened StreamTester
  import opened M3uGenerator
  import opened SourceManager

  // ---------------------------------------------------------------- media type

  /**
   * With the video flag present, the orchestrator and the prober agree on
   * whether an entry is video; they differ only in naming the rest.
   */
  lemma MediaTypeFlagPresent(s: Source)
    requires s.hasVideoStream.Some?
    ensures (ClassifyMediaType(s) == "video") == (DetermineMediaType(s.hasVideoStream, s.resolution) == "video")
  {
    assert s.hasVideoStream.GetOr(true) == s.hasVideoStream.GetOr(false);
  }

  /**
   * With the flag missing they disagree on every entry whose resolution is not
   * a tiny "WxH": the orchestrator defaults to video, the prober to audio.
   */
  lemma MediaTypeFlagMissing(s: Source)
    requires s.hasVideoStream.None? && !IsTinyWxH(s.resolution.GetOr(""))
    ensures ClassifyMediaType(s) == "video"
    ensures DetermineMediaType(s.hasVideoStream, s.resolution) == "audio"
  {
    assert s.hasVideoStream.GetOr(true);
    assert !s.hasVideoStream.GetOr(false);
  }

  // ---------------------------------------------------------------- qualification

  /** For sound-only entries the three qualification tests are one and the same latency test. */
  lemma SoundQualifiedAgree(s: Source, p: FilterParams)
    requires IsAudioLike(s)
    ensures IsSourceQualified(s, p) == CheckIfQualified(s, p) == GeneratorQualified(s, p)
    ensures IsSourceQualified(s, p) <==> IsSuccess(s) && s.responseTime.GetOr(9999) <= p.maxLatency
  {
  }

  /**
   * On a video entry whose resolution the orchestrator and the prober judge
   * alike, their qualification tests agree: the resolution step is their only
   * difference.
   */
  lemma VideoQualifiedAgree(s: Source, p: FilterParams)
    requires !IsAudioLike(s)
    requires CheckResolution(s.resolution, p.minResolution, p.maxResolution, p.mode.GetOr("range"))
             == TesterResolutionOk(s.resolution.GetOr(""), p.minResolution, p.maxResolution, p.mode.GetOr("range"))
    ensures IsSourceQualified(s, p) == CheckIfQualified(s, p)
  {
    if IsSourceQualified(s, p) {
      assert TesterVideoChecks(s, p);
    }
  }

  /** The generator adds one demand to the prober's: a measured speed of at least the minimum. */
  lemma GeneratorStricter(s: Source, p: FilterParams)
    ensures GeneratorQualified(s, p) ==> CheckIfQualified(s, p)
    ensures p.minSpeed <= 0 && s.downloadSpeed.GetOr(0) >= 0 ==> GeneratorQualified(s, p) == CheckIfQualified(s, p)
  {
  }

  /** A successful, fast video entry with the given resolution and speed, and nothing else set. */
  function Probed(resolution: string, speed: Option<int>): Source {
    Source(name := "CCTV-1", url := "http://example.com/live.m3u8", logo := None, group := None,
           sourceType := None, sourcePath := None, userAgent := None, category := None,
           country := None, region := None, province := None, city := None, continent := None,
           language := None, channelType := None, status := Some("success"), mediaType := Some("video"),
           resolution := Some(resolution), responseTime := Some(100), bitrate := None,
           downloadSpeed := speed, isHd := None, is4k := None, hasVideoStream := Some(true))
  }

  /** Bounds with no latency, bitrate or HD demand. */
  function Bounds(minRes: string, maxRes: string, mode: string, minSpeed: int): FilterParams {
    FilterParams(maxLatency := 5000, minBitrate := 0, mustHd := false, must4k := false,
                 minSpeed := minSpeed, minResolution := minRes, maxResolution := maxRes, mode := Some(mode))
  }

  lemma EmptyBoundParses()
    ensures ParseDims("", Zero) == Zero
  {
    ContainsChar("", 'x');
  }

  /**
   * An entry with no measured speed passes the orchestrator and the prober,
   * which skip a speed of 0, and fails the generator under a positive minimum.
   */
  lemma UnmeasuredSpeedSplits()
    ensures IsSourceQualified(Probed("1920x1080", None), Bounds("", "", "range", 1))
    ensures CheckIfQualified(Probed("1920x1080", None), Bounds("", "", "range", 1))
    ensures !GeneratorQualified(Probed("1920x1080", None), Bounds("", "", "range", 1))
  {
    EmptyBoundParses();
    var s := Probed("1920x1080", None);
    var p := Bounds("", "", "range", 1);
    assert CheckResolution(s.resolution, p.minResolution, p.maxResolution, "range");
  }

  /**
   * With max_only and maximum "1080p", a resolution that does not parse
   * passes the orchestrator, which reads it as 0x0, and fails the prober and
   * the generator, which read it as 9999x9999 on the maximum side.
   */
  lemma UnparsableUnderMaxSplits()
    ensures IsSourceQualified(Probed("abc", None), Bounds("", "1080p", "max_only", 0))
    ensures !CheckIfQualified(Probed("abc", None), Bounds("", "1080p", "max_only", 0))
    ensures !GeneratorQualified(Probed("abc", None), Bounds("", "1080p", "max_only", 0))
  {
    CheckVersusMeetMax();
    assert !TesterResolutionOk("abc", "", "1080p", "max_only");
  }

  /**
   * The prober's own placeholder "unknown" passes the orchestrator's check
   * whatever the bounds, and fails the prober's check under a "720p" minimum.
   */
  lemma UnknownUnderMinSplits()
    ensures IsSourceQualified(Probed("unknown", None), Bounds("720p", "", "min_only", 0))
    ensures !CheckIfQualified(Probed("unknown", None), Bounds("720p", "", "min_only", 0))
  {
    assert !MeetMin("unknown", "720p") by {
      ParseDimsNoMarker("unknown", Zero);
      P1080();
    }
    assert !TesterResolutionOk("unknown", "720p", "", "min_only");
    assert CheckResolution(Some("unknown"), "720p", "", "min_only");
  }

  // ---------------------------------------------------------------- the URL line, written and read back

  /**
   * The parser reads a URL line the generator wrote with the user agent
   * attached back into the entry's URL and user agent.
   */
  lemma UrlLineReadBack(s: Source, cfg: GeneratorConfig, inherited: Option<string>)
    requires cfg.uaEnabled && cfg.uaPosition == "url" && Truthy(s.userAgent)
    requires '|' !in s.url && '|' !in s.userAgent.value && !Contains(s.userAgent.value, UaKey)
    ensures SplitUrl(UrlLine(s, cfg), inherited) == (s.url, s.userAgent)
  {
    assert UrlLine(s, cfg) == s.url + "|" + UaKey + s.userAgent.value;
    SplitUrlRoundTrip(s.url, s.userAgent.value, inherited);
  }

  /** Without the user agent in the line, the parser reads back the URL and keeps the agent it inherits. */
  lemma UrlLinePlainReadBack(s: Source, cfg: GeneratorConfig, inherited: Option<string>)
    requires !(cfg.uaEnabled && cfg.uaPosition == "url" && Truthy(s.userAgent))
    requires '|' !in s.url
    ensures SplitUrl(UrlLine(s, cfg), inherited) == (s.url, inherited)
  {
  }
}
