/**
 * The prober's bookkeeping around the external probe: the TTL result cache,
 * the metadata extractor over the probe's stream list, the prober's own
 * media-type rule and qualification predicate, the worker-count rule, the
 * IPv6 gate and the parameter filter behind cache-key normalisation.
 */
module StreamTester {
  import opened Wrappers
  import opened Text
  import opened Grouping
  import opened Records
  import opened Resolution

  // ================================================================ the result cache

  /** A value of a probe-result dict, as far as the cache is concerned. */
  datatype Value = VStr(s: string) | VInt(i: int) | VBool(b: bool) | VNone

  type ProbeResult = map<string, Value>

  /** One cache row; `timestamp` counts microseconds. */
  datatype CacheEntry = CacheEntry(status: Value, responseTime: Value, metadata: ProbeResult, timestamp: int)

  /** The two module globals: the table and the time of the last sweep. */
  datatype CacheState = CacheState(entries: map<string, CacheEntry>, lastCleanup: int)

  /** Seconds between two sweeps, in microseconds. */
  const CleanupInterval := 300_000_000

  /** `timedelta(minutes=m)` in microseconds. */
  function Ttl(minutes: int): int {
    minutes * 60_000_000
  }

  /** The row `_cache_result` writes: status and response time apart, every other key as metadata. */
  function EntryOf(r: ProbeResult, now: int): (e: CacheEntry)
    requires "status" in r && "response_time" in r
    ensures e.status == r["status"] && e.responseTime == r["response_time"] && e.timestamp == now
    ensures forall k :: k in e.metadata <==> k in r && k != "status" && k != "response_time"
    ensures forall k :: k in e.metadata ==> e.metadata[k] == r[k]
  {
    CacheEntry(r["status"], r["response_time"],
               map k | k in r.Keys && k != "status" && k != "response_time" :: r[k], now)
  }

  /** The dict a cache hit rebuilds: status and response time, then the metadata keys. */
  function Rebuilt(e: CacheEntry): ProbeResult {
    map["status" := e.status, "response_time" := e.responseTime] + e.metadata
  }

  /** `_cache_result`: (over)write the key's row. */
  function Store(st: CacheState, key: string, r: ProbeResult, now: int): CacheState
    requires "status" in r && "response_time" in r
  {
    st.(entries := st.entries[key := EntryOf(r, now)])
  }

  /** `_get_cached_result`: a row younger than the TTL is a hit, an older one is deleted. */
  function Lookup(st: CacheState, key: string, now: int, ttlMinutes: int): (Option<ProbeResult>, CacheState) {
    if key !in st.entries then (None, st)
    else if now - st.entries[key].timestamp < Ttl(ttlMinutes) then (Some(Rebuilt(st.entries[key])), st)
    else (None, st.(entries := st.entries - {key}))
  }

  /** The rows `cleanup_cache` deletes: strictly older than the TTL. */
  predicate Expired(e: CacheEntry, now: int, ttlMinutes: int) {
    now - e.timestamp > Ttl(ttlMinutes)
  }

  /** `cleanup_cache`: after more than 300 seconds, drop the expired rows and restart the clock. */
  function Sweep(st: CacheState, now: int, ttlMinutes: int): CacheState {
    if now - st.lastCleanup > CleanupInterval then
      CacheState(map k | k in st.entries && !Expired(st.entries[k], now, ttlMinutes) :: st.entries[k], now)
    else st
  }

  /** The cache globals as an object whose methods update them in place. */
  class ProbeCache {
    var entries: map<string, CacheEntry>
    var lastCleanup: int

    function State(): CacheState
      reads this
    {
      CacheState(entries, lastCleanup)
    }

    /** The globals at import time: an empty table, the clock started at `now`. */
    constructor (now: int)
      ensures State() == CacheState(map[], now)
    {
      entries := map[];
      lastCleanup := now;
    }

    method CacheResult(key: string, r: ProbeResult, now: int)
      requires "status" in r && "response_time" in r
      modifies this
      ensures State() == Store(old(State()), key, r, now)
    {
      var meta := map k | k in r.Keys && k != "status" && k != "response_time" :: r[k];
      entries := entries[key := CacheEntry(r["status"], r["response_time"], meta, now)];
    }

    method GetCachedResult(key: string, now: int, ttlMinutes: int) returns (hit: Option<ProbeResult>)
      modifies this
      ensures (hit, State()) == Lookup(old(State()), key, now, ttlMinutes)
    {
      hit := None;
      if key in entries {
        var e := entries[key];
        var age := now - e.timestamp;
        if age < Ttl(ttlMinutes) {
          hit := Some(map["status" := e.status, "response_time" := e.responseTime] + e.metadata);
        } else {
          entries := entries - {key};
        }
      }
    }

    /** Collect the expired keys, then delete them one by one. */
    method CleanupCache(now: int, ttlMinutes: int)
      modifies this
      ensures State() == Sweep(old(State()), now, ttlMinutes)
    {
      if now - lastCleanup > CleanupInterval {
        var expired := set k | k in entries && Expired(entries[k], now, ttlMinutes);
        ghost var start := entries;
        var pending := expired;
        while pending != {}
          invariant pending <= expired
          invariant forall k :: k in entries <==> k in start && (k in expired ==> k in pending)
          invariant forall k :: k in entries ==> entries[k] == start[k]
          decreases pending
        {
          var k :| k in pending;
          entries := entries - {k};
          pending := pending - {k};
        }
        assert entries == map k | k in start && !Expired(start[k], now, ttlMinutes) :: start[k];
        lastCleanup := now;
      }
    }
  }

  /** A stored result read back before its TTL is the same dict. */
  lemma CacheRoundTrip(st: CacheState, key: string, r: ProbeResult, t: int, t2: int, ttlMinutes: int)
    requires "status" in r && "response_time" in r
    requires t2 - t < Ttl(ttlMinutes)
    ensures Lookup(Store(st, key, r, t), key, t2, ttlMinutes) == (Some(r), Store(st, key, r, t))
  {
    var e := EntryOf(r, t);
    var b := Rebuilt(e);
    assert forall k :: k in b <==> k in r;
    assert forall k :: k in b ==> b[k] == r[k];
    assert b == r;
  }

  /** Storing touches one key only. */
  lemma StoreOtherKeys(st: CacheState, key: string, r: ProbeResult, now: int, other: string)
    requires "status" in r && "response_time" in r && other != key
    ensures var st2 := Store(st, key, r, now);
            (other in st2.entries <==> other in st.entries)
            && (other in st.entries ==> st2.entries[other] == st.entries[other])
            && st2.lastCleanup == st.lastCleanup
  {
  }

  /**
   * A read misses exactly when the key is absent or at least a TTL old; a
   * stale read deletes that key and nothing else, and no read moves the sweep
   * clock.
   */
  lemma LookupSpec(st: CacheState, key: string, now: int, ttlMinutes: int)
    ensures var (hit, st2) := Lookup(st, key, now, ttlMinutes);
            (hit.None? <==> key !in st.entries || now - st.entries[key].timestamp >= Ttl(ttlMinutes))
            && (hit.Some? ==> st2 == st && hit.value == Rebuilt(st.entries[key]))
            && (hit.None? ==> st2.entries == st.entries - {key})
            && st2.lastCleanup == st.lastCleanup
  {
  }

  /**
   * A sweep within 300 seconds of the last changes nothing; a later one keeps
   * exactly the rows at most a TTL old, unchanged, and restarts the clock.
   */
  lemma SweepSpec(st: CacheState, now: int, ttlMinutes: int)
    ensures now - st.lastCleanup <= CleanupInterval ==> Sweep(st, now, ttlMinutes) == st
    ensures now - st.lastCleanup > CleanupInterval ==>
              var st2 := Sweep(st, now, ttlMinutes);
              st2.lastCleanup == now
              && (forall k :: k in st2.entries <==>
                     k in st.entries && now - st.entries[k].timestamp <= Ttl(ttlMinutes))
              && (forall k :: k in st2.entries ==> st2.entries[k] == st.entries[k])
  {
  }

  /** At an age of exactly one TTL the read path deletes the row but the sweep keeps it. */
  lemma CacheBoundary(st: CacheState, key: string, now: int, ttlMinutes: int)
    requires key in st.entries && now - st.entries[key].timestamp == Ttl(ttlMinutes)
    requires now - st.lastCleanup > CleanupInterval
    ensures Lookup(st, key, now, ttlMinutes).0 == None
    ensures key !in Lookup(st, key, now, ttlMinutes).1.entries
    ensures key in Sweep(st, now, ttlMinutes).entries
  {
  }

  // ================================================================ the metadata extractor

  /** A JSON value of the probe's output where an integer is expected. */
  datatype Field = FInt(i: int) | FStr(s: string) | FOther

  /** Python's `int(x)` on a probe field; a failure is None (the caller skips the field). */
  function IntOf(f: Field): Option<int> {
    match f
    case FInt(i) => Some(i)
    case FStr(s) => ParseInt(s)
    case FOther => None
  }

  datatype FormatInfo = FormatInfo(bitRate: Option<Field>)

  datatype Stream = Stream(
    codecType: Option<string>,
    width: Option<int>,
    height: Option<int>,
    level: Option<Field>,
    sampleRate: Option<Field>,
    channels: Option<Field>,
    bitRate: Option<Field>)

  /** The probe's parsed JSON; an absent `streams` key is the empty list. */
  datatype ProbeData = ProbeData(format: Option<FormatInfo>, streams: seq<Stream>)

  /** The integer, boolean and resolution keys of the metadata dict. */
  datatype Metadata = Metadata(
    bitrate: int,
    resolution: string,
    isHd: bool,
    is4k: bool,
    videoLevel: int,
    hasVideo: bool,
    sampleRate: int,
    channels: int,
    audioBitrate: int,
    hasAudio: bool,
    streamCount: int,
    videoCount: int,
    audioCount: int,
    mediaType: string)

  function CodecOf(st: Stream): string {
    st.codecType.GetOr("unknown")
  }

  /** An optional field that `int()` accepts. */
  function ParsedField(f: Option<Field>): Option<int> {
    match f
    case Some(x) => IntOf(x)
    case None => None
  }

  /** The container bitrate in kbit/s, floor-divided as `//` does; 0 when absent or malformed. */
  function FormatBitrate(format: Option<FormatInfo>): int {
    match format
    case None => 0
    case Some(fi) =>
      match ParsedField(fi.bitRate)
      case Some(b) => b / 1000
      case None => 0
  }

  function Initial(format: Option<FormatInfo>): Metadata {
    Metadata(FormatBitrate(format), "", false, false, 0, false, 0, 0, 0, false, 0, 0, 0, "unknown")
  }

  /** "WxH" from the stream's own sizes. */
  function ResolutionText(w: int, h: int): string {
    IntToString(w) + "x" + IntToString(h)
  }

  /** `metadata.update(_extract_video_stream_info(stream))`. */
  function VideoInfo(m: Metadata, st: Stream): Metadata {
    var w := st.width.GetOr(0);
    var h := st.height.GetOr(0);
    var m1 := if w != 0 && h != 0 then m.(resolution := ResolutionText(w, h), isHd := h >= 720, is4k := h >= 2160) else m;
    match ParsedField(st.level)
    case Some(v) => m1.(videoLevel := v)
    case None => m1
  }

  /** `metadata.update(_extract_audio_stream_info(stream))`. */
  function AudioInfo(m: Metadata, st: Stream): Metadata {
    var bitRate := ParsedField(st.bitRate);
    m.(sampleRate := ParsedField(st.sampleRate).GetOr(m.sampleRate),
       channels := ParsedField(st.channels).GetOr(m.channels),
       audioBitrate := if bitRate.Some? then bitRate.value / 1000 else m.audioBitrate)
  }

  /** One pass of the stream loop. */
  function Step(m: Metadata, st: Stream): Metadata {
    var m1 := m.(streamCount := m.streamCount + 1);
    if CodecOf(st) == "video" then VideoInfo(m1.(videoCount := m1.videoCount + 1, hasVideo := true), st)
    else if CodecOf(st) == "audio" then AudioInfo(m1.(audioCount := m1.audioCount + 1, hasAudio := true), st)
    else m1
  }

  function Fold(m: Metadata, ss: seq<Stream>): Metadata {
    if |ss| == 0 then m else Step(Fold(m, ss[..|ss| - 1]), ss[|ss| - 1])
  }

  function FirstVideo(ss: seq<Stream>): Option<Stream> {
    if |ss| == 0 then None
    else if CodecOf(ss[0]) == "video" then Some(ss[0])
    else FirstVideo(ss[1..])
  }

  /** After the loop: when no resolution was set, try the first video stream's sizes. */
  function Fallback(m: Metadata, ss: seq<Stream>): Metadata {
    match FirstVideo(ss)
    case None => m
    case Some(v) =>
      if m.resolution != "" then m
      else
        var w := v.width.GetOr(0);
        var h := v.height.GetOr(0);
        if w != 0 && h != 0 then m.(resolution := ResolutionText(w, h), isHd := h >= 720, is4k := h >= 2160) else m
  }

  /** What `extract_metadata` returns, on its integer, boolean and resolution keys. */
  function MetadataOf(d: ProbeData): Metadata {
    Fallback(Fold(Initial(d.format), d.streams), d.streams)
  }

  /** The body of the stream loop: count the stream and merge the video or audio details. */
  method ReadStream(m0: Metadata, st: Stream) returns (m: Metadata)
    ensures m == Step(m0, st)
  {
    m := m0.(streamCount := m0.streamCount + 1);
    if CodecOf(st) == "video" {
      m := m.(videoCount := m.videoCount + 1, hasVideo := true);
      m := VideoInfo(m, st);
    } else if CodecOf(st) == "audio" {
      m := m.(audioCount := m.audioCount + 1, hasAudio := true);
      m := AudioInfo(m, st);
    }
  }

  lemma FoldAt(m: Metadata, ss: seq<Stream>, i: nat)
    requires i < |ss|
    ensures Fold(m, ss[..i + 1]) == Step(Fold(m, ss[..i]), ss[i])
  {
    assert ss[..i + 1][..i] == ss[..i];
  }

  lemma FirstVideoAt(ss: seq<Stream>, i: nat)
    requires i < |ss|
    ensures FirstVideo(ss[i..]) == if CodecOf(ss[i]) == "video" then Some(ss[i]) else FirstVideo(ss[i + 1..])
  {
    assert ss[i..][1..] == ss[i + 1..];
  }

  /** `extract_metadata`: the loop over the streams, then the first-video fallback. */
  method ExtractMetadata(d: ProbeData) returns (m: Metadata)
    ensures m == MetadataOf(d)
  {
    m := Initial(d.format);
    var mainVideo: Option<Stream> := None;
    var i := 0;
    while i < |d.streams|
      invariant 0 <= i <= |d.streams|
      invariant m == Fold(Initial(d.format), d.streams[..i])
      invariant FirstVideo(d.streams) == if mainVideo.Some? then mainVideo else FirstVideo(d.streams[i..])
    {
      var st := d.streams[i];
      FoldAt(Initial(d.format), d.streams, i);
      FirstVideoAt(d.streams, i);
      if CodecOf(st) == "video" && mainVideo.None? {
        mainVideo := Some(st);
      }
      m := ReadStream(m, st);
      i := i + 1;
    }
    assert d.streams[..i] == d.streams;
    if mainVideo.Some? && m.resolution == "" {
      var w := mainVideo.value.width.GetOr(0);
      var h := mainVideo.value.height.GetOr(0);
      if w != 0 && h != 0 {
        m := m.(resolution := ResolutionText(w, h), isHd := h >= 720, is4k := h >= 2160);
      }
    }
  }

  // ---------------------------------------------------------------- reference definitions, per key

  function CountCodec(ss: seq<Stream>, codec: string): nat {
    if |ss| == 0 then 0
    else CountCodec(ss[..|ss| - 1], codec) + (if CodecOf(ss[|ss| - 1]) == codec then 1 else 0)
  }

  /** Streams that are neither video nor audio. */
  function CountOther(ss: seq<Stream>): nat {
    if |ss| == 0 then 0
    else CountOther(ss[..|ss| - 1]) + (if CodecOf(ss[|ss| - 1]) != "video" && CodecOf(ss[|ss| - 1]) != "audio" then 1 else 0)
  }

  /** The sizes of the last video stream whose width and height are both nonzero. */
  function LastVideoDims(ss: seq<Stream>): Option<Dims> {
    if |ss| == 0 then None
    else
      var st := ss[|ss| - 1];
      if CodecOf(st) == "video" && st.width.GetOr(0) != 0 && st.height.GetOr(0) != 0
      then Some(Dims(st.width.GetOr(0), st.height.GetOr(0)))
      else LastVideoDims(ss[..|ss| - 1])
  }

  /** The last value `int()` accepts of the field `sel` among the streams of type `codec`. */
  function LastParsed(ss: seq<Stream>, codec: string, sel: Stream -> Option<Field>): Option<int> {
    if |ss| == 0 then None
    else
      var st := ss[|ss| - 1];
      if CodecOf(st) == codec && ParsedField(sel(st)).Some? then ParsedField(sel(st))
      else LastParsed(ss[..|ss| - 1], codec, sel)
  }

  function LevelSel(): Stream -> Option<Field> { (st: Stream) => st.level }
  function SampleRateSel(): Stream -> Option<Field> { (st: Stream) => st.sampleRate }
  function ChannelsSel(): Stream -> Option<Field> { (st: Stream) => st.channels }
  function BitRateSel(): Stream -> Option<Field> { (st: Stream) => st.bitRate }

  lemma VideoInfoFacts(m: Metadata, st: Stream)
    ensures var r := VideoInfo(m, st);
            r.streamCount == m.streamCount && r.videoCount == m.videoCount && r.audioCount == m.audioCount
            && r.hasVideo == m.hasVideo && r.hasAudio == m.hasAudio && r.bitrate == m.bitrate && r.mediaType == m.mediaType
            && r.sampleRate == m.sampleRate && r.channels == m.channels && r.audioBitrate == m.audioBitrate
            && r.videoLevel == ParsedField(st.level).GetOr(m.videoLevel)
    ensures var r := VideoInfo(m, st);
            if st.width.GetOr(0) != 0 && st.height.GetOr(0) != 0
            then r.resolution == ResolutionText(st.width.GetOr(0), st.height.GetOr(0))
                 && r.isHd == (st.height.GetOr(0) >= 720) && r.is4k == (st.height.GetOr(0) >= 2160)
            else r.resolution == m.resolution && r.isHd == m.isHd && r.is4k == m.is4k
  {
  }

  /** The audio details leave the counters, the flags and the video keys alone. */
  lemma AudioInfoKeeps(m: Metadata, st: Stream)
    ensures var r := AudioInfo(m, st);
            r.streamCount == m.streamCount && r.videoCount == m.videoCount && r.audioCount == m.audioCount
            && r.hasVideo == m.hasVideo && r.hasAudio == m.hasAudio && r.bitrate == m.bitrate && r.mediaType == m.mediaType
            && r.resolution == m.resolution && r.isHd == m.isHd && r.is4k == m.is4k && r.videoLevel == m.videoLevel
  {
  }

  /** Each audio key takes the stream's value when `int()` accepts it and keeps the old one otherwise. */
  lemma AudioInfoSets(m: Metadata, st: Stream)
    ensures var r := AudioInfo(m, st);
            r.sampleRate == ParsedField(st.sampleRate).GetOr(m.sampleRate)
            && r.channels == ParsedField(st.channels).GetOr(m.channels)
            && r.audioBitrate == (if ParsedField(st.bitRate).Some? then ParsedField(st.bitRate).value / 1000 else m.audioBitrate)
  {
  }

  /** One pass of the loop on the counters and flags. */
  lemma StepCounts(m: Metadata, st: Stream)
    ensures var r := Step(m, st);
            var video := CodecOf(st) == "video";
            var audio := CodecOf(st) == "audio";
            r.streamCount == m.streamCount + 1
            && r.videoCount == m.videoCount + (if video then 1 else 0)
            && r.audioCount == m.audioCount + (if audio then 1 else 0)
            && r.hasVideo == (m.hasVideo || video) && r.hasAudio == (m.hasAudio || audio)
            && r.bitrate == m.bitrate && r.mediaType == m.mediaType
  {
    var m1 := m.(streamCount := m.streamCount + 1);
    if CodecOf(st) == "video" {
      VideoInfoFacts(m1.(videoCount := m1.videoCount + 1, hasVideo := true), st);
    } else if CodecOf(st) == "audio" {
      AudioInfoKeeps(m1.(audioCount := m1.audioCount + 1, hasAudio := true), st);
    }
  }

  /** One pass of the loop on the resolution and its flags. */
  lemma StepResolution(m: Metadata, st: Stream)
    ensures var r := Step(m, st);
            if CodecOf(st) == "video" && st.width.GetOr(0) != 0 && st.height.GetOr(0) != 0
            then r.resolution == ResolutionText(st.width.GetOr(0), st.height.GetOr(0))
                 && r.isHd == (st.height.GetOr(0) >= 720) && r.is4k == (st.height.GetOr(0) >= 2160)
            else r.resolution == m.resolution && r.isHd == m.isHd && r.is4k == m.is4k
  {
    var m1 := m.(streamCount := m.streamCount + 1);
    if CodecOf(st) == "video" {
      VideoInfoFacts(m1.(videoCount := m1.videoCount + 1, hasVideo := true), st);
    } else if CodecOf(st) == "audio" {
      AudioInfoKeeps(m1.(audioCount := m1.audioCount + 1, hasAudio := true), st);
    }
  }

  /** One pass of the loop on the per-stream integer keys. */
  lemma StepFields(m: Metadata, st: Stream)
    ensures var r := Step(m, st);
            r.videoLevel == (if CodecOf(st) == "video" then ParsedField(st.level).GetOr(m.videoLevel) else m.videoLevel)
            && r.sampleRate == (if CodecOf(st) == "audio" then ParsedField(st.sampleRate).GetOr(m.sampleRate) else m.sampleRate)
            && r.channels == (if CodecOf(st) == "audio" then ParsedField(st.channels).GetOr(m.channels) else m.channels)
            && r.audioBitrate == (if CodecOf(st) == "audio" && ParsedField(st.bitRate).Some?
                                  then ParsedField(st.bitRate).value / 1000 else m.audioBitrate)
  {
    var m1 := m.(streamCount := m.streamCount + 1);
    if CodecOf(st) == "video" {
      VideoInfoFacts(m1.(videoCount := m1.videoCount + 1, hasVideo := true), st);
    } else if CodecOf(st) == "audio" {
      AudioInfoKeeps(m1.(audioCount := m1.audioCount + 1, hasAudio := true), st);
      AudioInfoSets(m1.(audioCount := m1.audioCount + 1, hasAudio := true), st);
    }
  }

  lemma {:induction false} FoldCounts(m: Metadata, ss: seq<Stream>)
    ensures var r := Fold(m, ss);
            r.streamCount == m.streamCount + |ss|
            && r.videoCount == m.videoCount + CountCodec(ss, "video")
            && r.audioCount == m.audioCount + CountCodec(ss, "audio")
            && r.hasVideo == (m.hasVideo || CountCodec(ss, "video") > 0)
            && r.hasAudio == (m.hasAudio || CountCodec(ss, "audio") > 0)
            && r.bitrate == m.bitrate && r.mediaType == m.mediaType
            && |ss| == CountCodec(ss, "video") + CountCodec(ss, "audio") + CountOther(ss)
  {
    if |ss| > 0 {
      FoldCounts(m, ss[..|ss| - 1]);
      StepCounts(Fold(m, ss[..|ss| - 1]), ss[|ss| - 1]);
    }
  }

  lemma {:induction false} FoldResolution(m: Metadata, ss: seq<Stream>)
    ensures var r := Fold(m, ss);
            match LastVideoDims(ss)
            case Some(d) => r.resolution == ResolutionText(d.w, d.h) && r.isHd == (d.h >= 720) && r.is4k == (d.h >= 2160)
            case None => r.resolution == m.resolution && r.isHd == m.isHd && r.is4k == m.is4k
  {
    if |ss| > 0 {
      FoldResolution(m, ss[..|ss| - 1]);
      StepResolution(Fold(m, ss[..|ss| - 1]), ss[|ss| - 1]);
    }
  }

  lemma {:induction false} FoldFields(m: Metadata, ss: seq<Stream>)
    ensures var r := Fold(m, ss);
            r.videoLevel == LastParsed(ss, "video", LevelSel()).GetOr(m.videoLevel)
            && r.sampleRate == LastParsed(ss, "audio", SampleRateSel()).GetOr(m.sampleRate)
            && r.channels == LastParsed(ss, "audio", ChannelsSel()).GetOr(m.channels)
            && r.audioBitrate == (match LastParsed(ss, "audio", BitRateSel()) case Some(b) => b / 1000 case None => m.audioBitrate)
  {
    if |ss| > 0 {
      FoldFields(m, ss[..|ss| - 1]);
      StepFields(Fold(m, ss[..|ss| - 1]), ss[|ss| - 1]);
    }
  }

  /** No video stream with two nonzero sizes: in particular the first video stream has none. */
  lemma {:induction false} NoDimsFirstVideo(ss: seq<Stream>)
    requires LastVideoDims(ss).None?
    ensures FirstVideo(ss).Some? ==> FirstVideo(ss).value.width.GetOr(0) == 0 || FirstVideo(ss).value.height.GetOr(0) == 0
  {
    if |ss| > 0 {
      if CodecOf(ss[0]) != "video" {
        NoDimsTail(ss);
        NoDimsFirstVideo(ss[1..]);
      } else {
        NoDimsAt(ss, 0);
      }
    }
  }

  lemma {:induction false} NoDimsAt(ss: seq<Stream>, i: int)
    requires LastVideoDims(ss).None? && 0 <= i < |ss| && CodecOf(ss[i]) == "video"
    ensures ss[i].width.GetOr(0) == 0 || ss[i].height.GetOr(0) == 0
  {
    if i < |ss| - 1 {
      NoDimsAt(ss[..|ss| - 1], i);
    }
  }

  lemma NoDimsTail(ss: seq<Stream>)
    requires LastVideoDims(ss).None? && |ss| > 0
    ensures LastVideoDims(ss[1..]).None?
  {
    forall i | 0 <= i < |ss| - 1 && CodecOf(ss[1..][i]) == "video"
      ensures ss[1..][i].width.GetOr(0) == 0 || ss[1..][i].height.GetOr(0) == 0
    {
      NoDimsAt(ss, i + 1);
    }
    AllZeroNoDims(ss[1..]);
  }

  lemma {:induction false} AllZeroNoDims(ss: seq<Stream>)
    requires forall i :: 0 <= i < |ss| && CodecOf(ss[i]) == "video" ==> ss[i].width.GetOr(0) == 0 || ss[i].height.GetOr(0) == 0
    ensures LastVideoDims(ss).None?
  {
    if |ss| > 0 {
      AllZeroNoDims(ss[..|ss| - 1]);
    }
  }

  /**
   * The first-video fallback never fires: a resolution still empty after the
   * loop means no video stream had two nonzero sizes, the first included.
   */
  lemma FallbackDead(d: ProbeData)
    ensures MetadataOf(d) == Fold(Initial(d.format), d.streams)
  {
    var m := Fold(Initial(d.format), d.streams);
    FoldResolution(Initial(d.format), d.streams);
    if LastVideoDims(d.streams).None? {
      NoDimsFirstVideo(d.streams);
    }
  }

  /**
   * What `extract_metadata` promises: the counters count the streams by type,
   * the flags say whether a counter is positive, the bitrate is the
   * container's in kbit/s, the resolution and HD flags come from the last video
   * stream with two nonzero sizes and parse back to them, 4K implies HD, and
   * the per-stream integer keys are the last values `int()` accepts.
   */
  lemma MetadataSpec(d: ProbeData)
    ensures var m := MetadataOf(d);
            m.streamCount == |d.streams| == m.videoCount + m.audioCount + CountOther(d.streams)
            && m.videoCount == CountCodec(d.streams, "video") && m.audioCount == CountCodec(d.streams, "audio")
            && (m.hasVideo <==> m.videoCount > 0) && (m.hasAudio <==> m.audioCount > 0)
            && m.bitrate == FormatBitrate(d.format) && m.mediaType == "unknown"
    ensures var m := MetadataOf(d);
            (m.is4k ==> m.isHd)
            && (m.resolution == "" ==> !m.isHd && !m.is4k)
            && (m.resolution == "" <==> LastVideoDims(d.streams).None?)
            && (LastVideoDims(d.streams).Some? ==>
                  ParseWxH(m.resolution) == LastVideoDims(d.streams)
                  && m.isHd == (LastVideoDims(d.streams).value.h >= 720)
                  && m.is4k == (LastVideoDims(d.streams).value.h >= 2160))
    ensures var m := MetadataOf(d);
            m.videoLevel == LastParsed(d.streams, "video", LevelSel()).GetOr(0)
            && m.sampleRate == LastParsed(d.streams, "audio", SampleRateSel()).GetOr(0)
            && m.channels == LastParsed(d.streams, "audio", ChannelsSel()).GetOr(0)
            && m.audioBitrate == (match LastParsed(d.streams, "audio", BitRateSel()) case Some(b) => b / 1000 case None => 0)
  {
    FallbackDead(d);
    FoldCounts(Initial(d.format), d.streams);
    FoldResolution(Initial(d.format), d.streams);
    FoldFields(Initial(d.format), d.streams);
    if LastVideoDims(d.streams).Some? {
      var v := LastVideoDims(d.streams).value;
      IntToStringChars(v.w);
      ParseDimsWxH(v.w, v.h, Zero);
    }
  }

  /** A container bit_rate written as the decimal digits of n gives n // 1000. */
  lemma BitrateDigits(n: int)
    ensures FormatBitrate(Some(FormatInfo(Some(FStr(IntToString(n)))))) == n / 1000
  {
    ParseIntToString(n);
  }

  // ================================================================ the prober's judgements

  /**
   * `_determine_media_type`: only "video" or "audio", never "radio"; a
   * missing video flag counts as no video, and a tiny "WxH" is audio.
   */
  function DetermineMediaType(hasVideo: Option<bool>, resolution: Option<string>): (r: string)
    ensures r == "video" || r == "audio"
    ensures r == "audio" <==> !hasVideo.GetOr(false) || IsTinyWxH(resolution.GetOr(""))
  {
    var res := resolution.GetOr("");
    if !hasVideo.GetOr(false) then "audio"
    else if res != "" && Contains(res, "x") && IsTinyWxH(res) then "audio"
    else "video"
  }

  /** The resolution step of `check_if_qualified`: skipped when both bounds are empty, else by mode. */
  function TesterResolutionOk(res: string, minRes: string, maxRes: string, mode: string): bool {
    if minRes == "" && maxRes == "" then true
    else if mode == "range" then (minRes == "" || MeetMin(res, minRes)) && (maxRes == "" || MeetMax(res, maxRes))
    else if mode == "min_only" then minRes == "" || MeetMin(res, minRes)
    else if mode == "max_only" then maxRes == "" || MeetMax(res, maxRes)
    else true
  }

  /** An empty bound passes by itself, so the step is the plain conjunction of the two checks the mode selects. */
  lemma TesterResolutionByMode(res: string, minRes: string, maxRes: string, mode: string)
    ensures TesterResolutionOk(res, minRes, maxRes, mode)
            == (if mode == "range" then MeetMin(res, minRes) && MeetMax(res, maxRes)
                else if mode == "min_only" then MeetMin(res, minRes)
                else if mode == "max_only" then MeetMax(res, maxRes)
                else true)
  {
  }

  /** The video-only checks of `check_if_qualified`, all of which must pass. */
  predicate TesterVideoChecks(s: Source, p: FilterParams) {
    TesterResolutionOk(s.resolution.GetOr(""), p.minResolution, p.maxResolution, p.mode.GetOr("range"))
    && (s.bitrate.GetOr(0) <= 0 || s.bitrate.GetOr(0) >= p.minBitrate)
    && (p.mustHd ==> s.isHd.GetOr(false))
    && (p.must4k ==> s.is4k.GetOr(false))
    && (s.downloadSpeed.GetOr(0) <= 0 || s.downloadSpeed.GetOr(0) >= p.minSpeed)
  }

  /**
   * `check_if_qualified`: a successful probe within the latency bound, and for
   * video also every video check; a bitrate or speed of 0 passes.
   */
  function CheckIfQualified(s: Source, p: FilterParams): (ok: bool)
    ensures ok <==> IsSuccess(s) && s.responseTime.GetOr(9999) <= p.maxLatency
                    && (IsAudioLike(s) || TesterVideoChecks(s, p))
  {
    var rt := s.responseTime.GetOr(9999);
    if !IsSuccess(s) then false
    else if IsAudioLike(s) then rt <= p.maxLatency
    else if rt > p.maxLatency then false
    else if !TesterResolutionOk(s.resolution.GetOr(""), p.minResolution, p.maxResolution, p.mode.GetOr("range")) then false
    else if s.bitrate.GetOr(0) > 0 && s.bitrate.GetOr(0) < p.minBitrate then false
    else if p.mustHd && !s.isHd.GetOr(false) then false
    else if p.must4k && !s.is4k.GetOr(false) then false
    else if s.downloadSpeed.GetOr(0) > 0 && s.downloadSpeed.GetOr(0) < p.minSpeed then false
    else true
  }

  // ================================================================ workers, network, cache keys

  /** `_calculate_optimal_workers`: the configured count, capped at four per core and at 50. */
  function OptimalWorkers(configured: int, cpuCores: int): (r: int)
    ensures r <= configured && r <= cpuCores * 4 && r <= 50
    ensures r == configured || r == cpuCores * 4 || r == 50
  {
    var systemMax := if cpuCores * 4 < 50 then cpuCores * 4 else 50;
    if configured < systemMax then configured else systemMax
  }

  /** `_check_network_compatibility`, with IPv6 support given: a bracketed host needs IPv6. */
  function NetworkCompatible(url: string, ipv6Supported: bool): (ok: bool)
    ensures !ok <==> '[' in url && ']' in url && !ipv6Supported
  {
    if '[' in url && ']' in url then ipv6Supported else true
  }

  /** The query keys `normalize_url` drops, matched exactly and case-sensitively. */
  const DynamicParams: seq<string> := ["t", "time", "timestamp", "r", "random", "nonce", "token"]

  type QueryPairs = seq<(string, seq<string>)>

  function IsStatic(): ((string, seq<string>)) -> bool {
    (q: (string, seq<string>)) => q.0 !in DynamicParams
  }

  /** The filtering step of `normalize_url` over the parsed query, in order. */
  function StaticParams(query: QueryPairs): QueryPairs {
    Filter(query, IsStatic())
  }

  /** The kept pairs are exactly the pairs with a static key, each as often as before. */
  lemma StaticParamsSpec(query: QueryPairs)
    ensures forall q :: q in StaticParams(query) <==> q in query && q.0 !in DynamicParams
    ensures multiset(StaticParams(query)) <= multiset(query)
  {
    FilterSpec(query, IsStatic());
  }

  /** Two URLs that differ only by a dynamic parameter get the same cache key, wherever it sits. */
  lemma StaticParamsIgnoresDynamic(a: QueryPairs, b: QueryPairs, key: string, values: seq<string>)
    requires key in DynamicParams
    ensures StaticParams(a + [(key, values)] + b) == StaticParams(a + b)
  {
    var f := IsStatic();
    var x := (key, values);
    FilterConcat(a + [x], b, f);
    FilterAppendOne(a, x, f);
    assert !f(x);
    FilterConcat(a, b, f);
  }

  /** Filtering the query twice is filtering it once. */
  lemma StaticParamsIdempotent(a: QueryPairs)
    ensures StaticParams(StaticParams(a)) == StaticParams(a)
  {
    FilterStronger(a, IsStatic(), IsStatic());
  }

  /** "Token" is not "token": the match is case-sensitive. */
  lemma StaticParamsCaseSensitive(values: seq<string>)
    ensures StaticParams([("Token", values)]) == [("Token", values)]
  {
    assert [("Token", values)] == [] + [("Token", values)];
    assert "Token" !in DynamicParams by { assert "Token"[0] == 'T'; }
    FilterAppendOne([], ("Token", values), IsStatic());
  }
}
