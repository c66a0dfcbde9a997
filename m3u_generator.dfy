/**
 * The playlist writer: the third qualification filter, the media-type
 * pre-grouping with its two fixed sound-only groups, the per-group sorts, the
 * EXTINF line and the line structure of the M3U and TXT outputs.
 */
module M3uGenerator {
  import opened Wrappers
  import opened Text
  import opened Grouping
  import opened Sorting
  import opened Records
  import opened Resolution
  import opened StreamTester

  /**
   * The generator's settings, fixed at construction: the grouping field, the
   * User-Agent switch and position, the filter bounds, and the rendering of
   * the float download speed, which is not modelled.
   */
  datatype GeneratorConfig = GeneratorConfig(
    groupBy: string,
    uaEnabled: bool,
    uaPosition: string,
    params: FilterParams,
    speedText: int -> string)

  const RadioGroup := "收音机"
  const AudioGroup := "在线音频"

  // ================================================================ the third qualification filter

  /** The test `enhanced_filter_sources` applies to one entry. */
  function GeneratorQualified(s: Source, p: FilterParams): (ok: bool)
    ensures ok <==> CheckIfQualified(s, p) && (IsAudioLike(s) || s.downloadSpeed.GetOr(0) >= p.minSpeed)
  {
    var rt := s.responseTime.GetOr(9999);
    if !IsSuccess(s) then false
    else if IsAudioLike(s) then rt <= p.maxLatency
    else if rt > p.maxLatency then false
    else if !TesterResolutionOk(s.resolution.GetOr(""), p.minResolution, p.maxResolution, p.mode.GetOr("range")) then false
    else if s.bitrate.GetOr(0) > 0 && s.bitrate.GetOr(0) < p.minBitrate then false
    else if p.mustHd && !s.isHd.GetOr(false) then false
    else if p.must4k && !s.is4k.GetOr(false) then false
    else if s.downloadSpeed.GetOr(0) < p.minSpeed then false
    else true
  }

  function GeneratorQualifiedBy(p: FilterParams): Source -> bool {
    (s: Source) => GeneratorQualified(s, p)
  }

  /** `enhanced_filter_sources`: the loop with its `continue`s. */
  method EnhancedFilterSources(sources: seq<Source>, p: FilterParams) returns (r: seq<Source>)
    ensures r == Filter(sources, GeneratorQualifiedBy(p))
  {
    r := [];
    var i := 0;
    while i < |sources|
      invariant 0 <= i <= |sources|
      invariant r == Filter(sources[..i], GeneratorQualifiedBy(p))
    {
      assert sources[..i + 1][..i] == sources[..i];
      var s := sources[i];
      i := i + 1;
      if !IsSuccess(s) {
        continue;
      }
      var rt := s.responseTime.GetOr(9999);
      if IsAudioLike(s) {
        if rt <= p.maxLatency {
          r := r + [s];
        }
        continue;
      }
      if rt > p.maxLatency {
        continue;
      }
      if !TesterResolutionOk(s.resolution.GetOr(""), p.minResolution, p.maxResolution, p.mode.GetOr("range")) {
        continue;
      }
      if s.bitrate.GetOr(0) > 0 && s.bitrate.GetOr(0) < p.minBitrate {
        continue;
      }
      if p.mustHd && !s.isHd.GetOr(false) {
        continue;
      }
      if p.must4k && !s.is4k.GetOr(false) {
        continue;
      }
      if s.downloadSpeed.GetOr(0) < p.minSpeed {
        continue;
      }
      r := r + [s];
    }
    assert sources[..i] == sources;
  }

  /** The entries a level writes: all of them at "base", the filtered ones otherwise. */
  function Selected(sources: seq<Source>, p: FilterParams, level: string): seq<Source> {
    if level == "base" then sources else Filter(sources, GeneratorQualifiedBy(p))
  }

  // ================================================================ grouping and sorting

  /** `get_group_key`: the chosen field, falling back when missing or empty. */
  function GetGroupKey(s: Source, groupBy: string): (k: string)
    ensures k != ""
    ensures groupBy == "country" ==> k == StrOr(s.country, "Unknown")
    ensures groupBy == "region" ==> k == StrOr(s.region, "Unknown")
    ensures groupBy == "category" ==> k == StrOr(s.category, "Unknown")
    ensures groupBy == "media_type" ==> k == StrOr(s.mediaType, "video")
    ensures groupBy == "source" ==> k == StrOr(s.sourceType, "Unknown")
    ensures groupBy !in ["country", "region", "category", "media_type", "source"] ==> k == "All Channels"
  {
    if groupBy == "country" then StrOr(s.country, "Unknown")
    else if groupBy == "region" then StrOr(s.region, "Unknown")
    else if groupBy == "category" then StrOr(s.category, "Unknown")
    else if groupBy == "media_type" then StrOr(s.mediaType, "video")
    else if groupBy == "source" then StrOr(s.sourceType, "Unknown")
    else "All Channels"
  }

  /** The media pre-group: "audio" and "radio" are their own, every other type goes with video. */
  function Bucket(s: Source): (b: string)
    ensures b == "video" || b == "audio" || b == "radio"
    ensures b != "video" <==> IsAudioLike(s)
  {
    var mt := MediaTypeOf(s);
    if mt == "audio" || mt == "radio" then mt else "video"
  }

  function InBucket(b: string): Source -> bool {
    (s: Source) => Bucket(s) == b
  }

  /** The group an entry lands in: sound-only entries ignore `group_by`. */
  function GroupKeyOf(s: Source, groupBy: string): (k: string)
    ensures MediaTypeOf(s) == "radio" ==> k == RadioGroup
    ensures MediaTypeOf(s) == "audio" ==> k == AudioGroup
    ensures !IsAudioLike(s) ==> k == GetGroupKey(s, groupBy)
  {
    if Bucket(s) == "video" then GetGroupKey(s, groupBy)
    else if Bucket(s) == "audio" then AudioGroup
    else RadioGroup
  }

  function GroupKeyFn(groupBy: string): Source -> string {
    (s: Source) => GroupKeyOf(s, groupBy)
  }

  /** The entries in the order the grouping loop visits them: the video, audio and radio buckets. */
  function Arranged(sources: seq<Source>): seq<Source> {
    Filter(sources, InBucket("video")) + Filter(sources, InBucket("audio")) + Filter(sources, InBucket("radio"))
  }

  /** Groups named after a sound-only group sort by name. */
  predicate IsSoundGroupKey(k: string) {
    Contains(k, RadioGroup) || Contains(k, AudioGroup)
  }

  function NameKey(s: Source): Key {
    [KStr(s.name)]
  }

  /** Continent, country, province, speed descending, response time ascending (None and 0 as 9999), name. */
  function VideoSortKey(s: Source): Key {
    [KStr(StrOr(s.continent, "")), KStr(StrOr(s.country, "")), KStr(StrOr(s.province, "")),
     KInt(-IntOr(s.downloadSpeed, 0)), KInt(IntOr(s.responseTime, 9999)), KStr(s.name)]
  }

  function SortKeyFor(k: string): Source -> Key {
    if IsSoundGroupKey(k) then NameKey else VideoSortKey
  }

  function SortAll(g: Grouped<string, Source>): Grouped<string, Source> {
    Grouped(g.order, map k | k in g.groups :: SortBy(g.groups[k], SortKeyFor(k)))
  }

  /** What `enhanced_group_and_sort_sources` returns. */
  function GroupedSorted(sources: seq<Source>, groupBy: string): Grouped<string, Source> {
    SortAll(GroupOf(Arranged(sources), GroupKeyFn(groupBy)))
  }

  lemma BucketFilters(sources: seq<Source>, b: string)
    ensures forall x :: x in Filter(sources, InBucket(b)) ==> Bucket(x) == b && x in sources
  {
    FilterSpec(sources, InBucket(b));
  }

  /** The first loop: `media_groups[...]` gets every entry, unknown types with video. */
  method SplitByMedia(sources: seq<Source>) returns (video: seq<Source>, audio: seq<Source>, radio: seq<Source>)
    ensures video == Filter(sources, InBucket("video"))
    ensures audio == Filter(sources, InBucket("audio"))
    ensures radio == Filter(sources, InBucket("radio"))
  {
    video, audio, radio := [], [], [];
    var i := 0;
    while i < |sources|
      invariant 0 <= i <= |sources|
      invariant video == Filter(sources[..i], InBucket("video"))
      invariant audio == Filter(sources[..i], InBucket("audio"))
      invariant radio == Filter(sources[..i], InBucket("radio"))
    {
      assert sources[..i + 1][..i] == sources[..i];
      var b := Bucket(sources[i]);
      if b == "audio" {
        audio := audio + [sources[i]];
      } else if b == "radio" {
        radio := radio + [sources[i]];
      } else {
        video := video + [sources[i]];
      }
      i := i + 1;
    }
    assert sources[..i] == sources;
  }

  /** The video branch: `grouped[get_group_key(source)].append(source)` for each entry. */
  method GroupVideo(video: seq<Source>, groupBy: string) returns (g: Grouped<string, Source>)
    requires forall x :: x in video ==> Bucket(x) == "video"
    ensures g == GroupOf(video, GroupKeyFn(groupBy))
  {
    g := Grouped([], map[]);
    var i := 0;
    while i < |video|
      invariant 0 <= i <= |video|
      invariant g == GroupOf(video[..i], GroupKeyFn(groupBy))
    {
      assert video[..i + 1] == video[..i] + [video[i]];
      GroupOfAppend(video[..i], video[i], GroupKeyFn(groupBy));
      assert video[i] in video;
      g := AddToGroup(g, GetGroupKey(video[i], groupBy), video[i]);
      i := i + 1;
    }
    assert video[..i] == video;
  }

  /** A sound-only branch: open the fixed group if new, then `extend` it with the bucket. */
  method ExtendGroup(g0: Grouped<string, Source>, ghost before: seq<Source>, bucket: seq<Source>, name: string, groupBy: string)
    returns (g: Grouped<string, Source>)
    requires g0 == GroupOf(before, GroupKeyFn(groupBy))
    requires forall x :: x in bucket ==> GroupKeyOf(x, groupBy) == name
    ensures g == GroupOf(before + bucket, GroupKeyFn(groupBy))
  {
    g := g0;
    var i := 0;
    assert before + bucket[..0] == before;
    while i < |bucket|
      invariant 0 <= i <= |bucket|
      invariant g == GroupOf(before + bucket[..i], GroupKeyFn(groupBy))
    {
      GroupOfExtendAt(before, bucket, i, GroupKeyFn(groupBy));
      assert bucket[i] in bucket;
      assert GroupKeyFn(groupBy)(bucket[i]) == name;
      g := AddToGroup(g, name, bucket[i]);
      i := i + 1;
    }
    assert bucket[..i] == bucket;
  }

  /** The third step: sort every group in place with the key its name selects. */
  method SortGroups(g0: Grouped<string, Source>) returns (g: Grouped<string, Source>)
    requires g0.Valid()
    ensures g == SortAll(g0)
  {
    g := g0;
    var ks := g.order;
    var i := 0;
    while i < |ks|
      invariant 0 <= i <= |ks|
      invariant g.order == ks && g.groups.Keys == g0.groups.Keys
      invariant forall j :: 0 <= j < i ==> g.groups[ks[j]] == SortBy(g0.groups[ks[j]], SortKeyFor(ks[j]))
      invariant forall j :: i <= j < |ks| ==> g.groups[ks[j]] == g0.groups[ks[j]]
    {
      var k := ks[i];
      var sorted := SortBy(g.groups[k], SortKeyFor(k));
      ghost var prev := g;
      g := Grouped(g.order, g.groups[k := sorted]);
      forall j | 0 <= j < |ks| && j != i
        ensures g.groups[ks[j]] == prev.groups[ks[j]]
      {
        assert ks[j] != k;
      }
      i := i + 1;
    }
    SortAllFrom(g0, g);
  }

  /** A dict whose every group is its sorted counterpart is the sorted dict. */
  lemma SortAllFrom(g0: Grouped<string, Source>, g: Grouped<string, Source>)
    requires g0.Valid() && g.order == g0.order && g.groups.Keys == g0.groups.Keys
    requires forall j :: 0 <= j < |g0.order| ==> g.groups[g0.order[j]] == SortBy(g0.groups[g0.order[j]], SortKeyFor(g0.order[j]))
    ensures g == SortAll(g0)
  {
    forall k | k in g0.groups
      ensures g.groups[k] == SortBy(g0.groups[k], SortKeyFor(k))
    {
      var j :| 0 <= j < |g0.order| && g0.order[j] == k;
    }
  }

  /** `enhanced_group_and_sort_sources`: pre-group by media type, group, then sort every group. */
  method EnhancedGroupAndSort(sources: seq<Source>, groupBy: string) returns (g: Grouped<string, Source>)
    ensures g == GroupedSorted(sources, groupBy)
  {
    var video, audio, radio := SplitByMedia(sources);
    BucketFilters(sources, "video");
    BucketFilters(sources, "audio");
    BucketFilters(sources, "radio");
    g := GroupVideo(video, groupBy);
    g := ExtendGroup(g, video, audio, AudioGroup, groupBy);
    g := ExtendGroup(g, video + audio, radio, RadioGroup, groupBy);
    GroupOfValid(video + audio + radio, GroupKeyFn(groupBy));
    g := SortGroups(g);
  }

  lemma BucketsPartition(s: seq<Source>)
    ensures multiset(Arranged(s)) == multiset(s)
  {
    forall x | x in s
      ensures (InBucket("video")(x) && !InBucket("audio")(x) && !InBucket("radio")(x))
              || (!InBucket("video")(x) && InBucket("audio")(x) && !InBucket("radio")(x))
              || (!InBucket("video")(x) && !InBucket("audio")(x) && InBucket("radio")(x))
    {
      var b := Bucket(x);
    }
    FilterPartition3(s, InBucket("video"), InBucket("audio"), InBucket("radio"));
  }

  /** Sorting the groups keeps the keys and permutes each group into sorted order. */
  lemma SortAllSpec(g0: Grouped<string, Source>)
    ensures SortAll(g0).order == g0.order && SortAll(g0).groups.Keys == g0.groups.Keys
    ensures forall k :: k in g0.groups ==>
              multiset(SortAll(g0).groups[k]) == multiset(g0.groups[k])
              && SortedBy(SortAll(g0).groups[k], SortKeyFor(k))
  {
    forall k | k in g0.groups
      ensures multiset(SortAll(g0).groups[k]) == multiset(g0.groups[k])
      ensures SortedBy(SortAll(g0).groups[k], SortKeyFor(k))
    {
      SortBySpec(g0.groups[k], SortKeyFor(k));
    }
  }

  /** The key order holds each key once and names exactly the groups. */
  lemma GroupedSortedKeys(sources: seq<Source>, groupBy: string)
    ensures var g := GroupedSorted(sources, groupBy);
            Distinct(g.order) && (forall k :: k in g.groups <==> k in g.order)
  {
    GroupOfValid(Arranged(sources), GroupKeyFn(groupBy));
  }

  /** The groups together are a permutation of the input: no entry is lost or duplicated. */
  lemma GroupedSortedPartition(sources: seq<Source>, groupBy: string)
    ensures var g := GroupedSorted(sources, groupBy);
            multiset(Flatten(g.order, g.groups)) == multiset(sources)
  {
    var arr := Arranged(sources);
    var g0 := GroupOf(arr, GroupKeyFn(groupBy));
    var g := SortAll(g0);
    GroupOfValid(arr, GroupKeyFn(groupBy));
    SortAllSpec(g0);
    FlattenPerm(g.order, g.groups, g0.groups);
    GroupOfPartition(arr, GroupKeyFn(groupBy));
    BucketsPartition(sources);
  }

  /** Every entry lands in the group its key names. */
  lemma GroupedSortedPlacement(sources: seq<Source>, groupBy: string, x: Source)
    requires x in sources
    ensures GroupKeyOf(x, groupBy) in GroupedSorted(sources, groupBy).groups
    ensures x in GroupedSorted(sources, groupBy).groups[GroupKeyOf(x, groupBy)]
  {
    var arr := Arranged(sources);
    var key := GroupKeyFn(groupBy);
    var g0 := GroupOf(arr, key);
    var k := GroupKeyOf(x, groupBy);
    assert x in arr by {
      BucketsPartition(sources);
      assert x in multiset(arr);
    }
    MembersIncludes(arr, key, x);
    assert k in g0.groups by {
      DistinctKeysSpec(arr, key);
    }
    assert x in multiset(g0.groups[k]);
    SortAllSpec(g0);
  }

  /** A group of the result is its members in the arranged order, sorted. */
  lemma GroupedSortedGroup(sources: seq<Source>, groupBy: string, k: string)
    requires k in GroupedSorted(sources, groupBy).groups
    ensures GroupedSorted(sources, groupBy).groups[k]
            == SortBy(Members(Arranged(sources), GroupKeyFn(groupBy), k), SortKeyFor(k))
  {
  }

  /** Each group is sorted by the key its name selects. */
  lemma GroupedSortedOrder(sources: seq<Source>, groupBy: string, k: string)
    requires k in GroupedSorted(sources, groupBy).groups
    ensures SortedBy(GroupedSorted(sources, groupBy).groups[k], SortKeyFor(k))
  {
    GroupedSortedGroup(sources, groupBy, k);
    SortBySpec(Members(Arranged(sources), GroupKeyFn(groupBy), k), SortKeyFor(k));
  }

  /** A group holds only entries of the input with its own key, so no entry is in two groups. */
  lemma GroupedSortedGroups(sources: seq<Source>, groupBy: string, k: string)
    requires k in GroupedSorted(sources, groupBy).groups
    ensures forall x :: x in GroupedSorted(sources, groupBy).groups[k] ==> GroupKeyOf(x, groupBy) == k && x in sources
  {
    var arr := Arranged(sources);
    GroupedSortedGroup(sources, groupBy, k);
    SortedMembers(arr, GroupKeyFn(groupBy), k, SortKeyFor(k));
    ArrangedMembers(sources);
  }

  /** The arranged entries are entries of the input. */
  lemma ArrangedMembers(sources: seq<Source>)
    ensures forall x :: x in Arranged(sources) ==> x in sources
  {
    BucketFilters(sources, "video");
    BucketFilters(sources, "audio");
    BucketFilters(sources, "radio");
  }

  /** Every entry of a sound-only bucket carries that bucket's fixed group name. */
  lemma BucketKeys(sources: seq<Source>, groupBy: string, b: string, name: string)
    requires (b == "audio" && name == AudioGroup) || (b == "radio" && name == RadioGroup)
    ensures forall x :: x in Filter(sources, InBucket(b)) ==> GroupKeyFn(groupBy)(x) == name
  {
    BucketFilters(sources, b);
  }

  lemma SoundGroupMembers(sources: seq<Source>, groupBy: string, k: string)
    requires k == AudioGroup || k == RadioGroup
    ensures Members(Arranged(sources), GroupKeyFn(groupBy), k)
            == Members(Filter(sources, InBucket("video")), GroupKeyFn(groupBy), k)
               + Filter(sources, InBucket(if k == AudioGroup then "audio" else "radio"))
  {
    var key := GroupKeyFn(groupBy);
    var video := Filter(sources, InBucket("video"));
    var audio := Filter(sources, InBucket("audio"));
    var radio := Filter(sources, InBucket("radio"));
    var ma := Members(audio, key, k);
    var mr := Members(radio, key, k);
    assert ma == (if k == AudioGroup then audio else []) by {
      BucketKeys(sources, groupBy, "audio", AudioGroup);
      MembersUniform(audio, key, AudioGroup, k);
    }
    assert mr == (if k == RadioGroup then radio else []) by {
      BucketKeys(sources, groupBy, "radio", RadioGroup);
      MembersUniform(radio, key, RadioGroup, k);
    }
    assert Arranged(sources) == video + audio + radio;
    assert Members(video + audio + radio, key, k) == Members(video, key, k) + ma + mr by {
      MembersAppend(video + audio, radio, key, k);
      MembersAppend(video, audio, key, k);
    }
    assert AudioGroup != RadioGroup;
  }

  /**
   * A video group whose key is one of the fixed sound-only names (a category
   * "在线音频", say) absorbs that bucket: the group holds its video entries and
   * the whole bucket.
   */
  lemma SoundGroupsMerge(sources: seq<Source>, groupBy: string, k: string)
    requires k == AudioGroup || k == RadioGroup
    requires k in GroupedSorted(sources, groupBy).groups
    ensures multiset(GroupedSorted(sources, groupBy).groups[k])
            == multiset(Members(Filter(sources, InBucket("video")), GroupKeyFn(groupBy), k))
               + multiset(Filter(sources, InBucket(if k == AudioGroup then "audio" else "radio")))
  {
    var g0 := GroupOf(Arranged(sources), GroupKeyFn(groupBy));
    SortAllSpec(g0);
    SoundGroupMembers(sources, groupBy, k);
  }

  // ================================================================ the EXTINF line

  /** `re.sub(r'[^a-zA-Z0-9]', '_', name).lower()`. */
  function TvgId(name: string): (r: string)
    ensures |r| == |name|
    ensures forall i :: 0 <= i < |r| ==> ('a' <= r[i] <= 'z') || ('0' <= r[i] <= '9') || r[i] == '_'
  {
    seq(|name|, i requires 0 <= i < |name| =>
      var c := name[i];
      if 'A' <= c <= 'Z' then LowerChar(c)
      else if ('a' <= c <= 'z') || ('0' <= c <= '9') then c
      else '_')
  }

  /** Python's f-string rendering of an optional string: None prints as "None". */
  function Shown(o: Option<string>): string {
    match o
    case Some(v) => v
    case None => "None"
  }

  /** The category when truthy, else the group. */
  function GroupTitle(s: Source): string {
    if Truthy(s.category) then s.category.value else Shown(s.group)
  }

  function Attr(name: string, value: string): string {
    name + "=\"" + value + "\""
  }

  /** An attribute written only when its value is truthy. */
  function OptAttr(name: string, value: Option<string>): seq<(string, string)> {
    if Truthy(value) then [(name, value.value)] else []
  }

  /** The identity, placement and location attributes, written first. */
  function HeadAttrs(s: Source): seq<(string, string)> {
    [("tvg-id", TvgId(s.name)), ("tvg-name", s.name)]
    + OptAttr("tvg-logo", s.logo)
    + [("group-title", GroupTitle(s)), ("media-type", MediaTypeOf(s))]
    + OptAttr("tvg-country", s.country) + OptAttr("tvg-region", s.region) + OptAttr("tvg-province", s.province)
  }

  function UaAttrs(s: Source, cfg: GeneratorConfig): seq<(string, string)> {
    if cfg.uaEnabled && cfg.uaPosition == "extinf" && Truthy(s.userAgent) then [("user-agent", s.userAgent.value)] else []
  }

  /** The probe timings, written only at level "qualified" and only when nonzero. */
  function TimingAttrs(s: Source, level: string, cfg: GeneratorConfig): seq<(string, string)> {
    (if level == "qualified" && IntOr(s.responseTime, 0) != 0 then [("response-time", IntToString(s.responseTime.value) + "ms")] else [])
    + (if level == "qualified" && IntOr(s.downloadSpeed, 0) != 0 then [("download-speed", cfg.speedText(s.downloadSpeed.value) + "KB/s")] else [])
  }

  function QualityAttrs(s: Source): seq<(string, string)> {
    OptAttr("resolution", s.resolution)
    + (if IntOr(s.bitrate, 0) != 0 then [("bitrate", IntToString(s.bitrate.value) + "kbps")] else [])
  }

  function StatusAttrs(s: Source): seq<(string, string)> {
    if !IsSuccess(s) then [("status", Shown(s.status))] else []
  }

  /** The `name="value"` attributes of `build_enhanced_extinf`, in order. */
  function ExtinfAttrs(s: Source, level: string, cfg: GeneratorConfig): seq<(string, string)> {
    HeadAttrs(s) + UaAttrs(s, cfg) + TimingAttrs(s, level, cfg) + QualityAttrs(s) + StatusAttrs(s)
  }

  function Rendered(attrs: seq<(string, string)>): (r: seq<string>)
    ensures |r| == |attrs|
  {
    seq(|attrs|, i requires 0 <= i < |attrs| => Attr(attrs[i].0, attrs[i].1))
  }

  /** The space-separated pieces: the directive, the attributes, then `,<name>`. */
  function ExtinfParts(s: Source, level: string, cfg: GeneratorConfig): seq<string> {
    ["#EXTINF:-1"] + Rendered(ExtinfAttrs(s, level, cfg)) + ["," + s.name]
  }

  /** `build_enhanced_extinf`: the pieces joined by single spaces. */
  function BuildEnhancedExtinf(s: Source, level: string, cfg: GeneratorConfig): string {
    Join(ExtinfParts(s, level, cfg), " ")
  }

  /** The EXTINF line starts with `#EXTINF:-1` and ends with `,<name>`. */
  lemma ExtinfEnds(s: Source, level: string, cfg: GeneratorConfig)
    ensures StartsWith(BuildEnhancedExtinf(s, level, cfg), "#EXTINF:-1")
    ensures EndsWith(BuildEnhancedExtinf(s, level, cfg), "," + s.name)
  {
    JoinEnds(ExtinfParts(s, level, cfg), " ");
  }

  /** The head and quality parts hold none of the conditional attributes. */
  lemma HeadAttrNames(s: Source)
    ensures forall a :: a in HeadAttrs(s) ==>
              a.0 != "response-time" && a.0 != "download-speed" && a.0 != "user-agent" && a.0 != "status"
  {
  }

  lemma QualityAttrNames(s: Source)
    ensures forall a :: a in QualityAttrs(s) ==>
              a.0 != "response-time" && a.0 != "download-speed" && a.0 != "user-agent" && a.0 != "status"
  {
  }

  /** Which attribute names the conditional parts can hold, and when. */
  lemma CondAttrNames(s: Source, level: string, cfg: GeneratorConfig)
    ensures forall a :: a in UaAttrs(s, cfg) ==> a.0 == "user-agent" && cfg.uaEnabled && cfg.uaPosition == "extinf"
    ensures forall a :: a in TimingAttrs(s, level, cfg) ==>
              (a.0 == "response-time" || a.0 == "download-speed") && level == "qualified"
    ensures forall a :: a in StatusAttrs(s) ==> a.0 == "status"
  {
  }

  /** Every attribute comes from one of the parts. */
  lemma ExtinfAttrParts(s: Source, level: string, cfg: GeneratorConfig)
    ensures forall a :: a in ExtinfAttrs(s, level, cfg) ==>
              a in HeadAttrs(s) || a in UaAttrs(s, cfg) || a in TimingAttrs(s, level, cfg) || a in QualityAttrs(s) || a in StatusAttrs(s)
  {
    var head, ua, timing, quality, status := HeadAttrs(s), UaAttrs(s, cfg), TimingAttrs(s, level, cfg), QualityAttrs(s), StatusAttrs(s);
    assert ExtinfAttrs(s, level, cfg) == head + ua + timing + quality + status;
  }

  /**
   * The group-title is the category when truthy, the group otherwise; the
   * response-time and download-speed attributes appear only at level
   * "qualified", the user-agent only in the EXTINF position, and the status
   * exactly when the probe did not succeed.
   */
  lemma ExtinfAttrsSpec(s: Source, level: string, cfg: GeneratorConfig)
    ensures ("group-title", if Truthy(s.category) then s.category.value else Shown(s.group)) in ExtinfAttrs(s, level, cfg)
    ensures forall a :: a in ExtinfAttrs(s, level, cfg) && (a.0 == "response-time" || a.0 == "download-speed")
                        ==> level == "qualified"
    ensures forall a :: a in ExtinfAttrs(s, level, cfg) && a.0 == "user-agent"
                        ==> cfg.uaEnabled && cfg.uaPosition == "extinf"
    ensures (exists a :: a in ExtinfAttrs(s, level, cfg) && a.0 == "status") <==> !IsSuccess(s)
  {
    HeadAttrNames(s);
    QualityAttrNames(s);
    CondAttrNames(s, level, cfg);
    ExtinfAttrParts(s, level, cfg);
    assert ("group-title", GroupTitle(s)) in HeadAttrs(s);
    if !IsSuccess(s) {
      assert ("status", Shown(s.status)) in StatusAttrs(s);
    }
  }

  // ================================================================ the M3U and TXT lines

  /** The URL line: `|User-Agent=` is appended only when enabled, present and placed in the URL. */
  function UrlLine(s: Source, cfg: GeneratorConfig): string {
    if cfg.uaEnabled && Truthy(s.userAgent) && cfg.uaPosition == "url"
    then s.url + "|User-Agent=" + s.userAgent.value
    else s.url
  }

  /** Two lines per element, `first` then `second`, in order. */
  function Interleaved<T>(ss: seq<T>, first: T -> string, second: T -> string): seq<string>
    decreases |ss|
  {
    if |ss| == 0 then []
    else Interleaved(ss[..|ss| - 1], first, second) + [first(ss[|ss| - 1]), second(ss[|ss| - 1])]
  }

  function ExtinfFn(level: string, cfg: GeneratorConfig): Source -> string {
    (s: Source) => BuildEnhancedExtinf(s, level, cfg)
  }

  function UrlFn(cfg: GeneratorConfig): Source -> string {
    (s: Source) => UrlLine(s, cfg)
  }

  /** The EXTINF and URL lines of a group's entries. */
  function EntryLines(ss: seq<Source>, level: string, cfg: GeneratorConfig): seq<string> {
    Interleaved(ss, ExtinfFn(level, cfg), UrlFn(cfg))
  }

  function M3uBody(order: seq<string>, groups: map<string, seq<Source>>, level: string, cfg: GeneratorConfig): seq<string>
    requires forall k :: k in order ==> k in groups
  {
    if |order| == 0 then []
    else M3uBody(order[..|order| - 1], groups, level, cfg)
         + ["#EXTGRP:" + order[|order| - 1]] + EntryLines(groups[order[|order| - 1]], level, cfg)
  }

  /** The lines `generate_enhanced_m3u` joins. */
  function M3uLines(sources: seq<Source>, level: string, cfg: GeneratorConfig): seq<string> {
    var g := GroupedSorted(Selected(sources, cfg.params, level), cfg.groupBy);
    GroupedSortedKeys(Selected(sources, cfg.params, level), cfg.groupBy);
    ["#EXTM3U"] + M3uBody(g.order, g.groups, level, cfg)
  }

  /** The lines of one group's entries: the EXTINF line, then the URL with its optional User-Agent. */
  method EmitM3uEntries(members: seq<Source>, level: string, cfg: GeneratorConfig) returns (lines: seq<string>)
    ensures lines == EntryLines(members, level, cfg)
  {
    lines := [];
    var j := 0;
    while j < |members|
      invariant 0 <= j <= |members|
      invariant lines == EntryLines(members[..j], level, cfg)
    {
      EntryLinesAt(members, j, level, cfg);
      var s := members[j];
      var extinf := BuildEnhancedExtinf(s, level, cfg);
      var url := UrlWithAgent(s, cfg);
      lines := lines + [extinf, url];
      j := j + 1;
    }
    assert members[..j] == members;
  }

  /** The URL line of an entry, with the User-Agent appended when enabled, present and placed in the URL. */
  method UrlWithAgent(s: Source, cfg: GeneratorConfig) returns (url: string)
    ensures url == UrlLine(s, cfg)
  {
    url := s.url;
    if cfg.uaEnabled && Truthy(s.userAgent) {
      if cfg.uaPosition == "url" {
        url := url + "|User-Agent=" + s.userAgent.value;
      }
    }
  }

  lemma EntryLinesAt(members: seq<Source>, j: nat, level: string, cfg: GeneratorConfig)
    requires j < |members|
    ensures EntryLines(members[..j + 1], level, cfg)
            == EntryLines(members[..j], level, cfg) + [BuildEnhancedExtinf(members[j], level, cfg), UrlLine(members[j], cfg)]
  {
    assert members[..j + 1][..j] == members[..j];
    assert ExtinfFn(level, cfg)(members[j]) == BuildEnhancedExtinf(members[j], level, cfg);
    assert UrlFn(cfg)(members[j]) == UrlLine(members[j], cfg);
  }

  /** The group loop of `generate_enhanced_m3u`: an `#EXTGRP` line, then the group's entries, per group in order. */
  method EmitM3uGroups(order: seq<string>, groups: map<string, seq<Source>>, level: string, cfg: GeneratorConfig)
    returns (lines: seq<string>)
    requires forall k :: k in order ==> k in groups
    ensures lines == M3uBody(order, groups, level, cfg)
  {
    lines := [];
    var i := 0;
    while i < |order|
      invariant 0 <= i <= |order|
      invariant lines == M3uBody(order[..i], groups, level, cfg)
    {
      var k := order[i];
      M3uBodyAt(order, i, groups, level, cfg);
      var entries := EmitM3uEntries(groups[k], level, cfg);
      lines := lines + ["#EXTGRP:" + k] + entries;
      i := i + 1;
    }
    assert order[..i] == order;
  }

  lemma M3uBodyAt(order: seq<string>, i: nat, groups: map<string, seq<Source>>, level: string, cfg: GeneratorConfig)
    requires i < |order| && forall k :: k in order ==> k in groups
    ensures forall k :: k in order[..i + 1] ==> k in groups
    ensures M3uBody(order[..i + 1], groups, level, cfg)
            == M3uBody(order[..i], groups, level, cfg) + ["#EXTGRP:" + order[i]] + EntryLines(groups[order[i]], level, cfg)
  {
    assert order[..i + 1][..i] == order[..i];
  }

  /** `generate_enhanced_m3u`. */
  method GenerateEnhancedM3u(sources: seq<Source>, level: string, cfg: GeneratorConfig) returns (text: string)
    ensures text == Join(M3uLines(sources, level, cfg), "\n")
  {
    var filtered := sources;
    if level != "base" {
      filtered := EnhancedFilterSources(sources, cfg.params);
    }
    var g := EnhancedGroupAndSort(filtered, cfg.groupBy);
    GroupedSortedKeys(filtered, cfg.groupBy);
    var body := EmitM3uGroups(g.order, g.groups, level, cfg);
    text := Join(["#EXTM3U"] + body, "\n");
  }

  /** The TXT line of one entry, with the User-Agent after `|` in the URL position and after `#` otherwise. */
  function TxtLine(s: Source, cfg: GeneratorConfig): string {
    if cfg.uaEnabled && Truthy(s.userAgent) then
      if cfg.uaPosition == "url" then s.name + "," + s.url + "|User-Agent=" + s.userAgent.value
      else s.name + "," + s.url + "#User-Agent=" + s.userAgent.value
    else s.name + "," + s.url
  }

  function TxtEntries(ss: seq<Source>, cfg: GeneratorConfig): (r: seq<string>)
    ensures |r| == |ss|
    ensures forall i :: 0 <= i < |ss| ==> r[i] == TxtLine(ss[i], cfg)
  {
    seq(|ss|, i requires 0 <= i < |ss| => TxtLine(ss[i], cfg))
  }

  function TxtBody(order: seq<string>, groups: map<string, seq<Source>>, cfg: GeneratorConfig): seq<string>
    requires forall k :: k in order ==> k in groups
  {
    if |order| == 0 then []
    else TxtBody(order[..|order| - 1], groups, cfg)
         + ["# " + order[|order| - 1]] + TxtEntries(groups[order[|order| - 1]], cfg) + [""]
  }

  /** The lines `generate_enhanced_txt` joins. */
  function TxtLines(sources: seq<Source>, level: string, cfg: GeneratorConfig): seq<string> {
    var g := GroupedSorted(Selected(sources, cfg.params, level), cfg.groupBy);
    GroupedSortedKeys(Selected(sources, cfg.params, level), cfg.groupBy);
    TxtBody(g.order, g.groups, cfg)
  }

  /** One `name,url` line per entry of a group. */
  method EmitTxtEntries(members: seq<Source>, cfg: GeneratorConfig) returns (lines: seq<string>)
    ensures lines == TxtEntries(members, cfg)
  {
    lines := [];
    var j := 0;
    while j < |members|
      invariant 0 <= j <= |members|
      invariant lines == TxtEntries(members[..j], cfg)
    {
      var s := members[j];
      var line := s.name + "," + s.url;
      if cfg.uaEnabled && Truthy(s.userAgent) {
        if cfg.uaPosition == "url" {
          line := s.name + "," + s.url + "|User-Agent=" + s.userAgent.value;
        } else {
          line := s.name + "," + s.url + "#User-Agent=" + s.userAgent.value;
        }
      }
      lines := lines + [line];
      j := j + 1;
    }
    assert members[..j] == members;
  }

  /** The group loop of `generate_enhanced_txt`: a `# name` line, the group's entries and an empty line, per group. */
  method EmitTxtGroups(order: seq<string>, groups: map<string, seq<Source>>, cfg: GeneratorConfig)
    returns (lines: seq<string>)
    requires forall k :: k in order ==> k in groups
    ensures lines == TxtBody(order, groups, cfg)
  {
    lines := [];
    var i := 0;
    while i < |order|
      invariant 0 <= i <= |order|
      invariant lines == TxtBody(order[..i], groups, cfg)
    {
      var k := order[i];
      assert order[..i + 1][..i] == order[..i];
      var entries := EmitTxtEntries(groups[k], cfg);
      lines := lines + ["# " + k] + entries + [""];
      i := i + 1;
    }
    assert order[..i] == order;
  }

  /** `generate_enhanced_txt`. */
  method GenerateEnhancedTxt(sources: seq<Source>, level: string, cfg: GeneratorConfig) returns (text: string)
    ensures text == Join(TxtLines(sources, level, cfg), "\n")
  {
    var filtered := sources;
    if level != "base" {
      filtered := EnhancedFilterSources(sources, cfg.params);
    }
    var g := EnhancedGroupAndSort(filtered, cfg.groupBy);
    GroupedSortedKeys(filtered, cfg.groupBy);
    var lines := EmitTxtGroups(g.order, g.groups, cfg);
    text := Join(lines, "\n");
  }

  // ---------------------------------------------------------------- line structure

  lemma {:induction false} InterleavedShape<T>(ss: seq<T>, first: T -> string, second: T -> string)
    ensures |Interleaved(ss, first, second)| == 2 * |ss|
    ensures forall i :: 0 <= i < |ss| ==>
              Interleaved(ss, first, second)[2 * i] == first(ss[i])
              && Interleaved(ss, first, second)[2 * i + 1] == second(ss[i])
    decreases |ss|
  {
    if |ss| > 0 {
      var p := ss[..|ss| - 1];
      var last := ss[|ss| - 1];
      var lines := Interleaved(ss, first, second);
      var front := Interleaved(p, first, second);
      InterleavedShape(p, first, second);
      assert lines == front + [first(last), second(last)];
      forall i | 0 <= i < |ss|
        ensures lines[2 * i] == first(ss[i]) && lines[2 * i + 1] == second(ss[i])
      {
        if i < |p| {
          assert ss[i] == p[i];
          assert lines[2 * i] == front[2 * i] && lines[2 * i + 1] == front[2 * i + 1];
        }
      }
    }
  }

  /** Each entry of a group contributes its EXTINF line and then its URL line. */
  lemma EntryLinesShape(ss: seq<Source>, level: string, cfg: GeneratorConfig)
    ensures |EntryLines(ss, level, cfg)| == 2 * |ss|
    ensures forall i :: 0 <= i < |ss| ==>
              EntryLines(ss, level, cfg)[2 * i] == BuildEnhancedExtinf(ss[i], level, cfg)
              && EntryLines(ss, level, cfg)[2 * i + 1] == UrlLine(ss[i], cfg)
  {
    InterleavedShape(ss, ExtinfFn(level, cfg), UrlFn(cfg));
  }

  lemma {:induction false} M3uBodyLength(order: seq<string>, groups: map<string, seq<Source>>, level: string, cfg: GeneratorConfig)
    requires forall k :: k in order ==> k in groups
    ensures |M3uBody(order, groups, level, cfg)| == |order| + 2 * |Flatten(order, groups)|
    decreases |order|
  {
    if |order| > 0 {
      M3uBodyLength(order[..|order| - 1], groups, level, cfg);
      EntryLinesShape(groups[order[|order| - 1]], level, cfg);
    }
  }

  lemma {:induction false} TxtBodyLength(order: seq<string>, groups: map<string, seq<Source>>, cfg: GeneratorConfig)
    requires forall k :: k in order ==> k in groups
    ensures |TxtBody(order, groups, cfg)| == 2 * |order| + |Flatten(order, groups)|
    decreases |order|
  {
    if |order| > 0 {
      TxtBodyLength(order[..|order| - 1], groups, cfg);
    }
  }

  /**
   * The M3U output starts with the `#EXTM3U` header and has, besides it, one
   * `#EXTGRP` line per group and two lines per written entry; every group's
   * lines are its `#EXTGRP` line and then an EXTINF and URL line per entry.
   */
  lemma M3uShape(sources: seq<Source>, level: string, cfg: GeneratorConfig)
    ensures var g := GroupedSorted(Selected(sources, cfg.params, level), cfg.groupBy);
            var lines := M3uLines(sources, level, cfg);
            lines[0] == "#EXTM3U"
            && |lines| == 1 + |g.order| + 2 * |Selected(sources, cfg.params, level)|
    ensures StartsWith(Join(M3uLines(sources, level, cfg), "\n"), "#EXTM3U")
  {
    var sel := Selected(sources, cfg.params, level);
    var g := GroupedSorted(sel, cfg.groupBy);
    GroupedSortedKeys(sel, cfg.groupBy);
    GroupedSortedPartition(sel, cfg.groupBy);
    M3uBodyLength(g.order, g.groups, level, cfg);
    assert |Flatten(g.order, g.groups)| == |multiset(Flatten(g.order, g.groups))| == |multiset(sel)|;
    JoinEnds(M3uLines(sources, level, cfg), "\n");
  }

  /** The TXT output has a `# <key>` header and a closing empty line per group, and one line per written entry. */
  lemma TxtShape(sources: seq<Source>, level: string, cfg: GeneratorConfig)
    ensures var g := GroupedSorted(Selected(sources, cfg.params, level), cfg.groupBy);
            |TxtLines(sources, level, cfg)| == 2 * |g.order| + |Selected(sources, cfg.params, level)|
  {
    var sel := Selected(sources, cfg.params, level);
    var g := GroupedSorted(sel, cfg.groupBy);
    GroupedSortedKeys(sel, cfg.groupBy);
    GroupedSortedPartition(sel, cfg.groupBy);
    TxtBodyLength(g.order, g.groups, cfg);
    assert |Flatten(g.order, g.groups)| == |multiset(Flatten(g.order, g.groups))| == |multiset(sel)|;
  }

  /** The URL line is the stream URL, extended exactly when the User-Agent goes into the URL. */
  lemma UrlLineSpec(s: Source, cfg: GeneratorConfig)
    ensures StartsWith(UrlLine(s, cfg), s.url)
    ensures UrlLine(s, cfg) != s.url <==> cfg.uaEnabled && Truthy(s.userAgent) && cfg.uaPosition == "url"
  {
    if cfg.uaEnabled && Truthy(s.userAgent) && cfg.uaPosition == "url" {
      assert |UrlLine(s, cfg)| > |s.url|;
    }
  }

  /** Level "base" writes every entry it is given; any other level writes only qualified ones. */
  lemma LevelSelection(sources: seq<Source>, p: FilterParams, level: string)
    ensures level == "base" ==> Selected(sources, p, level) == sources
    ensures level != "base" ==>
              multiset(Selected(sources, p, level)) <= multiset(sources)
              && forall x :: x in Selected(sources, p, level) ==> GeneratorQualified(x, p)
  {
    FilterSpec(sources, GeneratorQualifiedBy(p));
  }

  // ================================================================ the backward-compatible wrappers

  /** `M3UGenerator.generate_m3u`: level "base", so nothing is filtered out. */
  method GenerateM3u(sources: seq<Source>, cfg: GeneratorConfig) returns (text: string)
    ensures text == Join(["#EXTM3U"] + M3uBody(GroupedSorted(sources, cfg.groupBy).order,
                                                 GroupedSorted(sources, cfg.groupBy).groups, "base", cfg), "\n")
  {
    text := GenerateEnhancedM3u(sources, "base", cfg);
  }

  /** `M3UGenerator.generate_txt`. */
  method GenerateTxt(sources: seq<Source>, cfg: GeneratorConfig) returns (text: string)
    ensures text == Join(TxtBody(GroupedSorted(sources, cfg.groupBy).order,
                                 GroupedSorted(sources, cfg.groupBy).groups, cfg), "\n")
  {
    GroupedSortedKeys(sources, cfg.groupBy);
    text := GenerateEnhancedTxt(sources, "base", cfg);
  }

  /** `M3UGenerator.filter_sources`. */
  method FilterSources(sources: seq<Source>, cfg: GeneratorConfig) returns (r: seq<Source>)
    ensures r == Filter(sources, GeneratorQualifiedBy(cfg.params))
  {
    r := EnhancedFilterSources(sources, cfg.params);
  }

  /** `M3UGenerator.group_and_sort_sources`. */
  method GroupAndSortSources(sources: seq<Source>, cfg: GeneratorConfig) returns (g: Grouped<string, Source>)
    ensures g == GroupedSorted(sources, cfg.groupBy)
  {
    g := EnhancedGroupAndSort(sources, cfg.groupBy);
  }

  /** `M3UGenerator.build_extinf`. */
  function BuildExtinf(s: Source, cfg: GeneratorConfig): (line: string)
    ensures StartsWith(line, "#EXTINF:-1") && EndsWith(line, "," + s.name)
  {
    ExtinfEnds(s, "base", cfg);
    BuildEnhancedExtinf(s, "base", cfg)
  }
}
