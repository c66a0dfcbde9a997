/**
 * The orchestrator's per-entry classification: the media-type classifier and
 * its radio/audio refinement, the category override policy, and the merge of
 * the rule engine's findings into an entry.
 */
module Classification {
  import opened Wrappers
  import opened Text
  import opened Records
  import opened Resolution
  import opened ChannelRules

  const RadioKeywords: seq<string> := [
    "radio", "广播", "电台", "fm", "am",
    "交通广播", "音乐广播", "新闻广播", "经济广播",
    "文艺广播", "都市广播", "农村广播"
  ]

  const AudioKeywords: seq<string> := [
    "music", "音乐", "歌曲", "mtv", "演唱会",
    "音乐会", "有声", "听书", "相声", "小品",
    "朗诵", "配音", "音效", "asmr", "播客"
  ]

  /**
   * A sound-only entry is radio when its lower-cased name contains a radio
   * keyword and online audio otherwise; the audio keywords change nothing,
   * since their branch and the default both answer "audio".
   */
  function RefineAudioType(name: string): (r: string)
    ensures r == "radio" || r == "audio"
    ensures r == "radio" <==> AnyIn(RadioKeywords, Lower(name))
  {
    var lowered := Lower(name);
    if AnyIn(RadioKeywords, lowered) then "radio"
    else if AnyIn(AudioKeywords, lowered) then "audio"
    else "audio"
  }

  /** The two-letter radio keywords make any name containing them radio, "Gameshow" included. */
  lemma RefineShortKeywords(name: string)
    requires Contains(Lower(name), "fm") || Contains(Lower(name), "am")
    ensures RefineAudioType(name) == "radio"
  {
    assert RadioKeywords[3] == "fm" && RadioKeywords[4] == "am";
  }

  /**
   * An entry is video unless it has no video stream (a missing flag counts as
   * present) or its "WxH" resolution is tiny; the other entries are refined
   * into radio or audio by name. A resolution that does not parse is video.
   */
  function ClassifyMediaType(s: Source): (r: string)
    ensures r == "video" || r == "radio" || r == "audio"
    ensures r == "video" <==> s.hasVideoStream.GetOr(true) && !IsTinyWxH(s.resolution.GetOr(""))
    ensures r != "video" ==> r == RefineAudioType(s.name)
  {
    var res := s.resolution.GetOr("");
    if !s.hasVideoStream.GetOr(true) then RefineAudioType(s.name)
    else if res != "" && Contains(res, "x") && IsTinyWxH(res) then RefineAudioType(s.name)
    else "video"
  }

  /** A tiny resolution written by the prober ("WxH" of the stream's sizes) makes the entry sound only. */
  lemma ClassifyTinyVideo(s: Source, w: int, h: int)
    requires s.resolution == Some(IntToString(w) + "x" + IntToString(h)) && (w < 100 || h < 100)
    ensures ClassifyMediaType(s) != "video"
  {
    ParseDimsWxH(w, h, Zero);
  }

  /** The override priorities: a lower number is a more specific category. */
  const CategoryPriority: map<string, int> := map[
    "央视频道" := 1, "收音机" := 2, "在线音频" := 3, "港澳台" := 5, "卫视频道" := 10,
    "影视频道" := 15, "剧集频道" := 15, "体育频道" := 15, "少儿频道" := 15, "新闻频道" := 15,
    "纪实频道" := 15, "音乐频道" := 15, "综艺频道" := 15, "教育频道" := 15, "生活频道" := 15,
    "财经频道" := 15, "交通频道" := 15,
    "北京频道" := 20, "上海频道" := 20, "天津频道" := 20, "重庆频道" := 20, "河北频道" := 20,
    "国际频道" := 25, "其他频道" := 100
  ]

  /** Priority of a category; a category missing from the table counts as 50. */
  function Priority(cat: string): int {
    if cat in CategoryPriority then CategoryPriority[cat] else 50
  }

  const SatelliteCategory := "卫视频道"
  const CctvCategory := "央视频道"

  /**
   * Whether the rule engine's category `newCat` replaces the entry's `oldCat`:
   * the catch-all is always replaced and never replaces; otherwise a
   * strictly lower priority wins, and a 卫视 or CCTV name forces the satellite
   * or CCTV category.
   */
  function ShouldOverrideCategory(newCat: string, oldCat: string, name: string): (r: bool)
    ensures oldCat == OtherCategory ==> r
    ensures oldCat != OtherCategory && newCat == OtherCategory ==> !r
    ensures newCat == oldCat && oldCat != OtherCategory ==> !r
    ensures oldCat != OtherCategory && Priority(newCat) < Priority(oldCat) ==> r
    ensures r && oldCat != OtherCategory ==> Priority(newCat) < Priority(oldCat)
                                              || newCat == SatelliteCategory || newCat == CctvCategory
    ensures oldCat != OtherCategory && newCat != OtherCategory ==>
              (r <==> Priority(newCat) < Priority(oldCat)
                      || (Contains(name, "卫视") && oldCat != SatelliteCategory && newCat == SatelliteCategory)
                      || (Contains(Upper(name), "CCTV") && oldCat != CctvCategory && newCat == CctvCategory))
  {
    if oldCat == OtherCategory then true
    else if newCat == OtherCategory then false
    else if Priority(newCat) < Priority(oldCat) then true
    else if Contains(name, "卫视") && oldCat != SatelliteCategory && newCat == SatelliteCategory then true
    else if Contains(Upper(name), "CCTV") && oldCat != CctvCategory && newCat == CctvCategory then true
    else false
  }

  /** For names without 卫视 or CCTV, overriding is asymmetric: two different categories never replace each other. */
  lemma OverrideAsymmetric(a: string, b: string, name: string)
    requires a != b && !Contains(name, "卫视") && !Contains(Upper(name), "CCTV")
    ensures !(ShouldOverrideCategory(a, b, name) && ShouldOverrideCategory(b, a, name))
  {
  }

  /**
   * With a 卫视 name the forced rule and the priority table pull in opposite
   * directions: 港澳台 replaces 卫视频道 by priority, and 卫视频道 replaces 港澳台
   * by the forced rule.
   */
  lemma OverrideBothWays()
    ensures ShouldOverrideCategory("港澳台", SatelliteCategory, "凤凰卫视")
    ensures ShouldOverrideCategory(SatelliteCategory, "港澳台", "凤凰卫视")
  {
    assert "凤凰卫视"[2..4] == "卫视";
    ContainsAt("凤凰卫视", "卫视", 2);
  }

  /** The entry after `source.update(extract_channel_info(name))`. */
  function WithChannelInfo(s: Source, info: ChannelInfo): Source {
    s.(country := Some(info.country), region := info.region, language := Some(info.language),
       channelType := info.channelType, province := info.province, city := info.city,
       continent := Some(info.continent))
  }

  /** The entry `enhance_channel_classification` leaves behind. */
  function Enhanced(s: Source, rules: RuleSet): Source {
    var u := WithChannelInfo(s, ChannelInfoOf(rules, s.name));
    var ruleCat := CategoryFor(rules, s.name);
    var c := if ShouldOverrideCategory(ruleCat, s.category.GetOr(OtherCategory), s.name)
             then u.(category := Some(ruleCat)) else u;
    c.(mediaType := Some(ClassifyMediaType(c)))
  }

  /**
   * Merge the rule engine's findings into the entry: the seven channel-info
   * fields, the category when the override policy allows, and the media type.
   */
  method EnhanceChannelClassification(s: Source, rules: RuleSet) returns (r: Source)
    ensures r == Enhanced(s, rules)
  {
    var info := ExtractChannelInfo(rules, s.name);
    var ruleCat := DetermineCategory(rules, s.name);
    r := WithChannelInfo(s, info);
    var current := r.category.GetOr(OtherCategory);
    if ShouldOverrideCategory(ruleCat, current, s.name) {
      r := r.(category := Some(ruleCat));
    }
    r := r.(mediaType := Some(ClassifyMediaType(r)));
  }

  /**
   * What the merge guarantees: the entry keeps its name, URL and probe
   * results; it always has a category and a media type; the category is the
   * old one or the rule engine's, and the rule engine's whenever the entry had
   * none or the catch-all.
   */
  lemma EnhancedSpec(s: Source, rules: RuleSet)
    ensures var r := Enhanced(s, rules);
            r.name == s.name && r.url == s.url && r.status == s.status && r.resolution == s.resolution
            && r.responseTime == s.responseTime && r.bitrate == s.bitrate && r.downloadSpeed == s.downloadSpeed
            && r.userAgent == s.userAgent && r.group == s.group && r.logo == s.logo
    ensures var r := Enhanced(s, rules);
            r.category.Some? && (r.category == s.category || r.category == Some(CategoryFor(rules, s.name)))
    ensures s.category.None? || s.category == Some(OtherCategory)
            ==> Enhanced(s, rules).category == Some(CategoryFor(rules, s.name))
    ensures Enhanced(s, rules).mediaType == Some(ClassifyMediaType(s))
    ensures Enhanced(s, rules).country == Some(ChannelInfoOf(rules, s.name).country)
    ensures Enhanced(s, rules).city == None
  {
    ChannelInfoDefaults(rules, s.name);
  }
}
