/**
 * The YAML-driven rule engine: rule-file validation, the built-in fallback
 * rules, priority ordering of categories, first-match category lookup and the
 * walk that extracts country, region, province, continent, channel type and
 * language from a channel name.
 */
module ChannelRules {
  import opened Wrappers
  import opened Text
  import opened Grouping
  import opened Sorting

  /** The catch-all category name. */
  const OtherCategory := "其他频道"
  /** The name used for a category rule that has no `name`. */
  const UnnamedCategory := "未知分类"

  datatype Category = Category(name: Option<string>, priority: Option<int>, keywords: seq<string>)
  datatype Province = Province(name: Option<string>, keywords: seq<string>)
  datatype Region = Region(name: Option<string>, code: Option<string>, keywords: seq<string>)
  datatype Country = Country(name: Option<string>, code: Option<string>, keywords: seq<string>,
                             provinces: seq<Province>, regions: seq<Region>)
  datatype Continent = Continent(name: Option<string>, code: Option<string>, countries: seq<Country>)
  /** One entry of the `channel_types` dict, in dict order. */
  datatype ChannelType = ChannelType(name: string, keywords: seq<string>)

  /**
   * A loaded rule file. Each section is None when its key is absent; a missing
   * list inside a present entry is the empty list. `otherSections` records
   * whether the dict holds keys besides these three, which makes it truthy.
   */
  datatype RuleSet = RuleSet(categories: Option<seq<Category>>, channelTypes: Option<seq<ChannelType>>,
                             geography: Option<seq<Continent>>, otherSections: bool)

  /** Python's `not self.rules`: the dict has no key at all. */
  predicate IsEmpty(rules: RuleSet) {
    rules.categories.None? && rules.channelTypes.None? && rules.geography.None? && !rules.otherSections
  }

  /** What `extract_channel_info` returns. */
  datatype ChannelInfo = ChannelInfo(country: string, region: Option<string>, language: string,
                                     channelType: Option<string>, province: Option<string>,
                                     city: Option<string>, continent: string)

  const DefaultInfo := ChannelInfo("CN", None, "zh", None, None, None, "Asia")

  // ---------------------------------------------------------------- validation

  function AllCategoriesComplete(cats: seq<Category>): bool
    decreases |cats|
  {
    |cats| == 0 || (cats[0].name.Some? && cats[0].priority.Some? && AllCategoriesComplete(cats[1..]))
  }

  /**
   * A rule file is usable when it has all three sections and every category
   * has a name and a priority; an empty category list only draws a warning.
   */
  function ValidateRulesStructure(rules: RuleSet): (ok: bool)
    ensures ok <==> rules.categories.Some? && rules.channelTypes.Some? && rules.geography.Some?
                    && forall i :: 0 <= i < |rules.categories.value| ==>
                         rules.categories.value[i].name.Some? && rules.categories.value[i].priority.Some?
  {
    rules.categories.Some? && rules.channelTypes.Some? && rules.geography.Some?
    && (CompleteIff(rules.categories.value); AllCategoriesComplete(rules.categories.value))
  }

  lemma {:induction false} CompleteIff(cats: seq<Category>)
    ensures AllCategoriesComplete(cats) <==> forall i :: 0 <= i < |cats| ==> cats[i].name.Some? && cats[i].priority.Some?
    decreases |cats|
  {
    if |cats| > 0 {
      CompleteIff(cats[1..]);
      assert forall i :: 1 <= i < |cats| ==> cats[i] == cats[1..][i - 1];
    }
  }

  /** The built-in rules used when the rule file cannot be loaded; they pass validation. */
  function EmptyRules(): (r: RuleSet)
    ensures ValidateRulesStructure(r)
    ensures !IsEmpty(r)
  {
    RuleSet(
      Some([Category(Some(OtherCategory), Some(100), ["台", "频道", "channel"])]),
      Some([]),
      Some([Continent(Some("亚洲"), Some("AS"),
                      [Country(Some("中国大陆"), Some("CN"), ["中国", "China", "中华", "华夏"], [], [])])]),
      false)
  }

  // ---------------------------------------------------------------- categories

  function PriorityOf(c: Category): int {
    c.priority.GetOr(100)
  }

  function PriorityKey(c: Category): Key {
    [KInt(PriorityOf(c))]
  }

  lemma PriorityKeyLe(a: Category, b: Category)
    ensures KeyLe(PriorityKey(a), PriorityKey(b)) <==> PriorityOf(a) <= PriorityOf(b)
  {
    assert PriorityKey(a)[1..] == [];
  }

  /**
   * The categories in priority order: a permutation of the file's list, by
   * non-decreasing priority (missing counts as 100), equal priorities in file order.
   */
  function CategoryRules(rules: RuleSet): (r: seq<Category>)
    ensures multiset(r) == multiset(rules.categories.GetOr([]))
    ensures forall i, j :: 0 <= i < j < |r| ==> PriorityOf(r[i]) <= PriorityOf(r[j])
    ensures forall p: int :: Members(r, PriorityKey, [KInt(p)]) == Members(rules.categories.GetOr([]), PriorityKey, [KInt(p)])
  {
    var cats := rules.categories.GetOr([]);
    var r := SortBy(cats, PriorityKey);
    SortBySpec(cats, PriorityKey);
    assert forall i, j :: 0 <= i < j < |r| ==> PriorityOf(r[i]) <= PriorityOf(r[j]) by {
      forall i, j | 0 <= i < j < |r|
        ensures PriorityOf(r[i]) <= PriorityOf(r[j])
      {
        PriorityKeyLe(r[i], r[j]);
      }
    }
    r
  }

  /** Some keyword, upper-cased, occurs in `text` (the keyword loops of the rule engine). */
  predicate KeywordHit(keywords: seq<string>, text: string) {
    exists i :: 0 <= i < |keywords| && Contains(text, Upper(keywords[i]))
  }

  /** The inner `for keyword in keywords: if keyword.upper() in text: ... break`. */
  method FindKeyword(keywords: seq<string>, text: string) returns (hit: bool)
    ensures hit == KeywordHit(keywords, text)
  {
    hit := false;
    var i := 0;
    while i < |keywords|
      invariant 0 <= i <= |keywords|
      invariant forall j :: 0 <= j < i ==> !Contains(text, Upper(keywords[j]))
    {
      if Contains(text, Upper(keywords[i])) {
        hit := true;
        return;
      }
      i := i + 1;
    }
  }

  /** The name of the first rule with a matching keyword, else the catch-all. */
  function FirstCategory(rs: seq<Category>, upperName: string): string
    decreases |rs|
  {
    if |rs| == 0 then OtherCategory
    else if KeywordHit(rs[0].keywords, upperName) then rs[0].name.GetOr(UnnamedCategory)
    else FirstCategory(rs[1..], upperName)
  }

  /** What `determine_category` returns for `name`. */
  function CategoryFor(rules: RuleSet, name: string): string {
    if IsEmpty(rules) then OtherCategory else FirstCategory(CategoryRules(rules), Upper(name))
  }

  /** A nested loop with an early return over the rules in priority order. */
  method DetermineCategory(rules: RuleSet, name: string) returns (r: string)
    ensures r == CategoryFor(rules, name)
  {
    if IsEmpty(rules) {
      return OtherCategory;
    }
    var upperName := Upper(name);
    var rs := CategoryRules(rules);
    var i := 0;
    while i < |rs|
      invariant 0 <= i <= |rs|
      invariant FirstCategory(rs[i..], upperName) == FirstCategory(rs, upperName)
    {
      assert rs[i..][1..] == rs[i + 1..];
      var hit := FindKeyword(rs[i].keywords, upperName);
      if hit {
        return rs[i].name.GetOr(UnnamedCategory);
      }
      i := i + 1;
    }
    return OtherCategory;
  }

  /** First-match characterisation of FirstCategory, by the index of the matching rule. */
  lemma {:induction false} FirstCategoryAt(rs: seq<Category>, upperName: string) returns (i: int)
    ensures -1 <= i < |rs|
    ensures forall j :: 0 <= j < |rs| && (i == -1 || j < i) ==> !KeywordHit(rs[j].keywords, upperName)
    ensures i == -1 ==> FirstCategory(rs, upperName) == OtherCategory
    ensures i >= 0 ==> KeywordHit(rs[i].keywords, upperName)
                       && FirstCategory(rs, upperName) == rs[i].name.GetOr(UnnamedCategory)
    decreases |rs|
  {
    if |rs| == 0 {
      i := -1;
    } else if KeywordHit(rs[0].keywords, upperName) {
      i := 0;
    } else {
      var k := FirstCategoryAt(rs[1..], upperName);
      i := if k == -1 then -1 else k + 1;
      forall j | 0 <= j < |rs| && (i == -1 || j < i)
        ensures !KeywordHit(rs[j].keywords, upperName)
      {
        if j > 0 {
          assert rs[j] == rs[1..][j - 1];
        }
      }
    }
  }

  /**
   * `determine_category` picks a rule of the lowest priority among those whose
   * keywords match, and answers with a rule's name (or the unnamed-rule
   * placeholder) or the catch-all.
   */
  lemma CategoryForLowestPriority(rules: RuleSet, name: string)
    requires !IsEmpty(rules)
    ensures CategoryFor(rules, name) == OtherCategory
            || exists c :: c in rules.categories.GetOr([]) && KeywordHit(c.keywords, Upper(name))
                           && CategoryFor(rules, name) == c.name.GetOr(UnnamedCategory)
                           && forall d :: d in rules.categories.GetOr([]) && KeywordHit(d.keywords, Upper(name))
                                          ==> PriorityOf(c) <= PriorityOf(d)
  {
    var rs := CategoryRules(rules);
    var cats := rules.categories.GetOr([]);
    var i := FirstCategoryAt(rs, Upper(name));
    if i >= 0 {
      var c := rs[i];
      assert c in cats by {
        assert c in multiset(rs);
      }
      FirstHitLowest(rs, cats, i, Upper(name));
    }
  }

  /** In a priority-sorted permutation, the first matching rule has the lowest priority among the matching ones. */
  lemma FirstHitLowest(rs: seq<Category>, cats: seq<Category>, i: nat, upperName: string)
    requires multiset(rs) == multiset(cats) && i < |rs|
    requires forall a, b :: 0 <= a < b < |rs| ==> PriorityOf(rs[a]) <= PriorityOf(rs[b])
    requires forall j :: 0 <= j < i ==> !KeywordHit(rs[j].keywords, upperName)
    ensures forall d :: d in cats && KeywordHit(d.keywords, upperName) ==> PriorityOf(rs[i]) <= PriorityOf(d)
  {
    forall d | d in cats && KeywordHit(d.keywords, upperName)
      ensures PriorityOf(rs[i]) <= PriorityOf(d)
    {
      assert d in multiset(cats);
      var j :| 0 <= j < |rs| && rs[j] == d;
      assert !(j < i);
    }
  }

  /** With no rules at all, everything is the catch-all category. */
  lemma NoRulesCategory(rules: RuleSet, name: string)
    requires IsEmpty(rules)
    ensures CategoryFor(rules, name) == OtherCategory
  {
  }

  /** The built-in rules classify every name as the catch-all category. */
  lemma EmptyRulesCategory(name: string)
    ensures CategoryFor(EmptyRules(), name) == OtherCategory
  {
    var rs := CategoryRules(EmptyRules());
    assert |rs| == 1;
    assert rs[0] in multiset(rs);
    assert rs[1..] == [];
  }

  // ---------------------------------------------------------------- channel info

  /** `re.sub(r'[^\w一-鿿]', '', ...)`, taking every non-ASCII character as a word character. */
  predicate IsWordChar(ch: char) {
    ('A' <= ch <= 'Z') || ('a' <= ch <= 'z') || ('0' <= ch <= '9') || ch == '_' || ch as int > 127
  }

  function KeepWordChars(s: string): (r: string)
    ensures |r| <= |s|
    ensures forall ch :: ch in r ==> IsWordChar(ch) && ch in s
    decreases |s|
  {
    if |s| == 0 then []
    else if IsWordChar(s[0]) then [s[0]] + KeepWordChars(s[1..])
    else KeepWordChars(s[1..])
  }

  function CleanName(name: string): string {
    KeepWordChars(Upper(name))
  }

  /** Geography fields written by the country/province/region walk. */
  datatype Geo = Geo(country: string, continent: string, province: Option<string>, region: Option<string>)

  /** The first province, in declaration order, with a matching keyword. */
  function FirstProvince(ps: seq<Province>, clean: string): Option<Province>
    decreases |ps|
  {
    if |ps| == 0 then None
    else if KeywordHit(ps[0].keywords, clean) then Some(ps[0])
    else FirstProvince(ps[1..], clean)
  }

  /** Every matching region, in order, overwrites country and region. */
  function ApplyRegions(rs: seq<Region>, clean: string, g: Geo): Geo
    decreases |rs|
  {
    if |rs| == 0 then g
    else
      var h := ApplyRegions(rs[..|rs| - 1], clean, g);
      var r := rs[|rs| - 1];
      if KeywordHit(r.keywords, clean) then h.(country := r.code.GetOr("CN"), region := r.name) else h
  }

  /** How one country of one continent matches, if it does. */
  function CountryMatch(k: Continent, c: Country, clean: string): Option<Geo> {
    if KeywordHit(c.keywords, clean) then
      Some(ApplyRegions(c.regions, clean, Geo(c.code.GetOr("CN"), k.name.GetOr("Asia"), None, None)))
    else if c.code == Some("CN") && FirstProvince(c.provinces, clean).Some? then
      Some(ApplyRegions(c.regions, clean, Geo("CN", "Asia", FirstProvince(c.provinces, clean).value.name, None)))
    else None
  }

  function GeoOfCountries(k: Continent, cs: seq<Country>, clean: string): Option<Geo>
    decreases |cs|
  {
    if |cs| == 0 then None
    else if CountryMatch(k, cs[0], clean).Some? then CountryMatch(k, cs[0], clean)
    else GeoOfCountries(k, cs[1..], clean)
  }

  /** The first country, in continent/country declaration order, that matches. */
  function GeoOf(ks: seq<Continent>, clean: string): Option<Geo>
    decreases |ks|
  {
    if |ks| == 0 then None
    else if GeoOfCountries(ks[0], ks[0].countries, clean).Some? then GeoOfCountries(ks[0], ks[0].countries, clean)
    else GeoOf(ks[1..], clean)
  }

  /**
   * The channel-type loop: a match sets the type, and the walk stops once the
   * type is truthy, so a later match can overwrite a type named "".
   */
  function ChannelTypeOf(ts: seq<ChannelType>, clean: string, cur: Option<string>): Option<string>
    decreases |ts|
  {
    if |ts| == 0 then cur
    else
      var c := if KeywordHit(ts[0].keywords, clean) then Some(ts[0].name) else cur;
      if Truthy(c) then c else ChannelTypeOf(ts[1..], clean, c)
  }

  /** The language table, in dict order; its keywords are compared as written. */
  const LanguageKeywords: seq<(string, seq<string>)> := [
    ("en", ["英文", "英语", "EN", "ENG", "ENGLISH"]),
    ("ja", ["日语", "日文", "JP", "JAPANESE"]),
    ("ko", ["韩语", "韩文", "KR", "KOREAN"]),
    ("ru", ["俄语", "俄文", "RU", "RUSSIAN"]),
    ("fr", ["法语", "法文", "FR", "FRENCH"]),
    ("de", ["德语", "德文", "DE", "GERMAN"])
  ]

  function LanguageOf(langs: seq<(string, seq<string>)>, clean: string): string
    decreases |langs|
  {
    if |langs| == 0 then "zh"
    else if AnyIn(langs[0].1, clean) then langs[0].0
    else LanguageOf(langs[1..], clean)
  }

  function ApplyGeo(info: ChannelInfo, g: Option<Geo>): ChannelInfo {
    match g
    case None => info
    case Some(v) => info.(country := v.country, continent := v.continent, province := v.province, region := v.region)
  }

  /** What `extract_channel_info` returns for `name`. */
  function ChannelInfoOf(rules: RuleSet, name: string): ChannelInfo {
    if IsEmpty(rules) then DefaultInfo
    else
      var clean := CleanName(name);
      var info := ApplyGeo(DefaultInfo, GeoOf(rules.geography.GetOr([]), clean));
      info.(channelType := ChannelTypeOf(rules.channelTypes.GetOr([]), clean, None),
            language := LanguageOf(LanguageKeywords, clean))
  }

  method MatchProvince(ps: seq<Province>, clean: string) returns (p: Option<Province>)
    ensures p == FirstProvince(ps, clean)
  {
    var i := 0;
    while i < |ps|
      invariant 0 <= i <= |ps|
      invariant FirstProvince(ps[i..], clean) == FirstProvince(ps, clean)
    {
      assert ps[i..][1..] == ps[i + 1..];
      var hit := FindKeyword(ps[i].keywords, clean);
      if hit {
        return Some(ps[i]);
      }
      i := i + 1;
    }
    return None;
  }

  method MatchRegions(rs: seq<Region>, clean: string, g0: Geo) returns (g: Geo)
    ensures g == ApplyRegions(rs, clean, g0)
  {
    g := g0;
    var i := 0;
    while i < |rs|
      invariant 0 <= i <= |rs|
      invariant g == ApplyRegions(rs[..i], clean, g0)
    {
      assert rs[..i + 1][..i] == rs[..i];
      var hit := FindKeyword(rs[i].keywords, clean);
      if hit {
        g := g.(country := rs[i].code.GetOr("CN"), region := rs[i].name);
      }
      i := i + 1;
    }
    assert rs[..i] == rs;
  }

  /** The body of the country loop: own keywords, then the CN province fallback, then regions. */
  method MatchCountry(k: Continent, c: Country, clean: string) returns (g: Option<Geo>)
    ensures g == CountryMatch(k, c, clean)
  {
    var hit := FindKeyword(c.keywords, clean);
    if hit {
      var r := MatchRegions(c.regions, clean, Geo(c.code.GetOr("CN"), k.name.GetOr("Asia"), None, None));
      return Some(r);
    }
    if c.code == Some("CN") {
      var p := MatchProvince(c.provinces, clean);
      if p.Some? {
        var r := MatchRegions(c.regions, clean, Geo("CN", "Asia", p.value.name, None));
        return Some(r);
      }
    }
    return None;
  }

  /** The two nested loops over continents and countries, left at the first match. */
  method MatchGeography(ks: seq<Continent>, clean: string) returns (g: Option<Geo>)
    ensures g == GeoOf(ks, clean)
  {
    var i := 0;
    while i < |ks|
      invariant 0 <= i <= |ks|
      invariant GeoOf(ks[i..], clean) == GeoOf(ks, clean)
    {
      assert ks[i..][1..] == ks[i + 1..];
      var cs := ks[i].countries;
      var j := 0;
      while j < |cs|
        invariant 0 <= j <= |cs|
        invariant GeoOfCountries(ks[i], cs[j..], clean) == GeoOfCountries(ks[i], cs, clean)
      {
        assert cs[j..][1..] == cs[j + 1..];
        var m := MatchCountry(ks[i], cs[j], clean);
        if m.Some? {
          return m;
        }
        j := j + 1;
      }
      i := i + 1;
    }
    return None;
  }

  method MatchChannelType(ts: seq<ChannelType>, clean: string) returns (t: Option<string>)
    ensures t == ChannelTypeOf(ts, clean, None)
  {
    t := None;
    var i := 0;
    while i < |ts|
      invariant 0 <= i <= |ts|
      invariant ChannelTypeOf(ts[i..], clean, t) == ChannelTypeOf(ts, clean, None)
    {
      assert ts[i..][1..] == ts[i + 1..];
      var hit := FindKeyword(ts[i].keywords, clean);
      if hit {
        t := Some(ts[i].name);
      }
      if Truthy(t) {
        return;
      }
      i := i + 1;
    }
  }

  method MatchLanguage(langs: seq<(string, seq<string>)>, clean: string) returns (lang: string)
    ensures lang == LanguageOf(langs, clean)
  {
    var i := 0;
    while i < |langs|
      invariant 0 <= i <= |langs|
      invariant LanguageOf(langs[i..], clean) == LanguageOf(langs, clean)
    {
      assert langs[i..][1..] == langs[i + 1..];
      if AnyIn(langs[i].1, clean) {
        return langs[i].0;
      }
      i := i + 1;
    }
    return "zh";
  }

  /** `extract_channel_info`: start from the defaults and let each walk overwrite its fields. */
  method ExtractChannelInfo(rules: RuleSet, name: string) returns (info: ChannelInfo)
    ensures info == ChannelInfoOf(rules, name)
  {
    info := DefaultInfo;
    if IsEmpty(rules) {
      return;
    }
    var clean := CleanName(name);
    var g := MatchGeography(rules.geography.GetOr([]), clean);
    if g.Some? {
      info := info.(country := g.value.country, continent := g.value.continent,
                    province := g.value.province, region := g.value.region);
    }
    var t := MatchChannelType(rules.channelTypes.GetOr([]), clean);
    info := info.(channelType := t);
    var lang := MatchLanguage(LanguageKeywords, clean);
    info := info.(language := lang);
  }

  // ---------------------------------------------------------------- properties of the walk

  /** `city` is never set, and without any match every field keeps its default. */
  lemma ChannelInfoDefaults(rules: RuleSet, name: string)
    ensures ChannelInfoOf(rules, name).city == None
    ensures GeoOf(rules.geography.GetOr([]), CleanName(name)) == None
            && ChannelTypeOf(rules.channelTypes.GetOr([]), CleanName(name), None) == None
            && LanguageOf(LanguageKeywords, CleanName(name)) == "zh"
            ==> ChannelInfoOf(rules, name) == DefaultInfo
  {
  }

  /** Regions: the last matching region decides country and region. */
  lemma {:induction false} ApplyRegionsLast(rs: seq<Region>, clean: string, g: Geo) returns (i: int)
    ensures -1 <= i < |rs|
    ensures i == -1 ==> ApplyRegions(rs, clean, g) == g
    ensures i >= 0 ==> KeywordHit(rs[i].keywords, clean)
                       && ApplyRegions(rs, clean, g) == g.(country := rs[i].code.GetOr("CN"), region := rs[i].name)
    ensures forall j :: (i == -1 || i < j) && 0 <= j < |rs| ==> !KeywordHit(rs[j].keywords, clean)
    decreases |rs|
  {
    if |rs| == 0 {
      i := -1;
    } else if KeywordHit(rs[|rs| - 1].keywords, clean) {
      var _ := ApplyRegionsLast(rs[..|rs| - 1], clean, g);
      i := |rs| - 1;
    } else {
      var p := rs[..|rs| - 1];
      i := ApplyRegionsLast(p, clean, g);
      if i >= 0 {
        var h := ApplyRegions(p, clean, g);
        assert ApplyRegions(rs, clean, g) == h;
      }
      forall j | (i == -1 || i < j) && 0 <= j < |rs|
        ensures !KeywordHit(rs[j].keywords, clean)
      {
        if j < |rs| - 1 {
          assert rs[j] == p[j];
        }
      }
    }
  }

  /** The province is set only by the CN fallback, that is when the country's own keywords miss. */
  lemma ProvinceOnlyOnFallback(k: Continent, c: Country, clean: string)
    requires CountryMatch(k, c, clean).Some? && CountryMatch(k, c, clean).value.province.Some?
    ensures !KeywordHit(c.keywords, clean) && c.code == Some("CN")
    ensures FirstProvince(c.provinces, clean).Some?
            && CountryMatch(k, c, clean).value.province == FirstProvince(c.provinces, clean).value.name
  {
    ApplyRegionsProvince(c.regions, clean, Geo(c.code.GetOr("CN"), k.name.GetOr("Asia"), None, None));
    if FirstProvince(c.provinces, clean).Some? {
      ApplyRegionsProvince(c.regions, clean, Geo("CN", "Asia", FirstProvince(c.provinces, clean).value.name, None));
    }
  }

  lemma {:induction false} ApplyRegionsProvince(rs: seq<Region>, clean: string, g: Geo)
    ensures ApplyRegions(rs, clean, g).province == g.province
    ensures ApplyRegions(rs, clean, g).continent == g.continent
    decreases |rs|
  {
    if |rs| > 0 {
      ApplyRegionsProvince(rs[..|rs| - 1], clean, g);
    }
  }

  /** When every type name is non-empty, the channel type is the first type that matches. */
  lemma {:induction false} ChannelTypeFirst(ts: seq<ChannelType>, clean: string)
    requires forall i :: 0 <= i < |ts| ==> ts[i].name != ""
    ensures ChannelTypeOf(ts, clean, None) == None <==> forall i :: 0 <= i < |ts| ==> !KeywordHit(ts[i].keywords, clean)
    ensures forall i :: 0 <= i < |ts| && KeywordHit(ts[i].keywords, clean)
                        && (forall j :: 0 <= j < i ==> !KeywordHit(ts[j].keywords, clean))
                        ==> ChannelTypeOf(ts, clean, None) == Some(ts[i].name)
    decreases |ts|
  {
    if |ts| > 0 && !KeywordHit(ts[0].keywords, clean) {
      ChannelTypeFirst(ts[1..], clean);
      assert forall i :: 1 <= i < |ts| ==> ts[i] == ts[1..][i - 1];
    }
  }

  lemma UpperChina()
    ensures Upper("China") == "CHINA"
  {
    var u := Upper("China");
    assert u[0] == 'C' && u[1] == 'H' && u[2] == 'I' && u[3] == 'N' && u[4] == 'A';
  }

  /**
   * Under the built-in rules, a name that mentions China is placed in CN on
   * continent "亚洲", the rule's own name, where the default is "Asia".
   */
  lemma EmptyRulesChina(name: string)
    requires Contains(CleanName(name), "CHINA")
    ensures ChannelInfoOf(EmptyRules(), name).continent == "亚洲"
    ensures ChannelInfoOf(EmptyRules(), name).country == "CN"
  {
    var clean := CleanName(name);
    UpperChina();
    var k := EmptyRules().geography.value[0];
    var c := k.countries[0];
    assert Contains(clean, Upper(c.keywords[1]));
    assert KeywordHit(c.keywords, clean);
    assert CountryMatch(k, c, clean) == Some(Geo("CN", "亚洲", None, None));
    assert GeoOfCountries(k, k.countries, clean) == Some(Geo("CN", "亚洲", None, None));
  }
}
