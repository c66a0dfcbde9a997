/**
 * The orchestrator's three-layer reduction: the validity filter, the
 * per-channel/resolution top-5 selection, and the qualification filter.
 */
module Pipeline {
  import opened Wrappers
  import opened Grouping
  import opened Sorting
  import opened Records
  import opened Resolution
  import opened ChannelRules
  import opened Classification

  // ---------------------------------------------------------------- layer 3: qualification

  /** The orchestrator's qualification predicate `is_source_qualified`. */
  function IsSourceQualified(s: Source, p: FilterParams): (ok: bool)
    ensures ok ==> IsSuccess(s) && s.responseTime.GetOr(9999) <= p.maxLatency
    ensures IsSuccess(s) && s.responseTime.GetOr(9999) <= p.maxLatency && IsAudioLike(s) ==> ok
    ensures ok && !IsAudioLike(s) ==>
              CheckResolution(s.resolution, p.minResolution, p.maxResolution, p.mode.GetOr("range"))
              && (s.bitrate.GetOr(0) <= 0 || s.bitrate.GetOr(0) >= p.minBitrate)
              && (p.mustHd ==> s.isHd.GetOr(false))
              && (p.must4k ==> s.is4k.GetOr(false))
              && (s.downloadSpeed.GetOr(0) <= 0 || s.downloadSpeed.GetOr(0) >= p.minSpeed)
    ensures IsSuccess(s) && s.responseTime.GetOr(9999) <= p.maxLatency && !IsAudioLike(s)
            && CheckResolution(s.resolution, p.minResolution, p.maxResolution, p.mode.GetOr("range"))
            && (s.bitrate.GetOr(0) <= 0 || s.bitrate.GetOr(0) >= p.minBitrate)
            && (p.mustHd ==> s.isHd.GetOr(false))
            && (p.must4k ==> s.is4k.GetOr(false))
            && (s.downloadSpeed.GetOr(0) <= 0 || s.downloadSpeed.GetOr(0) >= p.minSpeed)
            ==> ok
  {
    var rt := s.responseTime.GetOr(9999);
    if !IsSuccess(s) then false
    else if rt > p.maxLatency then false
    else if IsAudioLike(s) then rt <= p.maxLatency
    else if !CheckResolution(s.resolution, p.minResolution, p.maxResolution, p.mode.GetOr("range")) then false
    else if s.bitrate.GetOr(0) > 0 && s.bitrate.GetOr(0) < p.minBitrate then false
    else if p.mustHd && !s.isHd.GetOr(false) then false
    else if p.must4k && !s.is4k.GetOr(false) then false
    else if s.downloadSpeed.GetOr(0) > 0 && s.downloadSpeed.GetOr(0) < p.minSpeed then false
    else true
  }

  /** `tight` demands at least as much as `loose` on every bound, with the same resolution mode. */
  predicate Tighter(tight: FilterParams, loose: FilterParams) {
    tight.maxLatency <= loose.maxLatency
    && tight.minBitrate >= loose.minBitrate
    && (loose.mustHd ==> tight.mustHd)
    && (loose.must4k ==> tight.must4k)
    && tight.minSpeed >= loose.minSpeed
    && TighterMin(ParseDims(tight.minResolution, Zero), ParseDims(loose.minResolution, Zero))
    && TighterMax(ParseDims(tight.maxResolution, Zero), ParseDims(loose.maxResolution, Zero))
    && tight.mode.GetOr("range") == loose.mode.GetOr("range")
  }

  /** Tightening any bound never turns a rejected entry into a qualified one. */
  lemma QualifiedMonotone(s: Source, tight: FilterParams, loose: FilterParams)
    requires Tighter(tight, loose) && IsSourceQualified(s, tight)
    ensures IsSourceQualified(s, loose)
  {
    if !IsAudioLike(s) {
      CheckMonotone(s.resolution, loose.minResolution, loose.maxResolution,
                    tight.minResolution, tight.maxResolution, tight.mode.GetOr("range"));
    }
  }

  function QualifiedBy(p: FilterParams): Source -> bool {
    s => IsSourceQualified(s, p)
  }

  /** `condition_based_filtering`: keep the qualified entries, in order. */
  method ConditionBasedFiltering(sources: seq<Source>, p: FilterParams) returns (r: seq<Source>)
    ensures r == Filter(sources, QualifiedBy(p))
  {
    r := [];
    var i := 0;
    while i < |sources|
      invariant 0 <= i <= |sources|
      invariant r == Filter(sources[..i], QualifiedBy(p))
    {
      assert sources[..i + 1][..i] == sources[..i];
      if IsSourceQualified(sources[i], p) {
        r := r + [sources[i]];
      }
      i := i + 1;
    }
    assert sources[..i] == sources;
  }

  /** Under tighter parameters the qualified tier is the looser tier filtered again. */
  lemma ConditionMonotone(sources: seq<Source>, tight: FilterParams, loose: FilterParams)
    requires Tighter(tight, loose)
    ensures Filter(Filter(sources, QualifiedBy(loose)), QualifiedBy(tight)) == Filter(sources, QualifiedBy(tight))
    ensures multiset(Filter(sources, QualifiedBy(tight))) <= multiset(Filter(sources, QualifiedBy(loose)))
  {
    forall s | QualifiedBy(tight)(s)
      ensures QualifiedBy(loose)(s)
    {
      QualifiedMonotone(s, tight, loose);
    }
    FilterStronger(sources, QualifiedBy(tight), QualifiedBy(loose));
    FilterSpec(Filter(sources, QualifiedBy(loose)), QualifiedBy(tight));
  }

  // ---------------------------------------------------------------- layer 2: top 5 per channel and resolution

  /** Sound-only entries group by name, video entries by name and resolution. */
  function ChannelKey(s: Source): string {
    if IsAudioLike(s) then "audio_" + s.name else s.name + "_" + s.resolution.GetOr("unknown")
  }

  /** Speed descending, response time ascending (None and 0 as 9999), bitrate descending, name. */
  function RankKey(s: Source): Key {
    [KInt(-IntOr(s.downloadSpeed, 0)), KInt(IntOr(s.responseTime, 9999)), KInt(-IntOr(s.bitrate, 0)), KStr(s.name)]
  }

  /** The cap on entries kept per group; the configured `max_sources_per_channel` is not read. */
  const KeepPerGroup := 5

  function Take<T>(s: seq<T>, n: nat): (r: seq<T>)
    ensures |r| == if |s| <= n then |s| else n
    ensures r == s[..|r|]
  {
    if |s| <= n then s else s[..n]
  }

  /** The best five of one group under the stable quality sort. */
  function TopOf(group: seq<Source>): seq<Source> {
    Take(SortBy(group, RankKey), KeepPerGroup)
  }

  function TopOfGroups(s: seq<Source>, ks: seq<string>): seq<Source>
    decreases |ks|
  {
    if |ks| == 0 then []
    else TopOfGroups(s, ks[..|ks| - 1]) + TopOf(Members(s, ChannelKey, ks[|ks| - 1]))
  }

  /** What `resolution_based_filtering` returns: the best five of every group, groups in first-seen order. */
  function BaseTier(s: seq<Source>): seq<Source> {
    TopOfGroups(s, DistinctKeys(s, ChannelKey))
  }

  /** `resolution_based_filtering`: build the groups, then sort each and keep its head. */
  method ResolutionBasedFiltering(sources: seq<Source>) returns (r: seq<Source>)
    ensures r == BaseTier(sources)
  {
    var groups := GroupBy(sources, ChannelKey);
    r := [];
    var i := 0;
    while i < |groups.order|
      invariant 0 <= i <= |groups.order|
      invariant r == TopOfGroups(sources, groups.order[..i])
    {
      var k := groups.order[i];
      assert groups.order[..i + 1][..i] == groups.order[..i];
      var sorted := SortBy(groups.groups[k], RankKey);
      var keep := if KeepPerGroup < |sorted| then KeepPerGroup else |sorted|;
      r := r + sorted[..keep];
      i := i + 1;
    }
    assert groups.order[..i] == groups.order;
  }

  /** A group's head holds only members of that group. */
  lemma TopOfSub(g: seq<Source>)
    ensures multiset(TopOf(g)) <= multiset(g)
    ensures forall x :: x in TopOf(g) ==> x in g
  {
    SortBySpec(g, RankKey);
    var t := SortBy(g, RankKey);
    assert t == TopOf(g) + t[|TopOf(g)|..];
    forall x | x in TopOf(g)
      ensures x in g
    {
      assert x in multiset(t);
    }
  }

  lemma {:induction false} TopOfGroupsMembers(s: seq<Source>, ks: seq<string>, k: string)
    requires Distinct(ks)
    ensures Members(TopOfGroups(s, ks), ChannelKey, k) == if k in ks then TopOf(Members(s, ChannelKey, k)) else []
    decreases |ks|
  {
    if |ks| > 0 {
      var q := ks[..|ks| - 1];
      var last := ks[|ks| - 1];
      TopOfGroupsMembers(s, q, k);
      var top := TopOf(Members(s, ChannelKey, last));
      MembersAppend(TopOfGroups(s, q), top, ChannelKey, k);
      TopOfSub(Members(s, ChannelKey, last));
      MembersSub(s, ChannelKey, last);
      MembersUniform(top, ChannelKey, last, k);
      assert k in ks <==> k in q || k == last;
      assert k == last ==> k !in q;
    }
  }

  /**
   * Layer 2 per group: the entries kept from a group are exactly its first
   * min(5, size) entries under the stable quality sort.
   */
  lemma BaseTierGroups(s: seq<Source>, k: string)
    ensures Members(BaseTier(s), ChannelKey, k) == TopOf(Members(s, ChannelKey, k))
    ensures |Members(BaseTier(s), ChannelKey, k)|
            == if |Members(s, ChannelKey, k)| <= KeepPerGroup then |Members(s, ChannelKey, k)| else KeepPerGroup
  {
    DistinctKeysSpec(s, ChannelKey);
    TopOfGroupsMembers(s, DistinctKeys(s, ChannelKey), k);
    SortBySpec(Members(s, ChannelKey, k), RankKey);
  }

  lemma {:induction false} TopOfGroupsSub(s: seq<Source>, ks: seq<string>)
    ensures multiset(TopOfGroups(s, ks)) <= multiset(Concat(s, ChannelKey, ks))
    decreases |ks|
  {
    if |ks| > 0 {
      TopOfGroupsSub(s, ks[..|ks| - 1]);
      TopOfSub(Members(s, ChannelKey, ks[|ks| - 1]));
    }
  }

  /** Layer 2 only drops entries: its output is a sub-multiset of its input. */
  lemma BaseTierSub(s: seq<Source>)
    ensures multiset(BaseTier(s)) <= multiset(s)
  {
    TopOfGroupsSub(s, DistinctKeys(s, ChannelKey));
    ConcatPartition(s, ChannelKey);
  }

  /** Within a group, every kept entry ranks no worse than every dropped one. */
  lemma KeptRankFirst(g: seq<Source>, i: int, j: int)
    requires 0 <= i < |TopOf(g)| <= j < |SortBy(g, RankKey)|
    ensures KeyLe(RankKey(SortBy(g, RankKey)[i]), RankKey(SortBy(g, RankKey)[j]))
  {
    SortBySpec(g, RankKey);
  }

  // ---------------------------------------------------------------- layer 1 and the whole

  function IsSuccessFn(): Source -> bool {
    s => IsSuccess(s)
  }

  /** `[s for s in sources if s.get('status') == 'success']`. */
  function ValidSources(sources: seq<Source>): (r: seq<Source>)
    ensures forall x :: x in r <==> x in sources && IsSuccess(x)
    ensures multiset(r) <= multiset(sources)
  {
    FilterSpec(sources, IsSuccessFn());
    Filter(sources, IsSuccessFn())
  }

  function EnhanceFn(rules: RuleSet): Source -> Source {
    (s: Source) => Enhanced(s, rules)
  }

  function EnhancedAll(vs: seq<Source>, rules: RuleSet): seq<Source> {
    MapSeq(vs, EnhanceFn(rules))
  }

  /** The first loop of `hierarchical_filtering`: classify every valid entry, in order. */
  method ClassifyAll(valid: seq<Source>, rules: RuleSet) returns (classified: seq<Source>)
    ensures classified == EnhancedAll(valid, rules)
  {
    classified := [];
    var i := 0;
    while i < |valid|
      invariant 0 <= i <= |valid|
      invariant classified == MapSeq(valid[..i], EnhanceFn(rules))
    {
      var e := EnhanceChannelClassification(valid[i], rules);
      assert e == EnhanceFn(rules)(valid[i]);
      MapSnoc(valid, i, EnhanceFn(rules));
      classified := classified + [e];
      i := i + 1;
    }
    assert valid[..i] == valid;
  }

  /**
   * `hierarchical_filtering`: the classified valid entries, the base tier and
   * the qualified tier; all three empty when no entry is valid.
   */
  method HierarchicalFiltering(sources: seq<Source>, rules: RuleSet, p: FilterParams)
    returns (classified: seq<Source>, base: seq<Source>, qualified: seq<Source>)
    ensures ValidSources(sources) == [] ==> classified == [] && base == [] && qualified == []
    ensures ValidSources(sources) != [] ==>
              classified == EnhancedAll(ValidSources(sources), rules)
              && base == BaseTier(classified)
              && qualified == Filter(base, QualifiedBy(p))
  {
    var valid := ValidSources(sources);
    if |valid| == 0 {
      return [], [], [];
    }
    classified := ClassifyAll(valid, rules);
    base := ResolutionBasedFiltering(classified);
    qualified := ConditionBasedFiltering(base, p);
  }

  /** Classification keeps the probe status, so every classified entry was probed successfully. */
  lemma ClassifiedSucceeded(sources: seq<Source>, rules: RuleSet)
    ensures |EnhancedAll(ValidSources(sources), rules)| == |ValidSources(sources)|
    ensures forall x :: x in EnhancedAll(ValidSources(sources), rules) ==> IsSuccess(x)
  {
    var valid := ValidSources(sources);
    var classified := EnhancedAll(valid, rules);
    forall j | 0 <= j < |classified|
      ensures IsSuccess(classified[j])
    {
      EnhancedSpec(valid[j], rules);
      assert valid[j] in valid;
    }
  }

  /**
   * The tiers shrink: the qualified tier is a sub-multiset of the base tier,
   * which is one of the classified list, and every qualified entry passes the
   * qualification predicate.
   */
  lemma TiersShrink(classified: seq<Source>, p: FilterParams)
    ensures multiset(BaseTier(classified)) <= multiset(classified)
    ensures multiset(Filter(BaseTier(classified), QualifiedBy(p))) <= multiset(BaseTier(classified))
    ensures forall x :: x in Filter(BaseTier(classified), QualifiedBy(p)) ==> IsSourceQualified(x, p)
  {
    BaseTierSub(classified);
    FilterSpec(BaseTier(classified), QualifiedBy(p));
  }
}
