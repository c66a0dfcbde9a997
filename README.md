# live-source-manager: a Dafny model of the playlist pipeline

live-source-manager collects IPTV live-stream playlists (M3U and plain URL
lists), probes every stream, classifies and filters the entries, and writes
tiered, grouped playlists back out. This project models the deterministic
core of that pipeline in Dafny and proves properties of it:

- **the playlist parser** (`SourceManager`): the EXTINF/URL line loop of
  `parse_file` over the lines of one file, the `|User-Agent=` split, the
  name, logo and group extractors, and the file-name sanitiser for
  downloaded playlists;
- **the prober's bookkeeping** (`StreamTester`): the TTL result cache as a
  class over the two module globals, with read-side expiry and a periodic
  sweep; the metadata extractor folding the probe's stream list into
  counters, flags and a resolution; the prober's own media-type rule and
  qualification predicate; the worker-count rule; the IPv6 gate; and the
  query-parameter filter behind cache-key normalisation;
- **the rule engine** (`ChannelRules`): rule-file validation, the built-in
  fallback rules, categories in priority order, first-match category lookup,
  and the geography / channel-type / language walk;
- **the orchestrator** (`Resolution`, `Classification`, `Pipeline`): the
  media-type classifier and its radio/audio refinement, the category
  override policy, the merge of the rule engine's findings into an entry,
  and the three-layer reduction (validity, per-channel top five,
  qualification);
- **the playlist writer** (`M3uGenerator`): the third qualification filter,
  the group-key selector, the diversion of sound-only entries into two fixed
  groups, the per-group sorts, the EXTINF line, and the line structure of
  the M3U and TXT outputs, plus the backward-compatible wrappers;
- **agreement between the copies** (`Agreement`): the orchestrator, the
  prober and the writer each carry their own media-type, resolution and
  qualification logic. These lemmas say where the copies agree for every
  entry, and give concrete entries on which they differ. They also show
  that the parser reads back the URL lines the writer emits.

Entries are the value type `Records.Source`, with an `Option` for every key
that may be missing. Generic pieces live in their own modules:

- `Text`: splitting, joining, stripping, containment, and decimal integers;
- `Grouping`: order-keeping filters, first-seen group-by, the ordered dict as `Grouped(order, groups)`;
- `Sorting`: lexicographic keys as in Python tuples, and a stable insertion sort.

Where the source has loops that update state, the model has methods with loop
invariants. Each such method is proved equal to a specification function,
and lemmas about that function state what the source promises.

The program's three resolution checks disagree. Under `max_only` with the
maximum `"1080p"`, the resolution `"abc"` passes the orchestrator's
`check_resolution`, which reads it as 0x0, and fails the prober's and the
writer's checks, which read an unparsable maximum-side value as 9999x9999
(`Resolution.CheckVersusMeetMax`, `Agreement.UnparsableUnderMaxSplits`). The
two media-type classifiers also default a missing video flag differently:
the orchestrator's to video, the prober's to audio
(`Agreement.MediaTypeFlagMissing`).

## Model

| member | source | states |
|---|---|---|
| Resolution.TruncDiv | app/main.py:599 | Python's `int(h * 16 / 9)`: the quotient is truncated toward zero for both signs, unlike Dafny's Euclidean division |
| Resolution.ParseDims | app/main.py:581-603 | the inner `parse_resolution`, with the value an unparsable string becomes as a parameter (0x0 in the orchestrator and on the min side, 9999x9999 on the prober's and the writer's max side); its contract is stated by `ParseDimsWxH`, `ParseDimsP`, `ParseDimsOther` and `ParseDimsNoMarker` |
| Resolution.ParseDimsWxH | app/main.py:581-603 | a "WxH" string written from two integers parses back to exactly those two integers, whatever the failure value |
| Resolution.ParseDimsP | app/main.py:594-602 | "Np" parses to height N and width N*16/9 truncated toward zero |
| Resolution.ParseDimsOther | app/main.py:581-603 | a string with neither an 'x' nor a trailing 'p' becomes the failure value |
| Resolution.ParseDimsNoMarker | app/main.py:581-603 | every string without an 'x' and without a final 'p', such as "4k", "abc" or "unknown", becomes the failure value |
| Resolution.P1080 | app/stream_tester.py:798-806 | "1080p" is 1920x1080 under both failure values and "720p" is 1280x720 |
| Resolution.CheckResolution | app/main.py:566-621 | the orchestrator's `check_resolution`; its contract is stated by `CheckUnknownPasses`, `CheckUnparsable`, `CheckZeroBoundOff`, `Check4kNoBound`, `CheckMonotone` and `CheckVersusMeetMax` |
| Resolution.CheckUnknownPasses | app/main.py:578-579 | a missing, empty or "unknown" resolution passes `check_resolution` under any bounds and mode |
| Resolution.CheckUnparsable | app/main.py:581-621 | an actual resolution that parses to (0,0) fails every positive minimum in modes min_only and range, and passes every non-negative maximum in max_only |
| Resolution.CheckZeroBoundOff | app/main.py:605-621 | bounds that parse to (0,0) switch their side off: any actual resolution passes in range mode |
| Resolution.Check4kNoBound | app/main.py:605-621 | the default maximum "4k" parses to (0,0), so under max_only it accepts every resolution |
| Resolution.CheckMonotone | app/main.py:566-621 | tightening either bound, with the same mode, never turns a failing resolution into a passing one |
| Resolution.MeetMin | app/stream_tester.py:737-775 | `is_resolution_meet_min`, with failures read as 0x0; its contract is stated by `MeetEmpty`, `MeetSentinels` and `Agreement.UnknownUnderMinSplits` |
| Resolution.MeetMax | app/stream_tester.py:777-812 | `is_resolution_meet_max`, with failures read as 9999x9999; its contract is stated by `MeetEmpty`, `MeetSentinels` and `CheckVersusMeetMax` |
| Resolution.MeetEmpty | app/stream_tester.py:737-812 | `is_resolution_meet_min` and `is_resolution_meet_max` both pass when the resolution or the bound is empty |
| Resolution.MeetSentinels | app/stream_tester.py:777-812 | the max side reads failures as 9999x9999: "abc" fails the maximum "1080p" and passes the maximum "4k"; the min side reads failures as 0x0: "abc" fails the minimum "720p" |
| Resolution.CheckVersusMeetMax | app/main.py:578-621 | under max_only with maximum "1080p", "abc" passes the orchestrator's check but fails the prober's `is_resolution_meet_max` |
| Classification.RefineAudioType | app/main.py:219-252 | the result is always "radio" or "audio", and it is "radio" exactly when the lower-cased name contains a radio keyword |
| Classification.RefineShortKeywords | app/main.py:231-246 | any name whose lower-cased form contains "fm" or "am" is radio |
| Classification.ClassifyMediaType | app/main.py:183-217 | the result is video, radio or audio; it is video exactly when the video flag is not false (a missing flag counts as true) and the resolution is not a "WxH" with a side below 100; a non-video result is the radio/audio refinement of the name |
| Classification.ClassifyTinyVideo | app/main.py:207-211 | a "WxH" resolution written from stream sizes with a side below 100 makes the entry sound-only |
| Classification.ShouldOverrideCategory | app/main.py:296-366 | the catch-all category is always replaced and never replaces another; a category never replaces itself; otherwise an override happens exactly when the new priority is strictly lower (missing ones count as 50), or the name holds 卫视 and the new category is 卫视频道, or the upper-cased name holds CCTV and the new category is 央视频道, the old one differing |
| Classification.OverrideAsymmetric | app/main.py:312-366 | for names without 卫视 or CCTV, two different categories never replace each other |
| Classification.OverrideBothWays | app/main.py:351-364 | with the name 凤凰卫视, 港澳台 replaces 卫视频道 by priority and 卫视频道 replaces 港澳台 by the forced rule |
| Classification.Enhanced | app/main.py:254-294 | the entry `enhance_channel_classification` leaves behind; its contract is stated by `EnhancedSpec`, and the method `EnhanceChannelClassification` is proved equal to it |
| Classification.EnhanceChannelClassification | app/main.py:254-294 | the method leaves the entry the merged record: the seven channel-info fields, the category when the override policy allows, then the media type |
| Classification.EnhancedSpec | app/main.py:266-292 | the merge keeps name, URL, group, logo, user agent and all probe results; it always sets a category, which is the old one or the rule engine's, and the rule engine's whenever there was none or it was the catch-all; the media type is the classifier's verdict and the city is None |
| Pipeline.IsSourceQualified | app/main.py:505-564 | qualification needs a successful probe within the latency bound (a missing time counts as 9999); that alone qualifies a sound-only entry; a qualified video entry passes the resolution check, a bitrate or speed of 0 or at least the minimum, and the HD and 4K demands |
| Pipeline.QualifiedMonotone | app/main.py:515-564 | tightening any bound never turns a rejected entry into a qualified one |
| Pipeline.ConditionBasedFiltering | app/main.py:487-503 | the loop keeps exactly the qualified entries, in input order |
| Pipeline.ConditionMonotone | app/main.py:499-503 | under tighter parameters the qualified tier is the looser tier filtered again, hence a sub-multiset of it |
| Pipeline.Take | app/main.py:478-480 | the first min(n, size) elements, as a prefix |
| Pipeline.ChannelKey | app/main.py:447-463 | the group key: `audio_<name>` for radio and audio, `<name>_<resolution>` ("unknown" when missing) otherwise; its meaning is stated by `BaseTierGroups` and `TopOfGroupsMembers` |
| Pipeline.RankKey | app/main.py:470-476 | the sort tuple (-speed, response time or 9999, -bitrate, name), each missing or zero value replaced as `or` does; its meaning is stated by `BaseTierGroups` and `KeptRankFirst` |
| Pipeline.BaseTier | app/main.py:430-485 | the result of `resolution_based_filtering`; its contract is stated by `BaseTierGroups`, `BaseTierSub` and `KeptRankFirst`, and the method `ResolutionBasedFiltering` is proved equal to it |
| Pipeline.ResolutionBasedFiltering | app/main.py:430-485 | the loops return, groups in first-seen order, the best five of every group keyed by "audio_"+name for sound-only entries and name+"_"+resolution for video |
| Pipeline.TopOfSub | app/main.py:478-480 | a group's kept head holds only entries of that group, each at most as often |
| Pipeline.TopOfGroupsMembers | app/main.py:467-480 | visiting distinct group keys keeps, for each visited key, exactly that group's sorted head, and nothing for other keys |
| Pipeline.BaseTierGroups | app/main.py:444-485 | from every channel group the base tier keeps exactly its first min(5, size) entries under the stable sort by (-speed, response time or 9999, -bitrate, name) |
| Pipeline.TopOfGroupsSub | app/main.py:467-480 | the concatenated heads are a sub-multiset of the concatenated groups |
| Pipeline.BaseTierSub | app/main.py:430-485 | layer 2 only drops entries: its output is a sub-multiset of its input |
| Pipeline.KeptRankFirst | app/main.py:470-480 | within a group every kept entry ranks no worse than every dropped one |
| Pipeline.ValidSources | app/main.py:387 | the valid entries are exactly the input entries with status "success", a sub-multiset of the input |
| Pipeline.ClassifyAll | app/main.py:400-411 | the loop classifies every valid entry once, in order |
| Pipeline.HierarchicalFiltering | app/main.py:368-428 | no valid entry gives three empty lists; otherwise the classified list is the merge of every valid entry, the base tier is layer 2 of it, and the qualified tier is layer 3 of the base tier |
| Pipeline.ClassifiedSucceeded | app/main.py:400-411 | the classified list is as long as the valid list, and every classified entry still has status "success" |
| Pipeline.TiersShrink | app/main.py:420-428 | qualified is a sub-multiset of base, which is a sub-multiset of classified, and every qualified entry passes `is_source_qualified` |
| ChannelRules.ValidateRulesStructure | app/channel_rules.py:95-125 | a rule file is valid exactly when categories, channel types and geography are all present and every category has a name and a priority; an empty category list is valid |
| ChannelRules.CompleteIff | app/channel_rules.py:117-123 | the recursive per-category check holds exactly when every category has a name and a priority |
| ChannelRules.EmptyRules | app/channel_rules.py:127-159 | the built-in fallback rules pass validation and are not empty |
| ChannelRules.PriorityKeyLe | app/channel_rules.py:167-169 | the sort key orders categories by priority, a missing priority counting as 100 |
| ChannelRules.CategoryRules | app/channel_rules.py:161-169 | the categories in priority order are a permutation of the file's list, non-decreasing by priority, with the categories of each priority in file order |
| ChannelRules.FindKeyword | app/channel_rules.py:321-324 | the keyword loop answers whether some upper-cased keyword occurs in the text |
| ChannelRules.CategoryFor | app/channel_rules.py:295-328 | the category `determine_category` returns; its contract is stated by `FirstCategoryAt`, `CategoryForLowestPriority`, `NoRulesCategory` and `EmptyRulesCategory`, and the method `DetermineCategory` is proved equal to it |
| ChannelRules.DetermineCategory | app/channel_rules.py:295-328 | the nested loop with early return gives the first-match category, or the catch-all for empty rules |
| ChannelRules.FirstCategoryAt | app/channel_rules.py:311-328 | the category found is the name of the first rule, in priority order, with a matching keyword; no earlier rule matches; with no match it is the catch-all |
| ChannelRules.CategoryForLowestPriority | app/channel_rules.py:295-328 | the answer is the catch-all, or the name of a rule with a matching keyword whose priority is the lowest among all matching rules |
| ChannelRules.FirstHitLowest | app/channel_rules.py:167-169 | in a priority-sorted permutation, the first matching rule has the lowest priority among the matching ones |
| ChannelRules.NoRulesCategory | app/channel_rules.py:307-309 | with no rules every name is the catch-all category |
| ChannelRules.EmptyRulesCategory | app/channel_rules.py:133-140 | the only built-in category is named after the catch-all, so every name, matching or not, is the catch-all category |
| ChannelRules.KeepWordChars | app/channel_rules.py:218 | the cleaned name is no longer than the name and holds only word characters taken from it |
| ChannelRules.MatchProvince | app/channel_rules.py:237-248 | the province loop finds the first province, in declaration order, with a matching keyword |
| ChannelRules.MatchRegions | app/channel_rules.py:250-258 | the region loop lets every matching region overwrite country and region |
| ChannelRules.MatchCountry | app/channel_rules.py:225-263 | one country matches by its own keywords, or, for code CN only, by a province keyword, and then applies its regions |
| ChannelRules.MatchGeography | app/channel_rules.py:225-263 | the continent and country loops stop at the first country that matches |
| ChannelRules.MatchChannelType | app/channel_rules.py:266-274 | the channel-type loop gives the first-match channel type `ChannelTypeOf` |
| ChannelRules.MatchLanguage | app/channel_rules.py:277-290 | the language loop gives the first language in table order with a matching keyword, else "zh" |
| ChannelRules.ChannelInfoOf | app/channel_rules.py:187-293 | the record `extract_channel_info` returns; its contract is stated by `ChannelInfoDefaults`, `ApplyRegionsLast`, `ProvinceOnlyOnFallback`, `ApplyRegionsProvince`, `ChannelTypeFirst` and `EmptyRulesChina`, and the method `ExtractChannelInfo` is proved equal to it |
| ChannelRules.ExtractChannelInfo | app/channel_rules.py:187-293 | the method returns the defaults overwritten by the geography, channel-type and language walks, or the defaults for empty rules |
| ChannelRules.ChannelInfoDefaults | app/channel_rules.py:203-215 | city is never set; with no geography, type or language match the result is the defaults CN, Asia, zh and no region, province or type |
| ChannelRules.ApplyRegionsLast | app/channel_rules.py:250-258 | after the region loop, country and region come from the last matching region, or are unchanged when none matches |
| ChannelRules.ProvinceOnlyOnFallback | app/channel_rules.py:231-248 | a province is set only when the country's own keywords miss, its code is CN, and a province keyword matches; it is the first such province |
| ChannelRules.ApplyRegionsProvince | app/channel_rules.py:250-258 | the region loop never changes province or continent |
| ChannelRules.ChannelTypeFirst | app/channel_rules.py:266-274 | with non-empty type names, the channel type is None exactly when no type matches, and otherwise the first matching type |
| ChannelRules.UpperChina | app/channel_rules.py:218 | "China" upper-cases to "CHINA" |
| ChannelRules.EmptyRulesChina | app/channel_rules.py:142-158 | under the built-in rules a name mentioning China is placed in CN, on the rule's own continent name 亚洲 rather than the default Asia |
| StreamTester.EntryOf | app/stream_tester.py:963-969 | the cache row keeps status and response time apart, stores every other key as metadata unchanged, and stamps the current time |
| StreamTester.ProbeCache.constructor | app/stream_tester.py:31-32 | the cache starts as an empty table with the sweep clock at the given time |
| StreamTester.ProbeCache.CacheResult | app/stream_tester.py:956-969 | the method (over)writes the key's row as the functional store does |
| StreamTester.ProbeCache.GetCachedResult | app/stream_tester.py:929-954 | the method returns a hit for a row younger than the TTL and deletes an older row, as the functional lookup does |
| StreamTester.ProbeCache.CleanupCache | app/stream_tester.py:971-989 | the method collects the expired keys and deletes them one by one, as the functional sweep does |
| StreamTester.Store | app/stream_tester.py:956-969 | the cache after `_cache_result`; its contract is stated by `CacheRoundTrip` and `StoreOtherKeys`, and `ProbeCache.CacheResult` is proved equal to it |
| StreamTester.Lookup | app/stream_tester.py:929-954 | the answer and the cache after `_get_cached_result`; its contract is stated by `LookupSpec`, `CacheRoundTrip` and `CacheBoundary`, and `ProbeCache.GetCachedResult` is proved equal to it |
| StreamTester.Sweep | app/stream_tester.py:971-989 | the cache after `cleanup_cache`; its contract is stated by `SweepSpec` and `CacheBoundary`, and `ProbeCache.CleanupCache` is proved equal to it |
| StreamTester.CacheRoundTrip | app/stream_tester.py:938-949 | a result stored at t and read back before t plus the TTL is the same dict, and the read changes nothing |
| StreamTester.StoreOtherKeys | app/stream_tester.py:963-969 | storing touches only its own key and not the sweep clock |
| StreamTester.LookupSpec | app/stream_tester.py:938-954 | a read misses exactly when the key is absent or at least a TTL old; a hit rebuilds the row; a stale read deletes that key only; no read moves the sweep clock |
| StreamTester.SweepSpec | app/stream_tester.py:975-986 | within 300 seconds of the last sweep nothing changes; otherwise exactly the rows at most a TTL old are kept, unchanged, and the clock is set to now |
| StreamTester.CacheBoundary | app/stream_tester.py:938-986 | at an age of exactly one TTL the read path deletes a row that the sweep would keep |
| StreamTester.ReadStream | app/stream_tester.py:446-468 | one pass of the stream loop counts the stream and merges its video or audio details |
| StreamTester.FoldAt | app/stream_tester.py:446-468 | the loop's fold over one more stream is one more step |
| StreamTester.FirstVideoAt | app/stream_tester.py:471-481 | the first video stream from index i is the stream at i when it is video, else the first from i+1 |
| StreamTester.MetadataOf | app/stream_tester.py:371-489 | the dict `extract_metadata` returns; its contract is stated by `MetadataSpec`, `FoldCounts`, `FoldResolution`, `FoldFields` and `FallbackDead`, and the method `ExtractMetadata` is proved equal to it |
| StreamTester.ExtractMetadata | app/stream_tester.py:371-489 | the method computes the stream loop and then the first-video fallback, and equals `MetadataOf` |
| StreamTester.VideoInfo | app/stream_tester.py:491-540 | the video details merged into the metadata; its contract is stated by `VideoInfoFacts` |
| StreamTester.VideoInfoFacts | app/stream_tester.py:491-540 | the video details set the resolution and the HD and 4K flags only when width and height are both nonzero, set the level when `int()` accepts it, and leave everything else alone |
| StreamTester.AudioInfo | app/stream_tester.py:542-578 | the audio details merged into the metadata; its contract is stated by `AudioInfoKeeps` and `AudioInfoSets` |
| StreamTester.AudioInfoKeeps | app/stream_tester.py:542-578 | the audio details leave counters, flags and the video keys alone |
| StreamTester.AudioInfoSets | app/stream_tester.py:553-576 | each audio key takes the stream's value when `int()` accepts it (the bitrate divided by 1000) and keeps the old one otherwise |
| StreamTester.StepCounts | app/stream_tester.py:446-468 | one pass adds one to the stream count and one to the count of the stream's type, and sets that type's flag |
| StreamTester.StepResolution | app/stream_tester.py:455-457 | one pass sets the resolution and its flags only from a video stream with two nonzero sizes |
| StreamTester.StepFields | app/stream_tester.py:446-468 | one pass updates the per-stream integer keys of its own type only |
| StreamTester.FoldCounts | app/stream_tester.py:420-468 | after the loop the stream count is the number of streams and equals the video, audio and other counts together; each flag says its count is positive; the container bitrate is untouched |
| StreamTester.FoldResolution | app/stream_tester.py:446-468 | after the loop the resolution and its flags come from the last video stream with two nonzero sizes, or are unchanged |
| StreamTester.FoldFields | app/stream_tester.py:446-468 | after the loop each per-stream integer key is the last value `int()` accepts among the streams of its type |
| StreamTester.NoDimsFirstVideo | app/stream_tester.py:471-481 | with no video stream of two nonzero sizes, the first video stream has a zero side |
| StreamTester.NoDimsAt | app/stream_tester.py:471-481 | with no video stream of two nonzero sizes, every video stream has a zero side |
| StreamTester.NoDimsTail | app/stream_tester.py:471-481 | the property of having no sized video stream passes to the tail |
| StreamTester.AllZeroNoDims | app/stream_tester.py:471-481 | if every video stream has a zero side, there is no sized video stream |
| StreamTester.FallbackDead | app/stream_tester.py:471-481 | the first-video fallback never changes the metadata: when it would look, the first video stream has a zero side |
| StreamTester.MetadataSpec | app/stream_tester.py:371-489 | the counters count the streams by type; the flags say whether a count is positive; the bitrate is the container's in kbit/s or 0; the resolution comes from the last video stream with two nonzero sizes and parses back to them; 4K implies HD; an empty resolution means neither flag; the per-stream keys are the last accepted values |
| StreamTester.BitrateDigits | app/stream_tester.py:420-428 | a container bit_rate written as the digits of n gives n // 1000 |
| StreamTester.DetermineMediaType | app/stream_tester.py:580-607 | the result is only "video" or "audio", never "radio"; it is audio exactly when the video flag is not true (a missing flag counts as false) or the "WxH" resolution has a side below 100 |
| StreamTester.TesterResolutionOk | app/stream_tester.py:700-716 | the prober's resolution test inside `check_if_qualified`; its contract is stated by `TesterResolutionByMode` |
| StreamTester.TesterResolutionByMode | app/stream_tester.py:700-716 | since an empty bound passes by itself, the resolution step is the conjunction of the checks the mode selects, and any other mode passes |
| StreamTester.CheckIfQualified | app/stream_tester.py:661-735 | qualification holds exactly when the probe succeeded within the latency bound and the entry is sound-only or passes every video check, a bitrate or speed of 0 passing |
| StreamTester.OptimalWorkers | app/stream_tester.py:209-230 | the worker count is the least of the configured count, four per core, and 50 |
| StreamTester.NetworkCompatible | app/stream_tester.py:894-912 | a URL is refused exactly when it has a bracketed host and IPv6 is not supported |
| StreamTester.StaticParams | app/stream_tester.py:870-874 | the query pairs `normalize_url` keeps; its contract is stated by `StaticParamsSpec`, `StaticParamsIgnoresDynamic`, `StaticParamsIdempotent` and `StaticParamsCaseSensitive` |
| StreamTester.StaticParamsSpec | app/stream_tester.py:870-874 | the kept query pairs are exactly those whose key is not dynamic, each at most as often as before |
| StreamTester.StaticParamsIgnoresDynamic | app/stream_tester.py:870-874 | inserting a dynamic parameter anywhere does not change the filtered query, so the cache key is the same |
| StreamTester.StaticParamsIdempotent | app/stream_tester.py:870-874 | filtering twice is filtering once |
| StreamTester.StaticParamsCaseSensitive | app/stream_tester.py:870-874 | "Token" is kept: the dynamic keys are matched case-sensitively |
| M3uGenerator.GeneratorQualified | app/m3u_generator.py:135-195 | the writer's test is the prober's test plus, for video, a measured speed of at least the minimum, with no exemption for 0 |
| M3uGenerator.EnhancedFilterSources | app/m3u_generator.py:126-195 | the loop keeps exactly the entries the writer's test accepts, in order |
| M3uGenerator.GetGroupKey | app/m3u_generator.py:257-278 | the key is the chosen field, "Unknown" when it is missing or empty ("video" for media_type), "All Channels" for any other choice; it is never empty |
| M3uGenerator.Bucket | app/m3u_generator.py:211-217 | the pre-group is video, audio or radio, and non-video exactly for sound-only entries; unknown types go with video |
| M3uGenerator.GroupKeyOf | app/m3u_generator.py:224-236 | radio entries land in 收音机 and audio entries in 在线音频 whatever the grouping field; video entries land under their group key |
| M3uGenerator.BucketFilters | app/m3u_generator.py:211-217 | every entry of a bucket is an input entry of that bucket |
| M3uGenerator.SplitByMedia | app/m3u_generator.py:211-217 | the first loop puts every entry into its bucket, in order |
| M3uGenerator.GroupVideo | app/m3u_generator.py:224-230 | the video loop groups the video entries by key, keys in first-seen order |
| M3uGenerator.ExtendGroup | app/m3u_generator.py:231-236 | opening the fixed group when new and extending it with a bucket is grouping the bucket after what came before |
| M3uGenerator.SortGroups | app/m3u_generator.py:239-253 | the loop replaces every group by its sorted form and keeps the key order |
| M3uGenerator.SortAllFrom | app/m3u_generator.py:239-253 | a dict whose every group is its sorted counterpart is the sorted dict |
| M3uGenerator.GroupedSorted | app/m3u_generator.py:197-255 | the ordered dict `enhanced_group_and_sort` returns; its contract is stated by `GroupedSortedKeys`, `GroupedSortedPartition`, `GroupedSortedPlacement`, `GroupedSortedGroup`, `GroupedSortedOrder`, `GroupedSortedGroups` and `SoundGroupsMerge` |
| M3uGenerator.EnhancedGroupAndSort | app/m3u_generator.py:197-255 | the method pre-groups by media type, groups, and sorts every group, and equals `GroupedSorted` |
| M3uGenerator.BucketsPartition | app/m3u_generator.py:211-217 | the three buckets together are a permutation of the input |
| M3uGenerator.SortAllSpec | app/m3u_generator.py:239-253 | sorting keeps the keys and makes each group a sorted permutation of itself, under the key its name selects |
| M3uGenerator.GroupedSortedKeys | app/m3u_generator.py:197-255 | the key order holds each key once and names exactly the groups |
| M3uGenerator.GroupedSortedPartition | app/m3u_generator.py:197-255 | the groups together are a permutation of the input: no entry is lost or duplicated |
| M3uGenerator.GroupedSortedPlacement | app/m3u_generator.py:211-236 | every input entry is in the group its key names |
| M3uGenerator.GroupedSortedGroup | app/m3u_generator.py:211-253 | a group is its members in bucket order, sorted |
| M3uGenerator.GroupedSortedOrder | app/m3u_generator.py:241-253 | groups whose name contains 收音机 or 在线音频 are sorted by name, all others by (continent, country, province, -speed, response time or 9999, name) |
| M3uGenerator.GroupedSortedGroups | app/m3u_generator.py:211-236 | a group holds only input entries with its own key, so no entry is in two groups |
| M3uGenerator.ArrangedMembers | app/m3u_generator.py:211-217 | the bucketed entries are entries of the input |
| M3uGenerator.BucketKeys | app/m3u_generator.py:231-236 | every entry of a sound-only bucket carries that bucket's fixed group name |
| M3uGenerator.SoundGroupMembers | app/m3u_generator.py:224-236 | a fixed sound-only group holds the video entries with that key, then the whole bucket |
| M3uGenerator.SoundGroupsMerge | app/m3u_generator.py:231-236 | a video group whose key is a fixed sound-only name absorbs that bucket |
| M3uGenerator.BuildEnhancedExtinf | app/m3u_generator.py:280-343 | the EXTINF line `build_enhanced_extinf` returns; its contract is stated by `TvgId`, `ExtinfEnds`, `ExtinfAttrParts` and `ExtinfAttrsSpec` |
| M3uGenerator.TvgId | app/m3u_generator.py:293 | the tvg-id is as long as the name and holds only lower-case letters, digits and '_' |
| M3uGenerator.ExtinfEnds | app/m3u_generator.py:290-343 | the EXTINF line starts with `#EXTINF:-1` and ends with `,<name>` |
| M3uGenerator.HeadAttrNames | app/m3u_generator.py:293-317 | the identity, placement and location attributes hold none of the conditional attributes |
| M3uGenerator.QualityAttrNames | app/m3u_generator.py:331-334 | the resolution and bitrate attributes hold none of the conditional attributes |
| M3uGenerator.CondAttrNames | app/m3u_generator.py:320-338 | the user-agent attribute appears only when enabled in the EXTINF position, the timings only at level "qualified", and the status part holds only the status |
| M3uGenerator.ExtinfAttrParts | app/m3u_generator.py:290-343 | every attribute comes from one of the parts |
| M3uGenerator.ExtinfAttrsSpec | app/m3u_generator.py:290-343 | group-title is the category when truthy, else the group; response-time and download-speed appear only at level "qualified"; user-agent only in the EXTINF position; status exactly when the probe did not succeed |
| M3uGenerator.Rendered | app/m3u_generator.py:290-343 | one rendered attribute per attribute |
| M3uGenerator.EmitM3uEntries | app/m3u_generator.py:66-76 | the loop writes an EXTINF line and then the URL line per entry |
| M3uGenerator.UrlWithAgent | app/m3u_generator.py:71-76 | the URL line carries `|User-Agent=` only when UA is enabled, the entry has one, and the position is "url" |
| M3uGenerator.EntryLinesAt | app/m3u_generator.py:66-76 | one more entry adds its EXTINF and URL lines |
| M3uGenerator.EmitM3uGroups | app/m3u_generator.py:62-76 | the group loop writes an `#EXTGRP` line and then the entry lines, per group in order |
| M3uGenerator.M3uBodyAt | app/m3u_generator.py:62-76 | one more group adds its `#EXTGRP` line and its entry lines |
| M3uGenerator.GenerateEnhancedM3u | app/m3u_generator.py:36-78 | the M3U text is the header and the group lines of the filtered (all at level "base"), grouped and sorted entries, joined by newlines |
| M3uGenerator.EmitTxtEntries | app/m3u_generator.py:108-119 | the loop writes one `name,url` line per entry, with `|User-Agent=` in the URL position and `#User-Agent=` otherwise |
| M3uGenerator.TxtEntries | app/m3u_generator.py:108-119 | one TXT line per entry, in order |
| M3uGenerator.EmitTxtGroups | app/m3u_generator.py:104-122 | the group loop writes `# <key>`, the entry lines and an empty line, per group in order |
| M3uGenerator.GenerateEnhancedTxt | app/m3u_generator.py:80-124 | the TXT text is the group blocks of the filtered, grouped and sorted entries, joined by newlines |
| M3uGenerator.InterleavedShape | app/m3u_generator.py:66-76 | interleaving gives two lines per element: the first at 2i and the second at 2i+1 |
| M3uGenerator.EntryLinesShape | app/m3u_generator.py:66-76 | entry i of a group writes its EXTINF line at 2i and its URL line at 2i+1 |
| M3uGenerator.M3uBodyLength | app/m3u_generator.py:62-76 | the M3U body has one line per group and two per entry |
| M3uGenerator.TxtBodyLength | app/m3u_generator.py:104-122 | the TXT body has two lines per group and one per entry |
| M3uGenerator.M3uShape | app/m3u_generator.py:46-78 | the M3U output starts with `#EXTM3U` and has, besides it, one line per group and two per written entry |
| M3uGenerator.TxtShape | app/m3u_generator.py:90-124 | the TXT output has two lines per group and one per written entry |
| M3uGenerator.UrlLineSpec | app/m3u_generator.py:71-76 | the URL line starts with the stream URL and differs from it exactly when the user agent goes into the URL |
| M3uGenerator.LevelSelection | app/m3u_generator.py:48-56 | level "base" writes every entry it is given; any other level writes a sub-multiset of only entries the writer's test accepts |
| M3uGenerator.GenerateM3u | app/m3u_generator.py:421-423 | `generate_m3u` is level "base": all entries, grouped and sorted |
| M3uGenerator.GenerateTxt | app/m3u_generator.py:425-427 | `generate_txt` is level "base": all entries, grouped and sorted |
| M3uGenerator.FilterSources | app/m3u_generator.py:429-431 | `filter_sources` keeps exactly the entries the writer's test accepts |
| M3uGenerator.GroupAndSortSources | app/m3u_generator.py:433-435 | `group_and_sort_sources` is the grouped and sorted dict |
| M3uGenerator.BuildExtinf | app/m3u_generator.py:437-438 | `build_extinf` starts with `#EXTINF:-1` and ends with `,<name>` |
| SourceManager.ExtractName | app/source_manager.py:463-481 | the name `extract_name` returns; its contract is stated by `ExtractNameSpec`, `NamePiece`, `ExtractNameLast` and `ExtractNameOf` |
| SourceManager.ExtractNameSpec | app/source_manager.py:463-481 | no comma, or a trailing comma, gives "Unknown Channel"; otherwise the name is comma-free text found in the line |
| SourceManager.NamePiece | app/source_manager.py:473-476 | the regex matches exactly when the line has a comma and does not end with one; its stripped group holds no comma and occurs in the line |
| SourceManager.ExtractNameLast | app/source_manager.py:473-481 | with a comma and a non-empty last piece the name is that piece stripped; otherwise it is "Unknown Channel" |
| SourceManager.ExtractNameOf | app/source_manager.py:473-481 | `…,name` with no comma in a non-empty name yields the stripped name |
| SourceManager.SplitSuffix | app/source_manager.py:473 | the last comma-separated piece of `p,t` is t when t holds no comma |
| SourceManager.QuotedValue | app/source_manager.py:493 | a found value is non-empty, holds no quote, and is followed by a quote |
| SourceManager.FirstQuotedAt | app/source_manager.py:483-511 | a found logo or group value comes from the leftmost index where the pattern matches |
| SourceManager.FirstQuotedNone | app/source_manager.py:483-511 | nothing found means the pattern matches nowhere |
| SourceManager.FirstQuotedLeftmost | app/source_manager.py:483-511 | the value at the leftmost matching index is the one found |
| SourceManager.QuotedRoundTrip | app/source_manager.py:493-508 | an attribute written as `tag"value"` after text holding no match is read back |
| SourceManager.ExtractLogo | app/source_manager.py:483-496 | the stripped first `tvg-logo="…"` value; its contract is stated by `FirstQuotedAt`, `FirstQuotedNone`, `FirstQuotedLeftmost` and `QuotedRoundTrip` on the shared matcher `FirstQuoted` |
| SourceManager.ExtractGroup | app/source_manager.py:498-511 | the stripped first `group-title="…"` value; its contract is stated by the same `FirstQuoted` lemmas |
| SourceManager.SplitUrl | app/source_manager.py:376-381 | the stream URL is a `|`-free prefix of the line, and a line without `|` keeps the URL and the file's UA |
| SourceManager.SplitUrlRoundTrip | app/source_manager.py:376-381 | a line `url|User-Agent=ua` gives back both halves |
| SourceManager.SplitUrlKeepsInherited | app/source_manager.py:380-381 | a second part without `User-Agent=` leaves the file's UA in place |
| SourceManager.BaseName | app/source_manager.py:405 | the base name holds no `/` |
| SourceManager.ContextOf | app/source_manager.py:340-346 | the type is "online" exactly when the path starts with the online directory, else "local" with the full path; the UA is None when disabled, else the table entry for the relative path, falling back to the full path |
| SourceManager.FileContextOf | app/source_manager.py:340-346 | the method computes the file context |
| SourceManager.From | app/source_manager.py:355 | the lines from index i on |
| SourceManager.Step | app/source_manager.py:355-432 | one turn of the loop advances one or two lines and makes at most one item |
| SourceManager.ReadLine | app/source_manager.py:356-432 | the loop body makes the turn's item and leaves the index past the URL line for an EXTINF line |
| SourceManager.Parse | app/source_manager.py:327-434 | the entries `parse_file` returns; its contract is stated by `ParseLength`, `ParseFields`, `ExtinfPair`, `CommentAfterExtinf`, `PlainList`, `ExtinfEntrySpec` and `BareEntrySpec`, and the method `ParseFile` is proved equal to it |
| SourceManager.ParseFile | app/source_manager.py:327-434 | the `while` loop with its manually advanced index returns the records of the items of the lines |
| SourceManager.Entries | app/source_manager.py:386-430 | one record per item, in order |
| SourceManager.EntriesConcat | app/source_manager.py:386-430 | the records of joined item lists are the joined records |
| SourceManager.ItemsAt | app/source_manager.py:355-432 | the items from index i are the turn's item, then the items from the next index |
| SourceManager.ItemsUnfold | app/source_manager.py:355-432 | one turn of the items at the front |
| SourceManager.FromFrom | app/source_manager.py:355-432 | skipping i lines and then k more skips i+k |
| SourceManager.ItemsLength | app/source_manager.py:355-432 | no line makes more than one entry |
| SourceManager.ParseLength | app/source_manager.py:327-434 | a file never yields more entries than it has lines |
| SourceManager.ParseFields | app/source_manager.py:386-430 | every entry carries the file's source type and path and a stream URL without `|` |
| SourceManager.CommentAfterExtinf | app/source_manager.py:364-401 | an EXTINF line followed by a comment line (another EXTINF line, say) consumes it and makes nothing |
| SourceManager.ExtinfNotHeader | app/source_manager.py:359-364 | an EXTINF line is not taken for a header |
| SourceManager.ExtinfPair | app/source_manager.py:364-399 | an EXTINF line followed by a URL line makes one item from the pair |
| SourceManager.ExtinfLast | app/source_manager.py:364-368 | an EXTINF line on the last line makes nothing |
| SourceManager.HeaderSkipped | app/source_manager.py:359-361 | header lines make nothing |
| SourceManager.UrlLineNotSpecial | app/source_manager.py:359-370 | a URL line is neither a header nor an EXTINF line |
| SourceManager.BareItems | app/source_manager.py:402-430 | one bare item per line |
| SourceManager.PlainList | app/source_manager.py:402-432 | a plain list of valid URLs makes one item per line, in order |
| SourceManager.StepBare | app/source_manager.py:402-432 | a valid bare URL makes one item and advances one line |
| SourceManager.BareItemsCons | app/source_manager.py:402-430 | the bare items of a list are its first line's item and then the rest |
| SourceManager.ExtinfEntrySpec | app/source_manager.py:368-399 | the entry of an EXTINF pair takes name, logo and group from the EXTINF line, a `|`-free prefix of the URL line as its URL (all of it, with the file's UA, when there is no `|`), and the rule engine's category |
| SourceManager.BareEntrySpec | app/source_manager.py:402-430 | a bare entry is named "Channel from <basename>", grouped under the source path, has no logo, and takes its URL from the line |
| SourceManager.Sanitize | app/source_manager.py:265 | every character outside word characters, `-`, `_` and `.` becomes `_`, and no other changes |
| SourceManager.FilenameFromUrl | app/source_manager.py:244-267 | the file name holds only safe characters |
| SourceManager.FilenameNoSeparators | app/source_manager.py:244-267 | the file name never holds `/` or `?` |
| SourceManager.FilenameKeepsPlain | app/source_manager.py:254-267 | a URL ending in a safe file name with a dot, with or without a query, keeps that name |
| SourceManager.FilenameFallback | app/source_manager.py:258-265 | an empty last segment falls back to the sanitised `source_<digest>.txt` |
| Agreement.MediaTypeFlagPresent | app/main.py:197-217 | with the video flag present, the orchestrator's and the prober's media-type rules (app/stream_tester.py:589-607) agree on whether an entry is video |
| Agreement.MediaTypeFlagMissing | app/main.py:197-201 | with the flag missing, the orchestrator says video and the prober (app/stream_tester.py:589-592) says audio for every resolution not a tiny "WxH" |
| Agreement.SoundQualifiedAgree | app/main.py:515-530 | for sound-only entries the orchestrator's, the prober's (app/stream_tester.py:677-686) and the writer's qualification are the same latency test |
| Agreement.VideoQualifiedAgree | app/main.py:531-564 | on a video entry whose resolution both judge alike, the orchestrator's and the prober's (app/stream_tester.py:690-735) qualification agree |
| Agreement.GeneratorStricter | app/m3u_generator.py:189-191 | the writer accepts only entries the prober accepts, and both agree when the minimum speed is not positive and the speed is not negative |
| Agreement.EmptyBoundParses | app/main.py:581-603 | the empty bound parses to (0,0) |
| Agreement.UnmeasuredSpeedSplits | app/m3u_generator.py:189-191 | an entry with no measured speed passes the orchestrator (app/main.py:560) and the prober, and fails the writer under a positive minimum |
| Agreement.UnparsableUnderMaxSplits | app/stream_tester.py:798-806 | under max_only with maximum "1080p", "abc" passes the orchestrator (app/main.py:578-621) and fails the prober and the writer (app/m3u_generator.py:402-410) |
| Agreement.UnknownUnderMinSplits | app/main.py:578-579 | the placeholder "unknown" passes the orchestrator whatever the bounds, and fails the prober (app/stream_tester.py:747-775) under the minimum "720p" |
| Agreement.UrlLineReadBack | app/source_manager.py:376-381 | the parser reads a URL line the writer emits with the user agent attached (app/m3u_generator.py:71-76) back into the entry's URL and user agent |
| Agreement.UrlLinePlainReadBack | app/source_manager.py:376-381 | without the user agent in the line, the parser reads back the URL and keeps the agent it inherits |

## Left out

- The ffprobe subprocess, the HTTP requests, the download-speed test, the test of a whole playlist and its thread pool. These are I/O and concurrency. The probe's outcome enters as the parsed stream list (`StreamTester.ProbeData`) and as the probe fields of `Records.Source`.
- Reading files, detecting encodings, downloading, walking directories, loading the YAML rules and the INI configuration. These are I/O. `SourceManager.ParseFile` takes the file's lines as a sequence, and the rules and settings are parameters.
- Clocks, CPU count and IPv6 support. These are environment values and enter as parameters (`now`, `cpuCores`, `ipv6Supported`).
- Logging and statistics. They change no result.
- Floating-point values: frame rate, duration, the float download speed and its `:.1f` formatting. Speeds are integers, and the EXTINF speed text is the `speedText` parameter.
- The string metadata keys of `extract_metadata`: codec names, profile, pixel format, `format_name`, and the audio-codec fallback. Only the integer, boolean and resolution keys are modelled.
- Python's `int()` accepts surrounding whitespace and underscores, truncates a JSON float (`int(1.5) == 1`) and turns a boolean into 0 or 1. `Text.ParseInt` accepts an optional sign and decimal digits only, and `StreamTester.IntOf` maps every probe value that is neither an integer nor a string (`FOther`) to None, so such a field is skipped.
- MD5 and Python's Unicode `\w` are library code. They are function parameters (`digest`, `word`). `validUrl` stands for the program's own `is_valid_url` (app/source_manager.py:513-529), which cuts the URL at `|` and then asks urlparse, library code, for a scheme and a network location. The rule engine's cleaning takes every non-ASCII character as a word character.
- `upper()` and `lower()` are modelled for ASCII letters only, and `strip()` removes the ASCII white space only (space, tab, line feed, carriage return, vertical tab, form feed and the separators `\x1c`-`\x1f`); the non-ASCII white space Python also strips is kept.
- The latin1-to-UTF-8 re-decoding in `extract_name` is encoding work and is not modelled. The name is returned as matched.
- urllib parsing and re-encoding in `normalize_url` are library code. Only the filter over the parsed query pairs is modelled (`StreamTester.StaticParams`).
- An `Option` field that is None stands both for a missing key and for a key holding None. Python treats the two differently in a few places:
  - f-strings render None as "None";
  - `get(key, default)` returns None, not the default, for a key holding None;
  - comparing None with a number raises an exception.
- `enhance_channel_classification` updates the entry dict in place, so the caller's dict changes too. The model returns a new value, so aliasing is not modelled.
- The exception branch of the classification loop, which keeps the unclassified entry, is left out. Nothing in the modelled classification can raise.
- `resolution_based_filtering` keeps the literal 5 per group. The configured `max_sources_per_channel` is not read by that code and is not modelled.
- Resolution.TruncDiv: the source computes `int(h * 16 / 9)` in floating point. The model divides exactly, which can differ only for heights too large for a double to hold exactly.
- Agreement.GeneratorStricter: the equality direction holds only for a non-negative speed, because the writer rejects a negative speed that the prober skips.
- Agreement.VideoQualifiedAgree: it assumes the two resolution checks agree on the entry. They differ for unparsable values and for "unknown" (see `Agreement.UnparsableUnderMaxSplits` and `Agreement.UnknownUnderMinSplits`).
