/**
 * The line-oriented playlist parser: the EXTINF/URL loop over the lines of
 * one file, the `|User-Agent=` split, the name, logo and group extractors of
 * an EXTINF line, and the file-name sanitiser for downloaded playlists.
 */
module SourceManager {
  import opened Wrappers
  import opened Text
  import opened Records
  import opened ChannelRules

  /** Where downloaded playlists are stored; files under it are "online". */
  const OnlineDir := "/config/online"

  /** The settings the parser reads: the UA switch, the per-file UA table, the URL test and the rules. */
  datatype ParserConfig = ParserConfig(
    uaEnabled: bool,
    userAgents: map<string, string>,
    validUrl: string -> bool,
    rules: RuleSet)

  /** What `parse_file` derives from the file's path before reading it. */
  datatype FileContext = FileContext(sourceType: string, sourcePath: string, userAgent: Option<string>, baseName: string)

  // ================================================================ the extractors

  const UnknownChannel := "Unknown Channel"

  /** The regex `,([^,]+)$`: the stripped text after the last comma, if that text is not empty. */
  function ExtractName(line: string): string {
    NameFrom(Split(line, ','))
  }

  /** The name chosen from the comma-separated pieces of the line. */
  function NameFrom(parts: seq<string>): string
    requires |parts| >= 1
  {
    var last := parts[|parts| - 1];
    if |parts| >= 2 && last != "" then Strip(last) else UnknownChannel
  }

  /** No name after a last comma gives "Unknown Channel"; otherwise the name is comma-free text of the line. */
  lemma ExtractNameSpec(line: string)
    ensures ',' !in line || line[|line| - 1] == ',' ==> ExtractName(line) == UnknownChannel
    ensures ',' in line && line[|line| - 1] != ',' ==> ',' !in ExtractName(line) && Contains(line, ExtractName(line))
  {
    NamePiece(line);
    ExtractNameLast(line);
  }

  /**
   * The regex `,([^,]+)$` matches exactly when the line has a comma and does
   * not end with one; its group is then the last comma-separated piece, and
   * that piece stripped holds no comma and occurs in the line.
   */
  lemma NamePiece(line: string)
    ensures var parts := Split(line, ',');
            (|parts| >= 2 && parts[|parts| - 1] != "") <==> (',' in line && line[|line| - 1] != ',')
    ensures var parts := Split(line, ',');
            ',' !in Strip(parts[|parts| - 1]) && Contains(line, Strip(parts[|parts| - 1]))
  {
    var parts := Split(line, ',');
    var last := parts[|parts| - 1];
    LastPiece(line, ',');
    if last != "" {
      assert last[|last| - 1] == line[|line| - 1];
      assert last[|last| - 1] in last;
    }
    assert Contains(line, last) by {
      ContainsAt(line, last, |line| - |last|);
    }
    StripInside(last);
    ContainsTrans(line, last, Strip(last));
  }

  /** `[^"]+"` at the head of `rest`: the text before the first quote, when there is a quote and that text is not empty. */
  function QuotedValue(rest: string): (r: Option<string>)
    ensures r.Some? ==> r.value != "" && '"' !in r.value && StartsWith(rest, r.value + "\"")
  {
    var parts := Split(rest, '"');
    if |parts| >= 2 && parts[0] != "" then
      assert '"' !in parts[0] by { SplitPiecesFree(rest, '"'); assert parts[0] in parts; }
      assert StartsWith(rest, parts[0] + "\"") by {
        JoinSplit(rest, '"');
        assert Join(parts, "\"") == parts[0] + "\"" + Join(parts[1..], "\"");
      }
      Some(parts[0])
    else None
  }

  /** The regex `<tag>([^"]+)"` matches at index `p`. */
  predicate MatchesAt(line: string, tag: string, p: nat) {
    OccursAt(line, tag, p) && QuotedValue(line[p + |tag|..]).Some?
  }

  /** `re.search`: the value at the leftmost index from `from` where the pattern matches. */
  function FirstQuoted(line: string, tag: string, from: nat): Option<string>
    decreases |line| - from
  {
    if from + |tag| > |line| then None
    else if MatchesAt(line, tag, from) then QuotedValue(line[from + |tag|..])
    else FirstQuoted(line, tag, from + 1)
  }

  const LogoTag := "tvg-logo=\""
  const GroupTag := "group-title=\""

  function StripOpt(o: Option<string>): Option<string> {
    match o
    case Some(v) => Some(Strip(v))
    case None => None
  }

  /** The stripped first `tvg-logo="…"` value, or None. */
  function ExtractLogo(line: string): Option<string> {
    StripOpt(FirstQuoted(line, LogoTag, 0))
  }

  /** The stripped first `group-title="…"` value, or None. */
  function ExtractGroup(line: string): Option<string> {
    StripOpt(FirstQuoted(line, GroupTag, 0))
  }

  /** A found value comes from the leftmost matching index. */
  lemma {:induction false} FirstQuotedAt(line: string, tag: string, from: nat) returns (p: nat)
    requires FirstQuoted(line, tag, from).Some?
    ensures from <= p && MatchesAt(line, tag, p)
    ensures FirstQuoted(line, tag, from) == QuotedValue(line[p + |tag|..])
    ensures forall q: nat :: from <= q < p ==> !MatchesAt(line, tag, q)
    decreases |line| - from
  {
    if MatchesAt(line, tag, from) {
      p := from;
    } else {
      p := FirstQuotedAt(line, tag, from + 1);
    }
  }

  /** Nothing found means the pattern matches nowhere from `from` on. */
  lemma {:induction false} FirstQuotedNone(line: string, tag: string, from: nat)
    requires FirstQuoted(line, tag, from).None?
    ensures forall q: nat :: from <= q ==> !MatchesAt(line, tag, q)
    decreases |line| - from
  {
    if from + |tag| <= |line| {
      FirstQuotedNone(line, tag, from + 1);
    }
  }

  /** The extractor reads back an attribute written as `tag"value"` after text that holds no match. */
  lemma QuotedRoundTrip(pre: string, tag: string, v: string, post: string)
    requires v != "" && '"' !in v
    requires forall q: nat :: !MatchesAt(pre + tag + v + "\"" + post, tag, q) || q >= |pre|
    ensures FirstQuoted(pre + tag + v + "\"" + post, tag, 0) == Some(v)
  {
    var line := pre + tag + v + "\"" + post;
    assert line[|pre|..|pre| + |tag|] == tag;
    assert line[|pre| + |tag|..] == v + "\"" + post;
    SplitPrefix(v, '"', post);
    assert v + "\"" + post == v + ['"'] + post;
    assert MatchesAt(line, tag, |pre|);
    FirstQuotedLeftmost(line, tag, 0, |pre|);
  }

  /** The value at the leftmost matching index is the one found. */
  lemma {:induction false} FirstQuotedLeftmost(line: string, tag: string, from: nat, p: nat)
    requires from <= p && MatchesAt(line, tag, p)
    requires forall q: nat :: from <= q < p ==> !MatchesAt(line, tag, q)
    ensures FirstQuoted(line, tag, from) == QuotedValue(line[p + |tag|..])
    decreases p - from
  {
    if from < p {
      FirstQuotedLeftmost(line, tag, from + 1, p);
    }
  }

  // ================================================================ the URL line

  const UaKey := "User-Agent="

  /**
   * `url.split('|')`: the stream URL is the first part; the UA is taken from
   * the second part, with every `User-Agent=` deleted, when that part holds one.
   */
  function SplitUrl(url: string, inherited: Option<string>): (r: (string, Option<string>))
    ensures '|' !in r.0 && StartsWith(url, r.0)
    ensures '|' !in url ==> r == (url, inherited)
  {
    var parts := Split(url, '|');
    assert '|' !in parts[0] by { SplitPiecesFree(url, '|'); assert parts[0] in parts; }
    assert StartsWith(url, parts[0]) by { JoinSplit(url, '|'); JoinEnds(parts, "|"); }
    assert '|' !in url ==> parts == [url] by {
      if '|' !in url { SplitFree(url, '|'); }
    }
    if |parts| > 1 && Contains(parts[1], UaKey) then (parts[0], Some(ReplaceAll(parts[1], UaKey, "")))
    else (parts[0], inherited)
  }

  /** A URL written as `url|User-Agent=ua` gives back both halves. */
  lemma SplitUrlRoundTrip(url: string, ua: string, inherited: Option<string>)
    requires '|' !in url && '|' !in ua && !Contains(ua, UaKey)
    ensures SplitUrl(url + "|" + UaKey + ua, inherited) == (url, Some(ua))
  {
    var s := url + "|" + UaKey + ua;
    var tail := UaKey + ua;
    assert s == url + ['|'] + tail;
    SplitPrefix(url, '|', tail);
    assert '|' !in tail;
    SplitFree(tail, '|');
    assert Split(s, '|') == [url, tail];
    ContainsAt(tail, UaKey, 0);
    assert tail[..|UaKey|] == UaKey;
    assert tail[|UaKey|..] == ua;
    ReplaceAbsent(ua, UaKey, "");
    assert ReplaceAll(tail, UaKey, "") == ua;
    var parts := Split(s, '|');
    assert |parts| > 1 && Contains(parts[1], UaKey);
    assert SplitUrl(s, inherited).1 == Some(ua);
    assert SplitUrl(s, inherited).0 == url;
  }

  /** A second part without `User-Agent=` leaves the file's UA in place. */
  lemma SplitUrlKeepsInherited(url: string, rest: string, inherited: Option<string>)
    requires '|' !in url && !Contains(rest, UaKey)
    ensures SplitUrl(url + "|" + rest, inherited) == (url, inherited)
  {
    assert url + "|" + rest == url + ['|'] + rest;
    SplitPrefix(url, '|', rest);
    var tail := Split(rest, '|');
    assert !Contains(tail[0], UaKey) by {
      JoinSplit(rest, '|');
      JoinEnds(tail, "|");
      if Contains(tail[0], UaKey) {
        var i := ContainsWitness(tail[0], UaKey);
        assert rest[i..i + |UaKey|] == tail[0][i..i + |UaKey|];
        ContainsAt(rest, UaKey, i);
        assert false;
      }
    }
  }

  // ================================================================ the file context

  /** `os.path.basename`: the text after the last `/`. */
  function BaseName(path: string): (r: string)
    ensures '/' !in r
  {
    var parts := Split(path, '/');
    assert parts[|parts| - 1] in parts;
    SplitPiecesFree(path, '/');
    parts[|parts| - 1]
  }

  /** `dict.get(k)` on the UA table. */
  function Lookup(m: map<string, string>, k: string): Option<string> {
    if k in m then Some(m[k]) else None
  }

  /** The source type, the path relative to the online directory, the file's UA and its base name. */
  function ContextOf(filePath: string, cfg: ParserConfig): (c: FileContext)
    ensures c.sourceType == "online" <==> StartsWith(filePath, OnlineDir)
    ensures c.sourceType == "online" || c.sourceType == "local"
    ensures !StartsWith(filePath, OnlineDir) ==> c.sourcePath == filePath
    ensures !cfg.uaEnabled ==> c.userAgent.None?
    ensures cfg.uaEnabled && Truthy(Lookup(cfg.userAgents, c.sourcePath)) ==> c.userAgent == Lookup(cfg.userAgents, c.sourcePath)
    ensures cfg.uaEnabled && !Truthy(Lookup(cfg.userAgents, c.sourcePath)) ==> c.userAgent == Lookup(cfg.userAgents, filePath)
  {
    var online := StartsWith(filePath, OnlineDir);
    var path := if online then ReplaceAll(filePath, OnlineDir + "/", "") else filePath;
    var first := Lookup(cfg.userAgents, path);
    var ua := if !cfg.uaEnabled then None else if Truthy(first) then first else Lookup(cfg.userAgents, filePath);
    FileContext(if online then "online" else "local", path, ua, BaseName(filePath))
  }

  // ================================================================ the entries

  /** The record built from an EXTINF line and its URL line. */
  function ExtinfEntry(extinf: string, url: string, ctx: FileContext, rules: RuleSet): Source {
    var name := ExtractName(extinf);
    var info := ChannelInfoOf(rules, name);
    var split := SplitUrl(url, ctx.userAgent);
    Source(name := name, url := split.0, logo := ExtractLogo(extinf), group := ExtractGroup(extinf),
           sourceType := Some(ctx.sourceType), sourcePath := Some(ctx.sourcePath), userAgent := split.1,
           category := Some(CategoryFor(rules, name)), country := Some(info.country), region := info.region,
           province := None, city := None, continent := None, language := Some(info.language),
           channelType := None, status := None, mediaType := None, resolution := None, responseTime := None,
           bitrate := None, downloadSpeed := None, isHd := None, is4k := None, hasVideoStream := None)
  }

  /** The name of an entry read from a bare URL line. */
  function BareName(ctx: FileContext): string {
    "Channel from " + ctx.baseName
  }

  /** The record built from a bare URL line: named after the file, grouped under its path, with no logo. */
  function BareEntry(line: string, ctx: FileContext, rules: RuleSet): Source {
    var name := BareName(ctx);
    var info := ChannelInfoOf(rules, name);
    var split := SplitUrl(line, ctx.userAgent);
    Source(name := name, url := split.0, logo := None, group := Some(ctx.sourcePath),
           sourceType := Some(ctx.sourceType), sourcePath := Some(ctx.sourcePath), userAgent := split.1,
           category := Some(CategoryFor(rules, name)), country := Some(info.country), region := info.region,
           province := None, city := None, continent := None, language := Some(info.language),
           channelType := None, status := None, mediaType := None, resolution := None, responseTime := None,
           bitrate := None, downloadSpeed := None, isHd := None, is4k := None, hasVideoStream := None)
  }

  /** A URL line under an EXTINF line: not empty and not a comment. */
  predicate IsUrlLine(url: string) {
    url != "" && !StartsWith(url, "#")
  }

  /** A bare line that makes an entry: a URL line that passes `is_valid_url`. */
  predicate IsBareEntry(line: string, cfg: ParserConfig) {
    IsUrlLine(line) && cfg.validUrl(line)
  }

  /** What one entry is read from: a stripped EXTINF line with its stripped URL line, or a stripped bare URL line. */
  datatype Item = ExtinfItem(extinf: string, url: string) | BareItem(line: string)

  function EntryOf(it: Item, ctx: FileContext, rules: RuleSet): Source {
    match it
    case ExtinfItem(e, u) => ExtinfEntry(e, u, ctx, rules)
    case BareItem(l) => BareEntry(l, ctx, rules)
  }

  /** The lines from index `i` on; none once `i` has passed the end. */
  function From(lines: seq<string>, i: nat): (r: seq<string>)
    ensures |r| == if i <= |lines| then |lines| - i else 0
  {
    if i <= |lines| then lines[i..] else []
  }

  /**
   * One turn of the loop at the first line: what it makes and how many lines
   * it advances over. A header makes nothing; an EXTINF line advances over
   * the next line too, and makes an item only when that line is a URL line;
   * any other line makes an item when it is a valid bare URL.
   */
  function Step(lines: seq<string>, cfg: ParserConfig): (r: (seq<Item>, nat))
    requires |lines| > 0
    ensures 1 <= r.1 <= 2 && |r.0| <= 1
  {
    var line := Strip(lines[0]);
    if StartsWith(line, "#EXTM3U") then ([], 1)
    else if StartsWith(line, "#EXTINF:") then
      if |lines| == 1 then ([], 2)
      else
        var url := Strip(lines[1]);
        (if IsUrlLine(url) then [ExtinfItem(line, url)] else [], 2)
    else (if IsBareEntry(line, cfg) then [BareItem(line)] else [], 1)
  }

  /** The items of the lines, turn by turn from the front. */
  function Items(lines: seq<string>, cfg: ParserConfig): seq<Item>
    decreases |lines|
  {
    if |lines| == 0 then []
    else
      var r := Step(lines, cfg);
      r.0 + Items(From(lines, r.1), cfg)
  }

  function Entries(items: seq<Item>, ctx: FileContext, rules: RuleSet): (r: seq<Source>)
    ensures |r| == |items|
    ensures forall i :: 0 <= i < |items| ==> r[i] == EntryOf(items[i], ctx, rules)
  {
    seq(|items|, i requires 0 <= i < |items| => EntryOf(items[i], ctx, rules))
  }

  lemma EntriesConcat(a: seq<Item>, b: seq<Item>, ctx: FileContext, rules: RuleSet)
    ensures Entries(a + b, ctx, rules) == Entries(a, ctx, rules) + Entries(b, ctx, rules)
  {
    var l := Entries(a + b, ctx, rules);
    var r := Entries(a, ctx, rules) + Entries(b, ctx, rules);
    forall i | 0 <= i < |l|
      ensures l[i] == r[i]
    {
      if i < |a| {
        assert (a + b)[i] == a[i];
      } else {
        assert (a + b)[i] == b[i - |a|];
      }
    }
  }

  /** The records `parse_file` returns for the lines of a file. */
  function Parse(lines: seq<string>, ctx: FileContext, cfg: ParserConfig): seq<Source> {
    Entries(Items(lines, cfg), ctx, cfg.rules)
  }

  /** The source type, the relative path and the UA lookup at the head of `parse_file`. */
  method FileContextOf(filePath: string, cfg: ParserConfig) returns (ctx: FileContext)
    ensures ctx == ContextOf(filePath, cfg)
  {
    var sourceType := if StartsWith(filePath, OnlineDir) then "online" else "local";
    var sourcePath := if sourceType == "online" then ReplaceAll(filePath, OnlineDir + "/", "") else filePath;
    var userAgent: Option<string> := None;
    if cfg.uaEnabled {
      userAgent := Lookup(cfg.userAgents, sourcePath);
      if !Truthy(userAgent) {
        userAgent := Lookup(cfg.userAgents, filePath);
      }
    }
    ctx := FileContext(sourceType, sourcePath, userAgent, BaseName(filePath));
  }

  /**
   * The body of the `while` loop at index `i`: what it reads for the entry it
   * appends, if any, and the index it leaves behind, past the URL line for an
   * EXTINF line.
   */
  method ReadLine(lines: seq<string>, i: nat, cfg: ParserConfig) returns (made: seq<Item>, next: nat)
    requires i < |lines|
    ensures made == Step(lines[i..], cfg).0
    ensures next == i + Step(lines[i..], cfg).1
  {
    ghost var rest := lines[i..];
    var line := Strip(lines[i]);
    assert line == Strip(rest[0]);
    made := [];
    next := i;
    if StartsWith(line, "#EXTM3U") {
      next := i + 1;
      return;
    }
    if StartsWith(line, "#EXTINF:") {
      var extinf := line;
      next := next + 1;
      if next < |lines| {
        assert rest[1] == lines[next];
        var url := Strip(lines[next]);
        if url != "" && !StartsWith(url, "#") {
          made := [ExtinfItem(extinf, url)];
        }
      }
      assert (made, 2) == Step(rest, cfg);
    } else {
      if line != "" && !StartsWith(line, "#") && cfg.validUrl(line) {
        made := [BareItem(line)];
      }
      assert (made, 1) == Step(rest, cfg);
    }
    next := next + 1;
  }

  /**
   * `parse_file` over the lines of the file at `filePath`: the manually
   * advanced index skips one line for a header, two for an EXTINF line and
   * its successor, and one for anything else.
   */
  method ParseFile(lines: seq<string>, filePath: string, cfg: ParserConfig) returns (sources: seq<Source>)
    ensures sources == Parse(lines, ContextOf(filePath, cfg), cfg)
  {
    var ctx := FileContextOf(filePath, cfg);
    sources := [];
    ghost var items: seq<Item> := [];
    var i := 0;
    assert From(lines, 0) == lines;
    while i < |lines|
      invariant 0 <= i <= |lines| + 1
      invariant items + Items(From(lines, i), cfg) == Items(lines, cfg)
      invariant sources == Entries(items, ctx, cfg.rules)
      decreases |lines| + 1 - i
    {
      var made, next := ReadLine(lines, i, cfg);
      ItemsAt(lines, i, next, cfg);
      Regroup(items, Items(From(lines, i), cfg), made, Items(From(lines, next), cfg), Items(lines, cfg));
      EntriesConcat(items, made, ctx, cfg.rules);
      sources := sources + Entries(made, ctx, cfg.rules);
      items := items + made;
      i := next;
    }
    assert From(lines, i) == [];
    assert items == Items(lines, cfg);
  }

  /** Moving the boundary between what has been read and what is left. */
  lemma Regroup<T>(a: seq<T>, rest: seq<T>, x: seq<T>, t: seq<T>, w: seq<T>)
    requires a + rest == w && rest == x + t
    ensures (a + x) + t == w
  {
  }

  /** The items from index `i` on are what the turn at `i` makes, then the items after it. */
  lemma ItemsAt(lines: seq<string>, i: nat, next: nat, cfg: ParserConfig)
    requires i < |lines| && next == i + Step(lines[i..], cfg).1
    ensures Items(From(lines, i), cfg) == Step(lines[i..], cfg).0 + Items(From(lines, next), cfg)
  {
    var rest := lines[i..];
    var k := Step(rest, cfg).1;
    assert From(lines, i) == rest;
    assert Items(rest, cfg) == Step(rest, cfg).0 + Items(From(rest, k), cfg) by {
      ItemsUnfold(rest, cfg);
    }
    assert From(rest, k) == From(lines, next) by {
      FromFrom(lines, i, k, next);
    }
  }

  /** One turn of `Items` at the front of non-empty lines. */
  lemma ItemsUnfold(lines: seq<string>, cfg: ParserConfig)
    requires |lines| > 0
    ensures Items(lines, cfg) == Step(lines, cfg).0 + Items(From(lines, Step(lines, cfg).1), cfg)
  {
  }

  /** Skipping `i` lines and then `k` more skips `i + k`. */
  lemma FromFrom(lines: seq<string>, i: nat, k: nat, next: nat)
    requires i <= |lines| && next == i + k
    ensures From(lines[i..], k) == From(lines, next)
  {
  }

  // ================================================================ properties of the loop

  /** No line makes more than one entry. */
  lemma {:induction false} ItemsLength(lines: seq<string>, cfg: ParserConfig)
    ensures |Items(lines, cfg)| <= |lines|
    decreases |lines|
  {
    if |lines| > 0 {
      ItemsLength(From(lines, Step(lines, cfg).1), cfg);
    }
  }

  lemma ParseLength(lines: seq<string>, ctx: FileContext, cfg: ParserConfig)
    ensures |Parse(lines, ctx, cfg)| <= |lines|
  {
    ItemsLength(lines, cfg);
  }

  /** Every entry carries the file's source type and path, and a stream URL without `|`. */
  lemma ParseFields(lines: seq<string>, ctx: FileContext, cfg: ParserConfig)
    ensures forall e :: e in Parse(lines, ctx, cfg) ==>
              e.sourceType == Some(ctx.sourceType) && e.sourcePath == Some(ctx.sourcePath) && '|' !in e.url
  {
    var r := Parse(lines, ctx, cfg);
    forall e | e in r
      ensures e.sourceType == Some(ctx.sourceType) && e.sourcePath == Some(ctx.sourcePath) && '|' !in e.url
    {
      var i :| 0 <= i < |r| && r[i] == e;
    }
  }

  /** An EXTINF line whose successor is a comment (another EXTINF line, say) swallows it and makes nothing. */
  lemma CommentAfterExtinf(e: string, c: string, rest: seq<string>, cfg: ParserConfig)
    requires StartsWith(Strip(e), "#EXTINF:") && StartsWith(Strip(c), "#")
    ensures Items([e, c] + rest, cfg) == Items(rest, cfg)
  {
    var lines := [e, c] + rest;
    assert From(lines, 2) == rest;
    ExtinfNotHeader(Strip(e));
    assert Step(lines, cfg) == ([], 2);
  }

  /** An EXTINF line is not a header line. */
  lemma ExtinfNotHeader(line: string)
    requires StartsWith(line, "#EXTINF:")
    ensures !StartsWith(line, "#EXTM3U")
  {
    assert line[4] == "#EXTINF:"[4];
  }

  /** An EXTINF line followed by a URL line makes one item from the pair. */
  lemma ExtinfPair(e: string, u: string, rest: seq<string>, cfg: ParserConfig)
    requires StartsWith(Strip(e), "#EXTINF:") && IsUrlLine(Strip(u))
    ensures Items([e, u] + rest, cfg) == [ExtinfItem(Strip(e), Strip(u))] + Items(rest, cfg)
  {
    var lines := [e, u] + rest;
    assert From(lines, 2) == rest;
    ExtinfNotHeader(Strip(e));
    assert Step(lines, cfg) == ([ExtinfItem(Strip(e), Strip(u))], 2);
  }

  /** An EXTINF line on the last line makes nothing. */
  lemma ExtinfLast(e: string, cfg: ParserConfig)
    requires StartsWith(Strip(e), "#EXTINF:")
    ensures Items([e], cfg) == []
  {
    ExtinfNotHeader(Strip(e));
    assert From([e], 2) == [];
  }

  /** Header lines make nothing. */
  lemma HeaderSkipped(h: string, rest: seq<string>, cfg: ParserConfig)
    requires StartsWith(Strip(h), "#EXTM3U")
    ensures Items([h] + rest, cfg) == Items(rest, cfg)
  {
    assert From([h] + rest, 1) == rest;
  }

  /** A URL line is neither a header nor an EXTINF line. */
  lemma UrlLineNotSpecial(line: string)
    requires IsUrlLine(line)
    ensures !StartsWith(line, "#EXTM3U") && !StartsWith(line, "#EXTINF:")
  {
    assert line[0] != '#';
  }

  /** One bare item per line. */
  function BareItems(lines: seq<string>): (r: seq<Item>)
    ensures |r| == |lines|
    ensures forall i :: 0 <= i < |lines| ==> r[i] == BareItem(Strip(lines[i]))
  {
    seq(|lines|, i requires 0 <= i < |lines| => BareItem(Strip(lines[i])))
  }

  /** A plain list of valid URLs makes one item per line, in order. */
  lemma {:induction false} PlainList(lines: seq<string>, cfg: ParserConfig)
    requires forall i :: 0 <= i < |lines| ==> IsBareEntry(Strip(lines[i]), cfg)
    ensures Items(lines, cfg) == BareItems(lines)
    decreases |lines|
  {
    if |lines| > 0 {
      var tail := lines[1..];
      StepBare(lines, cfg);
      assert From(lines, 1) == tail;
      assert forall i :: 0 <= i < |tail| ==> tail[i] == lines[i + 1];
      PlainList(tail, cfg);
      BareItemsCons(lines);
    }
  }

  /** A valid bare URL on the first line makes one item and advances one line. */
  lemma StepBare(lines: seq<string>, cfg: ParserConfig)
    requires |lines| > 0 && IsBareEntry(Strip(lines[0]), cfg)
    ensures Step(lines, cfg) == ([BareItem(Strip(lines[0]))], 1)
  {
    UrlLineNotSpecial(Strip(lines[0]));
  }

  lemma BareItemsCons(lines: seq<string>)
    requires |lines| > 0
    ensures BareItems(lines) == [BareItem(Strip(lines[0]))] + BareItems(lines[1..])
  {
    var tail := lines[1..];
    assert forall i :: 0 <= i < |tail| ==> tail[i] == lines[i + 1];
  }

  /** The entry of an EXTINF pair takes its name, logo and group from the EXTINF line and its URL from the URL line. */
  lemma ExtinfEntrySpec(extinf: string, url: string, ctx: FileContext, rules: RuleSet)
    ensures var e := ExtinfEntry(extinf, url, ctx, rules);
            e.name == ExtractName(extinf) && e.logo == ExtractLogo(extinf) && e.group == ExtractGroup(extinf)
            && StartsWith(url, e.url) && '|' !in e.url
            && ('|' !in url ==> e.url == url && e.userAgent == ctx.userAgent)
            && e.category == Some(CategoryFor(rules, e.name))
  {
  }

  /** A bare entry is named after the file's base name and grouped under its path. */
  lemma BareEntrySpec(line: string, ctx: FileContext, rules: RuleSet)
    ensures var e := BareEntry(line, ctx, rules);
            e.name == "Channel from " + ctx.baseName && e.group == Some(ctx.sourcePath) && e.logo.None?
            && StartsWith(line, e.url) && ('|' !in line ==> e.url == line)
  {
  }

  /** An EXTINF line `…,name` with no comma in the name yields the stripped name. */
  lemma ExtractNameOf(pre: string, name: string)
    requires ',' !in name && name != ""
    ensures ExtractName(pre + "," + name) == Strip(name)
  {
    var line := pre + [','] + name;
    assert pre + "," + name == line;
    SplitSuffix(pre, ',', name);
    ExtractNameLast(line);
  }

  /** With a comma and a non-empty last piece, the name is that piece stripped. */
  lemma ExtractNameLast(line: string)
    ensures var parts := Split(line, ',');
            |parts| >= 2 && parts[|parts| - 1] != "" ==> ExtractName(line) == Strip(parts[|parts| - 1])
    ensures var parts := Split(line, ',');
            !(|parts| >= 2 && parts[|parts| - 1] != "") ==> ExtractName(line) == UnknownChannel
  {
    var parts := Split(line, ',');
    assert ExtractName(line) == NameFrom(parts);
  }

  /** The last piece of `p + [c] + t` is `t` when `t` holds no `c`. */
  lemma {:induction false} SplitSuffix(p: string, c: char, t: string)
    requires c !in t
    ensures |Split(p + [c] + t, c)| >= 2
    ensures Split(p + [c] + t, c)[|Split(p + [c] + t, c)| - 1] == t
    decreases |p|
  {
    var s := p + [c] + t;
    if |p| == 0 {
      assert s == [c] + t;
      assert s[1..] == t;
      SplitFree(t, c);
    } else {
      assert s[1..] == p[1..] + [c] + t;
      SplitSuffix(p[1..], c, t);
    }
  }

  // ================================================================ the file-name sanitiser

  /** `[\w\-_.]`, with `word` standing for Python's Unicode `\w`. */
  predicate SafeChar(c: char, word: char -> bool) {
    word(c) || c == '-' || c == '_' || c == '.'
  }

  /** `re.sub(r'[^\w\-_.]', '_', s)`: every unsafe character becomes `_`. */
  function Sanitize(s: string, word: char -> bool): (r: string)
    ensures |r| == |s|
    ensures forall i :: 0 <= i < |s| ==> r[i] == (if SafeChar(s[i], word) then s[i] else '_')
  {
    seq(|s|, i requires 0 <= i < |s| => if SafeChar(s[i], word) then s[i] else '_')
  }

  /** The last `/` segment of the URL cut at its first `?`. */
  function UrlSegment(url: string): string {
    var clean := Split(url, '?')[0];
    var segs := Split(clean, '/');
    segs[|segs| - 1]
  }

  /**
   * `get_filename_from_url`: the last path segment, or `source_<digest>.txt`
   * when that segment is empty or has no dot, made safe. `digest` stands for
   * the first eight hex digits of the URL's MD5.
   */
  function FilenameFromUrl(url: string, digest: string -> string, word: char -> bool): (r: string)
    ensures forall c :: c in r ==> SafeChar(c, word)
  {
    var seg := UrlSegment(url);
    var name := if seg == "" || '.' !in seg then "source_" + digest(url) + ".txt" else seg;
    var r := Sanitize(name, word);
    assert forall c :: c in r ==> SafeChar(c, word) by {
      forall c | c in r
        ensures SafeChar(c, word)
      {
        var i :| 0 <= i < |r| && r[i] == c;
      }
    }
    r
  }

  /** Since `\w` holds neither `/` nor `?`, a file name never holds them. */
  lemma FilenameNoSeparators(url: string, digest: string -> string, word: char -> bool)
    requires !word('/') && !word('?')
    ensures '/' !in FilenameFromUrl(url, digest, word) && '?' !in FilenameFromUrl(url, digest, word)
  {
  }

  /** A URL ending in a safe file name with a dot, and possibly a query, keeps that name. */
  lemma FilenameKeepsPlain(dir: string, file: string, query: string, digest: string -> string, word: char -> bool)
    requires '?' !in dir && '/' !in file && '?' !in file && '.' in file
    requires forall c :: c in file ==> SafeChar(c, word)
    ensures FilenameFromUrl(dir + "/" + file + "?" + query, digest, word) == file
  {
    var url := dir + "/" + file + "?" + query;
    assert url == (dir + "/" + file) + ['?'] + query;
    assert '?' !in dir + "/" + file;
    SplitPrefix(dir + "/" + file, '?', query);
    SplitSuffix(dir, '/', file);
    assert dir + "/" + file == dir + ['/'] + file;
    var r := Sanitize(file, word);
    assert forall i :: 0 <= i < |file| ==> r[i] == file[i] by {
      forall i | 0 <= i < |file|
        ensures r[i] == file[i]
      {
        assert file[i] in file;
      }
    }
  }

  /** A URL whose last segment is empty (a trailing `/`) falls back to the digest name. */
  lemma FilenameFallback(dir: string, query: string, digest: string -> string, word: char -> bool)
    requires '?' !in dir
    ensures var url := dir + "/?" + query;
            FilenameFromUrl(url, digest, word) == Sanitize("source_" + digest(url) + ".txt", word)
  {
    var url := dir + "/?" + query;
    assert url == (dir + "/") + ['?'] + query;
    assert '?' !in dir + "/";
    SplitPrefix(dir + "/", '?', query);
    SplitSuffix(dir, '/', "");
    assert dir + "/" == dir + ['/'] + "";
  }
}
