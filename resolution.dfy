/**
 * The three copies of the resolution logic. All parse "WxH" and "Np" strings
 * the same way and differ only in what a string that does not parse becomes:
 * (0,0) in the orchestrator and on the minimum side of the prober and the
 * generator, (9999,9999) on their maximum side.
 */
module Resolution {
  import opened Wrappers
  import opened Text

  datatype Dims = Dims(w: int, h: int)

  const Zero := Dims(0, 0)
  const Huge := Dims(9999, 9999)

  /** Python's `int(x / y)` for integers: the quotient truncated toward zero. */
  function TruncDiv(a: int, b: int): (q: int)
    requires b > 0
    ensures a >= 0 ==> q == a / b
    ensures a < 0 ==> q == -((-a) / b)
  {
    if a >= 0 then a / b else -((-a) / b)
  }

  /** The "WxH" form: exactly two parts around 'x', both integers. */
  function ParseWxH(res: string): Option<Dims> {
    var parts := Split(res, 'x');
    if Contains(res, "x") && |parts| == 2 && ParseInt(parts[0]).Some? && ParseInt(parts[1]).Some? then
      Some(Dims(ParseInt(parts[0]).value, ParseInt(parts[1]).value))
    else None
  }

  /** A "WxH" resolution of two integers with a side below 100 pixels. */
  predicate IsTinyWxH(res: string) {
    match ParseWxH(res)
    case Some(d) => d.w < 100 || d.h < 100
    case None => false
  }

  /** The inner `parse_resolution`, with `fail` the value a string that does not parse becomes. */
  function ParseDims(res: string, fail: Dims): Dims {
    if Contains(res, "x") then
      match ParseWxH(res)
      case Some(d) => d
      case None => fail
    else if EndsWith(res, "p") then
      match ParseInt(res[..|res| - 1])
      case Some(h) => Dims(TruncDiv(h * 16, 9), h)
      case None => fail
    else fail
  }

  predicate AtLeast(r: Dims, m: Dims) {
    r.w >= m.w && r.h >= m.h
  }

  predicate AtMost(r: Dims, m: Dims) {
    r.w <= m.w && r.h <= m.h
  }

  /** The orchestrator's `check_resolution` (main.py). */
  function CheckResolution(resolution: Option<string>, minRes: string, maxRes: string, mode: string): bool {
    var res := resolution.GetOr("");
    if res == "" || res == "unknown" then true
    else
      var r := ParseDims(res, Zero);
      var mn := ParseDims(minRes, Zero);
      var mx := ParseDims(maxRes, Zero);
      var minOk := mn == Zero || AtLeast(r, mn);
      var maxOk := mx == Zero || AtMost(r, mx);
      if mode == "range" then minOk && maxOk
      else if mode == "min_only" then minOk
      else if mode == "max_only" then maxOk
      else true
  }

  /** `is_resolution_meet_min` of the prober and of the generator. */
  function MeetMin(resolution: string, minRes: string): bool {
    resolution == "" || minRes == "" || AtLeast(ParseDims(resolution, Zero), ParseDims(minRes, Zero))
  }

  /** `is_resolution_meet_max` of the prober and of the generator. */
  function MeetMax(resolution: string, maxRes: string): bool {
    resolution == "" || maxRes == "" || AtMost(ParseDims(resolution, Huge), ParseDims(maxRes, Huge))
  }

  // ---------------------------------------------------------------- parsing

  /** "WxH" written from two integers parses back to them, in every copy. */
  lemma ParseDimsWxH(w: int, h: int, fail: Dims)
    ensures ParseWxH(IntToString(w) + "x" + IntToString(h)) == Some(Dims(w, h))
    ensures ParseDims(IntToString(w) + "x" + IntToString(h), fail) == Dims(w, h)
  {
    var a := IntToString(w);
    var b := IntToString(h);
    var s := a + "x" + b;
    IntToStringChars(w);
    IntToStringChars(h);
    assert s[|a|..|a| + 1] == "x";
    ContainsAt(s, "x", |a|);
    SplitPrefix(a, 'x', b);
    SplitFree(b, 'x');
    assert s == a + ['x'] + b;
    ParseIntToString(w);
    ParseIntToString(h);
  }

  /** "Np" gives height N and width N*16/9 truncated toward zero. */
  lemma ParseDimsP(h: int, fail: Dims)
    ensures ParseDims(IntToString(h) + "p", fail) == Dims(TruncDiv(h * 16, 9), h)
  {
    var a := IntToString(h);
    var s := a + "p";
    IntToStringChars(h);
    ContainsChar(s, 'x');
    assert s[..|s| - 1] == a;
    ParseIntToString(h);
  }

  /** A string with neither 'x' nor a trailing 'p' does not parse. */
  lemma ParseDimsOther(res: string, fail: Dims)
    requires !Contains(res, "x") && !EndsWith(res, "p")
    ensures ParseDims(res, fail) == fail
  {
  }

  /** A string without the letter 'x' and without a final 'p' (such as "4k", "abc" or "unknown") does not parse. */
  lemma ParseDimsNoMarker(res: string, fail: Dims)
    requires 'x' !in res && (|res| == 0 || res[|res| - 1] != 'p')
    ensures ParseDims(res, fail) == fail
  {
    ContainsChar(res, 'x');
  }

  lemma P1080()
    ensures ParseDims("1080p", Zero) == Dims(1920, 1080)
    ensures ParseDims("1080p", Huge) == Dims(1920, 1080)
    ensures ParseDims("720p", Zero) == Dims(1280, 720)
  {
    assert IntToString(1080) + "p" == "1080p";
    assert IntToString(720) + "p" == "720p";
    ParseDimsP(1080, Zero);
    ParseDimsP(1080, Huge);
    ParseDimsP(720, Zero);
  }

  // ---------------------------------------------------------------- the orchestrator's check

  /** No actual resolution, or "unknown", passes whatever the bounds. */
  lemma CheckUnknownPasses(resolution: Option<string>, minRes: string, maxRes: string, mode: string)
    requires resolution.None? || resolution.value == "" || resolution.value == "unknown"
    ensures CheckResolution(resolution, minRes, maxRes, mode)
  {
  }

  /**
   * An actual resolution that does not parse counts as (0,0): it fails every
   * minimum above zero and passes every maximum that is not negative.
   */
  lemma CheckUnparsable(res: string, minRes: string, maxRes: string)
    requires res != "" && res != "unknown" && ParseDims(res, Zero) == Zero
    ensures ParseDims(minRes, Zero).w > 0 || ParseDims(minRes, Zero).h > 0
            ==> !CheckResolution(Some(res), minRes, maxRes, "min_only")
                && !CheckResolution(Some(res), minRes, maxRes, "range")
    ensures ParseDims(maxRes, Zero).w >= 0 && ParseDims(maxRes, Zero).h >= 0
            ==> CheckResolution(Some(res), minRes, maxRes, "max_only")
  {
  }

  /** A bound that parses to (0,0), such as "4k" or "", switches that side off. */
  lemma CheckZeroBoundOff(res: string, minRes: string, maxRes: string)
    requires res != "" && res != "unknown"
    requires ParseDims(minRes, Zero) == Zero && ParseDims(maxRes, Zero) == Zero
    ensures CheckResolution(Some(res), minRes, maxRes, "range")
  {
  }

  /** The default upper bound "4k" is no bound for the orchestrator. */
  lemma Check4kNoBound(res: string, minRes: string)
    requires res != "" && res != "unknown"
    ensures CheckResolution(Some(res), minRes, "4k", "max_only")
  {
    ParseDimsNoMarker("4k", Zero);
  }

  /** Tightening a bound, in the sense the (0,0) sentinel allows. */
  predicate TighterMin(tight: Dims, loose: Dims) {
    loose == Zero || (tight != Zero && AtLeast(tight, loose))
  }

  predicate TighterMax(tight: Dims, loose: Dims) {
    loose == Zero || (tight != Zero && AtMost(tight, loose))
  }

  /** Under tighter bounds and the same mode, a passing resolution passed before. */
  lemma CheckMonotone(resolution: Option<string>, min1: string, max1: string, min2: string, max2: string, mode: string)
    requires TighterMin(ParseDims(min2, Zero), ParseDims(min1, Zero))
    requires TighterMax(ParseDims(max2, Zero), ParseDims(max1, Zero))
    requires CheckResolution(resolution, min2, max2, mode)
    ensures CheckResolution(resolution, min1, max1, mode)
  {
  }

  // ---------------------------------------------------------------- the prober's and generator's checks

  /** Either string empty: both checks pass. */
  lemma MeetEmpty(res: string, bound: string)
    requires res == "" || bound == ""
    ensures MeetMin(res, bound) && MeetMax(res, bound)
  {
  }

  /**
   * The sentinels at work: "abc" fails the maximum "1080p" (it counts as
   * 9999x9999) but passes the maximum "4k" (both count as 9999x9999), and it
   * fails the minimum "720p" (it counts as 0x0).
   */
  lemma MeetSentinels()
    ensures !MeetMax("abc", "1080p")
    ensures MeetMax("abc", "4k")
    ensures !MeetMin("abc", "720p")
  {
    ParseDimsNoMarker("abc", Huge);
    ParseDimsNoMarker("abc", Zero);
    ParseDimsNoMarker("4k", Huge);
    P1080();
  }

  /**
   * The orchestrator and the prober disagree: with max_only and maximum
   * "1080p", "abc" passes check_resolution but fails is_resolution_meet_max.
   */
  lemma CheckVersusMeetMax()
    ensures CheckResolution(Some("abc"), "", "1080p", "max_only")
    ensures !MeetMax("abc", "1080p")
  {
    ParseDimsNoMarker("abc", Zero);
    ParseDimsNoMarker("abc", Huge);
    P1080();
  }
}
