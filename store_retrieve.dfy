/**
 * The helpers of `optstore retrieve` (`retrieve/mod.rs`): the `--day` argument read as
 * a YYYYMMDD number, the millisecond bounds of that UTC day, the de-duplication of the
 * ticks of one chunk against the keys seen so far, the progress ratios, and the
 * human-readable duration of the progress messages.
 */
module StoreRetrieve {
  import opened Wrappers
  import opened Text
  import opened Numbers
  import opened Civil
  import opened StoreSchema
  import opened StoreTypes
  import opened StoreNormalize
  import opened StoreCache
  import StoreFetch

  /** The ways `run` fails before or while it writes the cache. */
  datatype RunError =
    | InvalidDay(day: string)
    | InvalidDayCode(code: U32)
    | FetchFailed(fetchError: StoreFetch.FetchError)
    | NormalizeFailed(decodeError: DecodeError)

  // ---------------------------------------------------------------- parse_day

  /** The ASCII digits of a string, in order (`chars().filter(is_ascii_digit)`). */
  function KeepDigits(s: string): (r: string)
    ensures AllDigits(r) && |r| <= |s|
    ensures forall c :: c in r <==> c in s && IsDigit(c)
  {
    if |s| == 0 then ""
    else
      var init := KeepDigits(s[..|s| - 1]);
      assert s == s[..|s| - 1] + [s[|s| - 1]];
      if IsDigit(s[|s| - 1]) then init + [s[|s| - 1]] else init
  }

  lemma {:induction false} KeepDigitsAppend(a: string, b: string)
    ensures KeepDigits(a + b) == KeepDigits(a) + KeepDigits(b)
  {
    if |b| == 0 {
      assert a + b == a;
    } else {
      assert (a + b)[..|a + b| - 1] == a + b[..|b| - 1];
      KeepDigitsAppend(a, b[..|b| - 1]);
    }
  }

  lemma {:induction false} KeepDigitsOfDigits(s: string)
    requires AllDigits(s)
    ensures KeepDigits(s) == s
  {
    if |s| > 0 {
      KeepDigitsOfDigits(s[..|s| - 1]);
    }
  }

  /**
   * `parse_day`: the digits of the argument read as a `u32`; no digit at all, or a
   * number above `u32::MAX`, is an invalid day.
   */
  function ParseDay(day: string): (r: Result<U32, RunError>)
    ensures r.Ok? <==> |KeepDigits(day)| > 0 && ParseDigits(KeepDigits(day)) <= U32_MAX
    ensures r.Ok? ==> r.value == ParseDigits(KeepDigits(day))
    ensures r.Err? ==> r.error == InvalidDay(day)
  {
    match ParseUnsigned(KeepDigits(day), U32_MAX)
    case Some(n) => Ok(n)
    case None => Err(InvalidDay(day))
  }

  /** A date written "YYYY-MM-DD", as the `--day` argument is documented. */
  function IsoDate(dt: Date): string
    requires WellFormed(dt)
  {
    FormatYear(dt.year) + "-" + TwoDigits(dt.month) + "-" + TwoDigits(dt.day)
  }

  /** The YYYYMMDD number of a date. */
  function DayCode(dt: Date): int {
    dt.year * 10000 + dt.month * 100 + dt.day
  }

  /** Dropping the dashes of "YYYY-MM-DD" leaves "YYYYMMDD". */
  lemma IsoDateDigits(dt: Date)
    requires WellFormed(dt) && 0 <= dt.year <= 9999
    ensures KeepDigits(IsoDate(dt)) == FormatYmd(dt)
  {
    var y, m, d := FormatYear(dt.year), TwoDigits(dt.month), TwoDigits(dt.day);
    assert KeepDigits("-") == "";
    KeepDigitsOfDigits(y);
    KeepDigitsOfDigits(m);
    KeepDigitsOfDigits(d);
    KeepDigitsAppend(y, "-");
    KeepDigitsAppend(y + "-", m);
    KeepDigitsAppend(y + "-" + m, "-");
    KeepDigitsAppend(y + "-" + m + "-", d);
  }

  /** "YYYYMMDD" is the number YYYYMMDD. */
  lemma FormatYmdValue(dt: Date)
    requires WellFormed(dt) && 0 <= dt.year <= 9999
    ensures ParseDigits(FormatYmd(dt)) == DayCode(dt)
  {
    var ymd := FormatYmd(dt);
    ParseThreeFields(ymd);
    FormatYmdDigits(dt);
    assert ymd[6..8] == ymd[6..];
  }

  /** A "YYYY-MM-DD" argument of a year in 0..=9999 parses to its YYYYMMDD number. */
  lemma ParseIsoDay(dt: Date)
    requires WellFormed(dt) && 0 <= dt.year <= 9999
    ensures ParseDay(IsoDate(dt)) == Ok(DayCode(dt))
  {
    IsoDateDigits(dt);
    FormatYmdValue(dt);
    assert DayCode(dt) <= 99991231;
  }

  // ---------------------------------------------------------------- day_bounds_ms

  /** The date a YYYYMMDD number names: `day / 10_000`, `(day / 100) % 100`, `day % 100`. */
  function DateOfCode(day: U32): Date {
    Date(day / 10000, (day / 100) % 100, day % 100)
  }

  /** `i64 as u64`: the two's complement bits read as unsigned. */
  function WrapU64(x: int): (r: U64)
    ensures 0 <= x <= U64_MAX ==> r == x
    ensures -(U64_MAX + 1) <= x < 0 ==> r == x + U64_MAX + 1
  {
    x % (U64_MAX + 1)
  }

  /** The last millisecond of a day, counted from its first. */
  const LAST_MS_OF_DAY: nat := 86_399_999

  /**
   * `day_bounds_ms`: the first and the last millisecond of the UTC day, as `u64`; a
   * number that names no date chrono accepts is an invalid day code. Before 1970 the
   * `i64` timestamps wrap around, and the last millisecond still lies 86 399 999 after
   * the first.
   */
  function DayBoundsMs(day: U32): (r: Result<(U64, U64), RunError>)
    ensures r.Ok? <==> ValidDate(DateOfCode(day))
    ensures r.Err? ==> r.error == InvalidDayCode(day)
    ensures r.Ok? ==> r.value.1 == r.value.0 + LAST_MS_OF_DAY
    ensures r.Ok? ==> r.value.0 == WrapU64(TimestampMs(DateOfCode(day), 0, 0, 0))
  {
    var date := DateOfCode(day);
    if !ValidDate(date) then Err(InvalidDayCode(day))
    else
      DaysFromCivilBound(date);
      var start := TimestampMs(date, 0, 0, 0);
      var end := start + LAST_MS_OF_DAY;
      assert start >= 0 || end < 0;
      Ok((WrapU64(start), WrapU64(end)))
  }

  /** The YYYYMMDD number of a date names that date. */
  lemma DateOfDayCode(dt: Date)
    requires WellFormed(dt) && 0 <= dt.year <= 9999
    ensures 0 <= DayCode(dt) <= U32_MAX && DateOfCode(DayCode(dt)) == dt
  {
    var code := DayCode(dt);
    Digits2(dt.year * 100 + dt.month, dt.day, code);
    Digits2(dt.year, dt.month, dt.year * 100 + dt.month);
    assert code / 10000 == dt.year by {
      Digits4(dt.year, dt.month * 100 + dt.day, code);
    }
  }

  /** Splitting off the last two decimal digits. */
  lemma Digits2(high: int, low: int, n: int)
    requires 0 <= low < 100 && n == high * 100 + low
    ensures n / 100 == high && n % 100 == low
  {
  }

  /** Splitting off the last four decimal digits. */
  lemma Digits4(high: int, low: int, n: int)
    requires 0 <= low < 10000 && n == high * 10000 + low
    ensures n / 10000 == high
  {
  }

  /** From 1970 on, the bounds of a date's YYYYMMDD number are its first millisecond and the one 86 399 999 later. */
  lemma DayBoundsValue(dt: Date)
    requires ValidDate(dt) && 1970 <= dt.year <= 9999
    ensures DayBoundsMs(DayCode(dt)) == Ok((TimestampMs(dt, 0, 0, 0), TimestampMs(dt, 0, 0, 0) + LAST_MS_OF_DAY))
  {
    DateOfDayCode(dt);
    DaysFromCivilBound(dt);
    if dt != Date(1970, 1, 1) {
      DaysFromCivilMonotone(Date(1970, 1, 1), dt);
    }
  }

  /**
   * From 1970 on, both bounds fall on the day itself and the millisecond after the
   * last is on another day: the bounds cover exactly that UTC day.
   */
  lemma DayBoundsCoverDay(dt: Date)
    requires ValidDate(dt) && 1970 <= dt.year <= 9999
    ensures DayBoundsMs(DayCode(dt)).Ok?
    ensures var (start, end) := DayBoundsMs(DayCode(dt)).value;
      DateOfMs(start) == dt && DateOfMs(end) == dt && DateOfMs(end + 1) != dt
      && (start == 0 || DateOfMs(start - 1) != dt)
  {
    DayBoundsValue(dt);
    DateOfTimestamp(dt, 0, 0, 0);
    var bounds := DayBoundsMs(DayCode(dt)).value;
    DayCovered(dt, bounds.0, bounds.1);
  }

  /**
   * A millisecond `start` that begins a day of date `dt`: `end`, 86 399 999 later, is on
   * `dt` too, and the milliseconds just outside that span are not.
   */
  lemma DayCovered(dt: Date, start: int, end: int)
    requires DateOfMs(start) == dt && start % MS_PER_DAY == 0 && end == start + LAST_MS_OF_DAY
    ensures DateOfMs(end) == dt
    ensures DateOfMs(end + 1) != dt
    ensures DateOfMs(start - 1) != dt
  {
    var z := start / MS_PER_DAY;
    DaysAndTime(z, LAST_MS_OF_DAY, start + LAST_MS_OF_DAY);
    DaysAndTime(z + 1, 0, start + LAST_MS_OF_DAY + 1);
    DaysAndTime(z - 1, LAST_MS_OF_DAY, start - 1);
    SameDate(start, start + LAST_MS_OF_DAY);
    SameDate(start, start + LAST_MS_OF_DAY + 1);
    SameDate(start, start - 1);
  }

  // ---------------------------------------------------------------- normalize_and_dedup

  /** What `to_ticks` yields for a chunk. */
  function ChunkTicks(n: DeribitNormalizer, chunk: RawChunk): Result<seq<Tick>, DecodeError> {
    match DecodeTrades(chunk)
    case Ok(trades) => Ok(TicksOf(n, trades))
    case Err(e) => Err(e)
  }

  predicate InRange(t: Tick, startNs: U64, endNs: U64) {
    startNs <= t.tsNs <= endNs
  }

  /** The ticks within `[startNs, endNs]`, in order. */
  function InRangeTicks(ticks: seq<Tick>, startNs: U64, endNs: U64): (r: seq<Tick>)
    ensures |r| <= |ticks|
  {
    if |ticks| == 0 then []
    else
      var init := InRangeTicks(ticks[..|ticks| - 1], startNs, endNs);
      var last := ticks[|ticks| - 1];
      if InRange(last, startNs, endNs) then init + [last] else init
  }

  /** Exactly the ticks in the window are kept: the others count neither way. */
  lemma {:induction false} InRangeTicksMembers(ticks: seq<Tick>, startNs: U64, endNs: U64)
    ensures forall t :: t in InRangeTicks(ticks, startNs, endNs) <==> t in ticks && InRange(t, startNs, endNs)
  {
    if |ticks| > 0 {
      InRangeTicksMembers(ticks[..|ticks| - 1], startNs, endNs);
      assert ticks == ticks[..|ticks| - 1] + [ticks[|ticks| - 1]];
    }
  }

  lemma InRangeStep(ticks: seq<Tick>, i: nat, startNs: U64, endNs: U64)
    requires i < |ticks|
    ensures InRangeTicks(ticks[..i + 1], startNs, endNs) ==
      if InRange(ticks[i], startNs, endNs) then InRangeTicks(ticks[..i], startNs, endNs) + [ticks[i]]
      else InRangeTicks(ticks[..i], startNs, endNs)
  {
    assert ticks[..i + 1][..i] == ticks[..i];
  }

  /** The keys of a list of ticks. */
  function KeySet(ticks: seq<Tick>): set<TickKey> {
    if |ticks| == 0 then {}
    else KeySet(ticks[..|ticks| - 1]) + {Key(ticks[|ticks| - 1])}
  }

  lemma KeySetSnoc(ticks: seq<Tick>, t: Tick)
    ensures KeySet(ticks + [t]) == KeySet(ticks) + {Key(t)}
  {
    assert (ticks + [t])[..|ticks|] == ticks;
  }

  /** A key is in the key set exactly when some tick of the list has it. */
  lemma {:induction false} KeySetMembers(ticks: seq<Tick>, k: TickKey)
    ensures k in KeySet(ticks) <==> exists t :: t in ticks && Key(t) == k
  {
    if |ticks| > 0 {
      var init := ticks[..|ticks| - 1];
      KeySetMembers(init, k);
      assert ticks == init + [ticks[|ticks| - 1]];
      if k in KeySet(init) {
        var t :| t in init && Key(t) == k;
        assert t in ticks;
      }
    }
  }

  /**
   * `normalize_and_dedup`: a chunk without ticks gives no summary; otherwise every tick
   * in `[startNs, endNs]` is either unique (its key is new and joins `seen`) or a
   * duplicate, and the ticks outside are neither. A decode error leaves `seen` as it was.
   */
  method NormalizeAndDedup(n: DeribitNormalizer, chunk: RawChunk, seen: set<TickKey>, startNs: U64, endNs: U64)
    returns (r: Result<Option<(nat, nat)>, DecodeError>, seenAfter: set<TickKey>)
    ensures ChunkTicks(n, chunk).Err? ==> r == Err(ChunkTicks(n, chunk).error) && seenAfter == seen
    ensures ChunkTicks(n, chunk).Ok? && |ChunkTicks(n, chunk).value| == 0 ==> r == Ok(None) && seenAfter == seen
    ensures ChunkTicks(n, chunk).Ok? && |ChunkTicks(n, chunk).value| > 0 ==> r.Ok? && r.value.Some?
    ensures r.Ok? && r.value.Some? ==>
      var inRange := InRangeTicks(ChunkTicks(n, chunk).value, startNs, endNs);
      && r.value.value.0 + r.value.value.1 == |inRange|
      && seenAfter == seen + KeySet(inRange)
      && r.value.value.0 == |seenAfter - seen|
  {
    var decoded := ToTicks(n, chunk);
    if decoded.Err? {
      return Err(decoded.error), seen;
    }
    var ticks := decoded.value;
    if |ticks| == 0 {
      return Ok(None), seen;
    }
    var unique, duplicates;
    unique, duplicates, seenAfter := DedupTicks(ticks, seen, startNs, endNs);
    r := Ok(Some((unique, duplicates)));
  }

  /**
   * The counting loop of `normalize_and_dedup`: each tick in the window is unique when
   * inserting its key grows the set, and a duplicate otherwise.
   */
  method DedupTicks(ticks: seq<Tick>, seen: set<TickKey>, startNs: U64, endNs: U64)
    returns (unique: nat, duplicates: nat, seenAfter: set<TickKey>)
    ensures unique + duplicates == |InRangeTicks(ticks, startNs, endNs)|
    ensures seenAfter == seen + KeySet(InRangeTicks(ticks, startNs, endNs))
    ensures unique == |seenAfter - seen|
  {
    unique, duplicates := 0, 0;
    seenAfter := seen;
    ghost var kept: seq<Tick> := [];
    var i := 0;
    while i < |ticks|
      invariant 0 <= i <= |ticks|
      invariant kept == InRangeTicks(ticks[..i], startNs, endNs)
      invariant unique + duplicates == |kept|
      invariant seenAfter == seen + KeySet(kept)
      invariant unique == |seenAfter - seen|
    {
      var tick := ticks[i];
      InRangeStep(ticks, i, startNs, endNs);
      if tick.tsNs < startNs || tick.tsNs > endNs {
        i := i + 1;
        continue;
      }
      KeySetSnoc(kept, tick);
      kept := kept + [tick];
      var added;
      added, seenAfter := Insert(seenAfter, seen, Key(tick));
      if added {
        unique := unique + 1;
      } else {
        duplicates := duplicates + 1;
      }
      i := i + 1;
    }
    assert ticks[..i] == ticks;
  }

  /**
   * `HashSet::insert`: the key joins the set, and the answer says whether it was new;
   * a new key grows the part of the set outside `seen` by one.
   */
  method Insert(keys: set<TickKey>, ghost seen: set<TickKey>, key: TickKey) returns (added: bool, after: set<TickKey>)
    requires seen <= keys
    ensures after == keys + {key}
    ensures added <==> key !in keys
    ensures |after - seen| == |keys - seen| + (if added then 1 else 0)
  {
    added := key !in keys;
    after := keys + {key};
    if added {
      assert after - seen == (keys - seen) + {key};
    } else {
      assert after == keys;
    }
  }

  // ---------------------------------------------------------------- progress

  /** `f64::clamp(0.0, 1.0)`. */
  function Clamp01(x: real): (r: real)
    ensures 0.0 <= r <= 1.0
    ensures 0.0 <= x <= 1.0 ==> r == x
  {
    if x < 0.0 then 0.0 else if x > 1.0 then 1.0 else x
  }

  function Min(a: int, b: int): int {
    if a <= b then a else b
  }

  /** `(x - start) / (end - start)` for `start <= x <= end`: a fraction of the day. */
  function Fraction(x: int, startMs: int, endMs: int): (f: real)
    requires startMs <= x <= endMs && startMs < endMs
    ensures 0.0 <= f <= 1.0
    ensures x == endMs ==> f == 1.0
    ensures x == startMs ==> f == 0.0
  {
    var num := (x - startMs) as real;
    var den := (endMs - startMs) as real;
    assert num <= den;
    num / den
  }

  lemma FractionMonotone(x: int, y: int, startMs: int, endMs: int)
    requires startMs <= x <= y <= endMs && startMs < endMs
    ensures Fraction(x, startMs, endMs) <= Fraction(y, startMs, endMs)
  {
    var den := (endMs - startMs) as real;
    assert (x - startMs) as real / den <= (y - startMs) as real / den;
  }

  /**
   * `progress_ratio_for_chunk`: how far through `[startMs, endMs]` the chunk's last
   * trade is; none for an empty window, 0 before the window, 1 at or after its end.
   */
  function ProgressRatioForChunk(chunk: RawChunk, startMs: U64, endMs: U64): (r: Option<real>)
    ensures r.None? <==> endMs <= startMs
    ensures r.Some? ==> 0.0 <= r.value <= 1.0
    ensures r.Some? && chunk.endNs / NS_PER_MS < startMs ==> r.value == 0.0
    ensures r.Some? && chunk.endNs / NS_PER_MS >= endMs ==> r.value == 1.0
  {
    if endMs <= startMs then None
    else
      var clamped := Min(chunk.endNs / NS_PER_MS, endMs);
      if clamped < startMs then Some(0.0)
      else Some(Fraction(clamped, startMs, endMs))
  }

  /** A chunk that ends later is never reported as less progress. */
  lemma ProgressRatioMonotone(a: RawChunk, b: RawChunk, startMs: U64, endMs: U64)
    requires a.endNs <= b.endNs && startMs < endMs
    ensures ProgressRatioForChunk(a, startMs, endMs).value <= ProgressRatioForChunk(b, startMs, endMs).value
  {
    var ca := Min(a.endNs / NS_PER_MS, endMs);
    var cb := Min(b.endNs / NS_PER_MS, endMs);
    assert a.endNs / NS_PER_MS <= b.endNs / NS_PER_MS;
    if ca >= startMs {
      FractionMonotone(ca, cb, startMs, endMs);
    }
  }

  /**
   * `progress_ratio_from_manifest`: a resume token that reads as a `u64` after the
   * window start gives the ratio directly; otherwise the end of the last part does;
   * with neither the ratio is 0. The result always lies in [0, 1].
   */
  function ProgressRatioFromManifest(manifest: ManifestData, startMs: U64, endMs: U64): (r: real)
    ensures 0.0 <= r <= 1.0
  {
    var tokenMs := if manifest.resumeToken.Some? then ParseUnsigned(manifest.resumeToken.value, U64_MAX) else None;
    if tokenMs.Some? && tokenMs.value > startMs && endMs > startMs then
      Clamp01(Fraction(Min(tokenMs.value, endMs), startMs, endMs))
    else if |manifest.parts| > 0 then
      var clamped := Min(manifest.parts[|manifest.parts| - 1].endNs / NS_PER_MS, endMs);
      if clamped <= startMs then 0.0
      else Clamp01(Fraction(clamped, startMs, endMs))
    else 0.0
  }

  /** A usable token is read as the millisecond reached, capped at the window end. */
  lemma ProgressFromToken(manifest: ManifestData, ms: U64, startMs: U64, endMs: U64)
    requires manifest.resumeToken == Some(NatToString(ms)) && startMs < ms && startMs < endMs
    ensures ProgressRatioFromManifest(manifest, startMs, endMs) == Fraction(Min(ms, endMs), startMs, endMs)
  {
    ParseUnsignedNatToString(ms, U64_MAX);
  }

  /**
   * Without a usable token, resuming reports the progress the last part's chunk
   * reported when it was written.
   */
  lemma ProgressFromLastPart(manifest: ManifestData, chunk: RawChunk, startMs: U64, endMs: U64)
    requires manifest.resumeToken.None? && |manifest.parts| > 0 && startMs < endMs
    requires chunk.endNs == manifest.parts[|manifest.parts| - 1].endNs
    ensures ProgressRatioFromManifest(manifest, startMs, endMs) == ProgressRatioForChunk(chunk, startMs, endMs).value
  {
  }

  // ---------------------------------------------------------------- human_duration

  /** `f64 as u64`: saturating, with negative values going to 0. */
  function SaturateU64(n: int): U64 {
    if n < 0 then 0 else if n > U64_MAX then U64_MAX else n
  }

  /** "{h}h {m}m {s}s", dropping the leading units that are zero. */
  function HmsText(h: nat, m: nat, s: nat): (text: string)
    ensures |text| >= 2 && text[|text| - 1] == 's'
  {
    if h > 0 then NatToString(h) + "h " + NatToString(m) + "m " + NatToString(s) + "s"
    else if m > 0 then NatToString(m) + "m " + NatToString(s) + "s"
    else NatToString(s) + "s"
  }

  /**
   * `human_duration`: "unknown" for a negative duration; otherwise the duration rounded
   * to whole seconds and split into hours, minutes and seconds.
   */
  function HumanDuration(seconds: real): (r: string)
    ensures r == "unknown" <==> seconds < 0.0
  {
    if seconds < 0.0 then "unknown"
    else
      var hms := HoursMinutesSeconds(SaturateU64(RoundHalfAway(seconds)));
      HmsText(hms.0, hms.1, hms.2)
  }

  /**
   * A whole number of seconds is written with minutes and seconds under 60 and without
   * leading zero units; hours are not carried into days.
   */
  lemma HumanDurationOfSplit(h: nat, m: nat, s: nat)
    requires m < 60 && s < 60 && h * 3600 + m * 60 + s <= U64_MAX
    ensures HumanDuration((h * 3600 + m * 60 + s) as real) == HmsText(h, m, s)
  {
    var secs := h * 3600 + m * 60 + s;
    assert RoundHalfAway(secs as real) == secs;
    HoursMinutesSecondsUnique(secs, h, m, s);
  }

  /** Half a second rounds up: 59.5 seconds read as a minute. */
  lemma HumanDurationRoundsHalfUp()
    ensures HumanDuration(59.5) == HmsText(0, 1, 0)
  {
    assert RoundHalfAway(59.5) == 60;
    HoursMinutesSecondsUnique(60, 0, 1, 0);
  }

  // ---------------------------------------------------------------- instrument ids

  /**
   * `instrument_id_from_symbol`: the low 32 bits of the symbol's xxh3 hash, which is
   * the parameter here.
   */
  function InstrumentIdFromHash(symbolHash: U64): (id: U32)
    ensures symbolHash <= U32_MAX ==> id == symbolHash
    ensures (symbolHash - id) % (U32_MAX + 1) == 0
  {
    symbolHash % (U32_MAX + 1)
  }
}
