/**
 * The partition resolver used by every analytic endpoint: one backend index per calendar day,
 * named `index + date`, from the start date up to the end date clamped to today.
 */
module IndexManager {
  import opened Wrappers
  import opened Dates

  /** The end date after the clamp: a date after today is replaced by today. */
  function ClampEnd(end: Day, today: Day): Day {
    if end > today then today else end
  }

  /**
   * `IndexManager.generateIndex`: the day count is `DAYS.between(start, clampedEnd) + 1`, and the
   * stream `iterate(0, i -> i + 1).limit(count)` maps `i` to `index + (start + i)`. A negative
   * count makes `limit` throw.
   */
  function GenerateIndex(index: string, start: Day, end: Day, today: Day, show: Day -> string)
    : (r: Result<seq<string>, StreamError>)
    ensures r.Err? <==> start > ClampEnd(end, today) + 1
    ensures r.Err? ==> r.error.maxSize < 0
    ensures r.Ok? ==> start + |r.value| - 1 == ClampEnd(end, today) <= today
  {
    var last := ClampEnd(end, today);
    var count := last - start + 1;
    if count < 0 then Err(IllegalArgument(count))
    else Ok(seq(count, i => index + show(start + i)))
  }

  /** The clamp never goes past today, leaves past and present dates alone, and is idempotent. */
  lemma ClampIdempotent(end: Day, today: Day)
    ensures ClampEnd(end, today) <= today
    ensures end > today ==> ClampEnd(end, today) == today
    ensures end <= today ==> ClampEnd(end, today) == end
    ensures ClampEnd(ClampEnd(end, today), today) == ClampEnd(end, today)
  {
  }

  /** A request whose end date lies in the future resolves exactly as one that ends today. */
  lemma FutureEndActsAsToday(index: string, start: Day, end: Day, today: Day, show: Day -> string)
    requires end > today
    ensures GenerateIndex(index, start, end, today, show) == GenerateIndex(index, start, today, today, show)
  {
  }

  /**
   * The resolver succeeds exactly when start is at most one day after the clamped end; it then
   * yields one identifier per day of the inclusive range (none when start is the day after).
   * Otherwise `limit` throws with the negative count.
   */
  lemma GenerateIndexLength(index: string, start: Day, end: Day, today: Day, show: Day -> string)
    ensures var r := GenerateIndex(index, start, end, today, show);
      && (r.Ok? <==> start <= ClampEnd(end, today) + 1)
      && (r.Ok? ==> |r.value| == ClampEnd(end, today) - start + 1)
      && (start == ClampEnd(end, today) + 1 ==> r == Ok([]))
      && (start > ClampEnd(end, today) + 1 ==> r == Err(IllegalArgument(ClampEnd(end, today) - start + 1)))
  {
  }

  /** Element `i` names day `start + i`, with no separator between the prefix and the date. */
  lemma GenerateIndexAt(index: string, start: Day, end: Day, today: Day, show: Day -> string, i: int)
    requires GenerateIndex(index, start, end, today, show).Ok?
    requires 0 <= i < |GenerateIndex(index, start, end, today, show).value|
    ensures GenerateIndex(index, start, end, today, show).value[i] == index + show(start + i)
  {
  }

  /** With distinct date strings the identifiers are pairwise distinct. */
  lemma GenerateIndexDistinct(index: string, start: Day, end: Day, today: Day, show: Day -> string)
    requires Injective(show)
    requires GenerateIndex(index, start, end, today, show).Ok?
    ensures var ids := GenerateIndex(index, start, end, today, show).value;
      forall i, j :: 0 <= i < j < |ids| ==> ids[i] != ids[j]
  {
    var ids := GenerateIndex(index, start, end, today, show).value;
    forall i, j | 0 <= i < j < |ids|
      ensures ids[i] != ids[j]
    {
      if ids[i] == ids[j] {
        PrefixCancel(index, show(start + i), show(start + j));
      }
    }
  }

  /**
   * The partition of day `d` is queried exactly when `start <= d <= min(end, today)`: in
   * particular no partition of a day after today is ever named.
   */
  lemma GenerateIndexNamesExactlyRange(index: string, start: Day, end: Day, today: Day, show: Day -> string, d: Day)
    requires Injective(show)
    requires GenerateIndex(index, start, end, today, show).Ok?
    ensures index + show(d) in GenerateIndex(index, start, end, today, show).value
        <==> start <= d <= ClampEnd(end, today)
    ensures d > today ==> index + show(d) !in GenerateIndex(index, start, end, today, show).value
  {
    var ids := GenerateIndex(index, start, end, today, show).value;
    if index + show(d) in ids {
      var i :| 0 <= i < |ids| && ids[i] == index + show(d);
      PrefixCancel(index, show(start + i), show(d));
    }
    if start <= d <= ClampEnd(end, today) {
      assert ids[d - start] == index + show(d);
    }
  }

  /** The dash in "sell-2020-01-01" comes from the caller's prefix "sell-", not from the resolver. */
  lemma CallerPrefixSuppliesDash(start: Day, end: Day, today: Day, show: Day -> string, i: int)
    requires GenerateIndex("sell-", start, end, today, show).Ok?
    requires 0 <= i < |GenerateIndex("sell-", start, end, today, show).value|
    ensures GenerateIndex("sell-", start, end, today, show).value[i] == "sell" + "-" + show(start + i)
  {
  }
}
