/**
 * The older partition resolver: no clamp to today, and the resolver itself inserts the dash,
 * naming each partition `index + "-" + date`.
 */
module Generator {
  import opened Wrappers
  import opened Dates
  import IndexManager

  /** `Generator.generateIndex`: `DAYS.between(start, end) + 1` identifiers, or `limit` throws. */
  function GenerateIndex(index: string, start: Day, end: Day, show: Day -> string)
    : (r: Result<seq<string>, StreamError>)
    ensures r.Err? <==> start > end + 1
    ensures r.Err? ==> r.error.maxSize < 0
    ensures r.Ok? ==> start + |r.value| - 1 == end
  {
    var count := end - start + 1;
    if count < 0 then Err(IllegalArgument(count))
    else Ok(seq(count, i => index + "-" + show(start + i)))
  }

  /**
   * One identifier per day of `[start, end]` in ascending order, each `index + "-" + date`; an
   * empty list when start is the day after end, and an exception when it is later still.
   */
  lemma GeneratorLengthAndOrder(index: string, start: Day, end: Day, show: Day -> string)
    ensures var r := GenerateIndex(index, start, end, show);
      && (r.Ok? <==> start <= end + 1)
      && (r.Ok? ==> |r.value| == end - start + 1)
      && (r.Ok? ==> forall i :: 0 <= i < |r.value| ==> r.value[i] == index + "-" + show(start + i))
      && (start == end + 1 ==> r == Ok([]))
      && (start > end + 1 ==> r.Err?)
  {
  }

  /** No clamp: the partition of the end date is named even when that date is after today. */
  lemma GeneratorDoesNotClamp(index: string, start: Day, end: Day, show: Day -> string)
    requires start <= end
    ensures GenerateIndex(index, start, end, show).Ok?
    ensures index + "-" + show(end) in GenerateIndex(index, start, end, show).value
  {
    var ids := GenerateIndex(index, start, end, show).value;
    assert ids[end - start] == index + "-" + show(end);
  }

  /** Up to today, the older resolver is the newer one given the prefix with its dash. */
  lemma GeneratorMatchesIndexManager(index: string, start: Day, end: Day, today: Day, show: Day -> string)
    requires end <= today
    ensures GenerateIndex(index, start, end, show) == IndexManager.GenerateIndex(index + "-", start, end, today, show)
  {
    var r := GenerateIndex(index, start, end, show);
    var s := IndexManager.GenerateIndex(index + "-", start, end, today, show);
    if r.Ok? {
      assert s.Ok? && |s.value| == |r.value|;
      forall i | 0 <= i < |r.value|
        ensures r.value[i] == s.value[i]
      {
        assert index + "-" + show(start + i) == (index + "-") + show(start + i);
      }
    }
  }
}
