/**
 * What the temperature and humidity controllers share: the time window `[now - interval, now]`,
 * the one daily partition they query, the loop over the streamed readings, and the nested loops
 * over the per-lane top hits.
 */
module Sensor {
  import opened Wrappers
  import opened Dates
  import opened Reshape
  import IndexManager

  /** A wall-clock instant in whole seconds since the start of day 0 (local time). */
  type Second = int

  const SecondsPerMinute := 60
  const SecondsPerDay := 86400

  /** The interval of the `init` endpoints and of the recent-data endpoints, in minutes. */
  const InitInterval := 10
  const RecentInterval := 1

  /** The number of hits requested per lane bucket. */
  const TopHitsSize := 60

  /** `toLocalDate()`: the day an instant falls on. */
  function DayOf(t: Second): Day {
    t / SecondsPerDay
  }

  /** The range filter on `date`: `gte` the lower bound and `lte` the upper bound. */
  datatype Window = Window(from: Second, to: Second)

  /** `[now.minusMinutes(interval), now]`. */
  function WindowOf(now: Second, interval: int): Window {
    Window(now - interval * SecondsPerMinute, now)
  }

  predicate InWindow(t: Second, w: Window) {
    w.from <= t <= w.to
  }

  /** The single partition queried: the index prefix followed by the date of `now`. */
  function PartitionOf(index: string, now: Second, show: Day -> string): (p: string)
    ensures IndexManager.GenerateIndex(index, DayOf(now), DayOf(now), DayOf(now), show) == Ok([p])
  {
    var today := DayOf(now);
    var ids := IndexManager.GenerateIndex(index, today, today, today, show).value;
    assert |ids| == 1 && ids[0] == index + show(today);
    assert ids == [index + show(today)];
    index + show(today)
  }

  /** The lane stream request: one partition, a user, a machine and a lane, filtered to the window. */
  datatype ReadingsQuery = ReadingsQuery(partition: string, user: string, machine: string, lane: int, window: Window)

  /** The per-lane request: terms on `field`, each bucket with its top `hitsPerLane` hits. */
  datatype LanesQuery = LanesQuery(partition: string, user: string, machine: string, window: Window,
                                   field: string, hitsPerLane: nat)

  /** A streamed document: its `degree` and its `date`, copied as they are. */
  datatype Reading = Reading(degree: Json, date: Json)

  /** The record of one streamed document. */
  function ReadingRow(r: Reading): Record {
    map["degree" := r.degree]["date" := r.date]
  }

  /** The stream response: one record per document, in stream order. */
  function ReadingRows(stream: seq<Reading>): JsonList {
    seq(|stream|, i requires 0 <= i < |stream| => ReadingRow(stream[i]))
  }

  /** Reads a document back from its record. */
  function ReadingOf(row: Record): Option<Reading> {
    if "degree" in row && "date" in row then Some(Reading(row["degree"], row["date"])) else None
  }

  function ReadingsOf(rows: JsonList): Option<seq<Reading>> {
    if rows == [] then Some([])
    else
      match (ReadingOf(rows[0]), ReadingsOf(rows[1..]))
      case (Some(r), Some(rs)) => Some([r] + rs)
      case _ => None
  }

  /** `while (stream.hasNext()) { ... result.add(data); }` over the documents of the stream. */
  method CollectReadings(stream: seq<Reading>) returns (result: JsonList)
    ensures result == ReadingRows(stream)
  {
    result := [];
    var i := 0;
    while i < |stream|
      invariant 0 <= i <= |stream|
      invariant |result| == i
      invariant forall k :: 0 <= k < i ==> result[k] == ReadingRow(stream[k])
    {
      var reading := stream[i];
      i := i + 1;
      var data: Record := map[];
      data := data["degree" := reading.degree];
      data := data["date" := reading.date];
      result := result + [data];
    }
  }

  /** Every document can be read back from the stream response, in order: nothing is lost. */
  lemma {:induction false} ReadingRowsRoundTrip(stream: seq<Reading>)
    ensures ReadingsOf(ReadingRows(stream)) == Some(stream)
    decreases |stream|
  {
    if stream != [] {
      assert ReadingRows(stream)[1..] == ReadingRows(stream[1..]);
      ReadingRowsRoundTrip(stream[1..]);
      assert [stream[0]] + stream[1..] == stream;
    }
  }

  /** A lane bucket: the hits' source maps, in hit order. */
  datatype LaneBucket = LaneBucket(key: Json, hits: seq<Record>)

  /** `source.get(name)`: the value, or `null` when the source has no such field. */
  function Field(source: Record, name: string): Json {
    if name in source then source[name] else Null
  }

  /** The record of one hit: its `date` and its `degree`. */
  function HitRow(source: Record): Record {
    map["date" := Field(source, "date")]["degree" := Field(source, "degree")]
  }

  function HitRows(hits: seq<Record>): JsonList {
    seq(|hits|, i requires 0 <= i < |hits| => HitRow(hits[i]))
  }

  /** The per-lane response: one map per lane bucket, keyed by the literal `"data"`. */
  function LaneRows(lanes: seq<LaneBucket>): JsonLists {
    seq(|lanes|, i requires 0 <= i < |lanes| => map["data" := HitRows(lanes[i].hits)])
  }

  /** The nested loops over lane buckets and their top hits. */
  method LaneBucketsToRecords(lanes: seq<LaneBucket>) returns (responseData: JsonLists)
    ensures responseData == LaneRows(lanes)
  {
    responseData := [];
    for i := 0 to |lanes|
      invariant |responseData| == i
      invariant forall k :: 0 <= k < i ==> responseData[k] == map["data" := HitRows(lanes[k].hits)]
    {
      var subData: JsonList := [];
      var hits := lanes[i].hits;
      for j := 0 to |hits|
        invariant |subData| == j
        invariant forall k :: 0 <= k < j ==> subData[k] == HitRow(hits[k])
      {
        var data: Record := map[];
        var source := hits[j];
        data := data["date" := Field(source, "date")];
        data := data["degree" := Field(source, "degree")];
        subData := subData + [data];
      }
      assert subData == HitRows(hits);
      var mainData: map<string, JsonList> := map[];
      mainData := mainData["data" := subData];
      responseData := responseData + [mainData];
    }
  }

  /**
   * A hit record holds exactly `date` and `degree`, each the source's value (null when absent);
   * every other source field is dropped, so projecting twice changes nothing.
   */
  lemma HitRowProjects(source: Record)
    ensures HitRow(source).Keys == {"date", "degree"}
    ensures "date" in source ==> HitRow(source)["date"] == source["date"]
    ensures "degree" in source ==> HitRow(source)["degree"] == source["degree"]
    ensures "date" !in source ==> HitRow(source)["date"] == Null
    ensures "degree" !in source ==> HitRow(source)["degree"] == Null
    ensures HitRow(HitRow(source)) == HitRow(source)
  {
  }

  /**
   * One outer map per lane bucket, in order, whose only key is `"data"`, holding one record per
   * hit; when the backend honours the requested hit size, no inner list exceeds it.
   */
  lemma LaneRowsShape(lanes: seq<LaneBucket>, q: LanesQuery)
    requires forall i :: 0 <= i < |lanes| ==> |lanes[i].hits| <= q.hitsPerLane
    ensures |LaneRows(lanes)| == |lanes|
    ensures forall i :: 0 <= i < |lanes| ==>
      && LaneRows(lanes)[i].Keys == {"data"}
      && |LaneRows(lanes)[i]["data"]| == |lanes[i].hits| <= q.hitsPerLane
      && (forall j :: 0 <= j < |lanes[i].hits| ==> LaneRows(lanes)[i]["data"][j] == HitRow(lanes[i].hits[j]))
  {
  }

  /**
   * The window is closed: both of its ends are inside it when the interval is not negative, and
   * the ten-minute window contains the one-minute window.
   */
  lemma WindowClosed(now: Second, interval: int, t: Second)
    requires interval >= 0
    ensures InWindow(now, WindowOf(now, interval)) && InWindow(now - interval * 60, WindowOf(now, interval))
    ensures InWindow(t, WindowOf(now, RecentInterval)) ==> InWindow(t, WindowOf(now, InitInterval))
    ensures InWindow(t, WindowOf(now, interval)) <==> now - interval * 60 <= t <= now
  {
  }

  /** A window of at most a day starts on the day of `now` or on the day before. */
  lemma WindowSpansAtMostTwoDays(now: Second, interval: int)
    requires 0 <= interval <= 1440
    ensures DayOf(now) - 1 <= DayOf(WindowOf(now, interval).from) <= DayOf(now)
  {
  }

  /**
   * Just after midnight the one-minute window starts on the previous day, and the partition of
   * that day is not the one queried: a reading inside the window is never looked for.
   */
  lemma SinglePartitionMissesPreviousDay(index: string, d: Day, show: Day -> string)
    requires Injective(show)
    ensures var now := d * SecondsPerDay + 30;
      var w := WindowOf(now, RecentInterval);
      && InWindow(w.from, w)
      && DayOf(w.from) == d - 1
      && DayOf(now) == d
      && index + show(DayOf(w.from)) != PartitionOf(index, now, show)
  {
    var now := d * SecondsPerDay + 30;
    var from := now - 60;
    assert from == (d - 1) * SecondsPerDay + 86370;
    assert DayOf(from) == d - 1;
    assert DayOf(now) == d;
    if index + show(d - 1) == index + show(d) {
      PrefixCancel(index, show(d - 1), show(d));
      assert false;
    }
  }

  /** The partitions a window should be read from: every day from its start to its end. */
  function WindowPartitions(index: string, w: Window, show: Day -> string): (r: seq<string>)
    requires w.from <= w.to
    ensures |r| == DayOf(w.to) - DayOf(w.from) + 1
    ensures r[|r| - 1] == index + show(DayOf(w.to))
    ensures forall i :: 0 <= i < |r| ==> r[i] == index + show(DayOf(w.from) + i)
  {
    var result := IndexManager.GenerateIndex(index, DayOf(w.from), DayOf(w.to), DayOf(w.to), show);
    IndexManager.GenerateIndexLength(index, DayOf(w.from), DayOf(w.to), DayOf(w.to), show);
    result.value
  }

  /** Every instant of the window lies in one of the partitions queried, including after midnight. */
  lemma WindowPartitionsCoverWindow(index: string, now: Second, interval: int, t: Second, show: Day -> string)
    requires interval >= 0
    requires InWindow(t, WindowOf(now, interval))
    ensures index + show(DayOf(t)) in WindowPartitions(index, WindowOf(now, interval), show)
  {
    var w := WindowOf(now, interval);
    var ids := WindowPartitions(index, w, show);
    assert DayOf(w.from) <= DayOf(t) <= DayOf(w.to);
    assert ids[DayOf(t) - DayOf(w.from)] == index + show(DayOf(t));
  }

  /** When the window does not cross midnight the corrected resolver names only today's partition. */
  lemma WindowPartitionsWithinOneDay(index: string, now: Second, interval: int, show: Day -> string)
    requires interval >= 0
    requires DayOf(now - interval * 60) == DayOf(now)
    ensures WindowPartitions(index, WindowOf(now, interval), show) == [PartitionOf(index, now, show)]
  {
  }
}
