/**
 * The temperature endpoints: the readings of one lane, and the latest readings of every lane, over
 * the last ten minutes (`init`) or the last minute.
 */
module Temperature {
  import opened Dates
  import opened Reshape
  import opened Sensor

  const Index := "temperature-"

  /**
   * `getTemperatureByInterval`: stream the lane's documents of the window from today's partition and
   * emit `{degree, date}` for each.
   */
  method GetTemperatureByInterval(user: string, machine: string, lane: int, interval: int, now: Second,
                               show: Day -> string, stream: seq<Reading>)
    returns (result: JsonList, query: ReadingsQuery)
    ensures query == ReadingsQuery(PartitionOf(Index, now, show), user, machine, lane, WindowOf(now, interval))
    ensures result == ReadingRows(stream)
  {
    var date := DayOf(now);
    var indexName := Index + show(date);
    query := ReadingsQuery(indexName, user, machine, lane, Window(now - interval * SecondsPerMinute, now));
    result := CollectReadings(stream);
  }

  /** `getTemperatureInit`: the last ten minutes of one lane. */
  method GetTemperatureInit(user: string, machine: string, lane: int, now: Second, show: Day -> string,
                        stream: seq<Reading>)
    returns (result: JsonList, query: ReadingsQuery)
    ensures query == ReadingsQuery(Index + show(DayOf(now)), user, machine, lane, Window(now - 600, now))
    ensures result == ReadingRows(stream)
  {
    result, query := GetTemperatureByInterval(user, machine, lane, InitInterval, now, show, stream);
  }

  /** `getTemperature(user, machine, lane)`: the last minute of one lane. */
  method GetTemperature(user: string, machine: string, lane: int, now: Second, show: Day -> string,
                    stream: seq<Reading>)
    returns (result: JsonList, query: ReadingsQuery)
    ensures query == ReadingsQuery(Index + show(DayOf(now)), user, machine, lane, Window(now - 60, now))
    ensures result == ReadingRows(stream)
  {
    result, query := GetTemperatureByInterval(user, machine, lane, RecentInterval, now, show, stream);
  }

  /**
   * `getTemperaturesByInterval`: terms on `lane` over the window in today's partition, each lane
   * with its top 60 hits, emitted as one `{"data": [{date, degree}...]}` per lane.
   */
  method GetTemperaturesByInterval(user: string, machine: string, interval: int, now: Second,
                                 show: Day -> string, lanes: seq<LaneBucket>)
    returns (responseData: JsonLists, query: LanesQuery)
    ensures query == LanesQuery(PartitionOf(Index, now, show), user, machine, WindowOf(now, interval), "lane", 60)
    ensures responseData == LaneRows(lanes)
  {
    var date := DayOf(now);
    var indexName := Index + show(date);
    query := LanesQuery(indexName, user, machine, Window(now - interval * SecondsPerMinute, now), "lane", TopHitsSize);
    responseData := LaneBucketsToRecords(lanes);
  }

  /** `getTemperaturesInit`: the last ten minutes of every lane. */
  method GetTemperaturesInit(user: string, machine: string, now: Second, show: Day -> string, lanes: seq<LaneBucket>)
    returns (responseData: JsonLists, query: LanesQuery)
    ensures query == LanesQuery(Index + show(DayOf(now)), user, machine, Window(now - 600, now), "lane", 60)
    ensures responseData == LaneRows(lanes)
  {
    responseData, query := GetTemperaturesByInterval(user, machine, InitInterval, now, show, lanes);
  }

  /** `getTemperature(user, machine)`: the last minute of every lane. */
  method GetTemperatureLanes(user: string, machine: string, now: Second, show: Day -> string, lanes: seq<LaneBucket>)
    returns (responseData: JsonLists, query: LanesQuery)
    ensures query == LanesQuery(Index + show(DayOf(now)), user, machine, Window(now - 60, now), "lane", 60)
    ensures responseData == LaneRows(lanes)
  {
    responseData, query := GetTemperaturesByInterval(user, machine, RecentInterval, now, show, lanes);
  }
}
