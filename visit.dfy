/**
 * The visit endpoints: per-hour visits of a user's machines and visits per location. Both ask
 * the manager's date-gated getter, answer from the store on a hit, and on a miss write the
 * freshly reshaped result back whatever the end date.
 */
module Visit {
  import opened Wrappers
  import opened Dates
  import opened Reshape
  import opened Redis
  import opened ReadThrough
  import IndexManager

  const Index := "visit-"
  const ByMachinePrefix := "visit"
  const ByLocPrefix := "visit:loc"

  function VisitByMachineKey(user: string, machine: Option<string>, start: Day, end: Day, show: Day -> string): string {
    RedisKey(ByMachinePrefix, UserParams(user, machine, start, end, show))
  }

  function VisitByLocKey(province: string, municipality: Option<string>, user: string, start: Day, end: Day,
                         show: Day -> string): string {
    RedisKey(ByLocPrefix, LocParams(province, municipality, user, start, end, show))
  }

  /**
   * With colon-free parameters the per-machine and per-location entries never share a key,
   * although one prefix extends the other.
   */
  lemma MachineAndLocKeysDistinct(user: string, machine: Option<string>, province: string,
                                  municipality: Option<string>, who: string, s1: Day, e1: Day, s2: Day, e2: Day,
                                  show: Day -> string)
    requires ColonFree(UserParams(user, machine, s1, e1, show))
    requires ColonFree(LocParams(province, municipality, who, s2, e2, show))
    ensures VisitByMachineKey(user, machine, s1, e1, show) != VisitByLocKey(province, municipality, who, s2, e2, show)
  {
    var ps := UserParams(user, machine, s1, e1, show);
    var qs := ["loc"] + LocParams(province, municipality, who, s2, e2, show);
    PrefixDelimiterIsAParameter(ByMachinePrefix, "loc", LocParams(province, municipality, who, s2, e2, show));
    assert ByMachinePrefix + ":" + "loc" == ByLocPrefix;
    assert ColonFree(qs) by {
      assert forall j :: 0 <= j < |"loc"| ==> "loc"[j] != ':';
    }
    assert |ps| < |qs|;
    if RedisKey(ByMachinePrefix, ps) == RedisKey(ByMachinePrefix, qs) {
      KeyInjectiveWithoutColon(ByMachinePrefix, ps, qs);
      assert false;
    }
  }

  /** The controller: its store manager and the date printer it builds keys and partitions with. */
  class VisitController {
    const redis: RedisManager
    const showDate: Day -> string

    constructor (redis: RedisManager, showDate: Day -> string)
      ensures this.redis == redis && this.showDate == showDate
    {
      this.redis := redis;
      this.showDate := showDate;
    }

    /** `getVisitByMachine`: `{hour, count}` per hour-of-day bucket, cached one hour. */
    method GetVisitByMachine(user: string, machine: Option<string>, start: Day, end: Day, today: Day,
                             buckets: seq<Bucket>)
      returns (r: Result<JsonList, StreamError>, queried: Option<TermsQuery>)
      modifies redis
      ensures var s := Serve(old(redis.jsonListOpts), old(redis.ttl), VisitByMachineKey(user, machine, start, end, showDate),
                             VisitGate(IsLegal(end, today)),
                             QueryOn(IndexManager.GenerateIndex(Index, start, end, today, showDate), "hour_of_date"),
                             Rows(buckets, "hour", "count"), OneHour);
        r == s.result && queried == s.queried && redis.jsonListOpts == s.values && redis.ttl == s.ttl
      ensures redis.OnlyJsonListChanged()
    {
      var cacheData := redis.GetJsonListResult(end, today, ByMachinePrefix, UserParams(user, machine, start, end, showDate));
      var cached := cacheData.GetValue();
      if cached.Some? {
        return Ok(cached.value), None;
      }
      var cacheFlag := true;
      var indexNames := IndexManager.GenerateIndex(Index, start, end, today, showDate);
      if indexNames.Err? {
        return Err(indexNames.error), None;
      }
      var responseData := BucketsToRecords(buckets, "hour", "count");
      if cacheFlag {
        var key := cacheData.GetKey();
        redis.SetJsonListOpts(key, responseData, 1, Hours);
      }
      return Ok(responseData), Some(TermsQuery(indexNames.value, "hour_of_date"));
    }

    /** `getVisitByLoc`: `{loc, count}` per location bucket, cached one hour. */
    method GetVisitByLoc(province: string, user: string, municipality: Option<string>, start: Day, end: Day,
                         today: Day, buckets: seq<Bucket>)
      returns (r: Result<JsonList, StreamError>, queried: Option<TermsQuery>)
      modifies redis
      ensures var s := Serve(old(redis.jsonListOpts), old(redis.ttl),
                             VisitByLocKey(province, municipality, user, start, end, showDate),
                             VisitGate(IsLegal(end, today)),
                             QueryOn(IndexManager.GenerateIndex(Index, start, end, today, showDate), LocationField(municipality)),
                             Rows(buckets, "loc", "count"), OneHour);
        r == s.result && queried == s.queried && redis.jsonListOpts == s.values && redis.ttl == s.ttl
      ensures redis.OnlyJsonListChanged()
    {
      var cacheData := redis.GetJsonListResult(end, today, ByLocPrefix, LocParams(province, municipality, user, start, end, showDate));
      var cached := cacheData.GetValue();
      if cached.Some? {
        return Ok(cached.value), None;
      }
      var cacheFlag := true;
      var aggTerm := "municipality";
      var indexNames := IndexManager.GenerateIndex(Index, start, end, today, showDate);
      if indexNames.Err? {
        return Err(indexNames.error), None;
      }
      if municipality.Some? {
        aggTerm := "submunicipality";
      }
      var responseData := BucketsToRecords(buckets, "loc", "count");
      if cacheFlag {
        var key := cacheData.GetKey();
        redis.SetJsonListOpts(key, responseData, 1, Hours);
      }
      return Ok(responseData), Some(TermsQuery(indexNames.value, aggTerm));
    }
  }
}
