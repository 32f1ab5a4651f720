/**
 * The sales endpoints: per-drink, per-hour, single-drink count, per-location (two levels),
 * single-drink per-location, and the all-users ranking. Each one consults `permitCache`, looks
 * its key up, answers from the store on a hit, and otherwise reshapes the backend's buckets
 * and writes them back.
 */
module Sell {
  import opened Wrappers
  import opened Dates
  import opened Numbers
  import opened Reshape
  import opened RedisResults
  import opened Redis
  import opened ReadThrough
  import IndexManager

  const Index := "sell-"
  const ByDrinkPrefix := "sell"
  const ByTimePrefix := "sell:time"
  const DrinkPrefix := "sell:drink"
  const ByLocPrefix := "sell:loc"
  const ByDrinkAllPrefix := "sell:all"

  /** The page size of the ranking when none is given. */
  const DefaultTop := 10

  function SellByDrinkKey(user: string, machine: Option<string>, start: Day, end: Day, show: Day -> string): string {
    RedisKey(ByDrinkPrefix, UserParams(user, machine, start, end, show))
  }

  function SellByTimeKey(user: string, machine: Option<string>, start: Day, end: Day, show: Day -> string): string {
    RedisKey(ByTimePrefix, UserParams(user, machine, start, end, show))
  }

  /** The parameters `drink:user[:machine]:start:end` of the single-drink count. */
  function DrinkParams(drink: string, user: string, machine: Option<string>, start: Day, end: Day,
                       show: Day -> string): seq<string> {
    [drink] + UserParams(user, machine, start, end, show)
  }

  function SellDrinkKey(drink: string, user: string, machine: Option<string>, start: Day, end: Day,
                        show: Day -> string): string {
    RedisKey(DrinkPrefix, DrinkParams(drink, user, machine, start, end, show))
  }

  function SellByLocKey(province: string, municipality: Option<string>, user: string, start: Day, end: Day,
                        show: Day -> string): string {
    RedisKey(ByLocPrefix, LocParams(province, municipality, user, start, end, show))
  }

  /** The single-drink location key as written: the drink takes the user's place; `user` is unused. */
  function SellDrinkByLocKey(drink: string, province: string, user: string, municipality: Option<string>,
                             start: Day, end: Day, show: Day -> string): string {
    RedisKey(ByLocPrefix, LocParams(province, municipality, drink, start, end, show))
  }

  /** The parameters `top:start:end` of the ranking, `top` printed as a decimal `Integer`. */
  function AllParams(top: Option<int>, start: Day, end: Day, show: Day -> string): seq<string> {
    [IntToString(top.GetOr(DefaultTop)), show(start), show(end)]
  }

  function SellByDrinkAllKey(top: Option<int>, start: Day, end: Day, show: Day -> string): string {
    RedisKey(ByDrinkAllPrefix, AllParams(top, start, end, show))
  }

  /** The single-drink location key with the user the query filters on. */
  function SellDrinkByLocKeyWithUser(drink: string, province: string, user: string, municipality: Option<string>,
                                     start: Day, end: Day, show: Day -> string): string {
    RedisKey(ByLocPrefix, [province] + OptionalParam(municipality) + [drink, user, show(start), show(end)])
  }

  /** `sell:user[:machine]:start:end`, in that order. */
  lemma SellByDrinkKeyText(user: string, machine: Option<string>, start: Day, end: Day, show: Day -> string)
    ensures machine.None? ==>
      SellByDrinkKey(user, machine, start, end, show) == "sell:" + user + ":" + show(start) + ":" + show(end)
    ensures machine.Some? ==>
      SellByDrinkKey(user, machine, start, end, show)
        == "sell:" + user + ":" + machine.value + ":" + show(start) + ":" + show(end)
  {
    var tail := [show(start), show(end)];
    KeySuffixCons(show(start), [show(end)]);
    KeySuffixSingle(show(end));
    if machine.Some? {
      KeySuffixCons(machine.value, tail);
      KeySuffixCons(user, [machine.value] + tail);
      assert UserParams(user, machine, start, end, show) == [user] + ([machine.value] + tail);
    } else {
      KeySuffixCons(user, tail);
      assert UserParams(user, machine, start, end, show) == [user] + tail;
    }
  }

  /** `sell:drink:drink:user[:machine]:start:end`: the drink comes before the user. */
  lemma SellDrinkKeyOrder(drink: string, user: string, machine: Option<string>, start: Day, end: Day, show: Day -> string)
    ensures SellDrinkKey(drink, user, machine, start, end, show)
         == "sell:drink:" + drink + SellByDrinkKey(user, machine, start, end, show)[|"sell"|..]
  {
    KeySuffixCons(drink, UserParams(user, machine, start, end, show));
  }

  /** Without `top` the ranking key is `sell:all:10:start:end`. */
  lemma SellByDrinkAllDefaultKey(start: Day, end: Day, show: Day -> string)
    ensures SellByDrinkAllKey(None, start, end, show) == "sell:all:10:" + show(start) + ":" + show(end)
  {
    TenPrintsAsTen();
    assert AllParams(None, start, end, show) == ["10"] + [show(start), show(end)];
    KeySuffixCons("10", [show(start), show(end)]);
    KeySuffixCons(show(start), [show(end)]);
    KeySuffixSingle(show(end));
  }

  /** The single-drink location key does not depend on the user the query filters on. */
  lemma DrinkByLocKeyIgnoresUser(drink: string, province: string, u1: string, u2: string,
                                 municipality: Option<string>, start: Day, end: Day, show: Day -> string)
    ensures SellDrinkByLocKey(drink, province, u1, municipality, start, end, show)
         == SellDrinkByLocKey(drink, province, u2, municipality, start, end, show)
  {
  }

  /**
   * The two location endpoints share prefix and arity: the grouped result of user `u` and the
   * single-drink result of drink `u` live under one key.
   */
  lemma LocKeysCollide(province: string, municipality: Option<string>, u: string, anyUser: string,
                       start: Day, end: Day, show: Day -> string)
    ensures SellByLocKey(province, municipality, u, start, end, show)
         == SellDrinkByLocKey(u, province, anyUser, municipality, start, end, show)
  {
  }

  /**
   * The ranking's key is the per-drink key of a user named "all" on a machine named after `top`.
   * Request routing sends such a path to the ranking, so only a direct caller meets it.
   */
  lemma AllKeyCollidesWithUserAll(top: Option<int>, start: Day, end: Day, show: Day -> string)
    ensures SellByDrinkAllKey(top, start, end, show)
         == SellByDrinkKey("all", Some(IntToString(top.GetOr(DefaultTop))), start, end, show)
  {
    var ps := AllParams(top, start, end, show);
    PrefixDelimiterIsAParameter("sell", "all", ps);
    assert "sell" + ":" + "all" == ByDrinkAllPrefix;
    assert UserParams("all", Some(IntToString(top.GetOr(DefaultTop))), start, end, show) == ["all"] + ps;
  }

  /**
   * The per-hour key of a user is the per-drink key of a user named "time" on that machine.
   * Request routing sends such a path to the per-hour endpoint, so only a direct caller meets it.
   */
  lemma TimeKeyCollidesWithUserTime(user: string, start: Day, end: Day, show: Day -> string)
    ensures SellByTimeKey(user, None, start, end, show) == SellByDrinkKey("time", Some(user), start, end, show)
  {
    var ps := UserParams(user, None, start, end, show);
    PrefixDelimiterIsAParameter("sell", "time", ps);
    assert "sell" + ":" + "time" == ByTimePrefix;
    assert UserParams("time", Some(user), start, end, show) == ["time"] + ps;
  }

  /** With the user in the key, different users never share the single-drink location entry. */
  lemma DrinkByLocKeyWithUserSeparatesUsers(drink: string, province: string, u1: string, u2: string,
                                            municipality: Option<string>, start: Day, end: Day, show: Day -> string)
    requires ColonFree([drink, province, u1, u2, show(start), show(end)] + OptionalParam(municipality))
    requires u1 != u2
    ensures SellDrinkByLocKeyWithUser(drink, province, u1, municipality, start, end, show)
         != SellDrinkByLocKeyWithUser(drink, province, u2, municipality, start, end, show)
  {
    var ps1 := [province] + OptionalParam(municipality) + [drink, u1, show(start), show(end)];
    var ps2 := [province] + OptionalParam(municipality) + [drink, u2, show(start), show(end)];
    var all := [drink, province, u1, u2, show(start), show(end)] + OptionalParam(municipality);
    assert forall k :: 0 <= k < |ps1| ==> ps1[k] in all;
    assert forall k :: 0 <= k < |ps2| ==> ps2[k] in all;
    assert ColonFree(ps1) && ColonFree(ps2);
    assert ps1[|ps1| - 3] == u1 && ps2[|ps2| - 3] == u2;
    if RedisKey(ByLocPrefix, ps1) == RedisKey(ByLocPrefix, ps2) {
      KeyInjectiveWithoutColon(ByLocPrefix, ps1, ps2);
      assert false;
    }
  }

  /** With the user in the key, the single-drink entry never collides with the grouped one. */
  lemma DrinkByLocKeyWithUserAvoidsByLoc(drink: string, province: string, user: string, u: string,
                                         municipality: Option<string>, start: Day, end: Day, show: Day -> string)
    requires ColonFree([drink, province, user, u, show(start), show(end)] + OptionalParam(municipality))
    ensures SellDrinkByLocKeyWithUser(drink, province, user, municipality, start, end, show)
         != SellByLocKey(province, municipality, u, start, end, show)
  {
    var ps1 := [province] + OptionalParam(municipality) + [drink, user, show(start), show(end)];
    var ps2 := LocParams(province, municipality, u, start, end, show);
    var all := [drink, province, user, u, show(start), show(end)] + OptionalParam(municipality);
    assert forall k :: 0 <= k < |ps1| ==> ps1[k] in all;
    assert forall k :: 0 <= k < |ps2| ==> ps2[k] in all;
    assert ColonFree(ps1) && ColonFree(ps2);
    assert |ps1| != |ps2|;
    if RedisKey(ByLocPrefix, ps1) == RedisKey(ByLocPrefix, ps2) {
      KeyInjectiveWithoutColon(ByLocPrefix, ps1, ps2);
      assert false;
    }
  }

  /**
   * The per-drink key with a segment of its own after "sell", as every other sales key has: the
   * user can then no longer stand in the place of the "time" or "all" segment.
   */
  const ByDrinkTaggedPrefix := "sell:type"

  function SellByDrinkTaggedKey(user: string, machine: Option<string>, start: Day, end: Day,
                                show: Day -> string): string {
    RedisKey(ByDrinkTaggedPrefix, UserParams(user, machine, start, end, show))
  }

  /** Two keys under "sell" whose first segments differ are different keys (colon-free parameters). */
  lemma SegmentsSeparateSellKeys(tag1: string, tag2: string, ps: seq<string>, qs: seq<string>)
    requires ColonFree([tag1, tag2] + ps + qs)
    requires tag1 != tag2
    ensures RedisKey("sell:" + tag1, ps) != RedisKey("sell:" + tag2, qs)
  {
    var all := [tag1, tag2] + ps + qs;
    var ps1 := [tag1] + ps;
    var qs1 := [tag2] + qs;
    assert forall k :: 0 <= k < |ps1| ==> ps1[k] in all;
    assert forall k :: 0 <= k < |qs1| ==> qs1[k] in all;
    assert ColonFree(ps1) && ColonFree(qs1);
    PrefixDelimiterIsAParameter("sell", tag1, ps);
    PrefixDelimiterIsAParameter("sell", tag2, qs);
    assert "sell" + ":" + tag1 == "sell:" + tag1 && "sell" + ":" + tag2 == "sell:" + tag2;
    assert ps1[0] != qs1[0];
    if RedisKey("sell", ps1) == RedisKey("sell", qs1) {
      KeyInjectiveWithoutColon("sell", ps1, qs1);
      assert false;
    }
  }

  /** With its own segment, the per-drink entry of any user never takes the ranking's key. */
  lemma TaggedByDrinkKeyAvoidsAll(user: string, machine: Option<string>, start: Day, end: Day,
                                  top: Option<int>, s2: Day, e2: Day, show: Day -> string)
    requires ColonFree(UserParams(user, machine, start, end, show) + [show(s2), show(e2)])
    ensures SellByDrinkTaggedKey(user, machine, start, end, show) != SellByDrinkAllKey(top, s2, e2, show)
  {
    var ps := UserParams(user, machine, start, end, show);
    var qs := AllParams(top, s2, e2, show);
    var all := ["type", "all"] + ps + qs;
    var given := ps + [show(s2), show(e2)];
    forall k, j | 0 <= k < |all| && 0 <= j < |all[k]|
      ensures all[k][j] != ':'
    {
      if k == 0 {
        assert all[k] == "type";
      } else if k == 1 {
        assert all[k] == "all";
      } else if k < 2 + |ps| {
        assert all[k] == given[k - 2];
      } else if k == 2 + |ps| {
        assert all[k] == IntToString(top.GetOr(DefaultTop));
      } else {
        assert all[k] == given[k - 3];
      }
    }
    SegmentsSeparateSellKeys("type", "all", ps, qs);
    assert "sell:" + "type" == ByDrinkTaggedPrefix && "sell:" + "all" == ByDrinkAllPrefix;
  }

  /** With its own segment, the per-drink entry of any user never takes a per-hour key. */
  lemma TaggedByDrinkKeyAvoidsTime(user: string, machine: Option<string>, start: Day, end: Day,
                                   u2: string, m2: Option<string>, s2: Day, e2: Day, show: Day -> string)
    requires ColonFree(UserParams(user, machine, start, end, show) + UserParams(u2, m2, s2, e2, show))
    ensures SellByDrinkTaggedKey(user, machine, start, end, show) != SellByTimeKey(u2, m2, s2, e2, show)
  {
    var ps := UserParams(user, machine, start, end, show);
    var qs := UserParams(u2, m2, s2, e2, show);
    var all := ["type", "time"] + ps + qs;
    var given := ps + qs;
    forall k, j | 0 <= k < |all| && 0 <= j < |all[k]|
      ensures all[k][j] != ':'
    {
      if k == 0 {
        assert all[k] == "type";
      } else if k == 1 {
        assert all[k] == "time";
      } else {
        assert all[k] == given[k - 2];
      }
    }
    SegmentsSeparateSellKeys("type", "time", ps, qs);
    assert "sell:" + "type" == ByDrinkTaggedPrefix && "sell:" + "time" == ByTimePrefix;
  }

  /** The controller: its store manager and the date printer it builds keys and partitions with. */
  class SellController {
    const redis: RedisManager
    const showDate: Day -> string

    constructor (redis: RedisManager, showDate: Day -> string)
      ensures this.redis == redis && this.showDate == showDate
    {
      this.redis := redis;
      this.showDate := showDate;
    }

    /** `getSellByDrink`: `{drink_type, sell}` per drink bucket, cached one hour. */
    method GetSellByDrink(user: string, machine: Option<string>, start: Day, end: Day, today: Day,
                          buckets: seq<Bucket>)
      returns (r: Result<JsonList, StreamError>, queried: Option<TermsQuery>)
      modifies redis
      ensures var s := Serve(old(redis.jsonListOpts), old(redis.ttl), SellByDrinkKey(user, machine, start, end, showDate),
                             SellGate(redis.permitCache(end)),
                             QueryOn(IndexManager.GenerateIndex(Index, start, end, today, showDate), "drink_type"),
                             Rows(buckets, "drink_type", "sell"), OneHour);
        r == s.result && queried == s.queried && redis.jsonListOpts == s.values && redis.ttl == s.ttl
      ensures redis.OnlyJsonListChanged()
    {
      var cacheFlag := false;
      var cacheData: CacheResult?<JsonList> := null;
      if !redis.permitCache(end) {
        cacheData := redis.ReadJsonListResult(ByDrinkPrefix, UserParams(user, machine, start, end, showDate));
        var cached := cacheData.GetValue();
        if cached.Some? {
          return Ok(cached.value), None;
        }
        cacheFlag := true;
      }
      var indexNames := IndexManager.GenerateIndex(Index, start, end, today, showDate);
      if indexNames.Err? {
        return Err(indexNames.error), None;
      }
      var responseData := BucketsToRecords(buckets, "drink_type", "sell");
      if cacheFlag {
        var key := cacheData.GetKey();
        redis.SetJsonListOpts(key, responseData, 1, Hours);
      }
      return Ok(responseData), Some(TermsQuery(indexNames.value, "drink_type"));
    }

    /** `getSellByTime`: `{hour, count}` per hour-of-day bucket, cached one hour. */
    method GetSellByTime(user: string, machine: Option<string>, start: Day, end: Day, today: Day,
                         buckets: seq<Bucket>)
      returns (r: Result<JsonList, StreamError>, queried: Option<TermsQuery>)
      modifies redis
      ensures var s := Serve(old(redis.jsonListOpts), old(redis.ttl), SellByTimeKey(user, machine, start, end, showDate),
                             SellGate(redis.permitCache(end)),
                             QueryOn(IndexManager.GenerateIndex(Index, start, end, today, showDate), "hour_of_date"),
                             Rows(buckets, "hour", "count"), OneHour);
        r == s.result && queried == s.queried && redis.jsonListOpts == s.values && redis.ttl == s.ttl
      ensures redis.OnlyJsonListChanged()
    {
      var cacheFlag := false;
      var cacheData: CacheResult?<JsonList> := null;
      if !redis.permitCache(end) {
        cacheData := redis.ReadJsonListResult(ByTimePrefix, UserParams(user, machine, start, end, showDate));
        var cached := cacheData.GetValue();
        if cached.Some? {
          return Ok(cached.value), None;
        }
        cacheFlag := true;
      }
      var indexNames := IndexManager.GenerateIndex(Index, start, end, today, showDate);
      if indexNames.Err? {
        return Err(indexNames.error), None;
      }
      var responseData := BucketsToRecords(buckets, "hour", "count");
      if cacheFlag {
        var key := cacheData.GetKey();
        redis.SetJsonListOpts(key, responseData, 1, Hours);
      }
      return Ok(responseData), Some(TermsQuery(indexNames.value, "hour_of_date"));
    }

    /**
     * `getSellDrink`: the number of sales of one drink, `count.intValue()` of the backend's
     * count over the partitions, cached one hour.
     */
    method GetSellDrink(user: string, machine: Option<string>, drink: string, start: Day, end: Day, today: Day,
                        count: nat)
      returns (r: Result<int, StreamError>, queried: Option<seq<string>>)
      modifies redis
      ensures var s := Serve(old(redis.integerOpts), old(redis.ttl), SellDrinkKey(drink, user, machine, start, end, showDate),
                             SellGate(redis.permitCache(end)),
                             IndexManager.GenerateIndex(Index, start, end, today, showDate),
                             IntValue(count), OneHour);
        r == s.result && queried == s.queried && redis.integerOpts == s.values && redis.ttl == s.ttl
      ensures redis.OnlyIntegerChanged()
    {
      var cacheFlag := false;
      var cacheData: CacheResult?<int> := null;
      if !redis.permitCache(end) {
        cacheData := redis.ReadIntegerResult(DrinkPrefix, DrinkParams(drink, user, machine, start, end, showDate));
        var cached := cacheData.GetValue();
        if cached.Some? {
          return Ok(cached.value), None;
        }
        cacheFlag := true;
      }
      var indexNames := IndexManager.GenerateIndex(Index, start, end, today, showDate);
      if indexNames.Err? {
        return Err(indexNames.error), None;
      }
      if cacheFlag {
        var key := cacheData.GetKey();
        redis.SetIntegerOpts(key, IntValue(count), 1, Hours);
      }
      return Ok(IntValue(count)), Some(indexNames.value);
    }

    /**
     * `getSellByLoc`: per location bucket (municipality, or submunicipality when a municipality
     * is given), a map from its key to `{drink, count}` per drink, cached one hour.
     */
    method GetSellByLoc(province: string, user: string, municipality: Option<string>, start: Day, end: Day,
                        today: Day, mains: seq<MainBucket>)
      returns (r: Result<JsonLists, StreamError>, queried: Option<TermsQuery>)
      modifies redis
      ensures var s := Serve(old(redis.jsonListsOpts), old(redis.ttl),
                             SellByLocKey(province, municipality, user, start, end, showDate),
                             SellGate(redis.permitCache(end)),
                             QueryOn(IndexManager.GenerateIndex(Index, start, end, today, showDate), LocationField(municipality)),
                             GroupRows(mains, "drink", "count"), OneHour);
        r == s.result && queried == s.queried && redis.jsonListsOpts == s.values && redis.ttl == s.ttl
      ensures redis.OnlyJsonListsChanged()
    {
      var cacheFlag := false;
      var cacheData: CacheResult?<JsonLists> := null;
      if !redis.permitCache(end) {
        cacheData := redis.ReadJsonListsResult(ByLocPrefix, LocParams(province, municipality, user, start, end, showDate));
        var cached := cacheData.GetValue();
        if cached.Some? {
          return Ok(cached.value), None;
        }
        cacheFlag := true;
      }
      var aggTerm := "municipality";
      var indexNames := IndexManager.GenerateIndex(Index, start, end, today, showDate);
      if indexNames.Err? {
        return Err(indexNames.error), None;
      }
      if municipality.Some? {
        aggTerm := "submunicipality";
      }
      var responseData := MainBucketsToRecords(mains, "drink", "count");
      if cacheFlag {
        var key := cacheData.GetKey();
        redis.SetJsonListsOpts(key, responseData, 1, Hours);
      }
      return Ok(responseData), Some(TermsQuery(indexNames.value, aggTerm));
    }

    /**
     * `getSellDrinkByLoc`: `{loc, count}` per location bucket for one drink, cached one hour
     * under a key that names the drink but not the user.
     */
    method GetSellDrinkByLoc(drink: string, province: string, user: string, municipality: Option<string>,
                             start: Day, end: Day, today: Day, buckets: seq<Bucket>)
      returns (r: Result<JsonList, StreamError>, queried: Option<TermsQuery>)
      modifies redis
      ensures var s := Serve(old(redis.jsonListOpts), old(redis.ttl),
                             SellDrinkByLocKey(drink, province, user, municipality, start, end, showDate),
                             SellGate(redis.permitCache(end)),
                             QueryOn(IndexManager.GenerateIndex(Index, start, end, today, showDate), LocationField(municipality)),
                             Rows(buckets, "loc", "count"), OneHour);
        r == s.result && queried == s.queried && redis.jsonListOpts == s.values && redis.ttl == s.ttl
      ensures redis.OnlyJsonListChanged()
    {
      var cacheFlag := false;
      var cacheData: CacheResult?<JsonList> := null;
      if !redis.permitCache(end) {
        cacheData := redis.ReadJsonListResult(ByLocPrefix, LocParams(province, municipality, drink, start, end, showDate));
        var cached := cacheData.GetValue();
        if cached.Some? {
          return Ok(cached.value), None;
        }
        cacheFlag := true;
      }
      var aggTerm := "municipality";
      var indexNames := IndexManager.GenerateIndex(Index, start, end, today, showDate);
      if indexNames.Err? {
        return Err(indexNames.error), None;
      }
      if municipality.Some? {
        aggTerm := "submunicipality";
      }
      var responseData := BucketsToRecords(buckets, "loc", "count");
      if cacheFlag {
        var key := cacheData.GetKey();
        redis.SetJsonListOpts(key, responseData, 1, Hours);
      }
      return Ok(responseData), Some(TermsQuery(indexNames.value, aggTerm));
    }

    /** `getSellByDrinkAll`: `{drink_type, count}` over all users, cached thirty days. */
    method GetSellByDrinkAll(top: Option<int>, start: Day, end: Day, today: Day, buckets: seq<Bucket>)
      returns (r: Result<JsonList, StreamError>, queried: Option<TermsQuery>)
      modifies redis
      ensures var s := Serve(old(redis.jsonListOpts), old(redis.ttl), SellByDrinkAllKey(top, start, end, showDate),
                             SellGate(redis.permitCache(end)),
                             QueryOn(IndexManager.GenerateIndex(Index, start, end, today, showDate), "drink_type"),
                             Rows(buckets, "drink_type", "count"), ThirtyDays);
        r == s.result && queried == s.queried && redis.jsonListOpts == s.values && redis.ttl == s.ttl
      ensures redis.OnlyJsonListChanged()
    {
      var cacheFlag := false;
      var cacheData: CacheResult?<JsonList> := null;
      if !redis.permitCache(end) {
        cacheData := redis.ReadJsonListResult(ByDrinkAllPrefix, AllParams(top, start, end, showDate));
        var cached := cacheData.GetValue();
        if cached.Some? {
          return Ok(cached.value), None;
        }
        cacheFlag := true;
      }
      var indexNames := IndexManager.GenerateIndex(Index, start, end, today, showDate);
      if indexNames.Err? {
        return Err(indexNames.error), None;
      }
      var responseData := BucketsToRecords(buckets, "drink_type", "count");
      if cacheFlag {
        var key := cacheData.GetKey();
        redis.SetJsonListOpts(key, responseData, 30, Days);
      }
      return Ok(responseData), Some(TermsQuery(indexNames.value, "drink_type"));
    }
  }
}
