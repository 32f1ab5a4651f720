# Read-through cache and partition layer of the vending-data log server

This project is a Dafny model of the layer that every analytic endpoint of the log server repeats.
The layer has four parts:

- **Partition resolution.** A date range becomes one backend index per calendar day, named `prefix + date`. The end date is clamped to today. `IndexManager.generateIndex` is modelled in `index_manager.dfy`. The older `Generator.generateIndex` is modelled in `generator.dfy`.
- **Cache keys and eligibility.** `RedisManager` joins a prefix and the request parameters with `:`. It reads the store only for windows that end strictly before today. See `redis.dfy`.
- **Lookup holders.** `JsonListResult`, `JsonListsResult`, `IntegerResult` and `LongResult` are mutable (key, value) pairs; a `null` value means a miss. See `redis_results.dfy`.
- **Endpoint orchestration and reshaping.** Each endpoint does: cache lookup, return on hit, resolve partitions, reshape the backend's buckets, write back with an expiry. This covers the six sales endpoints (`sell.dfy`) and the two visit endpoints (`visit.dfy`). The temperature and humidity endpoints (`temperature.dfy`, `humidity.dfy`, sharing `sensor.dfy`) read a time window from one daily partition.

How the model is built:

- **Dates** are integer day numbers. `LocalDate.toString` (ISO 8601 extended calendar date, YYYY-MM-DD) is an abstract date printer `show` passed as a parameter. Properties that depend on dates printing differently require it to be injective.
- **The clock** is a parameter: "today" for the date endpoints, "now" in seconds for the sensor endpoints.
- **The search backend** is a parameter. Its terms buckets, top hits, streamed documents and document count are inputs. The model states which partitions and which aggregation field each endpoint asks for.
- **The key-value store** is a class `Redis.RedisManager`. It has one map per typed `ValueOperations` field and a map of the expiries recorded with each write.
- **What one request does** to the store is the function `ReadThrough.Serve`. It is parameterised by a `Gate` that says whether the store may answer and whether a miss writes back. Every sales and visit endpoint method is proved to produce exactly `Serve`'s result, backend request, store and expiries. The lemmas about `Serve` then carry over to the endpoints.
- **The reshaping loops** are methods proved equal to specification functions (`Reshape.Rows`, `Reshape.GroupRows`, `Sensor.ReadingRows`, `Sensor.LaneRows`). The first three are proved lossless by decoding them back. `Sensor.LaneRows` is a projection and loses information, as the code does. It keeps each hit's date and degree, in order. It drops the lane's key, because TemperatureController.java:187 writes the literal `"data"` where the lane key would go, and it drops every other field of the hit. `Sensor.LaneRowsShape` and `Sensor.HitRowProjects` state what it keeps.

The controllers call several `RedisManager` members that RedisManager.java does not define:

- `permitCache`;
- the date-less `getJsonListResult` and `getJsonListsResult`;
- `getIntegerResult`;
- the `set*Opts` writers.

The model treats them as follows:

- `permitCache` is an uninterpreted predicate on the end date. Its polarity is not assumed.
- The date-less getters always read the store at the built key.
- The writers overwrite the key and record the expiry.

RedisManager.java:87-89 stores a `Map` in a `JsonListsResult`. The model uses the list-of-maps value type of JsonListsResult.java:11, which is also what the location endpoint returns.

The model follows the code on three points where a read-through cache is often expected to behave otherwise:

- **Lookup comes before partition resolution.** Partitions are not resolved first, and an invalid range does not fail fast. The code looks the cache up first, so a stored value is served even for a range the resolver would reject (`Serve` checks the hit before the resolver's result).
- **An empty range is not an error.** A start date exactly one day after the clamped end gives an empty partition list. Only a start date later still makes `limit` throw.
- **Writes do not require eligibility.** A write is not limited to requests ending before today. The visit endpoints write results for windows ending today or later too (Findings). The sales endpoints follow `permitCache` instead of the eligibility rule.

## Model

| member | source | states |
|---|---|---|
| IndexManager.GenerateIndex | src/main/java/com/kt/vd/ElasticSearch/IndexManager.java:23-31 | throws (with a negative count) iff start is more than one day after the clamped end; otherwise the last day named is the clamped end, which is never after today |
| IndexManager.ClampIdempotent | src/main/java/com/kt/vd/ElasticSearch/IndexManager.java:23-25 | the clamped end is never after today, is today for a future end and the end itself otherwise, and clamping twice equals clamping once |
| IndexManager.FutureEndActsAsToday | src/main/java/com/kt/vd/ElasticSearch/IndexManager.java:23-25 | a request ending after today resolves to exactly the partitions of one ending today |
| IndexManager.GenerateIndexLength | src/main/java/com/kt/vd/ElasticSearch/IndexManager.java:27-29 | the resolver succeeds iff start is at most one day after the clamped end, then yields days(start, clampedEnd)+1 ids; empty when start is the next day; throws IllegalArgument with the negative count otherwise |
| IndexManager.GenerateIndexAt | src/main/java/com/kt/vd/ElasticSearch/IndexManager.java:28-31 | element i is index + the date of start+i (consecutive ascending days) |
| IndexManager.GenerateIndexDistinct | src/main/java/com/kt/vd/ElasticSearch/IndexManager.java:28-31 | with an injective date printer the ids are pairwise distinct |
| IndexManager.GenerateIndexNamesExactlyRange | src/main/java/com/kt/vd/ElasticSearch/IndexManager.java:23-31 | the partition of day d is named iff start <= d <= min(end, today); no day after today is ever named |
| IndexManager.CallerPrefixSuppliesDash | src/main/java/com/kt/vd/ElasticSearch/IndexManager.java:30 | no separator is inserted: with prefix "sell-" each id is "sell" + "-" + date |
| Generator.GenerateIndex | src/main/java/com/kt/vd/common/Generator.java:22-27 | throws (with a negative count) iff start is more than one day after end; otherwise the last day named is end itself, with no clamp |
| Generator.GeneratorLengthAndOrder | src/main/java/com/kt/vd/common/Generator.java:23-27 | succeeds iff start <= end+1, with end-start+1 ids, element i being index + "-" + date(start+i); empty for start = end+1, an exception beyond |
| Generator.GeneratorDoesNotClamp | src/main/java/com/kt/vd/common/Generator.java:22-23 | for start <= end the end date's partition is named whatever today is |
| Generator.GeneratorMatchesIndexManager | src/main/java/com/kt/vd/common/Generator.java:26 | for end <= today the older resolver equals IndexManager's given the prefix index + "-" |
| Redis.IsLegal | src/main/java/com/kt/vd/Redis/RedisManager.java:31-37 | today is never eligible, yesterday always is, and an eligible date is at least a day before today |
| Redis.IsLegalOnlyStrictlyBefore | src/main/java/com/kt/vd/Redis/RedisManager.java:31-37 | a date is eligible iff it is strictly before today; never today or later |
| Redis.GenerateRedisKey | src/main/java/com/kt/vd/Redis/RedisManager.java:45-54 | the buffer loop builds prefix followed by ":" + p for each parameter, in order |
| Redis.KeyStartsWithPrefix | src/main/java/com/kt/vd/Redis/RedisManager.java:46-47 | the key starts with the prefix and is just the prefix with no parameters |
| Redis.KeyLength | src/main/java/com/kt/vd/Redis/RedisManager.java:46-53 | the key's length is the prefix's plus the sum of 1 + length of each parameter |
| Redis.KeySuffixAppend | src/main/java/com/kt/vd/Redis/RedisManager.java:49-52 | the parameter segments concatenate: the key of a + b is the key of a followed by the segments of b |
| Redis.PrefixDelimiterIsAParameter | src/main/java/com/kt/vd/Redis/RedisManager.java:46-52 | a prefix containing ":" gives the same key as the shorter prefix with that segment as first parameter |
| Redis.KeySuffixCons | src/main/java/com/kt/vd/Redis/RedisManager.java:49-52 | the first parameter's segment comes right after the prefix |
| Redis.KeyExample | src/main/java/com/kt/vd/Redis/RedisManager.java:45-54 | prefix "sell" with u1, m1, 2020-01-01, 2020-01-05 gives "sell:u1:m1:2020-01-01:2020-01-05" |
| Redis.KeysCollideWithoutEscaping | src/main/java/com/kt/vd/Redis/RedisManager.java:49-52 | with no escaping the distinct lists ["a:b"] and ["a","b"] give the same key |
| Redis.KeyInjectiveWithoutColon | src/main/java/com/kt/vd/Redis/RedisManager.java:45-54 | when no parameter contains ":", equal keys with the same prefix come from equal parameter lists |
| Redis.RedisManager.GetJsonListResult | src/main/java/com/kt/vd/Redis/RedisManager.java:57-65 | returns a fresh holder with the built key; its value is the store's entry at that key (None if absent) when end is before today, None without consulting the store otherwise; the store is unchanged |
| Redis.RedisManager.GetLongResult | src/main/java/com/kt/vd/Redis/RedisManager.java:67-77 | the same gate over the long store |
| Redis.RedisManager.GetJsonListsResult | src/main/java/com/kt/vd/Redis/RedisManager.java:80-90 | the same gate over the grouped-list store |
| Redis.RedisManager.ReadJsonListResult | src/main/java/com/kt/vd/sell/SellController.java:65-67 | the date-less getter: fresh holder with the built key and the store's entry at it |
| Redis.RedisManager.ReadJsonListsResult | src/main/java/com/kt/vd/sell/SellController.java:265-269 | the date-less grouped getter: fresh holder with the built key and the store's entry at it |
| Redis.RedisManager.ReadIntegerResult | src/main/java/com/kt/vd/sell/SellController.java:208-212 | getIntegerResult: fresh holder with the built key and the store's entry at it |
| Redis.RedisManager.SetJsonListOpts | src/main/java/com/kt/vd/sell/SellController.java:108-110 | writes the value under the key, records the expiry, and changes no other store |
| Redis.RedisManager.SetJsonListsOpts | src/main/java/com/kt/vd/sell/SellController.java:323-325 | the same for the grouped-list store |
| Redis.RedisManager.SetIntegerOpts | src/main/java/com/kt/vd/sell/SellController.java:236-238 | the same for the integer store |
| RedisResults.CacheResult.constructor | src/main/java/com/kt/vd/Redis/JsonListResult.java:10-13 | the two-argument constructor stores the given key and value (also JsonListsResult.java:18-21, IntegerResult.java:16-19, LongResult.java:10-13) |
| RedisResults.CacheResult.KeyOnly | src/main/java/com/kt/vd/Redis/JsonListResult.java:14-17 | the one-argument constructor stores the key with a null value, a miss (also JsonListsResult.java:13-16, IntegerResult.java:21-24, LongResult.java:15-18) |
| RedisResults.CacheResult.GetKey | src/main/java/com/kt/vd/Redis/JsonListResult.java:19-21 | returns the current key and changes nothing (also JsonListsResult.java:23-25, IntegerResult.java:26-28, LongResult.java:20-22) |
| RedisResults.CacheResult.SetKey | src/main/java/com/kt/vd/Redis/JsonListResult.java:23-25 | changes the key only; the value is unchanged (also JsonListsResult.java:27-29, IntegerResult.java:30-32, LongResult.java:24-26) |
| RedisResults.CacheResult.GetValue | src/main/java/com/kt/vd/Redis/JsonListResult.java:27-29 | returns the current value and changes nothing (also JsonListsResult.java:31-33, IntegerResult.java:34-36, LongResult.java:28-30) |
| RedisResults.CacheResult.SetValue | src/main/java/com/kt/vd/Redis/JsonListResult.java:31-33 | changes the value only; the key is unchanged (also JsonListsResult.java:35-37, IntegerResult.java:38-40, LongResult.java:32-34) |
| ReadThrough.Serve | src/main/java/com/kt/vd/sell/SellController.java:60-112 | one request changes the store and expiries at its own key only; with no backend request nothing is written; a backend request means the resolver succeeded and the reshaped value is returned; a success without a backend request is a hit on a consulted store; the store changes only by writing the reshaped value under a writing gate |
| ReadThrough.HitSkipsBackend | src/main/java/com/kt/vd/sell/SellController.java:63-70 | a stored value, an empty list included, is returned with no backend request and no write |
| ReadThrough.MissWritesComputedValue | src/main/java/com/kt/vd/sell/SellController.java:108-110 | after a miss the reshaped value is returned, written under exactly the looked-up key with the endpoint's expiry iff the gate writes, and no other key changes; a resolver exception writes nothing |
| ReadThrough.MissThenHit | src/main/java/com/kt/vd/sell/SellController.java:60-70 | after a successful miss the same request is answered from the store with the same value and no backend request |
| ReadThrough.PermittedSellBypassesStore | src/main/java/com/kt/vd/sell/SellController.java:60-63 | when permitCache(end) holds, store and expiries are unchanged, and the response and backend request are the same whatever the store holds |
| ReadThrough.EligibleGateWritesOnlyWhenLegal | src/main/java/com/kt/vd/Redis/RedisManager.java:60-61 | under the intended rule an ineligible request leaves store and expiries unchanged |
| ReadThrough.VisitGateServesStaleAfterMidnight | src/main/java/com/kt/vd/visit/VisitController.java:65-68 | as written, a request ending today writes its partial result with the endpoint's expiry, and the same request repeated after midnight (while that entry lives) is answered with it |
| ReadThrough.EligibleGateFreshAfterMidnight | src/main/java/com/kt/vd/visit/VisitController.java:102-104 | under the intended rule the next day's request reaches the backend and returns its value |
| Reshape.BucketsToRecords | src/main/java/com/kt/vd/sell/SellController.java:99-106 | the loop emits one {keyField: bucket key, countField: doc count} record per bucket, in bucket order |
| Reshape.MainBucketsToRecords | src/main/java/com/kt/vd/sell/SellController.java:305-320 | the nested loops emit one map per outer bucket, keyed by its key string, holding its sub-bucket records in order |
| Reshape.RowFields | src/main/java/com/kt/vd/sell/SellController.java:99-104 | a record holds exactly the key field (the bucket key) and the count field (the doc count) |
| Reshape.RowsRoundTrip | src/main/java/com/kt/vd/sell/SellController.java:99-106 | the buckets are read back from the records exactly, in order: nothing is lost, reordered or added |
| Reshape.GroupRowsRoundTrip | src/main/java/com/kt/vd/sell/SellController.java:305-320 | one map per outer bucket, whose only key is that bucket's key, from which its sub-buckets are read back exactly |
| Numbers.IntValue | src/main/java/com/kt/vd/sell/SellController.java:234-240 | count.intValue() is the 32-bit integer congruent to the count modulo 2^32 |
| Numbers.IntValueKeepsSmall | src/main/java/com/kt/vd/sell/SellController.java:240 | counts below 2^31 are returned unchanged |
| Numbers.IntValueWrapsLargeCount | src/main/java/com/kt/vd/sell/SellController.java:240 | a count of 2^31 is returned as -2^31 |
| Numbers.IntToString | src/main/java/com/kt/vd/sell/SellController.java:420 | Integer.toString is non-empty; digits only for n >= 0, a leading minus sign then digits for n < 0; never ":" |
| Numbers.NatToStringRoundTrip | src/main/java/com/kt/vd/sell/SellController.java:420 | the decimal digits printed for n denote n |
| Numbers.IntToStringInjective | src/main/java/com/kt/vd/sell/SellController.java:420 | distinct page sizes print as distinct key segments |
| Numbers.TenPrintsAsTen | src/main/java/com/kt/vd/sell/SellController.java:420 | the default page size prints as "10" |
| Sell.SellByDrinkKeyText | src/main/java/com/kt/vd/sell/SellController.java:64-68 | getSellByDrink's key is sell:user[:machine]:start:end |
| Sell.SellDrinkKeyOrder | src/main/java/com/kt/vd/sell/SellController.java:208-212 | getSellDrink's key is sell:drink:drink followed by the user[:machine]:start:end segments |
| Sell.SellByDrinkAllDefaultKey | src/main/java/com/kt/vd/sell/SellController.java:420 | without top the ranking key is sell:all:10:start:end |
| Sell.DrinkByLocKeyIgnoresUser | src/main/java/com/kt/vd/sell/SellController.java:355-357 | getSellDrinkByLoc's key is the same for every user, though the query filters on the user (line 368) |
| Sell.LocKeysCollide | src/main/java/com/kt/vd/sell/SellController.java:266-268 | getSellByLoc for user u and getSellDrinkByLoc for drink u share one key |
| Sell.AllKeyCollidesWithUserAll | src/main/java/com/kt/vd/sell/SellController.java:420 | the ranking key equals getSellByDrink's key for user "all" on machine top (a key-function fact; request routing keeps such a user away) |
| Sell.TimeKeyCollidesWithUserTime | src/main/java/com/kt/vd/sell/SellController.java:134-138 | the per-hour key of user u equals the per-drink key of user "time" on machine u (a key-function fact; request routing keeps such a user away) |
| Sell.DrinkByLocKeyWithUserSeparatesUsers | src/main/java/com/kt/vd/sell/SellController.java:368 | with the user in the key, distinct users never share an entry (colon-free parameters) |
| Sell.SegmentsSeparateSellKeys | src/main/java/com/kt/vd/sell/SellController.java:40-44 | with colon-free parameters, sales keys whose first segment after "sell" differs never coincide |
| Sell.TaggedByDrinkKeyAvoidsAll | src/main/java/com/kt/vd/sell/SellController.java:420 | with its own segment ("sell:type") the per-drink key never equals the ranking key |
| Sell.TaggedByDrinkKeyAvoidsTime | src/main/java/com/kt/vd/sell/SellController.java:134-138 | with its own segment the per-drink key never equals a per-hour key |
| Sell.DrinkByLocKeyWithUserAvoidsByLoc | src/main/java/com/kt/vd/sell/SellController.java:353-357 | with the user in the key, the single-drink entry never collides with a getSellByLoc entry |
| Sell.SellController.GetSellByDrink | src/main/java/com/kt/vd/sell/SellController.java:56-113 | result, backend request, list store and expiries are those of Serve under key sell:user[:machine]:start:end, gate !permitCache(end), partitions of "sell-" on drink_type, records {drink_type, sell}, 1 hour; no other store changes |
| Sell.SellController.GetSellByTime | src/main/java/com/kt/vd/sell/SellController.java:125-185 | the same under sell:time, field hour_of_date, records {hour, count}, 1 hour |
| Sell.SellController.GetSellDrink | src/main/java/com/kt/vd/sell/SellController.java:199-241 | the same over the integer store under sell:drink:drink:user[:machine]:start:end, the value count.intValue(), 1 hour |
| Sell.SellController.GetSellByLoc | src/main/java/com/kt/vd/sell/SellController.java:255-328 | the same over the grouped store under sell:loc:province[:municipality]:user:start:end, aggregating on submunicipality iff a municipality is given, records grouped by location with {drink, count}, 1 hour |
| Sell.SellController.GetSellDrinkByLoc | src/main/java/com/kt/vd/sell/SellController.java:343-408 | the same under sell:loc:province[:municipality]:drink:start:end (no user), records {loc, count}, 1 hour |
| Sell.SellController.GetSellByDrinkAll | src/main/java/com/kt/vd/sell/SellController.java:411-462 | the same under sell:all:top-or-10:start:end, records {drink_type, count}, 30 days |
| Visit.MachineAndLocKeysDistinct | src/main/java/com/kt/vd/visit/VisitController.java:61-63 | with colon-free parameters a visit:user[:machine] key never equals a visit:loc key |
| Visit.VisitController.GetVisitByMachine | src/main/java/com/kt/vd/visit/VisitController.java:53-107 | result, request, store and expiries are those of Serve under visit:user[:machine]:start:end with the store consulted iff end < today but written on every miss, partitions of "visit-" on hour_of_date, records {hour, count}, 1 hour |
| Visit.VisitController.GetVisitByLoc | src/main/java/com/kt/vd/visit/VisitController.java:122-183 | the same under visit:loc:province[:municipality]:user:start:end, aggregating on submunicipality iff a municipality is given, records {loc, count} |
| Sensor.CollectReadings | src/main/java/com/kt/vd/temperature/TemperatureController.java:80-91 | the while loop emits one {degree, date} record per streamed document, in stream order |
| Sensor.ReadingRowsRoundTrip | src/main/java/com/kt/vd/temperature/TemperatureController.java:83-91 | every streamed document is read back from the response, in order |
| Sensor.LaneBucketsToRecords | src/main/java/com/kt/vd/temperature/TemperatureController.java:172-190 | the nested loops emit one {"data": records} map per lane bucket, one {date, degree} per hit, in order |
| Sensor.HitRowProjects | src/main/java/com/kt/vd/temperature/TemperatureController.java:178-185 | a hit record holds exactly date and degree, each copied from the source, or null when the source lacks it; projecting twice changes nothing |
| Sensor.LaneRowsShape | src/main/java/com/kt/vd/temperature/TemperatureController.java:155-156 | one map per lane whose only key is "data", one record per hit, at most the requested 60 when the backend honours the size |
| Sensor.WindowClosed | src/main/java/com/kt/vd/temperature/TemperatureController.java:67-69 | the window [now - interval min, now] is inclusive at both ends, and the ten-minute window contains the one-minute window |
| Sensor.WindowSpansAtMostTwoDays | src/main/java/com/kt/vd/temperature/TemperatureController.java:56-58 | a window of at most a day starts on today or the day before |
| Sensor.PartitionOf | src/main/java/com/kt/vd/temperature/TemperatureController.java:56-60 | the one partition queried is what the partition resolver gives for the single day of now |
| Sensor.SinglePartitionMissesPreviousDay | src/main/java/com/kt/vd/temperature/TemperatureController.java:56-60 | 30 s after midnight the one-minute window starts on the previous day, whose partition is not the one queried |
| Sensor.WindowPartitions | src/main/java/com/kt/vd/temperature/TemperatureController.java:136-141 | the corrected partition list has one id per day from the window's start day to its end day, element i being index + the date of start day + i, ending with today's |
| Sensor.WindowPartitionsCoverWindow | src/main/java/com/kt/vd/temperature/TemperatureController.java:136-145 | every instant of the window lies in one of the corrected partitions, for any date printer |
| Sensor.WindowPartitionsWithinOneDay | src/main/java/com/kt/vd/temperature/TemperatureController.java:60 | when the window stays within one day the corrected list is just today's partition, as the code queries |
| Temperature.GetTemperatureByInterval | src/main/java/com/kt/vd/temperature/TemperatureController.java:54-94 | queries only "temperature-" + date(now) for the lane over [now - interval min, now] and returns one {degree, date} per streamed document |
| Temperature.GetTemperatureInit | src/main/java/com/kt/vd/temperature/TemperatureController.java:110-113 | the lane's last 600 seconds, from today's partition |
| Temperature.GetTemperature | src/main/java/com/kt/vd/temperature/TemperatureController.java:127-130 | the lane's last 60 seconds, from today's partition |
| Temperature.GetTemperaturesByInterval | src/main/java/com/kt/vd/temperature/TemperatureController.java:134-193 | terms on lane with 60 top hits over the window in today's partition; one {"data": [{date, degree}]} per lane |
| Temperature.GetTemperaturesInit | src/main/java/com/kt/vd/temperature/TemperatureController.java:196-198 | every lane over the last 600 seconds |
| Temperature.GetTemperatureLanes | src/main/java/com/kt/vd/temperature/TemperatureController.java:202-204 | every lane over the last 60 seconds (the two-argument getTemperature) |
| Humidity.GetHumidityByInterval | src/main/java/com/kt/vd/humidity/HumidityController.java:53-93 | queries only "humidity-" + date(now) for the lane over [now - interval min, now] and returns one {degree, date} per streamed document |
| Humidity.GetHumidityInit | src/main/java/com/kt/vd/humidity/HumidityController.java:109-112 | the lane's last 600 seconds, from today's partition |
| Humidity.GetHumidity | src/main/java/com/kt/vd/humidity/HumidityController.java:126-129 | the lane's last 60 seconds, from today's partition |
| Humidity.GetHumiditysByInterval | src/main/java/com/kt/vd/humidity/HumidityController.java:133-191 | terms on lane with 60 top hits over the window in today's partition; one {"data": [{date, degree}]} per lane |
| Humidity.GetHumiditysInit | src/main/java/com/kt/vd/humidity/HumidityController.java:194-196 | every lane over the last 600 seconds |
| Humidity.GetHumiditys | src/main/java/com/kt/vd/humidity/HumidityController.java:200-202 | every lane over the last 60 seconds |

## Left out

- Search backend: query construction is not modelled. That covers bool and term filters, routing, aggregation sizes and bucket order (the visit endpoint's 24 ascending hour buckets, the ranking's `size(top)`). Buckets, hits, streamed documents and counts are inputs. The model states only the partitions and the aggregation field requested.
- Key-value store: serialization and real expiry are not modelled. An expiry is only recorded. Entries never disappear in the model.
- One Redis keyspace: the real store shares one keyspace across all value types. The model keeps one map per typed field, so a key written as a list and read as an integer is not modelled.
- Concurrent requests: two requests that miss on the same key at once are not modelled, because each request is sequential.
- Clock: `LocalDate.now()` and `LocalDateTime.now()` become the parameters `today` and `now`. One `today` stands for both reads of the clock in a date request: the one in `isLegal` and the one in `generateIndex`. A request that straddles midnight and sees two different days is not modelled. The `yyyy-MM-dd HH:mm:ss` timestamp format is left abstract.
- Sensor time: instants are whole seconds. Sub-second precision, which the formatter drops anyway, is not modelled.
- Date printer: `LocalDate.toString` is the parameter `show`. Where distinct dates must print distinctly, properties require it to be injective. The ISO 8601 calendar arithmetic itself is not modelled.
- Sensor documents: the `Temperature` and `Humidity` documents (a `float` degree and a `java.util.Date`) are opaque values that are only copied.
- `permitCache`: it is an uninterpreted predicate on the end date. RedisManager.java does not define it.
- Reshape.BucketsToRecords: a document count is an unbounded natural number. Java's `long` overflow is not modelled, because counts never approach 2^63.
- Redis.RedisManager.GetJsonListResult, GetLongResult, GetJsonListsResult, ReadJsonListResult, ReadJsonListsResult, ReadIntegerResult, SetJsonListOpts, SetJsonListsOpts, SetIntegerOpts: the store never fails in the model. In the code a failing `get` or `set` is not caught anywhere, so it fails the whole request, even after the backend answered. The same holds for the search query and count in every endpoint: a backend failure is not modelled and propagates in the code.
- Exception handler: ControllerAdvice.java maps exceptions to HTTP statuses and is not part of this model.
- HTTP binding: Spring path and query binding is not modelled. Optional path variables are `Option` values.
- Holder base class: `RedisResult`, which the holders extend, is not part of this model.

## Findings

| source | as written | input that shows it | evidently intended | confidence | as-written member | corrected member |
|---|---|---|---|---|---|---|
| src/main/java/com/kt/vd/visit/VisitController.java:65-68 | an ineligible lookup returns a null value, which sets cacheFlag, so a result for a window ending today is written back | a visit request with end = today made at 23:30, repeated at 00:10 the next day, within the hour the entry lives | write only eligible results (end strictly before today), so the next day's request reads complete partitions | high; not executed | ReadThrough.VisitGateServesStaleAfterMidnight | ReadThrough.EligibleGateFreshAfterMidnight |
| src/main/java/com/kt/vd/sell/SellController.java:355-357 | getSellDrinkByLoc's key leaves out the user it filters on, and shares sell:loc and arity with getSellByLoc | users u1 and u2 asking for the same drink, province and dates; or getSellByLoc for user "coke" and getSellDrinkByLoc for drink "coke" | the user is part of the key | high; not executed | Sell.LocKeysCollide | Sell.DrinkByLocKeyWithUserSeparatesUsers |
| src/main/java/com/kt/vd/temperature/TemperatureController.java:56-60 | only the partition of now's date is queried | now = 00:00:30, interval 1: the window starts at 23:59:30 of the previous day | query every daily partition the window touches | medium; not executed | Sensor.SinglePartitionMissesPreviousDay | Sensor.WindowPartitionsCoverWindow |
| src/main/java/com/kt/vd/sell/SellController.java:420 | latent key-design defect: the ranking key sell:all:top:start:end is also the per-drink key of a user named "all" on a machine named top, in the same list store. Spring routes /sell/all/{top} to getSellByDrinkAll (line 410), which masks it over HTTP | a direct call of getSellByDrink("all", Some("10"), start, end), as a non-HTTP caller or a change of the request mappings would make, after getSellByDrinkAll(None, start, end) | the per-drink key has its own segment after "sell" (e.g. sell:type), like the other sales keys | low: not reachable through the current mappings; not executed | Sell.AllKeyCollidesWithUserAll | Sell.TaggedByDrinkKeyAvoidsAll |
| src/main/java/com/kt/vd/sell/SellController.java:134-138 | latent key-design defect: the per-hour key sell:time:user:start:end is also the per-drink key of a user named "time" on a machine named user, in the same list store. Spring routes /sell/time/{user} to getSellByTime (line 124), which masks it over HTTP | a direct call of getSellByDrink("time", Some("u1"), start, end), as a non-HTTP caller or a change of the request mappings would make, after getSellByTime("u1", None, start, end) | the per-drink key has its own segment after "sell" (e.g. sell:type) | low: not reachable through the current mappings; not executed | Sell.TimeKeyCollidesWithUserTime | Sell.TaggedByDrinkKeyAvoidsTime |
