/**
 * The values the endpoints return and cache, and the loops that turn the search backend's
 * terms buckets into them.
 */
module Reshape {
  import opened Wrappers

  /** A value held in a response record: `null`, a string, an integral number, or a value the
      core copies without looking at it (a `float` reading, a `java.util.Date`). */
  datatype Json = Null | Str(s: string) | Num(n: int) | Raw(token: int)

  /** One `Map<String, Object>` of a response; field order is irrelevant. */
  type Record = map<string, Json>

  /** `List<Map<String, Object>>`. */
  type JsonList = seq<Record>

  /** `List<Map<String, List<Map<String, Object>>>>`. */
  type JsonLists = seq<map<string, JsonList>>

  /** A terms bucket: its key (`getKey()`) and its document count (`getDocCount()`). */
  datatype Bucket = Bucket(key: Json, docCount: nat)

  /** A bucket of the outer terms aggregation, with its key as a string and its sub-buckets. */
  datatype MainBucket = MainBucket(keyAsString: string, sub: seq<Bucket>)

  /** The record of one bucket: two `put`s into a fresh `HashMap`. */
  function Row(b: Bucket, keyField: string, countField: string): Record {
    map[keyField := b.key][countField := Num(b.docCount)]
  }

  /** The single-level response: one record per bucket, in bucket order. */
  function Rows(buckets: seq<Bucket>, keyField: string, countField: string): JsonList {
    seq(|buckets|, i requires 0 <= i < |buckets| => Row(buckets[i], keyField, countField))
  }

  /** The two-level response entry of one outer bucket: its key mapped to its sub-records. */
  function GroupRow(m: MainBucket, keyField: string, countField: string): map<string, JsonList> {
    map[m.keyAsString := Rows(m.sub, keyField, countField)]
  }

  /** The two-level response: one single-entry map per outer bucket, in bucket order. */
  function GroupRows(mains: seq<MainBucket>, keyField: string, countField: string): JsonLists {
    seq(|mains|, i requires 0 <= i < |mains| => GroupRow(mains[i], keyField, countField))
  }

  /** The aggregation field of the location endpoints: one level below the location given. */
  function LocationField(municipality: Option<string>): string {
    if municipality.Some? then "submunicipality" else "municipality"
  }

  /** The loop `for (Terms.Bucket entry : agg.getBuckets()) { ... responseData.add(data); }`. */
  method BucketsToRecords(buckets: seq<Bucket>, keyField: string, countField: string)
    returns (responseData: JsonList)
    ensures responseData == Rows(buckets, keyField, countField)
  {
    responseData := [];
    for i := 0 to |buckets|
      invariant |responseData| == i
      invariant forall k :: 0 <= k < i ==> responseData[k] == Row(buckets[k], keyField, countField)
    {
      var data: Record := map[];
      data := data[keyField := buckets[i].key];
      data := data[countField := Num(buckets[i].docCount)];
      responseData := responseData + [data];
    }
  }

  /** The nested loops of the location endpoint: outer buckets, then each one's sub-buckets. */
  method MainBucketsToRecords(mains: seq<MainBucket>, keyField: string, countField: string)
    returns (responseData: JsonLists)
    ensures responseData == GroupRows(mains, keyField, countField)
  {
    responseData := [];
    for i := 0 to |mains|
      invariant |responseData| == i
      invariant forall k :: 0 <= k < i ==> responseData[k] == GroupRow(mains[k], keyField, countField)
    {
      var subData: JsonList := [];
      var sub := mains[i].sub;
      for j := 0 to |sub|
        invariant |subData| == j
        invariant forall k :: 0 <= k < j ==> subData[k] == Row(sub[k], keyField, countField)
      {
        var data: Record := map[];
        data := data[keyField := sub[j].key];
        data := data[countField := Num(sub[j].docCount)];
        subData := subData + [data];
      }
      assert subData == Rows(sub, keyField, countField);
      var mainData: map<string, JsonList> := map[];
      mainData := mainData[mains[i].keyAsString := subData];
      responseData := responseData + [mainData];
    }
  }

  /** Reads a bucket back from its record, when the record has that shape. */
  function BucketOf(row: Record, keyField: string, countField: string): Option<Bucket> {
    if keyField in row && countField in row && row[countField].Num? && row[countField].n >= 0
    then Some(Bucket(row[keyField], row[countField].n))
    else None
  }

  /** Reads the bucket list back from a single-level response. */
  function BucketsOf(rows: JsonList, keyField: string, countField: string): Option<seq<Bucket>> {
    if rows == [] then Some([])
    else
      match (BucketOf(rows[0], keyField, countField), BucketsOf(rows[1..], keyField, countField))
      case (Some(b), Some(bs)) => Some([b] + bs)
      case _ => None
  }

  /** Each record holds exactly the two named fields. */
  lemma RowFields(b: Bucket, keyField: string, countField: string)
    requires keyField != countField
    ensures Row(b, keyField, countField).Keys == {keyField, countField}
    ensures Row(b, keyField, countField)[keyField] == b.key
    ensures Row(b, keyField, countField)[countField] == Num(b.docCount)
  {
  }

  /**
   * The single-level reshaping loses nothing and reorders nothing: the buckets, keys, counts
   * and order, are read back from the response.
   */
  lemma {:induction false} RowsRoundTrip(buckets: seq<Bucket>, keyField: string, countField: string)
    requires keyField != countField
    ensures BucketsOf(Rows(buckets, keyField, countField), keyField, countField) == Some(buckets)
  {
    if buckets != [] {
      var rows := Rows(buckets, keyField, countField);
      assert rows[1..] == Rows(buckets[1..], keyField, countField);
      RowsRoundTrip(buckets[1..], keyField, countField);
      assert BucketOf(rows[0], keyField, countField) == Some(buckets[0]);
      assert [buckets[0]] + buckets[1..] == buckets;
    }
  }

  /**
   * The two-level reshaping emits one entry per outer bucket, in order, whose only key is that
   * bucket's key string and whose records give back its sub-buckets.
   */
  lemma GroupRowsRoundTrip(mains: seq<MainBucket>, keyField: string, countField: string, i: int)
    requires keyField != countField
    requires 0 <= i < |mains|
    ensures |GroupRows(mains, keyField, countField)| == |mains|
    ensures GroupRows(mains, keyField, countField)[i].Keys == {mains[i].keyAsString}
    ensures BucketsOf(GroupRows(mains, keyField, countField)[i][mains[i].keyAsString], keyField, countField)
         == Some(mains[i].sub)
  {
    RowsRoundTrip(mains[i].sub, keyField, countField);
  }
}
