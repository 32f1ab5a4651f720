/**
 * The cache side of the read-through layer: the eligibility rule, the key builder, and the
 * manager that looks keys up in (and writes them to) the key-value store.
 */
module Redis {
  import opened Wrappers
  import opened Dates
  import opened Reshape
  import opened RedisResults

  datatype TimeUnit = Hours | Days

  /** The expiry recorded with a write; the store never expires anything in this model. */
  datatype Ttl = Ttl(amount: nat, unit: TimeUnit)

  /** The expiry of the per-user aggregates. */
  const OneHour := Ttl(1, Hours)

  /** The expiry of the all-users ranking. */
  const ThirtyDays := Ttl(30, Days)

  /** `isLegal`: the store may be consulted only for a window that ends strictly before today. */
  function IsLegal(date: Day, today: Day): (legal: bool)
    ensures date == today ==> !legal
    ensures date == today - 1 ==> legal
    ensures legal ==> date + 1 <= today
  {
    date < today
  }

  /** The text appended after the prefix: `":" + p` for every parameter, in order. */
  function KeySuffix(parameters: seq<string>): string {
    if parameters == [] then ""
    else KeySuffix(parameters[..|parameters| - 1]) + ":" + parameters[|parameters| - 1]
  }

  /** The key `generateRedisKey` builds. */
  function RedisKey(prefix: string, parameters: seq<string>): string {
    prefix + KeySuffix(parameters)
  }

  /** `Σ (1 + |p|)` over the parameters: the length the parameters add to the key. */
  function SuffixLength(parameters: seq<string>): nat {
    if parameters == [] then 0
    else SuffixLength(parameters[..|parameters| - 1]) + 1 + |parameters[|parameters| - 1]|
  }

  /** No parameter contains the `:` delimiter. */
  predicate ColonFree(parameters: seq<string>) {
    forall i, j :: 0 <= i < |parameters| && 0 <= j < |parameters[i]| ==> parameters[i][j] != ':'
  }

  /** `generateRedisKey`: append the prefix to a fresh buffer, then `":"` and each parameter. */
  method GenerateRedisKey(prefix: string, parameters: seq<string>) returns (key: string)
    ensures key == RedisKey(prefix, parameters)
  {
    var sb: string := [];
    sb := sb + prefix;
    for i := 0 to |parameters|
      invariant sb == prefix + KeySuffix(parameters[..i])
    {
      assert parameters[..i + 1][..i] == parameters[..i];
      sb := sb + ":";
      sb := sb + parameters[i];
    }
    assert parameters[..|parameters|] == parameters;
    key := sb;
  }

  /** The store is eligible for a window that ends yesterday or earlier, never for today or later. */
  lemma IsLegalOnlyStrictlyBefore(date: Day, today: Day)
    ensures IsLegal(date, today) <==> date < today
    ensures !IsLegal(today, today)
    ensures date > today ==> !IsLegal(date, today)
  {
  }

  /** Without parameters the key is the prefix itself; it always starts with the prefix. */
  lemma KeyStartsWithPrefix(prefix: string, parameters: seq<string>)
    ensures RedisKey(prefix, []) == prefix
    ensures |prefix| <= |RedisKey(prefix, parameters)|
    ensures RedisKey(prefix, parameters)[..|prefix|] == prefix
  {
  }

  /** The key's length is the prefix's plus one delimiter and the text of each parameter. */
  lemma {:induction false} KeyLength(prefix: string, parameters: seq<string>)
    ensures |RedisKey(prefix, parameters)| == |prefix| + SuffixLength(parameters)
  {
    if parameters != [] {
      KeyLength(prefix, parameters[..|parameters| - 1]);
    }
  }

  /** Appending parameter lists appends their suffixes. */
  lemma {:induction false} KeySuffixAppend(a: seq<string>, b: seq<string>)
    ensures KeySuffix(a + b) == KeySuffix(a) + KeySuffix(b)
  {
    if b == [] {
      assert a + b == a;
    } else {
      var n := |b| - 1;
      assert (a + b)[..|a + b| - 1] == a + b[..n];
      KeySuffixAppend(a, b[..n]);
    }
  }

  /** A prefix with a delimiter in it is indistinguishable from a shorter prefix plus a parameter. */
  lemma PrefixDelimiterIsAParameter(prefix: string, head: string, parameters: seq<string>)
    ensures RedisKey(prefix + ":" + head, parameters) == RedisKey(prefix, [head] + parameters)
  {
    KeySuffixAppend([head], parameters);
    assert KeySuffix([head]) == KeySuffix([]) + ":" + head;
  }

  /** The parameter list `[p]` adds `":" + p`. */
  lemma KeySuffixSingle(p: string)
    ensures KeySuffix([p]) == ":" + p
  {
    assert [p][..0] == [];
  }

  /** Adding a parameter at the front puts its segment right after the prefix. */
  lemma KeySuffixCons(p: string, parameters: seq<string>)
    ensures KeySuffix([p] + parameters) == ":" + p + KeySuffix(parameters)
  {
    KeySuffixAppend([p], parameters);
    KeySuffixSingle(p);
  }

  /** The example key of a sales request for one machine. */
  lemma KeyExample()
    ensures RedisKey("sell", ["u1", "m1", "2020-01-01", "2020-01-05"]) == "sell:u1:m1:2020-01-01:2020-01-05"
  {
    var ps := ["u1", "m1", "2020-01-01", "2020-01-05"];
    KeySuffixSingle("u1");
    assert ps[..1] == ["u1"] && ps[..2][..1] == ["u1"];
    assert ps[..3][..2] == ps[..2] && ps[..4][..3] == ps[..3] && ps[..4] == ps;
    assert KeySuffix(ps[..2]) == ":u1" + ":" + "m1";
    assert KeySuffix(ps[..3]) == ":u1" + ":" + "m1" + ":" + "2020-01-01";
    assert KeySuffix(ps) == ":u1" + ":" + "m1" + ":" + "2020-01-01" + ":" + "2020-01-05";
  }

  /** No escaping: a parameter holding the delimiter collides with two parameters. */
  lemma KeysCollideWithoutEscaping(prefix: string)
    ensures ["a:b"] != ["a", "b"]
    ensures RedisKey(prefix, ["a:b"]) == RedisKey(prefix, ["a", "b"])
  {
    assert ["a", "b"][..1] == ["a"];
    assert KeySuffix(["a"]) == ":a";
    assert KeySuffix(["a:b"]) == ":a:b";
  }

  /** Where the characters of `a + ":" + x` come from. */
  lemma JoinedAt(a: string, x: string, k: int)
    requires 0 <= k < |a| + 1 + |x|
    ensures k == |a| ==> (a + ":" + x)[k] == ':'
    ensures k > |a| ==> (a + ":" + x)[k] == x[k - |a| - 1]
  {
  }

  /** The text after the last delimiter of a colon-free suffix is the last parameter. */
  lemma LastSegment(x: string, y: string, a: string, b: string)
    requires forall j :: 0 <= j < |x| ==> x[j] != ':'
    requires forall j :: 0 <= j < |y| ==> y[j] != ':'
    requires a + ":" + x == b + ":" + y
    ensures x == y && a == b
  {
    var s := a + ":" + x;
    if |x| < |y| {
      JoinedAt(a, x, |a|);
      JoinedAt(b, y, |a|);
      assert false;
    }
    if |y| < |x| {
      JoinedAt(b, y, |b|);
      JoinedAt(a, x, |b|);
      assert false;
    }
    assert x == s[|s| - |x|..];
    assert y == s[|s| - |y|..];
    assert a == s[..|a|];
    assert b == s[..|b|];
  }

  /** A suffix is empty exactly when there are no parameters. */
  lemma SuffixEmptyIffNoParameters(parameters: seq<string>)
    ensures KeySuffix(parameters) == "" <==> parameters == []
  {
    if parameters != [] {
      assert |KeySuffix(parameters)| > 0;
    }
  }

  /**
   * When no parameter contains the delimiter, the key determines the parameters: equal keys
   * under one prefix come from equal parameter lists.
   */
  lemma {:induction false} KeyInjectiveWithoutColon(prefix: string, ps: seq<string>, qs: seq<string>)
    requires ColonFree(ps) && ColonFree(qs)
    requires RedisKey(prefix, ps) == RedisKey(prefix, qs)
    ensures ps == qs
    decreases |ps|
  {
    PrefixCancel(prefix, KeySuffix(ps), KeySuffix(qs));
    SuffixEmptyIffNoParameters(ps);
    SuffixEmptyIffNoParameters(qs);
    if ps != [] && qs != [] {
      var m, n := |ps| - 1, |qs| - 1;
      assert ColonFree(ps[..m]) && ColonFree(qs[..n]);
      LastSegment(ps[m], qs[n], KeySuffix(ps[..m]), KeySuffix(qs[..n]));
      KeyInjectiveWithoutColon(prefix, ps[..m], qs[..n]);
      assert ps == ps[..m] + [ps[m]];
      assert qs == qs[..n] + [qs[n]];
    }
  }

  /**
   * The manager of the key-value store. Each typed `ValueOperations` field is a map from key to
   * value, and every write records its expiry in `ttl`.
   */
  class RedisManager {
    var jsonListOpts: map<string, JsonList>
    var longOpts: map<string, int>
    var jsonListsOpts: map<string, JsonLists>
    var integerOpts: map<string, int>
    var ttl: map<string, Ttl>

    /** The gate the sales endpoints consult before the store; its rule is not part of this model. */
    const permitCache: Day -> bool

    constructor (permitCache: Day -> bool)
      ensures this.permitCache == permitCache
      ensures jsonListOpts == map[] && longOpts == map[] && jsonListsOpts == map[]
      ensures integerOpts == map[] && ttl == map[]
    {
      this.permitCache := permitCache;
      jsonListOpts, longOpts, jsonListsOpts, integerOpts, ttl := map[], map[], map[], map[], map[];
    }

    /** Only the list store and the expiries may have changed. */
    twostate predicate OnlyJsonListChanged()
      reads this
    {
      longOpts == old(longOpts) && jsonListsOpts == old(jsonListsOpts) && integerOpts == old(integerOpts)
    }

    /** Only the grouped-list store and the expiries may have changed. */
    twostate predicate OnlyJsonListsChanged()
      reads this
    {
      jsonListOpts == old(jsonListOpts) && longOpts == old(longOpts) && integerOpts == old(integerOpts)
    }

    /** Only the integer store and the expiries may have changed. */
    twostate predicate OnlyIntegerChanged()
      reads this
    {
      jsonListOpts == old(jsonListOpts) && longOpts == old(longOpts) && jsonListsOpts == old(jsonListsOpts)
    }

    /**
     * `getJsonListResult(end, prefix, parameters...)`: the key always; the stored value only when
     * `end` is before today, otherwise `null` without consulting the store.
     */
    method GetJsonListResult(end: Day, today: Day, prefix: string, parameters: seq<string>)
      returns (res: CacheResult<JsonList>)
      ensures fresh(res)
      ensures res.key == RedisKey(prefix, parameters)
      ensures res.value == if IsLegal(end, today) then Lookup(jsonListOpts, res.key) else None
    {
      var key := GenerateRedisKey(prefix, parameters);
      if !IsLegal(end, today) {
        res := new CacheResult.KeyOnly(key);
        return;
      }
      var value := Lookup(jsonListOpts, key);
      res := new CacheResult(key, value);
    }

    /** `getLongResult(end, prefix, parameters...)`, the same gate over the long store. */
    method GetLongResult(end: Day, today: Day, prefix: string, parameters: seq<string>)
      returns (res: CacheResult<int>)
      ensures fresh(res)
      ensures res.key == RedisKey(prefix, parameters)
      ensures res.value == if IsLegal(end, today) then Lookup(longOpts, res.key) else None
    {
      var key := GenerateRedisKey(prefix, parameters);
      if !IsLegal(end, today) {
        res := new CacheResult.KeyOnly(key);
        return;
      }
      var value := Lookup(longOpts, key);
      res := new CacheResult(key, value);
    }

    /** `getJsonListsResult(end, prefix, parameters...)`, the same gate over the grouped store. */
    method GetJsonListsResult(end: Day, today: Day, prefix: string, parameters: seq<string>)
      returns (res: CacheResult<JsonLists>)
      ensures fresh(res)
      ensures res.key == RedisKey(prefix, parameters)
      ensures res.value == if IsLegal(end, today) then Lookup(jsonListsOpts, res.key) else None
    {
      var key := GenerateRedisKey(prefix, parameters);
      if !IsLegal(end, today) {
        res := new CacheResult.KeyOnly(key);
        return;
      }
      var value := Lookup(jsonListsOpts, key);
      res := new CacheResult(key, value);
    }

    /** The date-less `getJsonListResult(prefix, parameters...)` the sales endpoints call: always reads. */
    method ReadJsonListResult(prefix: string, parameters: seq<string>) returns (res: CacheResult<JsonList>)
      ensures fresh(res)
      ensures res.key == RedisKey(prefix, parameters)
      ensures res.value == Lookup(jsonListOpts, res.key)
    {
      var key := GenerateRedisKey(prefix, parameters);
      res := new CacheResult(key, Lookup(jsonListOpts, key));
    }

    /** The date-less `getJsonListsResult(prefix, parameters...)`: always reads. */
    method ReadJsonListsResult(prefix: string, parameters: seq<string>) returns (res: CacheResult<JsonLists>)
      ensures fresh(res)
      ensures res.key == RedisKey(prefix, parameters)
      ensures res.value == Lookup(jsonListsOpts, res.key)
    {
      var key := GenerateRedisKey(prefix, parameters);
      res := new CacheResult(key, Lookup(jsonListsOpts, key));
    }

    /** `getIntegerResult(prefix, parameters...)`: always reads. */
    method ReadIntegerResult(prefix: string, parameters: seq<string>) returns (res: CacheResult<int>)
      ensures fresh(res)
      ensures res.key == RedisKey(prefix, parameters)
      ensures res.value == Lookup(integerOpts, res.key)
    {
      var key := GenerateRedisKey(prefix, parameters);
      res := new CacheResult(key, Lookup(integerOpts, key));
    }

    /** `setJsonListOpts(key, value, amount, unit)`: overwrite the key and record the expiry. */
    method SetJsonListOpts(key: string, value: JsonList, amount: nat, unit: TimeUnit)
      modifies this
      ensures jsonListOpts == old(jsonListOpts)[key := value]
      ensures ttl == old(ttl)[key := Ttl(amount, unit)]
      ensures OnlyJsonListChanged()
    {
      jsonListOpts := jsonListOpts[key := value];
      ttl := ttl[key := Ttl(amount, unit)];
    }

    /** `setJsonListsOpts(key, value, amount, unit)`. */
    method SetJsonListsOpts(key: string, value: JsonLists, amount: nat, unit: TimeUnit)
      modifies this
      ensures jsonListsOpts == old(jsonListsOpts)[key := value]
      ensures ttl == old(ttl)[key := Ttl(amount, unit)]
      ensures OnlyJsonListsChanged()
    {
      jsonListsOpts := jsonListsOpts[key := value];
      ttl := ttl[key := Ttl(amount, unit)];
    }

    /** `setIntegerOpts(key, value, amount, unit)`. */
    method SetIntegerOpts(key: string, value: int, amount: nat, unit: TimeUnit)
      modifies this
      ensures integerOpts == old(integerOpts)[key := value]
      ensures ttl == old(ttl)[key := Ttl(amount, unit)]
      ensures OnlyIntegerChanged()
    {
      integerOpts := integerOpts[key := value];
      ttl := ttl[key := Ttl(amount, unit)];
    }
  }
}
