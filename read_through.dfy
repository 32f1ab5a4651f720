/**
 * What one endpoint request does to the cache and the backend, as a function of the store
 * before the request: look the key up (or not), answer from the store on a hit, otherwise
 * resolve the partitions, answer with the freshly reshaped value, and write it back (or not).
 * The endpoints of the sales and visit controllers are proved to behave as this function says.
 */
module ReadThrough {
  import opened Wrappers
  import opened Dates
  import opened Redis

  /**
   * How an endpoint uses the store: whether a stored value can answer the request, and whether
   * a request that was not answered from the store writes its result back.
   */
  datatype Gate = Gate(consult: bool, writeOnMiss: bool)

  /** The sales endpoints: when `permitCache(end)` holds, no lookup and no write. */
  function SellGate(permitted: bool): Gate {
    Gate(!permitted, !permitted)
  }

  /**
   * The visit endpoints as written: the store answers only eligible requests, but every request
   * that was not answered writes back, because an ineligible lookup also returns `null`.
   */
  function VisitGate(legal: bool): Gate {
    Gate(legal, true)
  }

  /** The rule the cache layer is meant to follow: read and write only for eligible requests. */
  function EligibleGate(legal: bool): Gate {
    Gate(legal, legal)
  }

  /** The parameter of an optional path variable: present, or left out of the key entirely. */
  function OptionalParam(o: Option<string>): seq<string> {
    if o.Some? then [o.value] else []
  }

  /** The key parameters `user[:machine]:start:end` of the per-machine endpoints. */
  function UserParams(user: string, machine: Option<string>, start: Day, end: Day, show: Day -> string): seq<string> {
    [user] + OptionalParam(machine) + [show(start), show(end)]
  }

  /** The key parameters `province[:municipality]:who:start:end` of the location endpoints. */
  function LocParams(province: string, municipality: Option<string>, who: string, start: Day, end: Day,
                     show: Day -> string): seq<string> {
    [province] + OptionalParam(municipality) + [who, show(start), show(end)]
  }

  /** The backend request: the partitions searched and the field the terms aggregation groups by. */
  datatype TermsQuery = TermsQuery(indices: seq<string>, field: string)

  function QueryOn(partitions: Result<seq<string>, StreamError>, field: string): Result<TermsQuery, StreamError> {
    match partitions
    case Ok(ids) => Ok(TermsQuery(ids, field))
    case Err(e) => Err(e)
  }

  /**
   * The outcome of one request: the response (or the exception the partition resolver threw),
   * the backend request made (`None`: none), and the store and expiries afterwards.
   */
  datatype Served<Q, V> = Served(result: Result<V, StreamError>, queried: Option<Q>,
                                 values: map<string, V>, ttl: map<string, Ttl>)

  /**
   * One request under `key`: `query` is what the partition resolver gives, `computed` the
   * reshaped backend response, `life` the expiry recorded with a write.
   */
  function Serve<Q, V>(values: map<string, V>, ttl: map<string, Ttl>, key: string, gate: Gate,
                       query: Result<Q, StreamError>, computed: V, life: Ttl): (s: Served<Q, V>)
    ensures forall k :: k != key ==> Lookup(s.values, k) == Lookup(values, k) && Lookup(s.ttl, k) == Lookup(ttl, k)
    ensures s.queried == None ==> s.values == values && s.ttl == ttl
    ensures s.queried.Some? ==> query == Ok(s.queried.value) && s.result == Ok(computed)
    ensures s.result.Ok? && s.queried == None ==> gate.consult && key in values && s.result.value == values[key]
    ensures s.values != values ==> gate.writeOnMiss && s.values == values[key := computed]
  {
    if gate.consult && key in values then Served(Ok(values[key]), None, values, ttl)
    else match query
      case Err(e) => Served(Err(e), None, values, ttl)
      case Ok(q) =>
        if gate.writeOnMiss then Served(Ok(computed), Some(q), values[key := computed], ttl[key := life])
        else Served(Ok(computed), Some(q), values, ttl)
  }

  /** A stored value (an empty list included) answers the request: no backend request, no write. */
  lemma HitSkipsBackend<Q, V>(values: map<string, V>, ttl: map<string, Ttl>, key: string, gate: Gate,
                              query: Result<Q, StreamError>, computed: V, life: Ttl)
    requires gate.consult && key in values
    ensures var s := Serve(values, ttl, key, gate, query, computed, life);
      s.result == Ok(values[key]) && s.queried == None && s.values == values && s.ttl == ttl
  {
  }

  /**
   * A request the store did not answer returns the reshaped backend value over the resolved
   * partitions, and writes exactly that value, under exactly the looked-up key, with the
   * endpoint's expiry, when (and only when) its gate says so. Nothing else in the store changes.
   */
  lemma MissWritesComputedValue<Q, V>(values: map<string, V>, ttl: map<string, Ttl>, key: string, gate: Gate,
                                      query: Result<Q, StreamError>, computed: V, life: Ttl)
    requires !(gate.consult && key in values)
    ensures var s := Serve(values, ttl, key, gate, query, computed, life);
      && (query.Err? ==> s.result == Err(query.error) && s.queried == None && s.values == values && s.ttl == ttl)
      && (query.Ok? ==> s.result == Ok(computed) && s.queried == Some(query.value))
      && (query.Ok? && gate.writeOnMiss ==> s.values == values[key := computed] && s.ttl == ttl[key := life])
      && (!gate.writeOnMiss ==> s.values == values && s.ttl == ttl)
      && (forall k :: k != key ==> Lookup(s.values, k) == Lookup(values, k))
  {
  }

  /**
   * A gate that reads before it writes makes the cache idempotent: after a successful miss, the
   * same request is answered from the store with the identical value and no backend request,
   * whatever the backend would now return.
   */
  lemma MissThenHit<Q, V>(values: map<string, V>, ttl: map<string, Ttl>, key: string, gate: Gate,
                          q1: Q, c1: V, query2: Result<Q, StreamError>, c2: V, life: Ttl)
    requires gate.consult && gate.writeOnMiss && key !in values
    ensures var s1 := Serve(values, ttl, key, gate, Ok(q1), c1, life);
      var s2 := Serve(s1.values, s1.ttl, key, gate, query2, c2, life);
      s1.result == Ok(c1) && s1.queried == Some(q1) && s2.result == s1.result && s2.queried == None
  {
  }

  /** An ineligible request under the intended rule leaves the store exactly as it was. */
  lemma EligibleGateWritesOnlyWhenLegal<Q, V>(values: map<string, V>, ttl: map<string, Ttl>, key: string,
                                              end: Day, today: Day, query: Result<Q, StreamError>, computed: V, life: Ttl)
    requires !IsLegal(end, today)
    ensures var s := Serve(values, ttl, key, EligibleGate(IsLegal(end, today)), query, computed, life);
      s.values == values && s.ttl == ttl && (query.Ok? ==> s.result == Ok(computed))
  {
  }

  /**
   * The visit endpoints as written: a request for a window that ends today is not answered from
   * the store, yet its partial result is written back with the expiry `life` (one hour). Repeated
   * after midnight while that entry still lives (first asked at 23:30, again at 00:10), the same
   * request (same key, the end date being part of it) is eligible and is answered with that
   * stale value, whatever the now complete partitions would give.
   */
  lemma VisitGateServesStaleAfterMidnight<Q, V>(values: map<string, V>, ttl: map<string, Ttl>, key: string,
                                                end: Day, q: Q, partial: V, complete: V, life: Ttl)
    requires key !in values
    ensures var s1 := Serve(values, ttl, key, VisitGate(IsLegal(end, end)), Ok(q), partial, life);
      var s2 := Serve(s1.values, s1.ttl, key, VisitGate(IsLegal(end, end + 1)), Ok(q), complete, life);
      && key in s1.values && s1.values[key] == partial && key in s1.ttl && s1.ttl[key] == life
      && s2.result == Ok(partial) && s2.queried == None
  {
  }

  /** Under the intended rule the next day's request reaches the backend and returns its value. */
  lemma EligibleGateFreshAfterMidnight<Q, V>(values: map<string, V>, ttl: map<string, Ttl>, key: string,
                                             end: Day, q: Q, partial: V, complete: V, life: Ttl)
    requires key !in values
    ensures var s1 := Serve(values, ttl, key, EligibleGate(IsLegal(end, end)), Ok(q), partial, life);
      var s2 := Serve(s1.values, s1.ttl, key, EligibleGate(IsLegal(end, end + 1)), Ok(q), complete, life);
      key !in s1.values && s2.result == Ok(complete) && s2.queried == Some(q)
  {
  }

  /**
   * When `permitCache(end)` holds a sales request neither reads nor writes the store: the store
   * and the expiries are left as they were, and the response and the backend request are the
   * same whatever the store holds.
   */
  lemma PermittedSellBypassesStore<Q, V>(values1: map<string, V>, values2: map<string, V>, ttl: map<string, Ttl>,
                                         key: string, query: Result<Q, StreamError>, computed: V, life: Ttl)
    ensures var s1 := Serve(values1, ttl, key, SellGate(true), query, computed, life);
      var s2 := Serve(values2, ttl, key, SellGate(true), query, computed, life);
      && s1.values == values1 && s1.ttl == ttl
      && s1.result == s2.result && s1.queried == s2.queried
  {
  }
}
