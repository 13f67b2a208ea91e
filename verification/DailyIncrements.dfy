/** Adding one imported request to its day: the day's own counters and one bucket per dimension. */
module DailyIncrements {
  import opened Bytes
  import opened Json
  import opened DailyCounters

  type Amounts = map<string, real>

  /** One request, as the aggregate sees it. */
  datatype Usage = Usage(
    amounts: Amounts,
    provider: Option<string>,
    modelName: string,
    model: Json,
    account: Option<string>,
    endpoint: string
  )

  // ----- counters of one dictionary -----

  /** `target.get(key) or 0` of something numeric */
  function Counter(f: Fields, c: string): real
  {
    if c !in f then 0.0 else
    match f[c]
    case JNum(n) => n
    case JBool(b) => if b then 1.0 else 0.0
    case _ => 0.0
  }

  /** Adding a number to `target.get(key) or 0` does not raise. */
  predicate Addable(f: Fields, c: string)
  {
    c !in f || f[c].JNum? || f[c].JBool? || f[c] == JNull || f[c] == JStr("") || f[c] == JArr([]) || f[c] == JObj(map[])
  }

  /** Every counter raised by its amount, everything else as it was; None when one of them cannot be added to. */
  function Added(f: Fields, amounts: Amounts): Option<Fields>
    requires amounts.Keys == COUNTERS
  {
    if exists c :: c in COUNTERS && !Addable(f, c) then None
    else Some(map k | k in f.Keys + COUNTERS :: if k in COUNTERS then JNum(Counter(f, k) + amounts[k]) else f[k])
  }

  const COUNTER_ORDER: seq<string> :=
    ["requests", "promptTokens", "completionTokens", "cachedTokens", "cacheCreationTokens", "cost"]

  lemma CounterOrder()
    ensures COUNTERS == set c | c in COUNTER_ORDER
    ensures forall i, j :: 0 <= i < j < |COUNTER_ORDER| ==> COUNTER_ORDER[i] != COUNTER_ORDER[j]
  {
    assert COUNTER_ORDER[0] == "requests" && COUNTER_ORDER[1] == "promptTokens"
      && COUNTER_ORDER[2] == "completionTokens";
    assert COUNTER_ORDER[3] == "cachedTokens" && COUNTER_ORDER[4] == "cacheCreationTokens"
      && COUNTER_ORDER[5] == "cost";
    assert COUNTER_ORDER[1][0] == 'p' && COUNTER_ORDER[2][1] == 'o' && COUNTER_ORDER[3][1] == 'a';
  }

  /** Some of the counters raised. */
  ghost function AddedSome(f: Fields, amounts: Amounts, keys: set<string>): Fields
    requires keys <= amounts.Keys
  {
    map k | k in f.Keys + keys :: if k in keys then JNum(Counter(f, k) + amounts[k]) else f[k]
  }

  lemma AddOne(f: Fields, amounts: Amounts, keys: set<string>, c: string)
    requires keys <= amounts.Keys && c in amounts && c !in keys
    ensures var target := AddedSome(f, amounts, keys);
            && Addable(target, c) == Addable(f, c)
            && target[c := JNum(Counter(target, c) + amounts[c])] == AddedSome(f, amounts, keys + {c})
  {
  }

  /** The `add` closure. */
  method AddCounters(f: Fields, amounts: Amounts) returns (r: Option<Fields>)
    requires amounts.Keys == COUNTERS
    ensures r == Added(f, amounts)
  {
    hide COUNTERS, COUNTER_ORDER, Addable, Counter, AddedSome;
    CounterOrder();
    var target := f;
    ghost var done: set<string> := {};
    NoneAdded(f, amounts);
    for i := 0 to |COUNTER_ORDER|
      invariant done == set j | 0 <= j < i :: COUNTER_ORDER[j]
      invariant done <= COUNTERS && target == AddedSome(f, amounts, done)
      invariant forall c :: c in done ==> Addable(f, c)
    {
      var c := COUNTER_ORDER[i];
      AddOne(f, amounts, done, c);
      if !Addable(target, c) {
        return None;
      }
      target := target[c := JNum(Counter(target, c) + amounts[c])];
      done := done + {c};
    }
    assert done == COUNTERS;
    AllAdded(f, amounts);
    r := Some(target);
  }

  lemma NoneAdded(f: Fields, amounts: Amounts)
    ensures AddedSome(f, amounts, {}) == f
  {
  }

  lemma AllAdded(f: Fields, amounts: Amounts)
    requires amounts.Keys == COUNTERS && forall c :: c in COUNTERS ==> Addable(f, c)
    ensures Added(f, amounts) == Some(AddedSome(f, amounts, COUNTERS))
  {
  }

  // ----- one bucket, one day -----

  /** `day.setdefault(dimension, {})`, read: None when something else is stored there */
  function SubDictionary(f: Fields, key: string): Option<Fields>
  {
    if key !in f then Some(map[]) else if f[key].JObj? then Some(f[key].fields) else None
  }

  /** The buckets of a dimension after `key` gained the amounts and the notes. */
  function BumpKey(buckets: Fields, key: string, amounts: Amounts, meta: Fields): Option<Fields>
    requires amounts.Keys == COUNTERS
  {
    var bucket := SubDictionary(buckets, key);
    if bucket.None? then None else
    var target := Added(bucket.value, amounts);
    if target.None? then None else Some(buckets[key := JObj(target.value + meta)])
  }

  function Bump(f: Fields, d: Dimension, key: string, amounts: Amounts, meta: Fields): Option<Fields>
    requires amounts.Keys == COUNTERS
  {
    var buckets := SubDictionary(f, DimensionName(d));
    if buckets.None? then None else
    var next := BumpKey(buckets.value, key, amounts, meta);
    if next.None? then None else Some(f[DimensionName(d) := JObj(next.value)])
  }

  function Dimensions(): set<string>
  {
    set d: Dimension :: DimensionName(d)
  }

  function WithDimensions(f: Fields): Fields
  {
    map k | k in f.Keys + Dimensions() :: if k in f then f[k] else JObj(map[])
  }

  function Meta(u: Usage): Fields
  {
    map["rawModel" := u.model, "provider" := if u.provider.Some? then JStr(u.provider.value) else JNull]
  }

  /** The bucket a request goes to in a dimension, if any, and what is noted there beside the counters. */
  function Target(u: Usage, d: Dimension): Option<(string, Fields)>
  {
    var provider := if u.provider.Some? then u.provider.value else "unknown";
    match d
    case ByProvider => if u.provider.Some? then Some((u.provider.value, map[])) else None
    case ByModel => Some((u.modelName + (if u.provider.Some? then "|" + u.provider.value else ""), Meta(u)))
    case ByAccount => if u.account.Some? then Some((u.account.value, Meta(u))) else None
    case ByApiKey =>
      Some(("legacy-unavailable|" + u.modelName + "|" + provider,
            Meta(u)["apiKey" := JNull]["legacyKeyUnavailable" := JBool(true)]))
    case ByEndpoint => Some((u.endpoint + "|" + u.modelName + "|" + provider, Meta(u)["endpoint" := JStr(u.endpoint)]))
    case ByReasoning => None
  }

  function BumpDimension(f: Option<Fields>, u: Usage, d: Dimension): Option<Fields>
    requires u.amounts.Keys == COUNTERS
  {
    if f.None? then None else
    match Target(u, d)
    case None => f
    case Some((key, meta)) => Bump(f.value, d, key, u.amounts, meta)
  }

  /** The five buckets of one request. */
  function Bumps(f: Fields, u: Usage): Option<Fields>
    requires u.amounts.Keys == COUNTERS
  {
    var f1 := BumpDimension(Some(f), u, ByProvider);
    var f2 := BumpDimension(f1, u, ByModel);
    var f3 := BumpDimension(f2, u, ByAccount);
    var f4 := BumpDimension(f3, u, ByApiKey);
    BumpDimension(f4, u, ByEndpoint)
  }

  /** The day after one more request; None when the stored aggregate does not have the expected form. */
  function IncrementDay(day: Json, u: Usage): Option<Json>
    requires u.amounts.Keys == COUNTERS
  {
    if !day.JObj? then None else
    var f := Added(day.fields, u.amounts);
    if f.None? then None else
    var g := Bumps(WithDimensions(f.value), u);
    if g.None? then None else Some(JObj(g.value))
  }

  /** The `bucket` closure. */
  method BumpBucket(f: Fields, u: Usage, d: Dimension) returns (r: Option<Fields>)
    requires u.amounts.Keys == COUNTERS
    ensures r == BumpDimension(Some(f), u, d)
  {
    hide COUNTERS, Added, Target;
    if Target(u, d).None? {
      return Some(f);
    }
    var (key, meta) := Target(u, d).value;
    var buckets := SubDictionary(f, DimensionName(d));
    if buckets.None? {
      return None;
    }
    var bucket := SubDictionary(buckets.value, key);
    if bucket.None? {
      return None;
    }
    var target := AddCounters(bucket.value, u.amounts);
    if target.None? {
      return None;
    }
    r := Some(f[DimensionName(d) := JObj(buckets.value[key := JObj(target.value + meta)])]);
  }

  const BUCKET_ORDER: seq<Dimension> := [ByProvider, ByModel, ByAccount, ByApiKey, ByEndpoint]

  method IncrementDaily(day: Json, u: Usage) returns (r: Option<Json>)
    requires u.amounts.Keys == COUNTERS
    ensures r == IncrementDay(day, u)
  {
    hide COUNTERS, Added, WithDimensions, BumpDimension;
    if !day.JObj? {
      return None;
    }
    var total := AddCounters(day.fields, u.amounts);
    if total.None? {
      return None;
    }
    NothingToBump(u);
    var f := Some(WithDimensions(total.value));
    for i := 0 to |BUCKET_ORDER|
      invariant f.Some?
      invariant Bumps(WithDimensions(total.value), u) == BumpsFrom(f, u, i)
    {
      f := BumpBucket(f.value, u, BUCKET_ORDER[i]);
      if f.None? {
        return None;
      }
    }
    r := Some(JObj(f.value));
  }

  /** The buckets from the `i`-th on. */
  ghost function BumpsFrom(f: Option<Fields>, u: Usage, i: nat): Option<Fields>
    requires u.amounts.Keys == COUNTERS && i <= |BUCKET_ORDER|
  {
    var f1 := if i <= 0 then BumpDimension(f, u, ByProvider) else f;
    var f2 := if i <= 1 then BumpDimension(f1, u, ByModel) else f1;
    var f3 := if i <= 2 then BumpDimension(f2, u, ByAccount) else f2;
    var f4 := if i <= 3 then BumpDimension(f3, u, ByApiKey) else f3;
    if i <= 4 then BumpDimension(f4, u, ByEndpoint) else f4
  }

  lemma NothingToBump(u: Usage)
    requires u.amounts.Keys == COUNTERS
    ensures forall d :: BumpDimension(None, u, d) == None
  {
  }

  // ----- what an increment leaves -----

  function Buckets(f: Fields, d: Dimension): Fields
  {
    var buckets := SubDictionary(f, DimensionName(d));
    if buckets.Some? then buckets.value else map[]
  }

  /** Nothing but the entry `name` differs. */
  ghost predicate Only(f: Fields, g: Fields, name: string)
  {
    forall k :: k != name ==> (k in g <==> k in f) && (k in f ==> g[k] == f[k])
  }

  /** What became of one dimension. */
  predicate Bumped(f: Fields, g: Fields, u: Usage, d: Dimension)
    requires u.amounts.Keys == COUNTERS
  {
    var before, after := SubDictionary(f, DimensionName(d)), SubDictionary(g, DimensionName(d));
    match Target(u, d)
    case None => after == before
    case Some((key, meta)) => before.Some? && after.Some? && BumpKey(before.value, key, u.amounts, meta) == after
  }

  /** Counters raised, every dimension present and bumped on its own, everything else as it was. */
  ghost predicate Raised(f: Fields, g: Fields, u: Usage)
    requires u.amounts.Keys == COUNTERS
  {
    && (forall c :: c in COUNTERS ==> Addable(f, c) && c in g && g[c] == JNum(Counter(f, c) + u.amounts[c]))
    && (forall d :: DimensionName(d) in g && Bumped(f, g, u, d))
    && (forall k :: k !in COUNTERS && (forall d :: k != DimensionName(d)) ==>
       (k in g <==> k in f) && (k in f ==> g[k] == f[k]))
  }

  lemma BumpDimensionShape(f: Fields, u: Usage, d: Dimension)
    requires u.amounts.Keys == COUNTERS && BumpDimension(Some(f), u, d).Some?
    ensures var g := BumpDimension(Some(f), u, d).value; Only(f, g, DimensionName(d)) && Bumped(f, g, u, d)
  {
    hide COUNTERS, BumpKey, Target, DimensionName;
  }

  /** Bumps of other dimensions before and after change nothing for `d`. */
  lemma BumpedInside(f0: Fields, f: Fields, g: Fields, h: Fields, u: Usage, d: Dimension)
    requires u.amounts.Keys == COUNTERS && Bumped(f, g, u, d)
    requires SubDictionary(f0, DimensionName(d)) == SubDictionary(f, DimensionName(d))
    requires SubDictionary(h, DimensionName(d)) == SubDictionary(g, DimensionName(d))
    ensures Bumped(f0, h, u, d)
  {
  }

  lemma OnlyElsewhere(f: Fields, g: Fields, e: Dimension)
    requires Only(f, g, DimensionName(e))
    ensures forall d: Dimension :: d != e ==> SubDictionary(g, DimensionName(d)) == SubDictionary(f, DimensionName(d))
    ensures forall k :: (forall d :: k != DimensionName(d)) ==> (k in g <==> k in f) && (k in f ==> g[k] == f[k])
  {
    hide DimensionName;
    forall d: Dimension | d != e ensures SubDictionary(g, DimensionName(d)) == SubDictionary(f, DimensionName(d)) {
      DimensionNames(d, e);
    }
  }

  lemma BumpsShape(f: Fields, u: Usage)
    requires u.amounts.Keys == COUNTERS && Bumps(f, u).Some?
    ensures var g := Bumps(f, u).value;
            && (forall d :: Bumped(f, g, u, d))
            && forall k :: (forall d :: k != DimensionName(d)) ==> (k in g <==> k in f) && (k in f ==> g[k] == f[k])
  {
    hide COUNTERS, BumpDimension, Bumped, Only, SubDictionary, DimensionName;
    NothingToBump(u);
    var f1 := BumpDimension(Some(f), u, ByProvider).value;
    var f2 := BumpDimension(Some(f1), u, ByModel).value;
    var f3 := BumpDimension(Some(f2), u, ByAccount).value;
    var f4 := BumpDimension(Some(f3), u, ByApiKey).value;
    var f5 := BumpDimension(Some(f4), u, ByEndpoint).value;
    BumpDimensionShape(f, u, ByProvider);
    BumpDimensionShape(f1, u, ByModel);
    BumpDimensionShape(f2, u, ByAccount);
    BumpDimensionShape(f3, u, ByApiKey);
    BumpDimensionShape(f4, u, ByEndpoint);
    OnlyElsewhere(f, f1, ByProvider);
    OnlyElsewhere(f1, f2, ByModel);
    OnlyElsewhere(f2, f3, ByAccount);
    OnlyElsewhere(f3, f4, ByApiKey);
    OnlyElsewhere(f4, f5, ByEndpoint);
    BumpedInside(f, f, f1, f5, u, ByProvider);
    BumpedInside(f, f1, f2, f5, u, ByModel);
    BumpedInside(f, f2, f3, f5, u, ByAccount);
    BumpedInside(f, f3, f4, f5, u, ByApiKey);
    BumpedInside(f, f4, f5, f5, u, ByEndpoint);
    NoReasoningBucket(f, f5, u);
    forall d ensures Bumped(f, f5, u, d) {
      match d {
        case ByProvider =>
        case ByModel =>
        case ByAccount =>
        case ByApiKey =>
        case ByEndpoint =>
        case ByReasoning =>
      }
    }
  }

  lemma NoReasoningBucket(f: Fields, g: Fields, u: Usage)
    requires u.amounts.Keys == COUNTERS
             && SubDictionary(f, DimensionName(ByReasoning)) == SubDictionary(g, DimensionName(ByReasoning))
    ensures Bumped(f, g, u, ByReasoning)
  {
  }

  lemma StartsShape(f: Fields, amounts: Amounts, g: Fields)
    requires amounts.Keys == COUNTERS && Added(f, amounts).Some? && g == WithDimensions(Added(f, amounts).value)
    ensures forall c :: c in COUNTERS ==> Addable(f, c) && c in g && g[c] == JNum(Counter(f, c) + amounts[c])
    ensures forall d ::
              && DimensionName(d) in g
              && SubDictionary(g, DimensionName(d)) == SubDictionary(f, DimensionName(d))
    ensures forall k :: k !in COUNTERS && (forall d :: k != DimensionName(d)) ==>
            (k in g <==> k in f) && (k in f ==> g[k] == f[k])
  {
    hide COUNTERS, Counter, Addable, DimensionName;
    forall d ensures DimensionName(d) in g && SubDictionary(g, DimensionName(d)) == SubDictionary(f, DimensionName(d)) {
      DimensionNames(d, d);
    }
  }

  /** The day after an increment, entry by entry. */
  lemma IncrementShape(day: Json, u: Usage)
    requires u.amounts.Keys == COUNTERS && IncrementDay(day, u).Some?
    ensures day.JObj? && IncrementDay(day, u).value.JObj? && Raised(day.fields, IncrementDay(day, u).value.fields, u)
  {
    hide COUNTERS, Added, WithDimensions, Bumps, Bumped, SubDictionary, DimensionName, Addable, Counter;
    var f := day.fields;
    var f0 := WithDimensions(Added(f, u.amounts).value);
    var g := Bumps(f0, u).value;
    StartsShape(f, u.amounts, f0);
    BumpsShape(f0, u);
    forall c | c in COUNTERS ensures c in g && g[c] == f0[c] {
      forall d ensures c != DimensionName(d) {
        DimensionNames(d, d);
      }
    }
    forall d ensures DimensionName(d) in g && Bumped(f, g, u, d) {
      BumpedInside(f, f0, g, g, u, d);
      BumpsKeepEntries(f0, u, DimensionName(d));
    }
  }

  lemma BumpsKeepEntries(f: Fields, u: Usage, k: string)
    requires u.amounts.Keys == COUNTERS && Bumps(f, u).Some? && k in f
    ensures k in Bumps(f, u).value
  {
    hide COUNTERS, BumpKey, Target, DimensionName;
  }

  // ----- sums over buckets -----

  function CounterOf(v: Json, c: string): real
  {
    if v.JObj? then Counter(v.fields, c) else 0.0
  }

  /** A counter of a bucket, 0 when there is no such bucket. */
  function BucketCounter(day: Json, d: Dimension, key: string, c: string): real
  {
    if day.JObj? && key in Buckets(day.fields, d) then CounterOf(Buckets(day.fields, d)[key], c) else 0.0
  }

  /** Sum of one counter over all entries of a dictionary. */
  ghost function Total(m: Fields, c: string): real
    decreases |m|
  {
    if m == map[] then 0.0 else
    var k :| k in m;
    CounterOf(m[k], c) + Total(m - {k}, c)
  }

  lemma {:induction false} TotalAt(m: Fields, c: string, k: string)
    requires k in m
    ensures Total(m, c) == CounterOf(m[k], c) + Total(m - {k}, c)
    decreases |m|
  {
    hide CounterOf;
    var p :| p in m && Total(m, c) == CounterOf(m[p], c) + Total(m - {p}, c);
    if p != k {
      TotalAt(m - {p}, c, k);
      TotalAt(m - {k}, c, p);
      assert m - {p} - {k} == m - {k} - {p};
    }
  }

  lemma TotalUpdate(m: Fields, c: string, k: string, v: Json)
    ensures Total(m[k := v], c) == Total(m, c) + CounterOf(v, c) - (if k in m then CounterOf(m[k], c) else 0.0)
  {
    hide CounterOf;
    TotalAt(m[k := v], c, k);
    if k in m {
      TotalAt(m, c, k);
      assert m[k := v] - {k} == m - {k};
    } else {
      assert m[k := v] - {k} == m;
    }
  }

  /** How far the buckets of a dimension are from the day's own counter. */
  ghost function Imbalance(day: Json, d: Dimension, c: string): real
  {
    if day.JObj? then Total(Buckets(day.fields, d), c) - Counter(day.fields, c) else 0.0
  }

  lemma MetaHasNoCounters(u: Usage, d: Dimension)
    ensures Target(u, d).Some? ==> Target(u, d).value.1.Keys !! COUNTERS
  {
    var names := {"rawModel", "provider", "apiKey", "legacyKeyUnavailable", "endpoint"};
    assert names !! COUNTERS by {
      assert "provider"[1] == 'r' && "provider"[2] == 'o' && |"requests"| == |"rawModel"|;
      assert "rawModel"[1] == 'a' && "requests"[1] == 'e';
    }
  }

  /** A bucket gains the amounts, and the total of its dimension exactly as much. */
  lemma BumpKeyMoves(buckets: Fields, key: string, amounts: Amounts, meta: Fields, c: string)
    requires amounts.Keys == COUNTERS && c in COUNTERS && meta.Keys !! COUNTERS
             && BumpKey(buckets, key, amounts, meta).Some?
    ensures Total(BumpKey(buckets, key, amounts, meta).value, c) == Total(buckets, c) + amounts[c]
  {
    hide Total, COUNTERS;
    var bucket := SubDictionary(buckets, key).value;
    var target := Added(bucket, amounts).value;
    assert c !in meta;
    assert Counter(target + meta, c) == Counter(bucket, c) + amounts[c];
    TotalUpdate(buckets, c, key, JObj(target + meta));
  }

  /**
   * Conservation: the day gains the amounts, and so do the buckets of every dimension the request has a
   * bucket in; the others fall behind by exactly the amounts.
   */
  lemma IncrementBalance(day: Json, u: Usage, e: Dimension, c: string)
    requires u.amounts.Keys == COUNTERS && c in COUNTERS && IncrementDay(day, u).Some?
    ensures var after := IncrementDay(day, u).value;
            && CounterOf(after, c) == CounterOf(day, c) + u.amounts[c]
            && Imbalance(after, e, c) == Imbalance(day, e, c) - (if Target(u, e).Some? then 0.0 else u.amounts[c])
  {
    hide IncrementDay, BumpKey, Total, COUNTERS, Target, Addable, DimensionName;
    IncrementShape(day, u);
    var f, g := day.fields, IncrementDay(day, u).value.fields;
    assert Bumped(f, g, u, e);
    if Target(u, e).Some? {
      var (key, meta) := Target(u, e).value;
      MetaHasNoCounters(u, e);
      BumpKeyMoves(Buckets(f, e), key, u.amounts, meta, c);
    }
  }

  // ----- notes -----

  /** What a bucket says about its requests beside the counters. */
  predicate Noted(bucket: Json, u: Usage, d: Dimension)
  {
    var b := Some(bucket);
    && bucket.JObj?
    && (d != ByProvider ==>
         && Get(b, "rawModel") == Some(u.model)
         && Get(b, "provider") == Some(if u.provider.Some? then JStr(u.provider.value) else JNull))
    && (d == ByApiKey ==> Get(b, "apiKey") == Some(JNull) && Get(b, "legacyKeyUnavailable") == Some(JBool(true)))
    && (d == ByEndpoint ==> Get(b, "endpoint") == Some(JStr(u.endpoint)))
  }

  lemma BumpKeyNotes(m: Fields, u: Usage, d: Dimension)
    requires u.amounts.Keys == COUNTERS && Target(u, d).Some?
    requires BumpKey(m, Target(u, d).value.0, u.amounts, Target(u, d).value.1).Some?
    ensures var (key, meta) := Target(u, d).value;
            var n := BumpKey(m, key, u.amounts, meta).value;
            key in n && Noted(n[key], u, d)
  {
    hide COUNTERS, Addable, Counter;
  }

  /** Every bucket a request goes to names its model and provider, and its key and endpoint where they matter. */
  lemma BucketNotes(day: Json, u: Usage, d: Dimension)
    requires u.amounts.Keys == COUNTERS && IncrementDay(day, u).Some? && Target(u, d).Some?
    ensures IncrementDay(day, u).value.JObj?
    ensures var buckets := Buckets(IncrementDay(day, u).value.fields, d);
            Target(u, d).value.0 in buckets && Noted(buckets[Target(u, d).value.0], u, d)
  {
    hide IncrementDay, COUNTERS, Target, DimensionName, Noted, BumpKey, Addable, Counter;
    IncrementShape(day, u);
    var f, g := day.fields, IncrementDay(day, u).value.fields;
    assert Bumped(f, g, u, d);
    BumpKeyNotes(Buckets(f, d), u, d);
  }
}
