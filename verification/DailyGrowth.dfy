/** Exactly when an increment lets no counter of a day fall, so that no receipt taken of it is undercut. */
module DailyGrowth {
  import opened Bytes
  import opened Json
  import opened DailyCounters
  import opened DailyIncrements

  // ----- one bucket -----

  /** Numbers under counter names meet no negative amount, and a note replaces nothing that counts for more. */
  predicate BucketSafe(b: Fields, amounts: Amounts, meta: Fields, whole: bool)
    requires amounts.Keys == COUNTERS
  {
    forall k :: k in b ==>
      && (k in COUNTERS && b[k].JNum? ==> amounts[k] >= 0.0)
      && (k in meta ==> EntryGrows(b[k], Some(meta[k]), whole))
  }

  lemma SameEntryGrows(v: Json, counts: bool)
    ensures EntryGrows(v, Some(v), counts)
  {
    GrowsReflexive(v, counts);
  }

  lemma BucketGrowsIff(b: Fields, amounts: Amounts, meta: Fields, whole: bool)
    requires amounts.Keys == COUNTERS && meta.Keys !! COUNTERS && Added(b, amounts).Some?
    ensures Grows(JObj(b), Some(JObj(Added(b, amounts).value + meta)), whole) <==> BucketSafe(b, amounts, meta, whole)
  {
    hide COUNTERS;
    var t := Added(b, amounts).value + meta;
    forall k | k in b
      ensures EntryGrows(b[k], Get(Some(JObj(t)), k), whole || k in COUNTERS) <==>
                && (k in COUNTERS && b[k].JNum? ==> amounts[k] >= 0.0)
                && (k in meta ==> EntryGrows(b[k], Some(meta[k]), whole))
    {
      if k in COUNTERS {
        assert Addable(b, k) && t[k] == JNum(Counter(b, k) + amounts[k]);
      } else if k !in meta {
        SameEntryGrows(b[k], whole);
      }
    }
  }

  /** Replacing one entry. */
  lemma PutGrowsIff(f: Fields, k: string, v: Json, whole: bool)
    ensures Grows(JObj(f), Some(JObj(f[k := v])), whole)
            <==> (k in f ==> EntryGrows(f[k], Some(v), whole || k in COUNTERS))
  {
    hide COUNTERS;
    var g := f[k := v];
    forall j | j in f && j != k ensures EntryGrows(f[j], Get(Some(JObj(g)), j), whole || j in COUNTERS) {
      SameEntryGrows(f[j], whole || j in COUNTERS);
    }
    assert Get(Some(JObj(g)), k) == Some(v);
  }

  // ----- one dimension, one day -----

  /** The bucket the request goes to, if it exists, is safe. */
  predicate DimensionSafe(f: Fields, u: Usage, d: Dimension)
    requires u.amounts.Keys == COUNTERS
  {
    match Target(u, d)
    case None => true
    case Some((key, meta)) =>
      var buckets := Buckets(f, d);
      key in buckets && buckets[key].JObj? ==> BucketSafe(buckets[key].fields, u.amounts, meta, key in COUNTERS)
  }

  /** What can be seen of a day and a request beforehand. */
  ghost predicate DaySafe(f: Fields, u: Usage)
    requires u.amounts.Keys == COUNTERS
  {
    (forall c :: c in COUNTERS && c in f && f[c].JNum? ==> u.amounts[c] >= 0.0) && forall d :: DimensionSafe(f, u, d)
  }

  lemma BucketsGrowIff(m: Fields, key: string, amounts: Amounts, meta: Fields)
    requires amounts.Keys == COUNTERS && meta.Keys !! COUNTERS && BumpKey(m, key, amounts, meta).Some?
    ensures Grows(JObj(m), Some(JObj(BumpKey(m, key, amounts, meta).value)), false)
       <==> (key in m ==> BucketSafe(m[key].fields, amounts, meta, key in COUNTERS))
  {
    hide COUNTERS, Grows, Added, BucketSafe;
    var b := SubDictionary(m, key).value;
    var t := Added(b, amounts).value + meta;
    PutGrowsIff(m, key, JObj(t), false);
    BucketGrowsIff(b, amounts, meta, key in COUNTERS);
  }

  lemma DimensionGrowsIff(f: Fields, g: Fields, u: Usage, d: Dimension)
    requires u.amounts.Keys == COUNTERS && Bumped(f, g, u, d) && DimensionName(d) in f && DimensionName(d) in g
    ensures EntryGrows(f[DimensionName(d)], Get(Some(JObj(g)), DimensionName(d)), false) <==> DimensionSafe(f, u, d)
  {
    hide COUNTERS, BucketSafe, Target, DimensionName;
    var name := DimensionName(d);
    if f[name].JObj? {
      var m := f[name].fields;
      match Target(u, d) {
        case None =>
          assert g[name] == f[name];
          GrowsReflexive(f[name], false);
        case Some((key, meta)) =>
          MetaHasNoCounters(u, d);
          assert g[name] == JObj(BumpKey(m, key, u.amounts, meta).value);
          BucketsGrowIff(m, key, u.amounts, meta);
      }
    }
  }

  lemma EntryGrowsIff(f: Fields, g: Fields, u: Usage, k: string)
    requires u.amounts.Keys == COUNTERS && Raised(f, g, u) && k in f
    ensures EntryGrows(f[k], Get(Some(JObj(g)), k), k in COUNTERS) <==>
              && (k in COUNTERS && f[k].JNum? ==> u.amounts[k] >= 0.0)
              && (forall d :: DimensionName(d) == k ==> DimensionSafe(f, u, d))
  {
    hide COUNTERS, Bumped, DimensionSafe, DimensionName, Grows;
    if exists d :: DimensionName(d) == k {
      var d :| DimensionName(d) == k;
      DimensionNames(d, d);
      forall e ensures DimensionName(e) == k <==> e == d {
        DimensionNames(d, e);
      }
      DimensionGrowsIff(f, g, u, d);
    } else if k in COUNTERS {
      assert Addable(f, k) && g[k] == JNum(Counter(f, k) + u.amounts[k]);
      NothingInside(f[k], Get(Some(JObj(g)), k));
    } else {
      SameEntryGrows(f[k], false);
    }
  }

  lemma NothingInside(v: Json, next: Option<Json>)
    ensures v == JObj(map[]) ==> EntryGrows(v, next, true)
  {
  }

  lemma UnusedDimension(f: Fields, u: Usage, d: Dimension)
    requires u.amounts.Keys == COUNTERS && DimensionName(d) !in f
    ensures DimensionSafe(f, u, d)
  {
  }

  /** A request lets no counted number of the day fall exactly when day and request are safe for each other. */
  lemma IncrementGrowsIff(day: Json, u: Usage)
    requires u.amounts.Keys == COUNTERS && IncrementDay(day, u).Some?
    ensures day.JObj? && (Grows(day, IncrementDay(day, u), false) <==> DaySafe(day.fields, u))
  {
    hide COUNTERS, IncrementDay, EntryGrows, DimensionSafe, DimensionName, Raised;
    IncrementShape(day, u);
    var f, g := day.fields, IncrementDay(day, u).value.fields;
    forall k | k in f
      ensures EntryGrows(f[k], Get(Some(JObj(g)), k), k in COUNTERS) <==>
                && (k in COUNTERS && f[k].JNum? ==> u.amounts[k] >= 0.0)
                && (forall d :: DimensionName(d) == k ==> DimensionSafe(f, u, d))
    {
      EntryGrowsIff(f, g, u, k);
    }
    forall d | DimensionName(d) !in f ensures DimensionSafe(f, u, d) {
      UnusedDimension(f, u, d);
    }
  }

  // ----- days and requests that are always safe for each other -----

  /** Where the importer and the live proxy write notes. */
  const META: set<string> :=
    {"rawModel", "provider", "apiKey", "legacyKeyUnavailable", "reasoningEffort", "endpoint"}

  lemma MetaIsNoCounter()
    ensures META !! COUNTERS
  {
    assert "reasoningEffort"[1] == 'e' && "provider"[1] == 'r' && "provider"[2] == 'o';
    assert "rawModel"[1] == 'a' && "requests"[1] == 'e';
  }

  /** An entry that holds nothing that counts. */
  predicate Idle(v: Json, counts: bool)
  {
    EntryGrows(v, None, counts)
  }

  lemma IdleGrows(v: Json, next: Option<Json>, counts: bool)
    requires Idle(v, counts)
    ensures EntryGrows(v, next, counts)
  {
    if v.JObj? {
      NothingCounts(v, None, next, counts);
    }
  }

  /** No dictionary that counts sits where a counter belongs, and nothing that counts where notes are written. */
  predicate CalmBucket(b: Fields, whole: bool)
  {
    forall k :: k in b ==> (k in COUNTERS && b[k].JObj? ==> Idle(b[k], true)) && (k in META ==> Idle(b[k], whole))
  }

  predicate CalmSlot(v: Json, counts: bool)
  {
    match v
    case JObj(b) => CalmBucket(b, counts)
    case JNum(_) => !counts
    case _ => true
  }

  /** A day on which no update with non-negative amounts can lose a counter. */
  ghost predicate CalmDay(f: Fields)
  {
    && (forall c :: c in COUNTERS && c in f && f[c].JObj? ==> Idle(f[c], true))
    && forall d, key :: key in Buckets(f, d) ==> CalmSlot(Buckets(f, d)[key], key in COUNTERS)
  }

  predicate IdleNotes(meta: Fields, whole: bool)
  {
    forall k :: k in meta ==> Idle(meta[k], whole)
  }

  /** Amounts are not negative, and no note counts, as is the case when the model is text. */
  ghost predicate Regular(u: Usage)
  {
    && u.amounts.Keys == COUNTERS
    && (forall c :: c in u.amounts ==> u.amounts[c] >= 0.0)
    && forall d :: Target(u, d).Some? ==> IdleNotes(Target(u, d).value.1, Target(u, d).value.0 in COUNTERS)
  }

  lemma TextModelIsRegular(u: Usage)
    requires u.amounts.Keys == COUNTERS && (forall c :: c in u.amounts ==> u.amounts[c] >= 0.0)
    requires !u.model.JNum? && !u.model.JObj?
    ensures Regular(u)
  {
    hide COUNTERS;
  }

  lemma MetaNames(u: Usage, d: Dimension)
    ensures Target(u, d).Some? ==> Target(u, d).value.1.Keys <= META
  {
  }

  lemma CalmBucketSafe(b: Fields, amounts: Amounts, meta: Fields, whole: bool)
    requires amounts.Keys == COUNTERS && (forall c :: c in amounts ==> amounts[c] >= 0.0)
    requires meta.Keys <= META && CalmBucket(b, whole)
    ensures BucketSafe(b, amounts, meta, whole)
  {
    hide COUNTERS, META;
    forall k | k in b && k in meta ensures EntryGrows(b[k], Some(meta[k]), whole) {
      IdleGrows(b[k], Some(meta[k]), whole);
    }
  }

  lemma CalmBucketStays(b: Fields, amounts: Amounts, meta: Fields, whole: bool)
    requires amounts.Keys == COUNTERS && Added(b, amounts).Some? && META !! COUNTERS && meta.Keys !! COUNTERS
    requires CalmBucket(b, whole) && IdleNotes(meta, whole)
    ensures CalmBucket(Added(b, amounts).value + meta, whole)
  {
    hide COUNTERS, META, Idle;
  }

  lemma CalmDimensionStays(f: Fields, g: Fields, u: Usage, d: Dimension, j: string)
    requires Regular(u) && CalmDay(f) && Bumped(f, g, u, d) && j in Buckets(g, d)
    ensures CalmSlot(Buckets(g, d)[j], j in COUNTERS)
  {
    hide COUNTERS, META, Added, Target, DimensionName, CalmBucket;
    MetaIsNoCounter();
    MetaHasNoCounters(u, d);
    if Target(u, d).Some? {
      var (key, meta) := Target(u, d).value;
      var b := SubDictionary(Buckets(f, d), key).value;
      assert CalmBucket(b, key in COUNTERS) by { EmptyIsCalm(key in COUNTERS); }
      CalmBucketStays(b, u.amounts, meta, key in COUNTERS);
      assert Buckets(g, d) == Buckets(f, d)[key := JObj(Added(b, u.amounts).value + meta)];
      assert j != key ==> Buckets(g, d)[j] == Buckets(f, d)[j];
    } else {
      assert Buckets(g, d) == Buckets(f, d);
    }
  }

  lemma EmptyIsCalm(whole: bool)
    ensures CalmBucket(map[], whole)
  {
  }

  lemma CalmIsSafe(f: Fields, u: Usage, d: Dimension)
    requires Regular(u) && CalmDay(f)
    ensures DimensionSafe(f, u, d)
  {
    hide COUNTERS, META, Target, CalmBucket, BucketSafe;
    MetaNames(u, d);
    if Target(u, d).Some? {
      var (key, meta) := Target(u, d).value;
      if key in Buckets(f, d) && Buckets(f, d)[key].JObj? {
        CalmBucketSafe(Buckets(f, d)[key].fields, u.amounts, meta, key in COUNTERS);
      }
    }
  }

  /** A regular request lets a calm day grow and leaves it calm, so the next one does too. */
  lemma CalmDayGrows(day: Json, u: Usage)
    requires Regular(u) && day.JObj? && CalmDay(day.fields) && IncrementDay(day, u).Some?
    ensures var after := IncrementDay(day, u).value;
            after.JObj? && CalmDay(after.fields) && Grows(day, Some(after), false)
  {
    hide COUNTERS, IncrementDay, Grows, CalmSlot, DimensionSafe, Bumped, Buckets, DimensionName, Idle;
    IncrementShape(day, u);
    IncrementGrowsIff(day, u);
    var f, g := day.fields, IncrementDay(day, u).value.fields;
    forall d ensures DimensionSafe(f, u, d) {
      CalmIsSafe(f, u, d);
    }
    forall d, j | j in Buckets(g, d) ensures CalmSlot(Buckets(g, d)[j], j in COUNTERS) {
      CalmDimensionStays(f, g, u, d, j);
    }
  }

  // ----- days that lose a counter -----

  /** A dictionary that holds none of the dimensions and only numbers under counter names takes every request. */
  lemma PlainDayTakes(f: Fields, u: Usage)
    requires u.amounts.Keys == COUNTERS
    requires (forall d :: DimensionName(d) !in f) && forall c :: c in COUNTERS ==> Addable(f, c)
    ensures IncrementDay(JObj(f), u).Some?
  {
    hide COUNTERS, Addable, Counter, Target, DimensionName;
    var f0 := WithDimensions(Added(f, u.amounts).value);
    StartsShape(f, u.amounts, f0);
    PlainBumps(f0, u);
  }

  lemma NewBucketWorks(amounts: Amounts, key: string, meta: Fields)
    requires amounts.Keys == COUNTERS
    ensures BumpKey(map[], key, amounts, meta).Some?
  {
  }

  lemma PlainBump(f: Option<Fields>, u: Usage, d: Dimension)
    requires u.amounts.Keys == COUNTERS && f.Some? && Buckets(f.value, d) == map[]
             && SubDictionary(f.value, DimensionName(d)).Some?
    ensures BumpDimension(f, u, d).Some? && Only(f.value, BumpDimension(f, u, d).value, DimensionName(d))
  {
    hide COUNTERS, Target, BumpKey, DimensionName;
    if Target(u, d).Some? {
      NewBucketWorks(u.amounts, Target(u, d).value.0, Target(u, d).value.1);
    }
  }

  lemma PlainBumps(f: Fields, u: Usage)
    requires u.amounts.Keys == COUNTERS && forall d :: SubDictionary(f, DimensionName(d)) == Some(map[])
    ensures Bumps(f, u).Some?
  {
    hide COUNTERS, BumpDimension, SubDictionary, DimensionName, Only;
    var f1 := BumpDimension(Some(f), u, ByProvider);
    PlainBump(Some(f), u, ByProvider);
    OnlyElsewhere(f, f1.value, ByProvider);
    var f2 := BumpDimension(f1, u, ByModel);
    PlainBump(f1, u, ByModel);
    OnlyElsewhere(f1.value, f2.value, ByModel);
    var f3 := BumpDimension(f2, u, ByAccount);
    PlainBump(f2, u, ByAccount);
    OnlyElsewhere(f2.value, f3.value, ByAccount);
    var f4 := BumpDimension(f3, u, ByApiKey);
    PlainBump(f3, u, ByApiKey);
    OnlyElsewhere(f3.value, f4.value, ByApiKey);
    PlainBump(f4, u, ByEndpoint);
  }

  /** Five stored prompt tokens and a row with minus one: the day is taken and its counter falls. */
  lemma NegativeRowFalls(u: Usage)
    requires u.amounts.Keys == COUNTERS && u.amounts["promptTokens"] == -1.0
    ensures var day := JObj(map["promptTokens" := JNum(5.0)]);
            IncrementDay(day, u).Some? && !Grows(day, IncrementDay(day, u), false)
  {
    hide IncrementDay;
    var f: Fields := map["promptTokens" := JNum(5.0)];
    forall d ensures DimensionName(d) !in f {
      DimensionNames(d, d);
    }
    PlainDayTakes(f, u);
    IncrementGrowsIff(JObj(f), u);
  }
}
