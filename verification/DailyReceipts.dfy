/** Which requests leave a day that a receipt can be taken of, and which spoil it. */
module DailyReceipts {
  import opened Bytes
  import opened Json
  import opened DailyCounters
  import opened DailyIncrements
  import opened DailyGrowth

  // ----- increments that keep a day receiptable -----

  /** No bucket that a counter's name labels gets notes, and notes hold nothing a receipt stumbles over. */
  ghost predicate Sound(u: Usage)
  {
    forall d :: Target(u, d).Some? ==>
      var (key, meta) := Target(u, d).value;
      (key in COUNTERS ==> meta == map[]) && forall k :: k in meta ==> Receiptable(meta[k])
  }

  lemma AddedStaysNumbers(b: Fields, amounts: Amounts)
    requires amounts.Keys == COUNTERS && Added(b, amounts).Some? && AllNumbers(JObj(b))
    ensures AllNumbers(JObj(Added(b, amounts).value))
  {
    hide COUNTERS, Addable;
  }

  lemma AddedStaysReceiptable(b: Fields, amounts: Amounts, meta: Fields)
    requires amounts.Keys == COUNTERS && Added(b, amounts).Some? && Receiptable(JObj(b))
    requires meta.Keys !! COUNTERS && forall k :: k in meta ==> Receiptable(meta[k])
    ensures Receiptable(JObj(Added(b, amounts).value + meta))
  {
    hide COUNTERS, Addable;
  }

  lemma BucketsStayReceiptable(m: Fields, key: string, amounts: Amounts, meta: Fields)
    requires amounts.Keys == COUNTERS && meta.Keys !! COUNTERS && BumpKey(m, key, amounts, meta).Some?
    requires Receiptable(JObj(m)) && (key in COUNTERS ==> meta == map[])
    requires forall k :: k in meta ==> Receiptable(meta[k])
    ensures Receiptable(JObj(BumpKey(m, key, amounts, meta).value))
  {
    hide COUNTERS, Added;
    var b := SubDictionary(m, key).value;
    var t := Added(b, amounts).value + meta;
    if key in COUNTERS {
      assert AllNumbers(JObj(b));
      AddedStaysNumbers(b, amounts);
      assert t == Added(b, amounts).value;
    } else {
      assert Receiptable(JObj(b));
      AddedStaysReceiptable(b, amounts, meta);
    }
  }

  lemma DimensionStaysReceiptable(f: Fields, g: Fields, u: Usage, d: Dimension)
    requires u.amounts.Keys == COUNTERS && Sound(u) && Receiptable(JObj(f)) && Bumped(f, g, u, d)
             && DimensionName(d) in g
    ensures g[DimensionName(d)].JObj? ==> Receiptable(g[DimensionName(d)])
  {
    hide COUNTERS, Target, DimensionName, BumpKey;
    var name := DimensionName(d);
    DimensionNames(d, d);
    assert Receiptable(JObj(Buckets(f, d))) by { EmptyIsReceiptable(); }
    if Target(u, d).Some? {
      var (key, meta) := Target(u, d).value;
      MetaHasNoCounters(u, d);
      BucketsStayReceiptable(Buckets(f, d), key, u.amounts, meta);
    }
  }

  lemma EmptyIsReceiptable()
    ensures Receiptable(JObj(map[]))
  {
  }

  /** A sound request keeps its day receiptable. */
  lemma SoundStaysReceiptable(day: Json, u: Usage)
    requires u.amounts.Keys == COUNTERS && Sound(u) && Receiptable(day) && IncrementDay(day, u).Some?
    ensures Receiptable(IncrementDay(day, u).value)
  {
    hide COUNTERS, IncrementDay, Bumped, DimensionName, Addable, Counter;
    IncrementShape(day, u);
    var f, g := day.fields, IncrementDay(day, u).value.fields;
    forall k | k in g && g[k].JObj? ensures k !in COUNTERS && Receiptable(g[k]) {
      if exists d :: k == DimensionName(d) {
        var d :| k == DimensionName(d);
        DimensionNames(d, d);
        DimensionStaysReceiptable(f, g, u, d);
      } else {
        assert k !in COUNTERS && k in f && g[k] == f[k];
      }
    }
  }

  // ----- which requests are sound -----

  lemma CountersHaveNoBar(c: string)
    requires c in COUNTERS
    ensures '|' !in c && c != "" && c[0] != 'l'
  {
  }

  lemma BarredKey(a: string, b: string)
    ensures a + "|" + b !in COUNTERS
  {
    hide COUNTERS;
    var key := a + "|" + b;
    assert key[|a|] == '|';
    if key in COUNTERS {
      CountersHaveNoBar(key);
      assert false;
    }
  }

  /** A request for a model that is called like a counter, its provider unknown. */
  predicate CounterNamed(u: Usage)
  {
    u.provider.None? && u.modelName in COUNTERS
  }

  lemma SoundWhen(u: Usage)
    requires !CounterNamed(u) && (u.account.Some? ==> u.account.value !in COUNTERS) && Receiptable(u.model)
    ensures Sound(u)
  {
    hide COUNTERS, Receiptable;
    var provider := if u.provider.Some? then u.provider.value else "unknown";
    PlainIsReceiptable();
    forall d | Target(u, d).Some? ensures Target(u, d).value.0 in COUNTERS ==> Target(u, d).value.1 == map[] {
      match d {
        case ByModel =>
          if u.provider.Some? {
            BarredKey(u.modelName, u.provider.value);
            assert u.modelName + ("|" + u.provider.value) == u.modelName + "|" + u.provider.value;
          } else {
            assert u.modelName + "" == u.modelName;
          }
        case ByApiKey => BarredKey("legacy-unavailable|" + u.modelName, provider);
        case ByEndpoint => BarredKey(u.endpoint + "|" + u.modelName, provider);
        case _ =>
      }
    }
  }

  lemma PlainIsReceiptable()
    ensures forall v: Json :: !v.JObj? ==> Receiptable(v)
  {
  }

  // ----- requests that spoil their day -----

  /** A model bucket that a counter's name labels, with the provider noted in it. */
  ghost predicate NotedCounter(f: Fields, key: string)
  {
    var buckets := Buckets(f, ByModel);
    && key in COUNTERS && key in buckets && buckets[key].JObj?
    && "provider" in buckets[key].fields && !buckets[key].fields["provider"].JNum?
       && !buckets[key].fields["provider"].JObj?
  }

  lemma NotedCounterFails(f: Fields, key: string)
    requires NotedCounter(f, key)
    ensures !Receiptable(JObj(f))
  {
    hide COUNTERS, DimensionName;
    DimensionNames(ByModel, ByModel);
    var bucket := Buckets(f, ByModel)[key];
    assert !AllNumbers(bucket.fields["provider"]);
    assert !AllNumbers(bucket);
    assert !Receiptable(JObj(Buckets(f, ByModel)));
  }

  lemma ModelMeta(u: Usage)
    ensures Target(u, ByModel).Some?
    ensures var meta := Target(u, ByModel).value.1;
            "provider" in meta && !meta["provider"].JNum? && !meta["provider"].JObj?
    ensures CounterNamed(u) ==> Target(u, ByModel).value.0 == u.modelName
    ensures "provider" !in COUNTERS
  {
    assert "provider"[1] == 'r' && "provider"[2] == 'o';
  }

  lemma AddedKeeps(f: Fields, amounts: Amounts, k: string)
    requires amounts.Keys == COUNTERS && Added(f, amounts).Some? && k !in COUNTERS
    ensures var g := Added(f, amounts).value; (k in g <==> k in f) && (k in f ==> g[k] == f[k])
  {
    hide COUNTERS;
  }

  /** The bucket is noted when its request arrives, and stays so whatever else is added. */
  lemma IncrementNotes(day: Json, u: Usage, key: string)
    requires u.amounts.Keys == COUNTERS && day.JObj? && IncrementDay(day, u).Some?
    requires NotedCounter(day.fields, key) || (CounterNamed(u) && key == u.modelName)
    ensures var after := IncrementDay(day, u).value; after.JObj? && NotedCounter(after.fields, key)
  {
    hide COUNTERS, IncrementDay, Added, Target, DimensionName, Addable, Counter;
    IncrementShape(day, u);
    var f, g := day.fields, IncrementDay(day, u).value.fields;
    assert Bumped(f, g, u, ByModel);
    ModelMeta(u);
    var (target, meta) := Target(u, ByModel).value;
    AddedKeeps(SubDictionary(Buckets(f, ByModel), target).value, u.amounts, "provider");
  }

  /**
   * A request without a provider whose model bears a counter's name makes the day's receipt unverifiable:
   * the bucket is copied whole into the receipt, notes included, and no note passes as a counter.
   */
  lemma CounterNamedModel(day: Json, u: Usage)
    requires u.amounts.Keys == COUNTERS && CounterNamed(u) && IncrementDay(day, u).Some?
    ensures var after := IncrementDay(day, u).value;
            !Receiptable(after) && !Bounded(Some(after), NumericCounters(after))
  {
    hide Bumps, Added, Receiptable, Bounded, NumericCounters, NotedCounter;
    IncrementNotes(day, u, u.modelName);
    var after := IncrementDay(day, u).value;
    NotedCounterFails(after.fields, u.modelName);
    FreshReceiptVerifies(after);
  }

  /** For instance a model called "cost" without a provider, on a day that holds nothing yet. */
  lemma CostModelSpoilsEmptyDay(u: Usage)
    requires u.amounts.Keys == COUNTERS && u.provider.None? && u.modelName == "cost"
    ensures IncrementDay(JObj(map[]), u).Some?
    ensures var after := IncrementDay(JObj(map[]), u).value; !Bounded(Some(after), NumericCounters(after))
  {
    hide IncrementDay, Bounded, NumericCounters;
    PlainDayTakes(map[], u);
    CounterNamedModel(JObj(map[]), u);
  }
}
