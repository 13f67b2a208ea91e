/**
 * The live proxy's own update of a day, with JavaScript's arithmetic on whatever is stored there, and exactly
 * when it lets no counter fall that an import's receipt may ask for.
 */
module LiveUsage {
  import opened Bytes
  import opened Json
  import opened DailyCounters
  import opened DailyIncrements
  import opened DailyGrowth

  /** What no result depends on: the text a sum with text turns into, and what a stray array becomes. */
  datatype Js = Js(joined: (Json, real) -> string, poked: seq<Json> -> seq<Json>)

  /** One request; `None` notes are undefined and vanish when the day is stored. */
  datatype Request = Request(
    amounts: Amounts,
    provider: Option<string>,
    modelText: string,
    rawModel: Option<Json>,
    account: Option<string>,
    apiKey: Option<string>,
    reasoningEffort: Option<string>,
    endpoint: string
  )

  type Notes = map<string, Option<Json>>

  // ----- the update -----

  /** `v + n`, or `(v || 0) + n`. An undefined summand gives NaN, which is stored as null. */
  function Plus(js: Js, v: Option<Json>, orZero: bool, n: real): Json
  {
    if orZero && !Truthy(v) then JNum(n) else
    match v
    case None => JNull
    case Some(JNum(m)) => JNum(m + n)
    case Some(JNull) => JNum(n)
    case Some(JBool(b)) => JNum((if b then 1.0 else 0.0) + n)
    case Some(w) => JStr(js.joined(w, n))
  }

  function Lookup(f: Fields, k: string): Option<Json>
  {
    if k in f then Some(f[k]) else None
  }

  function ZeroBucket(): Fields
  {
    map c | c in COUNTERS :: JNum(0.0)
  }

  /** `addToCounter` on an existing bucket: only one of the sums guards against a missing counter. */
  function BumpedBucket(js: Js, b: Fields, amounts: Amounts, notes: Notes): Fields
    requires amounts.Keys == COUNTERS
  {
    map k | k in b.Keys + COUNTERS + notes.Keys && (k in notes ==> notes[k].Some?) ::
      if k in notes then notes[k].value
      else if k in COUNTERS then Plus(js, Lookup(b, k), k == "cacheCreationTokens", amounts[k])
      else b[k]
  }

  /** The slot of a bucket after `addToCounter`; None when assigning to it throws. */
  function BumpedSlot(js: Js, slot: Option<Json>, amounts: Amounts, notes: Notes): Option<Json>
    requires amounts.Keys == COUNTERS
  {
    if !Truthy(slot) then Some(JObj(BumpedBucket(js, ZeroBucket(), amounts, notes))) else
    match slot.value
    case JObj(b) => Some(JObj(BumpedBucket(js, b, amounts, notes)))
    case JArr(items) => Some(JArr(js.poked(items)))
    case _ => None
  }

  /** One dimension after `||= {}` and, if the request has a bucket in it, `addToCounter`. */
  function LiveDimension(js: Js, v: Option<Json>, r: Request, d: Dimension): Option<Json>
    requires r.amounts.Keys == COUNTERS
  {
    var w := if Truthy(v) then v.value else JObj(map[]);
    match LiveTarget(r, d)
    case None => Some(w)
    case Some((key, notes)) =>
      match w
      case JObj(m) =>
        var slot := BumpedSlot(js, Lookup(m, key), r.amounts, notes);
        if slot.None? then None else Some(JObj(m[key := slot.value]))
      case JArr(items) => Some(JArr(js.poked(items)))
      case _ => None
  }

  function ModelNotes(r: Request): Notes
  {
    map["rawModel" := r.rawModel, "provider" := if r.provider.Some? then Some(JStr(r.provider.value)) else None]
  }

  function LiveTarget(r: Request, d: Dimension): Option<(string, Notes)>
  {
    var provider := if r.provider.Some? then r.provider.value else "unknown";
    match d
    case ByProvider => if r.provider.Some? then Some((r.provider.value, map[])) else None
    case ByModel => Some((r.modelText + (if r.provider.Some? then "|" + r.provider.value else ""), ModelNotes(r)))
    case ByAccount => if r.account.Some? then Some((r.account.value, ModelNotes(r))) else None
    case ByApiKey =>
      var key := if r.apiKey.Some? then r.apiKey.value else "local-no-key";
      Some((key + "|" + r.modelText + "|" + provider,
            ModelNotes(r)["apiKey" := Some(if r.apiKey.Some? then JStr(r.apiKey.value) else JNull)]))
    case ByReasoning =>
      if r.reasoningEffort.None? then None
      else Some((r.reasoningEffort.value + "|" + r.modelText + "|" + provider,
                 ModelNotes(r)["reasoningEffort" := Some(JStr(r.reasoningEffort.value))]))
    case ByEndpoint => Some((r.endpoint + "|" + r.modelText + "|" + provider,
      ModelNotes(r)["endpoint" := Some(JStr(r.endpoint))]))
  }

  /** Whether every dimension can be updated. */
  ghost predicate Updatable(js: Js, f: Fields, r: Request)
    requires r.amounts.Keys == COUNTERS
  {
    forall d :: LiveDimension(js, Lookup(f, DimensionName(d)), r, d).Some?
  }

  /** `g` is the dictionary `f` after `aggregateEntryToDay`: its assignments go to different names. */
  ghost predicate Aggregated(js: Js, f: Fields, g: Fields, r: Request)
    requires r.amounts.Keys == COUNTERS
  {
    && (forall c :: c in COUNTERS ==> c in g && g[c] == Plus(js, Lookup(f, c), true, r.amounts[c]))
    && (forall d :: LiveDone(js, f, g, r, d))
    && (forall k :: k !in COUNTERS && (forall d :: k != DimensionName(d)) ==>
       (k in g <==> k in f) && (k in f ==> g[k] == f[k]))
  }

  /** Dimension `d` of `g` is what the update makes of that of `f`. */
  predicate LiveDone(js: Js, f: Fields, g: Fields, r: Request, d: Dimension)
    requires r.amounts.Keys == COUNTERS
  {
    DimensionName(d) in g && LiveDimension(js, Lookup(f, DimensionName(d)), r, d) == Some(g[DimensionName(d)])
  }

  const DIMENSION_ORDER: seq<Dimension> := [ByProvider, ByModel, ByAccount, ByApiKey, ByReasoning, ByEndpoint]

  lemma EveryDimensionOnce(d: Dimension)
    ensures exists i :: 0 <= i < |DIMENSION_ORDER| && DIMENSION_ORDER[i] == d
    ensures forall i, j :: 0 <= i < j < |DIMENSION_ORDER| ==> DIMENSION_ORDER[i] != DIMENSION_ORDER[j]
  {
    var i := match d
      case ByProvider => 0
      case ByModel => 1
      case ByAccount => 2
      case ByApiKey => 3
      case ByReasoning => 4
      case ByEndpoint => 5;
    assert DIMENSION_ORDER[i] == d;
  }

  /** The counters of the day itself. */
  method RaiseCounters(js: Js, f: Fields, amounts: Amounts) returns (day: Fields)
    requires amounts.Keys == COUNTERS
    ensures forall c :: c in COUNTERS ==> c in day && day[c] == Plus(js, Lookup(f, c), true, amounts[c])
    ensures forall k :: k !in COUNTERS ==> Lookup(day, k) == Lookup(f, k)
  {
    hide COUNTERS, COUNTER_ORDER, Plus;
    CounterOrder();
    day := f;
    for i := 0 to |COUNTER_ORDER|
      invariant forall j :: 0 <= j < i ==>
                COUNTER_ORDER[j] in day
                  && day[COUNTER_ORDER[j]] == Plus(js, Lookup(f, COUNTER_ORDER[j]), true, amounts[COUNTER_ORDER[j]])
      invariant forall k :: (forall j :: 0 <= j < i ==> COUNTER_ORDER[j] != k) ==> Lookup(day, k) == Lookup(f, k)
    {
      var c := COUNTER_ORDER[i];
      assert Lookup(day, c) == Lookup(f, c);
      day := day[c := Plus(js, Lookup(day, c), true, amounts[c])];
    }
  }

  /** aggregateEntryToDay: None when an assignment throws, and the transaction with it. */
  method AggregateEntry(js: Js, f: Fields, r: Request) returns (g: Option<Fields>)
    requires r.amounts.Keys == COUNTERS
    ensures g.Some? <==> Updatable(js, f, r)
    ensures g.Some? ==> Aggregated(js, f, g.value, r)
  {
    hide COUNTERS, LiveDimension, DimensionName, Plus, DIMENSION_ORDER;
    var day := RaiseCounters(js, f, r.amounts);
    ghost var raised := day;
    forall d ensures DimensionName(d) !in COUNTERS {
      DimensionNames(d, d);
    }
    for i := 0 to |DIMENSION_ORDER|
      invariant forall j :: 0 <= j < i ==> LiveDone(js, f, day, r, DIMENSION_ORDER[j])
      invariant forall d :: (forall j :: 0 <= j < i ==> DIMENSION_ORDER[j] != d) ==>
                Lookup(day, DimensionName(d)) == Lookup(f, DimensionName(d))
      invariant forall k :: (forall d :: k != DimensionName(d)) ==> Lookup(day, k) == Lookup(raised, k)
    {
      var d := DIMENSION_ORDER[i];
      EveryDimensionOnce(d);
      forall e ensures DimensionName(e) == DimensionName(d) <==> e == d {
        DimensionNames(d, e);
      }
      var next := LiveDimension(js, Lookup(day, DimensionName(d)), r, d);
      if next.None? {
        return None;
      }
      day := day[DimensionName(d) := next.value];
    }
    forall d ensures LiveDone(js, f, day, r, d) && LiveDimension(js, Lookup(f, DimensionName(d)), r, d).Some? {
      EveryDimensionOnce(d);
    }
    forall c | c in COUNTERS ensures Lookup(day, c) == Lookup(raised, c) {
    }
    g := Some(day);
  }

  // ----- what it counts -----

  /** A bucket of numbers; the one sum that guards against a missing counter may miss it. */
  predicate NumericBucket(v: Json)
  {
    v.JObj? && forall c :: c in COUNTERS ==>
      if c in v.fields then v.fields[c].JNum? else c == "cacheCreationTokens"
  }

  predicate NumericBuckets(m: Fields)
  {
    forall key :: key in m ==> NumericBucket(m[key])
  }

  /** A day as the update itself leaves it. */
  ghost predicate NumericDay(f: Fields)
  {
    && (forall c :: c in COUNTERS && c in f ==> f[c].JNum?)
    && (forall d :: SubDictionary(f, DimensionName(d)).Some? && NumericBuckets(Buckets(f, d)))
  }

  function LiveKey(r: Request, d: Dimension): Option<string>
  {
    if LiveTarget(r, d).Some? then Some(LiveTarget(r, d).value.0) else None
  }

  lemma BumpedCounts(js: Js, b: Fields, amounts: Amounts, notes: Notes)
    requires amounts.Keys == COUNTERS && notes.Keys !! COUNTERS && NumericBucket(JObj(b))
    ensures var t := BumpedBucket(js, b, amounts, notes);
            NumericBucket(JObj(t)) && forall c :: c in COUNTERS ==> Counter(t, c) == Counter(b, c) + amounts[c]
  {
    hide COUNTERS;
    var t := BumpedBucket(js, b, amounts, notes);
    forall c | c in COUNTERS ensures c in t && t[c] == JNum(Counter(b, c) + amounts[c]) {
      assert c !in notes;
    }
  }

  lemma ZeroCounts()
    ensures NumericBucket(JObj(ZeroBucket())) && forall c :: c in COUNTERS ==> Counter(ZeroBucket(), c) == 0.0
  {
    hide COUNTERS;
  }

  /** The slot of the request's bucket. */
  lemma SlotCounts(js: Js, m: Fields, key: string, amounts: Amounts, notes: Notes)
    requires amounts.Keys == COUNTERS && notes.Keys !! COUNTERS && NumericBuckets(m)
    ensures var slot := BumpedSlot(js, Lookup(m, key), amounts, notes);
            && slot.Some? && NumericBucket(slot.value)
            && forall c :: c in COUNTERS ==>
                 CounterOf(slot.value, c) == (if key in m then CounterOf(m[key], c) else 0.0) + amounts[c]
  {
    hide COUNTERS, BumpedBucket, NumericBucket, Counter, ZeroBucket;
    if key in m {
      assert m[key].JObj? by { IsDictionary(m[key]); }
      BumpedCounts(js, m[key].fields, amounts, notes);
    } else {
      ZeroCounts();
      BumpedCounts(js, ZeroBucket(), amounts, notes);
    }
  }

  lemma IsDictionary(v: Json)
    requires NumericBucket(v)
    ensures v.JObj?
  {
  }

  /** One dimension: the request's bucket gains the amounts, every other one keeps its own. */
  lemma DimensionCounts(js: Js, f: Fields, g: Fields, r: Request, d: Dimension, key: string, c: string)
    requires r.amounts.Keys == COUNTERS && c in COUNTERS && LiveDone(js, f, g, r, d)
    requires SubDictionary(f, DimensionName(d)).Some? && NumericBuckets(Buckets(f, d))
    ensures SubDictionary(g, DimensionName(d)).Some? && NumericBuckets(Buckets(g, d))
    ensures BucketCounter(JObj(g), d, key, c)
         == BucketCounter(JObj(f), d, key, c) + if LiveKey(r, d) == Some(key) then r.amounts[c] else 0.0
  {
    hide COUNTERS, LiveTarget, DimensionName, NumericBucket, CounterOf, BumpedSlot;
    if LiveTarget(r, d).Some? {
      NotesAreNoCounters(r, d);
      SlotCounts(js, Buckets(f, d), LiveTarget(r, d).value.0, r.amounts, LiveTarget(r, d).value.1);
    }
  }

  /** A served request adds its amounts to the day and to its own bucket of each dimension, and to nothing else. */
  lemma LiveCounts(js: Js, f: Fields, g: Fields, r: Request, d: Dimension, key: string, c: string)
    requires r.amounts.Keys == COUNTERS && c in COUNTERS && Aggregated(js, f, g, r) && NumericDay(f)
    ensures NumericDay(g) && CounterOf(JObj(g), c) == CounterOf(JObj(f), c) + r.amounts[c]
    ensures BucketCounter(JObj(g), d, key, c)
         == BucketCounter(JObj(f), d, key, c) + if LiveKey(r, d) == Some(key) then r.amounts[c] else 0.0
  {
    hide COUNTERS, LiveDone, DimensionName, NumericBuckets, LiveKey, BucketCounter;
    forall e ensures SubDictionary(g, DimensionName(e)).Some? && NumericBuckets(Buckets(g, e)) {
      DimensionCounts(js, f, g, r, e, key, c);
    }
    DimensionCounts(js, f, g, r, d, key, c);
    assert g[c] == Plus(js, Lookup(f, c), true, r.amounts[c]);
  }

  /** And a day of numbers can always be updated. */
  lemma NumericDayUpdates(js: Js, f: Fields, r: Request)
    requires r.amounts.Keys == COUNTERS && NumericDay(f)
    ensures Updatable(js, f, r)
  {
    hide COUNTERS, LiveTarget, DimensionName, NumericBuckets, BumpedSlot;
    forall d ensures LiveDimension(js, Lookup(f, DimensionName(d)), r, d).Some? {
      assert NumericBuckets(Buckets(f, d));
      if LiveTarget(r, d).Some? {
        NotesAreNoCounters(r, d);
        SlotCounts(js, Buckets(f, d), LiveTarget(r, d).value.0, r.amounts, LiveTarget(r, d).value.1);
      }
    }
  }

  /** The notes of a live bucket; a note without a value is not stored. */
  predicate LiveNoted(bucket: Json, r: Request, d: Dimension)
  {
    var b := Some(bucket);
    && bucket.JObj?
    && (d != ByProvider ==> Get(b, "rawModel") == r.rawModel && Get(b, "provider") == TextOf(r.provider))
    && (d == ByApiKey ==> Get(b, "apiKey") == if r.apiKey.Some? then TextOf(r.apiKey) else Some(JNull))
    && (d == ByReasoning ==> r.reasoningEffort.Some? && Get(b, "reasoningEffort") == TextOf(r.reasoningEffort))
    && (d == ByEndpoint ==> Get(b, "endpoint") == Some(JStr(r.endpoint)))
  }

  function TextOf(v: Option<string>): Option<Json>
  {
    if v.Some? then Some(JStr(v.value)) else None
  }

  function NoteIn(notes: Notes, k: string): Option<Json>
  {
    if k in notes then notes[k] else None
  }

  lemma BumpedGets(js: Js, b: Fields, amounts: Amounts, notes: Notes, k: string)
    requires amounts.Keys == COUNTERS && k in notes
    ensures Get(Some(JObj(BumpedBucket(js, b, amounts, notes))), k) == NoteIn(notes, k)
  {
    hide COUNTERS, Plus;
  }

  lemma TargetNotes(r: Request, d: Dimension)
    requires LiveTarget(r, d).Some?
    ensures var notes := LiveTarget(r, d).value.1;
            && (d != ByProvider ==>
                 && "rawModel" in notes && NoteIn(notes, "rawModel") == r.rawModel
                 && "provider" in notes && NoteIn(notes, "provider") == TextOf(r.provider))
            && (d == ByApiKey ==>
                 "apiKey" in notes
                   && NoteIn(notes, "apiKey") == if r.apiKey.Some? then TextOf(r.apiKey) else Some(JNull))
            && (d == ByReasoning ==>
                 && r.reasoningEffort.Some?
                 && "reasoningEffort" in notes && NoteIn(notes, "reasoningEffort") == TextOf(r.reasoningEffort))
            && (d == ByEndpoint ==> "endpoint" in notes && NoteIn(notes, "endpoint") == Some(JStr(r.endpoint)))
  {
    assert "rawModel"[0] == 'r' && "provider"[0] == 'p' && "apiKey"[0] == 'a' && "endpoint"[0] == 'e';
    assert "reasoningEffort"[1] == 'e' && "rawModel"[1] == 'a';
  }

  lemma BumpedNotes(js: Js, b: Fields, r: Request, d: Dimension)
    requires r.amounts.Keys == COUNTERS && LiveTarget(r, d).Some?
    ensures LiveNoted(JObj(BumpedBucket(js, b, r.amounts, LiveTarget(r, d).value.1)), r, d)
  {
    hide COUNTERS, Plus, LiveTarget, BumpedBucket, NoteIn, Get, TextOf;
    var notes := LiveTarget(r, d).value.1;
    TargetNotes(r, d);
    forall k | k in notes ensures Get(Some(JObj(BumpedBucket(js, b, r.amounts, notes))), k) == NoteIn(notes, k) {
      BumpedGets(js, b, r.amounts, notes, k);
    }
  }

  lemma SlotNotes(js: Js, m: Fields, r: Request, d: Dimension)
    requires r.amounts.Keys == COUNTERS && LiveTarget(r, d).Some? && NumericBuckets(m)
    ensures var (key, notes) := LiveTarget(r, d).value;
            var slot := BumpedSlot(js, Lookup(m, key), r.amounts, notes);
            slot.Some? && LiveNoted(slot.value, r, d)
  {
    hide COUNTERS, NumericBucket, LiveTarget, BumpedBucket, LiveNoted, ZeroBucket;
    var key := LiveTarget(r, d).value.0;
    if key in m {
      IsDictionary(m[key]);
      BumpedNotes(js, m[key].fields, r, d);
    } else {
      BumpedNotes(js, ZeroBucket(), r, d);
    }
  }

  lemma OneSlotChanges(js: Js, f: Fields, g: Fields, r: Request, d: Dimension)
    requires r.amounts.Keys == COUNTERS && LiveDone(js, f, g, r, d) && LiveTarget(r, d).Some?
    requires SubDictionary(f, DimensionName(d)).Some?
    ensures var (key, notes) := LiveTarget(r, d).value;
            var slot := BumpedSlot(js, Lookup(Buckets(f, d), key), r.amounts, notes);
            slot.Some? ==> Buckets(g, d) == Buckets(f, d)[key := slot.value]
  {
    hide COUNTERS, DimensionName, LiveTarget, BumpedSlot;
  }

  /** Every bucket a live request goes to names its model and provider, and what else its dimension is about. */
  lemma LiveNotes(js: Js, f: Fields, g: Fields, r: Request, d: Dimension)
    requires r.amounts.Keys == COUNTERS && Aggregated(js, f, g, r) && NumericDay(f) && LiveKey(r, d).Some?
    ensures LiveKey(r, d).value in Buckets(g, d) && LiveNoted(Buckets(g, d)[LiveKey(r, d).value], r, d)
  {
    hide COUNTERS, DimensionName, NumericBuckets, LiveTarget, BumpedSlot, LiveNoted, Plus, LiveDone,
      LiveDimension, Buckets;
    assert LiveDone(js, f, g, r, d) && NumericBuckets(Buckets(f, d));
    SlotNotes(js, Buckets(f, d), r, d);
    OneSlotChanges(js, f, g, r, d);
  }

  function KeyOf(u: Usage, d: Dimension): Option<string>
  {
    if Target(u, d).Some? then Some(Target(u, d).value.0) else None
  }

  /**
   * The importer and the live update file the same request under the same provider, model, account and endpoint; only
   * the API key differs, which an imported row no longer has.
   */
  lemma SameBuckets(r: Request, u: Usage, d: Dimension)
    requires r.provider == u.provider && r.modelText == u.modelName && r.account == u.account
             && r.endpoint == u.endpoint
    ensures d != ByApiKey && d != ByReasoning ==> LiveKey(r, d) == KeyOf(u, d)
    ensures LiveKey(r, ByApiKey) == KeyOf(u, ByApiKey) <==> r.apiKey == Some("legacy-unavailable")
  {
    hide ModelNotes, Meta;
    var provider := if u.provider.Some? then u.provider.value else "unknown";
    var rest := "|" + u.modelName + "|" + provider;
    var key := if r.apiKey.Some? then r.apiKey.value else "local-no-key";
    var live, imported := key + rest, "legacy-unavailable" + rest;
    assert live == key + "|" + u.modelName + "|" + provider;
    assert imported == "legacy-unavailable|" + u.modelName + "|" + provider;
    assert "local-no-key"[1] == 'o' && "legacy-unavailable"[1] == 'e';
    if live == imported {
      assert live[..|key|] == key && imported[..|imported| - |rest|] == "legacy-unavailable";
    }
  }

  // ----- exactly when it lets no counter fall -----

  /**
   * A counter that is a number meets no negative amount; a dictionary in its place, about to be lost, counts for
   * nothing.
   */
  predicate CounterSafe(v: Json, amount: real)
  {
    (v.JNum? ==> amount >= 0.0) && (v.JObj? ==> Idle(v, true))
  }

  lemma PlusGrowsIff(js: Js, v: Json, orZero: bool, n: real)
    ensures EntryGrows(v, Some(Plus(js, Some(v), orZero, n)), true) <==> CounterSafe(v, n)
  {
    if v.JObj? {
      LostIffIdle(v, Some(Plus(js, Some(v), orZero, n)), true);
    }
  }

  /** What is replaced by no dictionary has lost nothing exactly when it counted for nothing. */
  lemma LostIffIdle(v: Json, next: Option<Json>, counts: bool)
    requires v.JObj? && !(next.Some? && next.value.JObj?)
    ensures EntryGrows(v, next, counts) <==> Idle(v, counts)
  {
    if EntryGrows(v, next, counts) {
      NothingCounts(v, next, None, counts);
    }
    if Idle(v, counts) {
      NothingCounts(v, None, next, counts);
    }
  }

  predicate LiveBucketSafe(b: Fields, amounts: Amounts, notes: Notes, whole: bool)
    requires amounts.Keys == COUNTERS
  {
    forall k :: k in b ==>
      if k in notes then EntryGrows(b[k], notes[k], whole) else k in COUNTERS ==> CounterSafe(b[k], amounts[k])
  }

  lemma LiveBucketGrowsIff(js: Js, b: Fields, amounts: Amounts, notes: Notes, whole: bool)
    requires amounts.Keys == COUNTERS && notes.Keys !! COUNTERS
    ensures Grows(JObj(b), Some(JObj(BumpedBucket(js, b, amounts, notes))), whole)
            <==> LiveBucketSafe(b, amounts, notes, whole)
  {
    hide COUNTERS, Plus, CounterSafe;
    var t := BumpedBucket(js, b, amounts, notes);
    forall k | k in b
      ensures EntryGrows(b[k], Get(Some(JObj(t)), k), whole || k in COUNTERS)
         <==> if k in notes then EntryGrows(b[k], notes[k], whole) else k in COUNTERS ==> CounterSafe(b[k], amounts[k])
    {
      if k in notes {
        assert Get(Some(JObj(t)), k) == notes[k];
      } else if k in COUNTERS {
        PlusGrowsIff(js, b[k], k == "cacheCreationTokens", amounts[k]);
      } else {
        SameEntryGrows(b[k], whole);
      }
    }
  }

  /** A slot that holds a bucket is safe like the bucket; one that holds a number must not count. */
  predicate SlotSafe(v: Json, amounts: Amounts, notes: Notes, counts: bool)
    requires amounts.Keys == COUNTERS
  {
    match v
    case JObj(b) => LiveBucketSafe(b, amounts, notes, counts)
    case JNum(_) => !counts
    case _ => true
  }

  predicate LiveDimensionSafe(f: Fields, r: Request, d: Dimension)
    requires r.amounts.Keys == COUNTERS
  {
    match LiveTarget(r, d)
    case None => true
    case Some((key, notes)) => key in Buckets(f, d) ==> SlotSafe(Buckets(f, d)[key], r.amounts, notes, key in COUNTERS)
  }

  ghost predicate LiveDaySafe(f: Fields, r: Request)
    requires r.amounts.Keys == COUNTERS
  {
    (forall c :: c in COUNTERS && c in f ==> CounterSafe(f[c], r.amounts[c])) && forall d :: LiveDimensionSafe(f, r, d)
  }

  lemma NotesAreNoCounters(r: Request, d: Dimension)
    ensures LiveTarget(r, d).Some? ==> LiveTarget(r, d).value.1.Keys !! COUNTERS
  {
    hide COUNTERS, LiveTarget;
    NoteNames(r, d);
    MetaIsNoCounter();
  }

  lemma SlotGrowsIff(js: Js, v: Json, amounts: Amounts, notes: Notes, counts: bool)
    requires amounts.Keys == COUNTERS && notes.Keys !! COUNTERS && BumpedSlot(js, Some(v), amounts, notes).Some?
    ensures EntryGrows(v, BumpedSlot(js, Some(v), amounts, notes), counts) <==> SlotSafe(v, amounts, notes, counts)
  {
    hide COUNTERS, LiveBucketSafe, BumpedBucket;
    if v.JObj? {
      LiveBucketGrowsIff(js, v.fields, amounts, notes, counts);
    }
  }

  lemma LiveDimensionGrowsIff(js: Js, f: Fields, r: Request, d: Dimension)
    requires r.amounts.Keys == COUNTERS && DimensionName(d) in f
             && LiveDimension(js, Some(f[DimensionName(d)]), r, d).Some?
    ensures EntryGrows(f[DimensionName(d)], LiveDimension(js, Some(f[DimensionName(d)]), r, d), false)
            <==> LiveDimensionSafe(f, r, d)
  {
    hide COUNTERS, SlotSafe, LiveTarget, DimensionName, BumpedSlot;
    var v := f[DimensionName(d)];
    if v.JObj? {
      match LiveTarget(r, d) {
        case None => GrowsReflexive(v, false);
        case Some((key, notes)) =>
          var m := v.fields;
          NotesAreNoCounters(r, d);
          PutGrowsIff(m, key, BumpedSlot(js, Lookup(m, key), r.amounts, notes).value, false);
          if key in m {
            SlotGrowsIff(js, m[key], r.amounts, notes, key in COUNTERS);
          }
      }
    }
  }

  lemma LiveEntryGrowsIff(js: Js, f: Fields, g: Fields, r: Request, k: string)
    requires r.amounts.Keys == COUNTERS && Aggregated(js, f, g, r) && k in f
    ensures EntryGrows(f[k], Get(Some(JObj(g)), k), k in COUNTERS) <==>
              && (k in COUNTERS ==> CounterSafe(f[k], r.amounts[k]))
              && (forall d :: DimensionName(d) == k ==> LiveDimensionSafe(f, r, d))
  {
    hide COUNTERS, LiveDimension, LiveDimensionSafe, DimensionName, Plus, CounterSafe, Grows, EntryGrows;
    if exists d :: DimensionName(d) == k {
      var d :| DimensionName(d) == k;
      DimensionNames(d, d);
      forall e ensures DimensionName(e) == k <==> e == d {
        DimensionNames(d, e);
      }
      assert LiveDone(js, f, g, r, d);
      LiveDimensionGrowsIff(js, f, r, d);
    } else if k in COUNTERS {
      PlusGrowsIff(js, f[k], true, r.amounts[k]);
    } else {
      SameEntryGrows(f[k], false);
    }
  }

  lemma LiveUnusedDimension(f: Fields, r: Request, d: Dimension)
    requires r.amounts.Keys == COUNTERS && DimensionName(d) !in f
    ensures LiveDimensionSafe(f, r, d)
  {
  }

  /** The live update lets no counted number of a day fall exactly when day and request are safe for each other. */
  lemma LiveGrowsIff(js: Js, f: Fields, g: Fields, r: Request)
    requires r.amounts.Keys == COUNTERS && Aggregated(js, f, g, r)
    ensures Grows(JObj(f), Some(JObj(g)), false) <==> LiveDaySafe(f, r)
  {
    hide COUNTERS, EntryGrows, LiveDimensionSafe, DimensionName, Aggregated, CounterSafe;
    forall k | k in f
      ensures EntryGrows(f[k], Get(Some(JObj(g)), k), k in COUNTERS) <==>
                && (k in COUNTERS ==> CounterSafe(f[k], r.amounts[k]))
                && (forall d :: DimensionName(d) == k ==> LiveDimensionSafe(f, r, d))
    {
      LiveEntryGrowsIff(js, f, g, r, k);
    }
    forall d | DimensionName(d) !in f ensures LiveDimensionSafe(f, r, d) {
      LiveUnusedDimension(f, r, d);
    }
  }

  // ----- calm days -----

  predicate CalmNotes(notes: Notes, whole: bool)
  {
    forall k :: k in notes && notes[k].Some? ==> Idle(notes[k].value, whole)
  }

  /** Amounts are not negative and no note counts, as is the case when the model is text. */
  ghost predicate CalmRequest(r: Request)
  {
    && r.amounts.Keys == COUNTERS
    && (forall c :: c in r.amounts ==> r.amounts[c] >= 0.0)
    && forall d :: LiveTarget(r, d).Some? ==>
         CalmNotes(LiveTarget(r, d).value.1, LiveTarget(r, d).value.0 in COUNTERS)
  }

  lemma NoteNames(r: Request, d: Dimension)
    ensures LiveTarget(r, d).Some? ==> LiveTarget(r, d).value.1.Keys <= META
  {
  }

  lemma CalmIsLiveSafe(f: Fields, r: Request)
    requires CalmDay(f) && CalmRequest(r)
    ensures LiveDaySafe(f, r)
  {
    hide COUNTERS, META, LiveTarget, Buckets, EntryGrows;
    forall d ensures LiveDimensionSafe(f, r, d) {
      if LiveTarget(r, d).Some? {
        var (key, notes) := LiveTarget(r, d).value;
        NoteNames(r, d);
        if key in Buckets(f, d) && Buckets(f, d)[key].JObj? {
          CalmBucketLiveSafe(Buckets(f, d)[key].fields, r.amounts, notes, key in COUNTERS);
        }
      }
    }
  }

  lemma CalmBucketLiveSafe(b: Fields, amounts: Amounts, notes: Notes, whole: bool)
    requires amounts.Keys == COUNTERS && (forall c :: c in amounts ==> amounts[c] >= 0.0)
    requires CalmBucket(b, whole) && notes.Keys <= META
    ensures LiveBucketSafe(b, amounts, notes, whole)
  {
    hide COUNTERS, META;
    forall k | k in b && k in notes ensures EntryGrows(b[k], notes[k], whole) {
      IdleGrows(b[k], notes[k], whole);
    }
  }

  lemma PlusIsNoDictionary(js: Js, v: Option<Json>, orZero: bool, n: real)
    ensures !Plus(js, v, orZero, n).JObj?
  {
  }

  lemma BumpedBucketStaysCalm(js: Js, b: Fields, amounts: Amounts, notes: Notes, whole: bool)
    requires amounts.Keys == COUNTERS && notes.Keys !! COUNTERS && META !! COUNTERS
    requires CalmBucket(b, whole) && CalmNotes(notes, whole)
    ensures CalmBucket(BumpedBucket(js, b, amounts, notes), whole)
  {
    hide COUNTERS, META, Plus, Idle;
    var t := BumpedBucket(js, b, amounts, notes);
    forall k | k in t && k in COUNTERS ensures !t[k].JObj? {
      PlusIsNoDictionary(js, Lookup(b, k), k == "cacheCreationTokens", amounts[k]);
    }
  }

  lemma ZeroIsCalm(whole: bool)
    requires META !! COUNTERS
    ensures CalmBucket(ZeroBucket(), whole)
  {
    hide COUNTERS, META;
  }

  lemma CalmSlotStays(js: Js, slot: Option<Json>, amounts: Amounts, notes: Notes, counts: bool)
    requires amounts.Keys == COUNTERS && notes.Keys !! COUNTERS && CalmNotes(notes, counts)
    requires (slot.Some? ==> CalmSlot(slot.value, counts)) && BumpedSlot(js, slot, amounts, notes).Some?
    ensures CalmSlot(BumpedSlot(js, slot, amounts, notes).value, counts)
  {
    hide COUNTERS, META, BumpedBucket, CalmBucket, CalmNotes;
    MetaIsNoCounter();
    ZeroIsCalm(counts);
    BumpedBucketStaysCalm(js, ZeroBucket(), amounts, notes, counts);
    if slot.Some? && slot.value.JObj? {
      BumpedBucketStaysCalm(js, slot.value.fields, amounts, notes, counts);
    }
  }

  /** The buckets of a dimension after the update. */
  lemma LiveBuckets(js: Js, f: Fields, g: Fields, r: Request, d: Dimension)
    requires r.amounts.Keys == COUNTERS && LiveDone(js, f, g, r, d)
    ensures match LiveTarget(r, d) {
              case None => Buckets(g, d) == Buckets(f, d)
              case Some((key, notes)) =>
                var slot := BumpedSlot(js, Lookup(Buckets(f, d), key), r.amounts, notes);
                Buckets(g, d) == map[] || (slot.Some? && Buckets(g, d) == Buckets(f, d)[key := slot.value])
            }
  {
    hide COUNTERS, BumpedSlot, LiveTarget, DimensionName;
  }

  lemma LiveDimensionStaysCalm(js: Js, f: Fields, g: Fields, r: Request, d: Dimension, j: string)
    requires CalmDay(f) && CalmRequest(r) && LiveDone(js, f, g, r, d) && j in Buckets(g, d)
    ensures CalmSlot(Buckets(g, d)[j], j in COUNTERS)
  {
    hide COUNTERS, META, CalmSlot, BumpedSlot, LiveTarget, CalmNotes, LiveDone, Buckets;
    LiveBuckets(js, f, g, r, d);
    if LiveTarget(r, d).Some? {
      var (key, notes) := LiveTarget(r, d).value;
      NotesAreNoCounters(r, d);
      if Buckets(g, d) != map[] {
        CalmSlotStays(js, Lookup(Buckets(f, d), key), r.amounts, notes, key in COUNTERS);
      }
    }
  }

  /** A calm request lets a calm day grow and leaves it calm, so any number of them do. */
  lemma CalmDayGrowsLive(js: Js, f: Fields, g: Fields, r: Request)
    requires CalmDay(f) && CalmRequest(r) && Aggregated(js, f, g, r)
    ensures CalmDay(g) && Grows(JObj(f), Some(JObj(g)), false)
  {
    hide COUNTERS, Grows, CalmSlot, Buckets, LiveDone, LiveDaySafe, Plus, Idle;
    CalmIsLiveSafe(f, r);
    LiveGrowsIff(js, f, g, r);
    forall d, j | j in Buckets(g, d) ensures CalmSlot(Buckets(g, d)[j], j in COUNTERS) {
      LiveDimensionStaysCalm(js, f, g, r, d, j);
    }
    forall c | c in COUNTERS ensures !g[c].JObj? {
      PlusIsNoDictionary(js, Lookup(f, c), true, r.amounts[c]);
    }
  }

  // ----- days that lose a counter -----

  lemma NoDimensionIsUpdatable(js: Js, f: Fields, r: Request)
    requires r.amounts.Keys == COUNTERS && forall d :: DimensionName(d) !in f
    ensures Updatable(js, f, r)
  {
    hide COUNTERS, LiveTarget, DimensionName, BumpedBucket;
  }

  /** Five stored prompt tokens and a request with minus one: the update goes through and the counter falls. */
  lemma NegativeRequestFalls(js: Js, g: Fields, r: Request)
    requires r.amounts.Keys == COUNTERS && r.amounts["promptTokens"] == -1.0
    requires Aggregated(js, map["promptTokens" := JNum(5.0)], g, r)
    ensures Updatable(js, map["promptTokens" := JNum(5.0)], r)
    ensures !Grows(JObj(map["promptTokens" := JNum(5.0)]), Some(JObj(g)), false)
  {
    hide Aggregated, Grows, Updatable;
    var f: Fields := map["promptTokens" := JNum(5.0)];
    forall d ensures DimensionName(d) !in f {
      DimensionNames(d, d);
    }
    NoDimensionIsUpdatable(js, f, r);
    LiveGrowsIff(js, f, g, r);
  }

  /** A dictionary where a counter belongs turns into text, whatever the request, and the number in it is lost. */
  lemma DictionaryIsLost(js: Js, g: Fields, r: Request)
    requires r.amounts.Keys == COUNTERS && Aggregated(js, map["cost" := JObj(map["cost" := JNum(1.0)])], g, r)
    ensures Updatable(js, map["cost" := JObj(map["cost" := JNum(1.0)])], r)
    ensures !Grows(JObj(map["cost" := JObj(map["cost" := JNum(1.0)])]), Some(JObj(g)), false)
  {
    hide Aggregated, Updatable;
    var f: Fields := map["cost" := JObj(map["cost" := JNum(1.0)])];
    forall d ensures DimensionName(d) !in f {
      DimensionNames(d, d);
    }
    NoDimensionIsUpdatable(js, f, r);
    LiveGrowsIff(js, f, g, r);
    assert !EntryGrows(JNum(1.0), None, true);
    assert !Idle(f["cost"], true);
  }
}
