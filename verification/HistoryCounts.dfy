/** What an import adds to every counter of every day and bucket, told from the cells of the imported rows. */
module HistoryCounts {
  import opened Bytes
  import opened Json
  import opened DailyCounters
  import opened DailyIncrements
  import opened Projection
  import opened HistoryImport
  import opened HistoryProofs
  import opened HistoryLive
  import opened HistoryOutcome

  // ----- what a row counts for -----

  /** A number, or a flag as 0 or 1; anything else counts for nothing. */
  function Numeric(v: Json): real
  {
    match v
    case JNum(n) => n
    case JBool(b) => if b then 1.0 else 0.0
    case _ => 0.0
  }

  /** A number in the row's token object. */
  function TokenCount(env: Env, row: Row, key: string): real
  {
    match env.text.load(Cell(row, "tokens"))
    case Some(JObj(f)) => if key in f && f[key].JNum? then f[key].n else 0.0
    case _ => 0.0
  }

  function RowAmount(env: Env, row: Row, c: string): real
  {
    if c == "requests" then 1.0
    else if c == "promptTokens" || c == "completionTokens" || c == "cost" then Numeric(Cell(row, c))
    else if c == "cachedTokens" then TokenCount(env, row, "cached_tokens")
    else if c == "cacheCreationTokens" then TokenCount(env, row, "cache_creation_input_tokens")
    else 0.0
  }

  /** The numeric part of this row's token object survives being written and read again. */
  predicate TokensSurvive(env: Env, row: Row)
  {
    match env.text.load(Cell(row, "tokens"))
    case Some(v) =>
      var kept := JObj(NumericObject(v));
      kept.fields != map[] ==>
        env.text.dump(kept) != "" && env.text.load(JStr(env.text.dump(kept))) == Some(kept)
    case None => true
  }

  /** The bucket a row goes to in a dimension. */
  function RowKey(env: Env, source: string, row: Row, d: Dimension): Option<string>
  {
    var provider := match Cell(row, "provider") case JStr(s) => s case _ => "";
    var model := match Cell(row, "model") case JNull => "null" case JStr(s) => s case v => env.show(v);
    var endpoint := match Cell(row, "endpoint") case JStr(s) => if s == "" then "Unknown" else s case _ => "Unknown";
    var rest := model + "|" + (if provider == "" then "unknown" else provider);
    match d
    case ByProvider => if provider == "" then None else Some(provider)
    case ByModel => Some(if provider == "" then model else model + "|" + provider)
    case ByAccount =>
      var account := Cell(row, "connectionId");
      if account.JNull? then None else Some("legacy-account-" + env.text.digest(source, "account", account))
    case ByApiKey => Some("legacy-unavailable|" + rest)
    case ByEndpoint => Some(endpoint + "|" + rest)
    case ByReasoning => None
  }

  lemma CellsKept(text: Text, source: string, row: Row, id: Json)
    ensures var r := ProjectUsage(text, source, row)["id" := id];
            && Cell(r, "promptTokens") == Cell(row, "promptTokens")
            && Cell(r, "completionTokens") == Cell(row, "completionTokens")
            && Cell(r, "cost") == Cell(row, "cost")
            && Cell(r, "tokens") == Tokens(text, Cell(row, "tokens"))
            && Cell(r, "provider") == Cell(row, "provider")
            && Cell(r, "endpoint") == Cell(row, "endpoint")
            && Cell(r, "model") == Cell(row, "model")
            && Cell(r, "connectionId") == Cell(MapConnection(text, source, row), "connectionId")
  {
    hide LegacyMeta, Tokens, MappedId;
  }

  lemma ConnectionCell(text: Text, source: string, row: Row)
    ensures var c := Cell(row, "connectionId");
            Cell(MapConnection(text, source, row), "connectionId")
            == if c.JNull? then c else JStr("legacy-account-" + text.digest(source, "account", c))
  {
    assert "legacy-" + "account" + "-" == "legacy-account-";
  }

  /** The token numbers of a projected row are those of the original. */
  lemma TokenFieldsKept(env: Env, row: Row, key: string)
    requires TokensSurvive(env, row) && key in NUMERIC && TokenFields(env, Tokens(env.text, Cell(row, "tokens"))).Some?
    ensures var f := TokenFields(env, Tokens(env.text, Cell(row, "tokens"))).value;
            Amount(Cell(f, key)) == Some(TokenCount(env, row, key))
  {
    hide NUMERIC;
  }

  lemma TokenKeys()
    ensures "cached_tokens" in NUMERIC && "cache_creation_input_tokens" in NUMERIC
  {
  }

  lemma AmountIsNumeric(v: Json)
    ensures Amount(v).Some? ==> Amount(v).value == Numeric(v)
  {
  }

  /** A projected row counts for what its original cells say. */
  lemma AmountsFromCells(env: Env, source: string, row: Row, id: Json, c: string)
    requires TokensSurvive(env, row) && c in COUNTERS
    requires AmountsOf(env, ProjectUsage(env.text, source, row)["id" := id]).Some?
    ensures AmountsOf(env, ProjectUsage(env.text, source, row)["id" := id]).value[c] == RowAmount(env, row, c)
  {
    hide ProjectUsage, TokensSurvive, TokenFields, Amount, Numeric, TokenCount, NUMERIC, Tokens;
    CellsKept(env.text, source, row, id);
    TokenKeys();
    TokenFieldsKept(env, row, "cached_tokens");
    TokenFieldsKept(env, row, "cache_creation_input_tokens");
    AmountIsNumeric(Cell(row, "promptTokens"));
    AmountIsNumeric(Cell(row, "completionTokens"));
    AmountIsNumeric(Cell(row, "cost"));
  }

  lemma UsageFields(env: Env, r: Row)
    requires UsageOf(env, r).Some?
    ensures var u := UsageOf(env, r).value;
            && u.provider
               == (match Cell(r, "provider") { case JStr(s) => if s == "" then None else Some(s) case _ => None })
            && u.account
               == (match Cell(r, "connectionId") { case JStr(s) => if s == "" then None else Some(s) case _ => None })
            && u.modelName == (match Cell(r, "model") { case JNull => "null" case JStr(s) => s case v => env.show(v) })
            && u.endpoint
               == (match Cell(r, "endpoint") { case JStr(s) => if s == "" then "Unknown" else s case _ => "Unknown" })
  {
    hide AmountsOf, COUNTERS, Cell;
  }

  lemma KeyText(model: string, provider: string, endpoint: string)
    ensures "legacy-unavailable|" + model + "|" + provider == "legacy-unavailable|" + (model + "|" + provider)
    ensures endpoint + "|" + model + "|" + provider == endpoint + "|" + (model + "|" + provider)
    ensures model + ("|" + provider) == model + "|" + provider && model + "" == model
  {
  }

  /** And it goes to the buckets its original cells name. */
  lemma KeysFromCells(env: Env, source: string, row: Row, id: Json, d: Dimension)
    requires UsageOf(env, ProjectUsage(env.text, source, row)["id" := id]).Some?
    ensures var target := Target(UsageOf(env, ProjectUsage(env.text, source, row)["id" := id]).value, d);
            (if target.Some? then Some(target.value.0) else None) == RowKey(env, source, row, d)
  {
    hide ProjectUsage, UsageOf, Meta, MapConnection, COUNTERS, Cell;
    var r := ProjectUsage(env.text, source, row)["id" := id];
    CellsKept(env.text, source, row, id);
    ConnectionCell(env.text, source, row);
    UsageFields(env, r);
    var u := UsageOf(env, r).value;
    KeyText(u.modelName, if u.provider.Some? then u.provider.value else "unknown", u.endpoint);
    match d {
      case ByProvider =>
      case ByModel =>
      case ByAccount =>
      case ByApiKey =>
      case ByEndpoint =>
      case ByReasoning =>
    }
  }

  // ----- one request -----

  lemma BumpKeyCounts(m: Fields, key: string, amounts: Amounts, meta: Fields, c: string)
    requires amounts.Keys == COUNTERS && c in COUNTERS && meta.Keys !! COUNTERS && BumpKey(m, key, amounts, meta).Some?
    ensures CounterOf(BumpKey(m, key, amounts, meta).value[key], c)
         == (if key in m then CounterOf(m[key], c) else 0.0) + amounts[c]
  {
    hide COUNTERS;
    var target := Added(SubDictionary(m, key).value, amounts).value;
    assert c !in meta;
    assert (target + meta)[c] == target[c];
  }

  /** A bucket gains the amounts exactly when the request goes to it. */
  lemma IncrementBucket(day: Json, u: Usage, d: Dimension, key: string, c: string)
    requires u.amounts.Keys == COUNTERS && c in COUNTERS && IncrementDay(day, u).Some?
    ensures BucketCounter(IncrementDay(day, u).value, d, key, c)
         == BucketCounter(day, d, key, c)
            + (if Target(u, d).Some? && Target(u, d).value.0 == key then u.amounts[c] else 0.0)
  {
    hide IncrementDay, CounterOf, COUNTERS, Target, Addable, Counter, DimensionName, Added;
    IncrementShape(day, u);
    var f, g := day.fields, IncrementDay(day, u).value.fields;
    assert Bumped(f, g, u, d);
    if Target(u, d).Some? {
      var (to, meta) := Target(u, d).value;
      MetaHasNoCounters(u, d);
      BumpKeyCounts(Buckets(f, d), to, u.amounts, meta, c);
    }
  }

  // ----- all rows -----

  predicate Falls(env: Env, item: Item, day: string)
  {
    item.table == USAGE && env.day(Cell(item.entry.row, "timestamp")) == Some(day)
  }

  /** What the rows of a day add to a counter of the day. */
  function DaySum(env: Env, items: seq<Item>, day: string, c: string): real
  {
    if items == [] then 0.0
    else
      var item := items[|items| - 1];
      DaySum(env, items[..|items| - 1], day, c)
      + if Falls(env, item, day) then RowAmount(env, item.entry.row, c) else 0.0
  }

  /** What they add to a counter of one bucket. */
  function BucketSum(
      env: Env, source: string, items: seq<Item>, day: string, d: Dimension, key: string, c: string): real
  {
    if items == [] then 0.0
    else
      var item := items[|items| - 1];
      BucketSum(env, source, items[..|items| - 1], day, d, key, c)
      + if Falls(env, item, day) && RowKey(env, source, item.entry.row, d) == Some(key)
        then RowAmount(env, item.entry.row, c) else 0.0
  }

  function StoredDay(daily: map<string, Json>, day: string): Json
  {
    if day in daily then daily[day] else JObj(map[])
  }

  lemma NewDayCountsNothing(d: Dimension, key: string, c: string)
    ensures CounterOf(JObj(map[]), c) == 0.0 && BucketCounter(JObj(map[]), d, key, c) == 0.0
  {
  }

  /** One usage row. */
  lemma RowCounts(env: Env, source: string, p: Progress, item: Item, day: string, d: Dimension, key: string, c: string)
    requires ImportRow(env, source, p, item).Some? && c in COUNTERS
    requires item.table == USAGE ==> TokensSurvive(env, item.entry.row)
    ensures var before := StoredDay(p.db.daily, day);
            var after := StoredDay(ImportRow(env, source, p, item).value.db.daily, day);
            var amount := if Falls(env, item, day) then RowAmount(env, item.entry.row, c) else 0.0;
            && CounterOf(after, c) == CounterOf(before, c) + amount
            && BucketCounter(after, d, key, c)
               == BucketCounter(before, d, key, c)
                  + if RowKey(env, source, item.entry.row, d) == Some(key) then amount else 0.0
  {
    hide ImportRow, AddUsage, Tally, UsageOf, IncrementDay, CounterOf, BucketCounter, RowAmount, RowKey, TokensSurvive,
      ProjectUsage, COUNTERS, Target;
    RowDaily(env, source, p, item);
    if item.table == USAGE {
      var q := ImportRow(env, source, p, item).value;
      var id :| UsageStepped(p, AddUsage(env, p.db.daily, UsageRow(env, source, item, id)), q);
      var row := UsageRow(env, source, item, id);
      ColumnsKept(env.text, source, item.entry.row, id);
      AddUsageDays(env, p.db.daily, row);
      var u := UsageOf(env, row).value;
      UsageAmounts(env, row);
      AmountsFromCells(env, source, item.entry.row, id, c);
      KeysFromCells(env, source, item.entry.row, id, d);
      var today := env.day(Cell(row, "timestamp")).value;
      if today == day {
        IncrementBalance(StoredDay(p.db.daily, day), u, d, c);
        IncrementBucket(StoredDay(p.db.daily, day), u, d, key, c);
      }
    }
  }

  lemma UsageAmounts(env: Env, row: Row)
    requires UsageOf(env, row).Some?
    ensures AmountsOf(env, row) == Some(UsageOf(env, row).value.amounts)
  {
    hide AmountsOf;
  }

  /**
   * Conservation of every counter: a day ends with what was stored plus the named column of each of its rows, and so
   * does every bucket with the rows that name it.
   */
  lemma {:induction false} RowsCounted(
      env: Env, source: string, p: Progress, items: seq<Item>, day: string, d: Dimension, key: string, c: string)
    requires ImportRows(env, source, p, items).Some? && c in COUNTERS
    requires forall i :: 0 <= i < |items| && items[i].table == USAGE ==> TokensSurvive(env, items[i].entry.row)
    ensures var before := StoredDay(p.db.daily, day);
            var after := StoredDay(ImportRows(env, source, p, items).value.db.daily, day);
            && CounterOf(after, c) == CounterOf(before, c) + DaySum(env, items, day, c)
            && BucketCounter(after, d, key, c)
               == BucketCounter(before, d, key, c) + BucketSum(env, source, items, day, d, key, c)
  {
    hide ImportRow, StoredDay, CounterOf, BucketCounter, RowAmount, RowKey, TokensSurvive, Falls, COUNTERS;
    if items != [] {
      var n := |items| - 1;
      RowsCounted(env, source, p, items[..n], day, d, key, c);
      RowCounts(env, source, ImportRows(env, source, p, items[..n]).value, items[n], day, d, key, c);
    }
  }

  /** The same for a committed import, from the database before it and the snapshot. */
  lemma ImportCounts(
      env: Env, db: Db, snapshot: Snapshot, source: string, day: string, d: Dimension, key: string, c: string)
    requires HISTORY <= snapshot.records.Keys && Sorts(env.sort) && c in COUNTERS
    requires !Known(db, snapshot, source) && Apply(env, db, snapshot, source).1.Some?
    requires forall item :: item in Items(snapshot, Order(env, snapshot)) && item.table == USAGE ==>
               TokensSurvive(env, item.entry.row)
    ensures var items := Items(snapshot, Order(env, snapshot));
            var before, after := StoredDay(db.daily, day), StoredDay(Apply(env, db, snapshot, source).0.daily, day);
            && CounterOf(after, c) == CounterOf(before, c) + DaySum(env, items, day, c)
            && BucketCounter(after, d, key, c)
               == BucketCounter(before, d, key, c) + BucketSum(env, source, items, day, d, key, c)
  {
    hide Apply, Items, Order, Sorts, HISTORY, Known, ImportRows, Begin, StoredDay, CounterOf, BucketCounter, DaySum,
      BucketSum, TokensSurvive, COUNTERS;
    OrderListsTables(env, snapshot);
    CommittedIsBeside(env, db, snapshot, source);
    BeginIsEmpty(db, snapshot, source);
    RowsCounted(env, source, Begin(db, snapshot, source), Items(snapshot, Order(env, snapshot)), day, d, key, c);
  }
}
