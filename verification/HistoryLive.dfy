/** Requests of the live proxy and further imports are live steps: neither spoils an earlier import's verification. */
module HistoryLive {
  import opened Bytes
  import opened Json
  import opened DailyCounters
  import opened DailyIncrements
  import opened DailyGrowth
  import opened LiveUsage
  import opened Projection
  import opened HistoryImport
  import opened HistoryProofs

  /** Every stored day that is a dictionary is calm. */
  ghost predicate CalmDays(daily: map<string, Json>)
  {
    forall day :: day in daily && daily[day].JObj? ==> CalmDay(daily[day].fields)
  }

  ghost predicate DaysGrow(a: map<string, Json>, b: map<string, Json>)
  {
    forall day :: day in a ==> day in b && Grows(a[day], Some(b[day]), false)
  }

  lemma EmptyDayIsCalm()
    ensures CalmDay(map[])
  {
  }

  /** One more regular request on some day. */
  lemma DayGrows(daily: map<string, Json>, day: string, u: Usage)
    requires Regular(u) && CalmDays(daily)
    requires IncrementDay(if day in daily then daily[day] else JObj(map[]), u).Some?
    ensures var after := daily[day := IncrementDay(if day in daily then daily[day] else JObj(map[]), u).value];
            CalmDays(after) && DaysGrow(daily, after)
  {
    hide Grows, CalmDay, Bumps, Added, COUNTERS;
    EmptyDayIsCalm();
    var before := if day in daily then daily[day] else JObj(map[]);
    CalmDayGrows(before, u);
    var after := daily[day := IncrementDay(before, u).value];
    forall d | d in daily ensures Grows(daily[d], Some(after[d]), false) {
      GrowsReflexive(daily[d], false);
    }
  }

  lemma DaysGrowOn(a: map<string, Json>, b: map<string, Json>, c: map<string, Json>)
    requires DaysGrow(a, b) && DaysGrow(b, c)
    ensures DaysGrow(a, c)
  {
    hide Grows;
    forall day | day in a ensures day in c && Grows(a[day], Some(c[day]), false) {
      GrowsTransitive(a[day], b[day], Some(c[day]), false);
    }
  }

  // ----- requests of the live proxy -----

  /** The day a first request starts from. */
  function FreshDay(): Fields
  {
    map k | k in {"requests", "promptTokens", "completionTokens", "cost"}
      + {"byProvider", "byModel", "byAccount", "byApiKey", "byEndpoint"} ::
      if k in COUNTERS then JNum(0.0) else JObj(map[])
  }

  /** saveRequestUsage: a usage row under a new id, the request added to its day, the lifetime count raised. */
  ghost predicate Served(js: Js, a: Db, b: Db, day: string, r: Request, g: Fields, id: Json, row: Row)
  {
    && USAGE in a.tables && id !in a.tables[USAGE] && CalmRequest(r)
    && (day in a.daily ==> a.daily[day].JObj?)
    && Aggregated(js, if day in a.daily then a.daily[day].fields else FreshDay(), g, r)
    && b == a.(tables := a.tables[USAGE := a.tables[USAGE][id := row]], daily := a.daily[day := JObj(g)],
       lifetime := Some(LifetimeOf(a) + 1))
  }

  ghost predicate Serves(js: Js, a: Db, b: Db)
  {
    exists day, r, g, id, row :: Served(js, a, b, day, r, g, id, row)
  }

  lemma FreshDayIsCalm()
    ensures CalmDay(FreshDay())
  {
    hide COUNTERS;
    var f := FreshDay();
    forall d ensures Buckets(f, d) == map[] {
      DimensionNames(d, d);
    }
  }

  /** A live request with non-negative amounts is a live step for every import, and leaves the days calm. */
  lemma RequestIsLive(js: Js, a: Db, b: Db, day: string, r: Request, g: Fields, id: Json, row: Row, source: string)
    requires CalmDays(a.daily) && Served(js, a, b, day, r, g, id, row)
    ensures Live(a, b, source) && CalmDays(b.daily)
  {
    hide Grows, CalmDay, CalmRequest, Aggregated, FreshDay;
    FreshDayIsCalm();
    CalmDayGrowsLive(js, if day in a.daily then a.daily[day].fields else FreshDay(), g, r);
    forall d | d in a.daily ensures Grows(a.daily[d], Some(b.daily[d]), false) {
      GrowsReflexive(a.daily[d], false);
    }
  }

  // ----- another import -----

  /** What a usage row counts as. */
  function ItemUsage(env: Env, source: string, item: Item): Option<Usage>
  {
    if item.table == USAGE then UsageOf(env, ProjectUsage(env.text, source, item.entry.row)) else None
  }

  /** The usage of a row, if it has any, is regular. */
  ghost predicate RegularItem(env: Env, source: string, item: Item)
  {
    ItemUsage(env, source, item).Some? ==> Regular(ItemUsage(env, source, item).value)
  }

  lemma ColumnsKept(text: Text, source: string, row: Row, id: Json)
    ensures var r := ProjectUsage(text, source, row)["id" := id];
            Cell(r, "timestamp") == Cell(row, "timestamp") && Cell(r, "model") == Cell(row, "model")
    ensures Cell(ProjectUsage(text, source, row), "model") == Cell(row, "model")
  {
    hide MappedId, LegacyMeta, Tokens;
  }

  /** A row with a text model, or none, and no negative amount is regular. */
  lemma TextRowIsRegular(env: Env, source: string, item: Item)
    requires var model := Cell(item.entry.row, "model"); !model.JNum? && !model.JObj?
    requires var u := ItemUsage(env, source, item);
             u.Some? ==> forall c :: c in u.value.amounts ==> u.value.amounts[c] >= 0.0
    ensures RegularItem(env, source, item)
  {
    hide Regular, AmountsOf, COUNTERS, ProjectUsage;
    ColumnsKept(env.text, source, item.entry.row, JNull);
    if ItemUsage(env, source, item).Some? {
      TextModelIsRegular(ItemUsage(env, source, item).value);
    }
  }

  lemma AmountsIgnoreId(env: Env, row: Row, id: Json)
    ensures AmountsOf(env, row["id" := id]) == AmountsOf(env, row)
  {
    hide Amount, TokenFields, COUNTERS;
  }

  lemma IdIsNotUsage(env: Env, row: Row, id: Json)
    ensures UsageOf(env, row["id" := id]) == UsageOf(env, row)
  {
    hide Amount, OptionalText, TokenFields, COUNTERS, AmountsOf;
    AmountsIgnoreId(env, row, id);
  }

  lemma {:induction false} RowsGrow(env: Env, source: string, p: Progress, items: seq<Item>)
    requires ImportRows(env, source, p, items).Some? && CalmDays(p.db.daily)
    requires forall i :: 0 <= i < |items| ==> RegularItem(env, source, items[i])
    ensures var q := ImportRows(env, source, p, items).value;
            CalmDays(q.db.daily) && DaysGrow(p.db.daily, q.db.daily)
  {
    hide ImportRow, CalmDays, DaysGrow, RegularItem, AddUsage, Tally;
    if items == [] {
      SameDaysGrow(p.db.daily);
    } else {
      var n := |items| - 1;
      var m, q := ImportRows(env, source, p, items[..n]).value, ImportRows(env, source, p, items).value;
      RowsGrow(env, source, p, items[..n]);
      RowDaily(env, source, m, items[n]);
      if items[n].table == USAGE {
        var id :| UsageStepped(m, AddUsage(env, m.db.daily, UsageRow(env, source, items[n], id)), q);
        UsageGrows(env, source, m.db.daily, items[n], id);
        DaysGrowOn(p.db.daily, m.db.daily, q.db.daily);
      }
    }
  }

  lemma SameDaysGrow(daily: map<string, Json>)
    ensures DaysGrow(daily, daily)
  {
    hide Grows;
    forall day | day in daily ensures Grows(daily[day], Some(daily[day]), false) {
      GrowsReflexive(daily[day], false);
    }
  }

  lemma UsageGrows(env: Env, source: string, daily: map<string, Json>, item: Item, id: Json)
    requires AddUsage(env, daily, UsageRow(env, source, item, id)).Some? && CalmDays(daily)
    requires item.table == USAGE && RegularItem(env, source, item)
    ensures var after := AddUsage(env, daily, UsageRow(env, source, item, id)).value.0;
            CalmDays(after) && DaysGrow(daily, after)
  {
    hide UsageOf, CalmDays, DaysGrow, Regular, IncrementDay, ProjectUsage;
    var row := UsageRow(env, source, item, id);
    IdIsNotUsage(env, ProjectUsage(env.text, source, item.entry.row), id);
    DayGrows(daily, env.day(Cell(row, "timestamp")).value, UsageOf(env, row).value);
  }

  lemma KeptIsUntouched(a: Db, b: Db, table: string, imported: Option<Imported>)
    requires Keeps(a, b)
    ensures Untouched(a, b, table, imported)
  {
  }

  lemma OtherSourcesArchive(a: Db, b: Db, mine: Expectation, source: string, other: string)
    requires source != other && Joined(a.records, b.records, mine) && forall key :: key in mine ==> key.source == source
    ensures Archived(a, other) == Archived(b, other)
  {
  }

  /** What an import does to everything but its own records and the days: it only adds. */
  ghost predicate Beside(db: Db, after: Db, mine: Expectation, source: string)
  {
    && Keeps(db, after) && Joined(db.records, after.records, mine)
    && (forall key :: key in mine ==> key.source == source)
    && (forall s :: s in db.sources && s != source ==> s in after.sources && after.sources[s] == db.sources[s])
    && (db.lifetime.Some? ==> after.lifetime.Some? && db.lifetime.value <= after.lifetime.value)
  }

  lemma RowsLeaveBeside(env: Env, db: Db, snapshot: Snapshot, source: string, items: seq<Item>)
    requires ImportRows(env, source, Begin(db, snapshot, source), items).Some?
    ensures var p := ImportRows(env, source, Begin(db, snapshot, source), items).value;
            Beside(db, p.db, Expected(env, source, items), source) && p.db.lifetime == db.lifetime
  {
    hide ImportRows, Tally, Expected, Keeps, Follows, Rows;
    var begun := Begin(db, snapshot, source);
    TouchedExist(env, source, begun, items);
    RowsTallied(env, source, begun, items);
    RowsArchived(env, source, begun, items);
    KeepsFrom(db, begun.db, ImportRows(env, source, begun, items).value.db);
  }

  lemma SealedIsBeside(db: Db, p: Progress, mine: Expectation, source: string)
    requires Beside(db, p.db, mine, source) && p.db.lifetime == db.lifetime
    requires source in p.db.sources && p.touched <= p.db.daily.Keys
    ensures Beside(db, Seal(p, source), mine, source) && Seal(p, source).daily == p.db.daily
  {
    hide Keeps, Seal, Tally;
    SealKeeps(p, source);
    KeepsOn(db, p.db, Seal(p, source));
  }

  /** A committed import, seen from outside. */
  lemma CommittedIsBeside(env: Env, db: Db, snapshot: Snapshot, source: string)
    requires HISTORY <= snapshot.records.Keys && Sorts(env.sort)
    requires !Known(db, snapshot, source) && Apply(env, db, snapshot, source).1.Some?
    ensures Imports(env, db, snapshot, source).Some?
    ensures var after := Apply(env, db, snapshot, source).0;
            && after.daily == Imports(env, db, snapshot, source).value.db.daily
            && Beside(db, after, Expected(env, source, Items(snapshot, Order(env, snapshot))), source)
  {
    hide ImportRows, Items, Order, Tally, Verified, HISTORY, Expected, Beside, Seal, Rows, Sorts, Known;
    OrderListsTables(env, snapshot);
    var begun := Begin(db, snapshot, source);
    var items := Items(snapshot, Order(env, snapshot));
    TouchedExist(env, source, begun, items);
    RowsLeaveBeside(env, db, snapshot, source, items);
    SealedIsBeside(db, ImportRows(env, source, begun, items).value, Expected(env, source, items), source);
  }

  /** The records of other sources are left alone, and so are the rows they stand for. */
  lemma BesideKeepsOthers(db: Db, after: Db, mine: Expectation, source: string, other: string)
    requires Beside(db, after, mine, source) && source != other
    ensures Archived(db, other) == Archived(after, other)
    ensures forall key :: key in Archived(db, other) ==>
              after.records[key] == db.records[key] && Untouched(db, after, key.table, db.records[key].imported)
  {
    hide Keeps, Archived, Untouched;
    OtherSourcesArchive(db, after, mine, source, other);
    forall key | key in Archived(db, other)
      ensures key in db.records && after.records[key] == db.records[key]
           && Untouched(db, after, key.table, db.records[key].imported)
    {
      ArchivedHere(db, other, key);
      KeptIsUntouched(db, after, key.table, db.records[key].imported);
    }
  }

  lemma BesideIsLive(db: Db, after: Db, mine: Expectation, source: string, other: string)
    requires Beside(db, after, mine, source) && source != other && DaysGrow(db.daily, after.daily)
    ensures Live(db, after, other)
  {
    hide Keeps, Grows, Archived, Untouched;
    BesideKeepsOthers(db, after, mine, source, other);
  }

  lemma ArchivedHere(db: Db, source: string, key: RecordKey)
    requires key in Archived(db, source)
    ensures key in db.records
  {
  }
}
