/** What a committed import conserves, and why it stays verifiable. */
module HistoryProofs {
  import opened Bytes
  import opened Json
  import opened DailyCounters
  import opened DailyIncrements
  import opened Projection
  import opened HistoryImport

  // ----- one row -----

  /** Rows are only added. */
  ghost predicate Keeps(a: Db, b: Db)
  {
    forall t, id :: t in a.tables && id in a.tables[t] ==>
      t in b.tables && id in b.tables[t] && b.tables[t][id] == a.tables[t][id]
  }

  /** The table counts follow the tally. */
  ghost predicate Follows(p: Progress, q: Progress)
  {
    forall t :: Rows(q.db, t) - Rows(p.db, t) == Tally(q.inserted, t) - Tally(p.inserted, t)
  }

  lemma InsertAdds(env: Env, db: Db, table: string, row: Row)
    requires Insert(env, db, table, row).Some?
    ensures var after := Insert(env, db, table, row).value.0;
            && Keeps(db, after) && after == db.(tables := after.tables)
            && forall t :: Rows(after, t) == Rows(db, t) + if t == table then 1 else 0
  {
    var (after, id) := Insert(env, db, table, row).value;
    OneMoreKey(db.tables[table], id, after.tables[table][id]);
  }

  lemma PlaceAdds(env: Env, p: Progress, table: string, row: Row)
    requires Place(env, p, table, row).Some?
    ensures var q := Place(env, p, table, row).value.0;
            && Keeps(p.db, q.db) && Follows(p, q) && q.db.records == p.db.records && q.db.lifetime == p.db.lifetime
            && q.archived == p.archived && q.inserted == p.inserted[table := Tally(p.inserted, table) + 1]
  {
    hide AddUsage, Insert;
    InsertAdds(env, p.db, table, row);
  }

  /** The aggregates move only for a usage row, and then by that row. */
  lemma PlaceDaily(env: Env, p: Progress, table: string, row: Row)
    requires Place(env, p, table, row).Some?
    ensures var (q, imported) := Place(env, p, table, row).value;
            if table != USAGE then q.db.daily == p.db.daily && q.touched == p.touched
            else
              var added := AddUsage(env, p.db.daily, row["id" := imported.id]);
              added.Some? && added.value.0 == q.db.daily && q.touched == p.touched + {added.value.1}
  {
    hide AddUsage;
  }

  /** What one imported row does, apart from the aggregates. */
  ghost predicate Stepped(env: Env, source: string, p: Progress, item: Item, q: Progress)
  {
    && Keeps(p.db, q.db) && Follows(p, q) && q.db.lifetime == p.db.lifetime
    && var key := RecordKey(source, item.table, item.entry.key);
    && key !in p.db.records && key in q.db.records
    && q.db.records == p.db.records[key := q.db.records[key]]
    && (forall t :: Tally(q.inserted, t) + Tally(q.archived, t)
                    == Tally(p.inserted, t) + Tally(p.archived, t) + (if t == item.table then 1 else 0))
  }

  lemma SameTables(a: Db, b: Db)
    requires a.tables == b.tables
    ensures Keeps(a, b) && forall t :: Rows(a, t) == Rows(b, t)
  {
  }

  lemma KeepsOn(a: Db, b: Db, c: Db)
    requires Keeps(a, b) && b.tables == c.tables
    ensures Keeps(a, c) && forall t :: Rows(b, t) == Rows(c, t)
  {
  }

  lemma RowSteps(env: Env, source: string, p: Progress, item: Item)
    requires ImportRow(env, source, p, item).Some?
    ensures Stepped(env, source, p, item, ImportRow(env, source, p, item).value)
  {
    hide Project, Place, ArchiveRow, Rows, Keeps;
    var projection := Project(env.text, source, item.table, item.entry.row).0;
    var q := ImportRow(env, source, p, item).value;
    if projection.Some? {
      PlaceAdds(env, p, item.table, projection.value);
      var m := Place(env, p, item.table, projection.value).value.0;
      KeepsOn(p.db, m.db, q.db);
    } else {
      SameTables(p.db, q.db);
    }
  }

  /** The aggregates after a row: unchanged, or those of one more usage row. */
  ghost predicate DailyStepped(env: Env, source: string, p: Progress, item: Item, q: Progress)
  {
    if item.table != USAGE then
      && q.db.daily == p.db.daily && q.touched == p.touched
      && Tally(q.inserted, USAGE) == Tally(p.inserted, USAGE)
    else
      && Tally(q.inserted, USAGE) == Tally(p.inserted, USAGE) + 1
      && exists id :: UsageStepped(p, AddUsage(env, p.db.daily, UsageRow(env, source, item, id)), q)
  }

  function UsageRow(env: Env, source: string, item: Item, id: Json): Row
  {
    ProjectUsage(env.text, source, item.entry.row)["id" := id]
  }

  ghost predicate UsageStepped(p: Progress, added: Option<(map<string, Json>, string)>, q: Progress)
  {
    added.Some? && added.value.0 == q.db.daily && q.touched == p.touched + {added.value.1}
  }

  lemma UsageIsProjected(text: Text, source: string, row: Row)
    ensures Project(text, source, USAGE, row).0 == Some(ProjectUsage(text, source, row))
  {
    hide ProjectUsage;
    assert USAGE != ACCOUNTS;
  }

  lemma RowDaily(env: Env, source: string, p: Progress, item: Item)
    requires ImportRow(env, source, p, item).Some?
    ensures DailyStepped(env, source, p, item, ImportRow(env, source, p, item).value)
  {
    hide Project, Place, ArchiveRow, AddUsage, ProjectUsage, Keeps, Follows;
    UsageIsProjected(env.text, source, item.entry.row);
    var projection := Project(env.text, source, item.table, item.entry.row).0;
    if projection.Some? {
      PlaceAdds(env, p, item.table, projection.value);
      PlaceDaily(env, p, item.table, projection.value);
      if item.table == USAGE {
        var (m, imported) := Place(env, p, item.table, projection.value).value;
        assert UsageStepped(p, AddUsage(env, p.db.daily, UsageRow(env, source, item, imported.id)), m);
      }
    }
  }

  // ----- all rows -----

  function Count(items: seq<Item>, table: string): nat
  {
    if items == [] then 0 else Count(items[..|items| - 1], table) + if items[|items| - 1].table == table then 1 else 0
  }

  /** Every row is tallied once, nothing that was there is changed. */
  lemma {:induction false} RowsTallied(env: Env, source: string, p: Progress, items: seq<Item>)
    requires ImportRows(env, source, p, items).Some?
    ensures var q := ImportRows(env, source, p, items).value;
            && Keeps(p.db, q.db) && Follows(p, q) && q.db.lifetime == p.db.lifetime
            && forall t ::
                 Tally(q.inserted, t) + Tally(q.archived, t)
                 == Tally(p.inserted, t) + Tally(p.archived, t) + Count(items, t)
  {
    hide ImportRow, Rows, Tally;
    if items != [] {
      var n := |items| - 1;
      RowsTallied(env, source, p, items[..n]);
      RowSteps(env, source, ImportRows(env, source, p, items[..n]).value, items[n]);
    }
  }

  /** Every row leaves one archive record of its own, and no other source's record is touched. */
  lemma {:induction false} RowsArchived(env: Env, source: string, p: Progress, items: seq<Item>)
    requires ImportRows(env, source, p, items).Some?
    ensures var q := ImportRows(env, source, p, items).value;
            && |Expected(env, source, items)| == |items|
            && Joined(p.db.records, q.db.records, Expected(env, source, items))
            && forall key :: key in Expected(env, source, items) ==> key.source == source
  {
    hide ImportRow, Keeps, Follows, Rows, Tally, ArchiveRow;
    if items != [] {
      var n := |items| - 1;
      RowsArchived(env, source, p, items[..n]);
      var m, q := ImportRows(env, source, p, items[..n]).value, ImportRows(env, source, p, items).value;
      RowSteps(env, source, m, items[n]);
      var e, key := Expected(env, source, items[..n]), RecordKey(source, items[n].table, items[n].entry.key);
      assert key !in e;
      OneMoreRecord(p.db.records, m.db.records, e, key, q.db.records[key], Expected(env, source, items)[key]);
      OneMoreKey(e, key, Expected(env, source, items)[key]);
    }
  }

  /** `b` is `a` with entries added under the keys of `e`. */
  ghost predicate Joined<K(!new), V(!new), W(!new)>(a: map<K, V>, b: map<K, V>, e: map<K, W>)
  {
    (forall k :: k in b <==> k in a || k in e) && forall k :: k in a ==> k !in e && b[k] == a[k]
  }

  lemma OneMoreRecord<K(!new), V(!new), W(!new)>(a: map<K, V>, b: map<K, V>, e: map<K, W>, key: K, v: V, w: W)
    requires Joined(a, b, e) && key !in b
    ensures Joined(a, b[key := v], e[key := w])
  {
  }

  lemma OneMoreKey<K, V>(m: map<K, V>, key: K, v: V)
    requires key !in m
    ensures |m[key := v]| == |m| + 1
  {
    assert m[key := v].Keys == m.Keys + {key};
    assert |m[key := v]| == |m[key := v].Keys| && |m| == |m.Keys|;
  }

  // ----- the aggregates -----

  /** The dimensions in which every request has a bucket. */
  predicate Full(d: Dimension)
  {
    d == ByModel || d == ByApiKey || d == ByEndpoint
  }

  /** The bucket sums of a day minus the day's own counter, whether or not the day is stored. */
  ghost function DayImbalance(daily: map<string, Json>, day: string, d: Dimension, c: string): real
  {
    if day in daily then Imbalance(daily[day], d, c) else 0.0
  }

  lemma EmptyDay(d: Dimension, c: string)
    ensures Imbalance(JObj(map[]), d, c) == 0.0 && CounterOf(JObj(map[]), c) == 0.0
  {
  }

  lemma AddUsageBalance(env: Env, daily: map<string, Json>, row: Row, day: string, d: Dimension, c: string)
    requires AddUsage(env, daily, row).Some? && Full(d) && c in COUNTERS
    ensures DayImbalance(AddUsage(env, daily, row).value.0, day, d, c) == DayImbalance(daily, day, d, c)
  {
    hide IncrementDay, Imbalance, UsageOf, COUNTERS;
    var today, u := env.day(Cell(row, "timestamp")).value, UsageOf(env, row).value;
    var before := if today in daily then daily[today] else JObj(map[]);
    IncrementBalance(before, u, d, c);
    EmptyDay(d, c);
    assert Target(u, d).Some?;
  }

  lemma AddUsageTotal(env: Env, daily: map<string, Json>, row: Row)
    requires AddUsage(env, daily, row).Some?
    ensures Total(AddUsage(env, daily, row).value.0, "requests") == Total(daily, "requests") + 1.0
  {
    hide IncrementDay, Imbalance, UsageOf, Total, CounterOf;
    var today, u := env.day(Cell(row, "timestamp")).value, UsageOf(env, row).value;
    var before := if today in daily then daily[today] else JObj(map[]);
    IncrementBalance(before, u, ByModel, "requests");
    EmptyDay(ByModel, "requests");
    TotalUpdate(daily, "requests", today, IncrementDay(before, u).value);
  }

  /** Over all rows: no day's buckets drift from the day, and the days gain one request per usage row. */
  lemma {:induction false} RowsBalance(env: Env, source: string, p: Progress, items: seq<Item>)
    requires ImportRows(env, source, p, items).Some?
    ensures var q := ImportRows(env, source, p, items).value;
            && (forall day, d, c :: Full(d) && c in COUNTERS ==>
               DayImbalance(q.db.daily, day, d, c) == DayImbalance(p.db.daily, day, d, c))
            && Total(q.db.daily, "requests")
               == Total(p.db.daily, "requests") + (Tally(q.inserted, USAGE) - Tally(p.inserted, USAGE)) as real
  {
    hide ImportRow, Tally, AddUsage, DayImbalance, Total, COUNTERS, Full, ProjectUsage;
    if items != [] {
      var n := |items| - 1;
      var m := ImportRows(env, source, p, items[..n]).value;
      RowsBalance(env, source, p, items[..n]);
      RowDaily(env, source, m, items[n]);
      if items[n].table == USAGE {
        var q := ImportRow(env, source, m, items[n]).value;
        var id :| UsageStepped(m, AddUsage(env, m.db.daily, UsageRow(env, source, items[n], id)), q);
        var row := UsageRow(env, source, items[n], id);
        AddUsageTotal(env, m.db.daily, row);
        forall day, d, c | Full(d) && c in COUNTERS
          ensures DayImbalance(q.db.daily, day, d, c) == DayImbalance(m.db.daily, day, d, c) {
          AddUsageBalance(env, m.db.daily, row, day, d, c);
        }
      }
    }
  }

  // ----- conservation over the whole import -----

  lemma {:induction false} CountTable(items: seq<Item>, more: seq<Item>, table: string, t: string)
    requires forall i :: 0 <= i < |more| ==> more[i].table == table
    ensures Count(items + more, t) == Count(items, t) + if t == table then |more| else 0
    decreases |more|
  {
    if more == [] {
      assert items + more == items;
    } else {
      var n := |more| - 1;
      CountTable(items, more[..n], table, t);
      assert (items + more)[..|items| + n] == items + more[..n];
    }
  }

  lemma {:induction false} CountItems(snapshot: Snapshot, tables: seq<string>, t: string)
    requires forall t :: t in tables ==> t in snapshot.records
    requires forall i, j :: 0 <= i < j < |tables| ==> tables[i] != tables[j]
    ensures Count(Items(snapshot, tables), t) == if t in tables then |snapshot.records[t]| else 0
  {
    if tables != [] {
      var n := |tables| - 1;
      CountItems(snapshot, tables[..n], t);
      CountTable(Items(snapshot, tables[..n]), TableItems(tables[n], snapshot.records[tables[n]]), tables[n], t);
      assert forall x :: x in tables <==> x in tables[..n] || x == tables[n];
      assert t == tables[n] ==> t !in tables[..n];
    }
  }

  lemma OrderListsTables(env: Env, snapshot: Snapshot)
    requires HISTORY <= snapshot.records.Keys && Sorts(env.sort)
    ensures var tables := Order(env, snapshot);
            && (forall t :: t in tables <==> t in snapshot.records)
            && forall i, j :: 0 <= i < j < |tables| ==> tables[i] != tables[j]
  {
    hide HISTORY;
    assert ACCOUNTS in snapshot.records by { AccountsAreHistory(); }
    var others := env.sort(snapshot.records.Keys - {ACCOUNTS});
    assert ACCOUNTS !in others;
    assert forall i :: 0 <= i < |others| ==> others[i] in others;
  }

  lemma UsageIsHistory()
    ensures USAGE in HISTORY
  {
  }

  lemma AccountsAreHistory()
    ensures ACCOUNTS in HISTORY && USAGE in HISTORY
  {
  }

  lemma BeginIsEmpty(db: Db, snapshot: Snapshot, source: string)
    ensures var p := Begin(db, snapshot, source);
            && p.db == db.(sources := p.db.sources) && source in p.db.sources && p.touched == {}
            && forall t :: Tally(p.inserted, t) == 0 && Tally(p.archived, t) == 0
  {
  }

  lemma SealKeeps(p: Progress, source: string)
    requires source in p.db.sources && p.touched <= p.db.daily.Keys
    ensures var d := Seal(p, source);
            && d == p.db.(lifetime := d.lifetime, sources := d.sources)
            && d.lifetime == Some(LifetimeOf(p.db) + Tally(p.inserted, USAGE))
            && (forall s :: s in p.db.sources ==> s in d.sources && (s != source ==> d.sources[s] == p.db.sources[s]))
            && source in d.sources && d.sources[source].receipt.Some? && ShapedReceipt(d.sources[source].receipt.value)
  {
    forall day | day in p.touched ensures ReceiptShape(NumericCounters(p.db.daily[day])) {
      ReceiptHasShape(p.db.daily[day]);
    }
  }

  ghost predicate ShapedReceipt(receipt: Receipt)
  {
    forall day :: day in receipt.days ==> ReceiptShape(receipt.days[day])
  }

  /** The import's own check of its receipt passes exactly when every day it touched is receiptable. */
  lemma OwnReceiptHoldsIff(p: Progress, source: string)
    requires source in p.db.sources && p.touched <= p.db.daily.Keys
    ensures ReceiptHolds(Seal(p, source), Seal(p, source).sources[source].receipt.value)
            <==> forall day :: day in p.touched ==> Receiptable(p.db.daily[day])
  {
    hide Bounded, Receiptable, NumericCounters;
    forall day | day in p.touched
      ensures Bounded(Some(p.db.daily[day]), NumericCounters(p.db.daily[day])) <==> Receiptable(p.db.daily[day])
    {
      FreshReceiptVerifies(p.db.daily[day]);
    }
  }

  /** The progress at the end of the row loop of a successful import. */
  ghost function Imports(env: Env, db: Db, snapshot: Snapshot, source: string): Option<Progress>
    requires HISTORY <= snapshot.records.Keys && Sorts(env.sort)
  {
    ImportRows(env, source, Begin(db, snapshot, source), Items(snapshot, Order(env, snapshot)))
  }

  /** The final comparison of table counts cannot fail: it holds whenever the row loop got through. */
  lemma RowDeltasAlwaysMatch(env: Env, db: Db, snapshot: Snapshot, source: string)
    requires HISTORY <= snapshot.records.Keys && Sorts(env.sort) && Imports(env, db, snapshot, source).Some?
    ensures var p := Imports(env, db, snapshot, source).value;
            forall t :: Rows(p.db, t) - Rows(db, t) == Tally(p.inserted, t)
  {
    hide ImportRows, Begin, Items, Order, Tally;
    OrderListsTables(env, snapshot);
    var begun := Begin(db, snapshot, source);
    BeginIsEmpty(db, snapshot, source);
    RowsTallied(env, source, begun, Items(snapshot, Order(env, snapshot)));
    SameTables(db, begun.db);
  }

  /** Each table's inserted plus archived rows are its source rows, and every source row has its one archive record. */
  lemma RowsConserved(env: Env, db: Db, snapshot: Snapshot, source: string)
    requires HISTORY <= snapshot.records.Keys && Sorts(env.sort) && Imports(env, db, snapshot, source).Some?
    ensures var p, items := Imports(env, db, snapshot, source).value, Items(snapshot, Order(env, snapshot));
            && (forall t :: t in snapshot.records ==>
               Tally(p.inserted, t) + Tally(p.archived, t) == |snapshot.records[t]|)
            && |p.db.records| == |db.records| + |items|
            && Joined(db.records, p.db.records, Expected(env, source, items))
            && Keeps(db, p.db)
  {
    hide ImportRows, Begin, Items, Order, Tally, Expected, Keeps;
    var begun := Begin(db, snapshot, source);
    var tables := Order(env, snapshot);
    OrderListsTables(env, snapshot);
    var items := Items(snapshot, tables);
    BeginIsEmpty(db, snapshot, source);
    RowsTallied(env, source, begun, items);
    RowsArchived(env, source, begun, items);
    var p := Imports(env, db, snapshot, source).value;
    forall t | t in snapshot.records ensures Tally(p.inserted, t) + Tally(p.archived, t) == |snapshot.records[t]| {
      CountItems(snapshot, tables, t);
    }
    JoinedSize(db.records, p.db.records, Expected(env, source, items));
    KeepsFrom(db, begun.db, p.db);
  }

  lemma JoinedSize<K(!new), V(!new), W(!new)>(a: map<K, V>, b: map<K, V>, e: map<K, W>)
    requires Joined(a, b, e)
    ensures |b| == |a| + |e|
  {
    assert b.Keys == a.Keys + e.Keys && a.Keys !! e.Keys;
    assert |b| == |b.Keys| && |a| == |a.Keys| && |e| == |e.Keys|;
  }

  lemma KeepsFrom(a: Db, b: Db, c: Db)
    requires a.tables == b.tables && Keeps(b, c)
    ensures Keeps(a, c)
  {
  }

  /** No usage row is only archived. */
  lemma {:induction false} UsageRowsInserted(env: Env, source: string, p: Progress, items: seq<Item>)
    requires ImportRows(env, source, p, items).Some?
    ensures Tally(ImportRows(env, source, p, items).value.inserted, USAGE)
         == Tally(p.inserted, USAGE) + Count(items, USAGE)
  {
    hide ImportRow, Tally, AddUsage, ProjectUsage;
    if items != [] {
      var n := |items| - 1;
      var m := ImportRows(env, source, p, items[..n]).value;
      UsageRowsInserted(env, source, p, items[..n]);
      RowDaily(env, source, m, items[n]);
    }
  }

  /** A reported import changed the counters by exactly its usage rows, and no day's buckets drifted from the day. */
  lemma CountersConserved(env: Env, db: Db, snapshot: Snapshot, source: string)
    requires HISTORY <= snapshot.records.Keys && Sorts(env.sort)
    requires !Known(db, snapshot, source) && Apply(env, db, snapshot, source).1.Some?
    ensures var (after, report) := Apply(env, db, snapshot, source);
            && report.value.Complete? && report.value.rows == snapshot.count
            && USAGE in snapshot.records && Tally(report.value.inserted, USAGE) == |snapshot.records[USAGE]|
            && report.value.lifetimeBefore == (if db.lifetime.Some? then db.lifetime.value else 0)
            && after.lifetime == Some(report.value.lifetimeAfter)
            && report.value.lifetimeAfter == report.value.lifetimeBefore + |snapshot.records[USAGE]|
            && Total(after.daily, "requests") == Total(db.daily, "requests") + |snapshot.records[USAGE]| as real
            && forall day, d, c :: Full(d) && c in COUNTERS ==>
               DayImbalance(after.daily, day, d, c) == DayImbalance(db.daily, day, d, c)
  {
    hide ImportRows, Begin, Items, Order, Tally, Known, Verified, Total, DayImbalance, COUNTERS, Seal, HISTORY;
    OrderListsTables(env, snapshot);
    var begun := Begin(db, snapshot, source);
    var items := Items(snapshot, Order(env, snapshot));
    BeginIsEmpty(db, snapshot, source);
    RowsBalance(env, source, begun, items);
    RowsTallied(env, source, begun, items);
    UsageRowsInserted(env, source, begun, items);
    assert USAGE in snapshot.records by { UsageIsHistory(); }
    CountItems(snapshot, Order(env, snapshot), USAGE);
    TouchedExist(env, source, begun, items);
    SealKeeps(ImportRows(env, source, begun, items).value, source);
  }

  // ----- staying verifiable -----

  /**
   * What may happen to the database between an import and its replay: its records and rows are left
   * alone, counters do not fall.
   */
  ghost predicate Live(a: Db, b: Db, source: string)
  {
    && (source in a.sources ==> source in b.sources && b.sources[source] == a.sources[source])
    && Archived(a, source) == Archived(b, source)
    && (forall key :: key in Archived(a, source) ==>
       b.records[key] == a.records[key] && Untouched(a, b, key.table, a.records[key].imported))
    && (forall day :: day in a.daily ==> day in b.daily && Grows(a.daily[day], Some(b.daily[day]), false))
    && (a.lifetime.Some? ==> b.lifetime.Some? && a.lifetime.value <= b.lifetime.value)
  }

  predicate Untouched(a: Db, b: Db, table: string, imported: Option<Imported>)
  {
    imported.Some? && table in a.tables && imported.value.id in a.tables[table] ==>
      && table in b.tables && imported.value.id in b.tables[table]
      && b.tables[table][imported.value.id] == a.tables[table][imported.value.id]
  }

  lemma ReceiptStillHolds(a: Db, b: Db, receipt: Receipt)
    requires ReceiptHolds(a, receipt) && ShapedReceipt(receipt)
    requires forall day :: day in a.daily ==> day in b.daily && Grows(a.daily[day], Some(b.daily[day]), false)
    requires a.lifetime.Some? ==> b.lifetime.Some? && a.lifetime.value <= b.lifetime.value
    ensures ReceiptHolds(b, receipt)
  {
    hide Bounded, Grows, ReceiptShape;
    forall day | day in receipt.days ensures day in b.daily && Bounded(Some(b.daily[day]), receipt.days[day]) {
      GrowthKeepsBounds(a.daily[day], Some(b.daily[day]), receipt.days[day], false);
    }
  }

  ghost predicate Shaped(db: Db, source: string)
  {
    source in db.sources && db.sources[source].receipt.Some? && ShapedReceipt(db.sources[source].receipt.value)
  }

  lemma ArchiveStillMatches(a: Db, b: Db, source: string, expected: Expectation)
    requires ArchiveMatches(a, source, expected) && Archived(a, source) == Archived(b, source)
    requires forall key :: key in Archived(a, source) ==>
             b.records[key] == a.records[key] && Untouched(a, b, key.table, a.records[key].imported)
    ensures ArchiveMatches(b, source, expected)
  {
    forall key | key in Archived(b, source) && b.records[key].imported.Some?
      ensures Stands(b, key.table, b.records[key].imported.value) {
      assert key in Archived(a, source);
      assert Untouched(a, b, key.table, a.records[key].imported);
    }
  }

  /** The verification of an import survives every live step. */
  lemma LiveKeepsVerified(env: Env, a: Db, b: Db, source: string, items: seq<Item>)
    requires Verified(env, a, source, items) && Shaped(a, source) && Live(a, b, source)
    ensures Verified(env, b, source, items) && Shaped(b, source)
  {
    hide Expected, ShapedReceipt, ArchiveMatches, ReceiptHolds, Grows, Archived, Untouched;
    ArchiveStillMatches(a, b, source, Expected(env, source, items));
    ReceiptStillHolds(a, b, a.sources[source].receipt.value);
  }

  lemma {:induction false} LiveRunKeepsVerified(env: Env, run: seq<Db>, source: string, items: seq<Item>)
    requires run != [] && Verified(env, run[0], source, items) && Shaped(run[0], source)
    requires forall i :: 0 <= i < |run| - 1 ==> Live(run[i], run[i + 1], source)
    ensures Verified(env, run[|run| - 1], source, items) && run[|run| - 1].sources[source] == run[0].sources[source]
    ensures Shaped(run[|run| - 1], source)
    decreases |run|
  {
    hide Verified, Shaped, Live;
    if |run| > 1 {
      var n := |run| - 1;
      var before := run[..n];
      assert forall i :: 0 <= i < n ==> before[i] == run[i];
      LiveRunKeepsVerified(env, before, source, items);
      assert Live(run[n - 1], run[n - 1 + 1], source);
      LiveKeepsVerified(env, run[n - 1], run[n], source, items);
      LiveKeepsSource(run[n - 1], run[n], source);
    }
  }

  lemma LiveKeepsSource(a: Db, b: Db, source: string)
    requires Live(a, b, source) && Shaped(a, source)
    ensures b.sources[source] == a.sources[source]
  {
  }

  /**
   * A committed import stays verifiable: re-applying its snapshot after any live run is accepted and
   * leaves the database unchanged. The run of one state is the immediate re-application.
   */
  lemma ReplayAccepted(env: Env, db: Db, snapshot: Snapshot, source: string, run: seq<Db>)
    requires HISTORY <= snapshot.records.Keys && Sorts(env.sort)
    requires !Known(db, snapshot, source) && Apply(env, db, snapshot, source).1.Some?
    requires run != [] && run[0] == Apply(env, db, snapshot, source).0
    requires forall i :: 0 <= i < |run| - 1 ==> Live(run[i], run[i + 1], source)
    ensures Apply(env, run[|run| - 1], snapshot, source) == (run[|run| - 1], Some(AlreadyImported(snapshot.count)))
  {
    hide ImportRows, Items, Order, Tally, Verified, Live, HISTORY, Seal, Begin;
    OrderListsTables(env, snapshot);
    CommittedIsVerified(env, db, snapshot, source);
    LiveRunKeepsVerified(env, run, source, Items(snapshot, Order(env, snapshot)));
  }

  lemma CommittedIsVerified(env: Env, db: Db, snapshot: Snapshot, source: string)
    requires HISTORY <= snapshot.records.Keys && Sorts(env.sort)
    requires !Known(db, snapshot, source) && Apply(env, db, snapshot, source).1.Some?
    ensures var after := Apply(env, db, snapshot, source).0;
            && Verified(env, after, source, Items(snapshot, Order(env, snapshot)))
            && Shaped(after, source) && SameImport(after, snapshot, source)
  {
    hide ImportRows, Items, Order, Tally, Verified, HISTORY;
    OrderListsTables(env, snapshot);
    var begun := Begin(db, snapshot, source);
    var items := Items(snapshot, Order(env, snapshot));
    BeginIsEmpty(db, snapshot, source);
    TouchedExist(env, source, begun, items);
    SealKeeps(ImportRows(env, source, begun, items).value, source);
  }
}
