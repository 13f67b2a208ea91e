/** Exactly which snapshots an import accepts. */
module HistoryOutcome {
  import opened Bytes
  import opened Json
  import opened DailyCounters
  import opened DailyIncrements
  import opened DailyReceipts
  import opened Projection
  import opened HistoryImport
  import opened HistoryProofs
  import opened HistoryLive

  /** A usage row without a provider whose model is called like a counter. */
  predicate BadItem(env: Env, source: string, item: Item)
  {
    var u := ItemUsage(env, source, item);
    u.Some? && CounterNamed(u.value)
  }

  /** The days the usage rows fall on. */
  function UsageDays(env: Env, items: seq<Item>): set<string>
  {
    if items == [] then {}
    else
      var item := items[|items| - 1];
      var day := env.day(Cell(item.entry.row, "timestamp"));
      UsageDays(env, items[..|items| - 1]) + if item.table == USAGE && day.Some? then {day.value} else {}
  }

  /** A projected account id never is a counter's name. */
  lemma AccountIsNoCounter(env: Env, source: string, row: Row)
    ensures var u := UsageOf(env, ProjectUsage(env.text, source, row));
            u.Some? && u.value.account.Some? ==> u.value.account.value !in COUNTERS
  {
    hide LegacyMeta, Tokens, AmountsOf, COUNTERS;
    var cell := Cell(ProjectUsage(env.text, source, row), "connectionId");
    assert cell.JNull? || (cell.JStr? && cell.s != "" && cell.s[0] == 'l') by { MappedStart(env.text, source, row); }
    if cell.JStr? && cell.s in COUNTERS {
      CountersHaveNoBar(cell.s);
      assert false;
    }
  }

  lemma MappedStart(text: Text, source: string, row: Row)
    ensures var cell := Cell(ProjectUsage(text, source, row), "connectionId");
            cell.JNull? || (cell.JStr? && cell.s != "" && cell.s[0] == 'l')
  {
    hide LegacyMeta, Tokens;
  }

  /** The usage a row adds and the day it adds it to. */
  lemma UsageStep(env: Env, source: string, p: Progress, item: Item) returns (row: Row)
    requires ImportRow(env, source, p, item).Some? && item.table == USAGE
    ensures UsageStepped(p, AddUsage(env, p.db.daily, row), ImportRow(env, source, p, item).value)
    ensures UsageOf(env, row) == ItemUsage(env, source, item) && Cell(row, "model") == Cell(item.entry.row, "model")
    ensures env.day(Cell(row, "timestamp")) == env.day(Cell(item.entry.row, "timestamp"))
  {
    hide ImportRow, AddUsage, Tally, UsageOf, ProjectUsage;
    RowDaily(env, source, p, item);
    var q := ImportRow(env, source, p, item).value;
    var id :| UsageStepped(p, AddUsage(env, p.db.daily, UsageRow(env, source, item, id)), q);
    row := UsageRow(env, source, item, id);
    IdIsNotUsage(env, ProjectUsage(env.text, source, item.entry.row), id);
    ColumnsKept(env.text, source, item.entry.row, id);
  }

  /** What AddUsage does, day by day. */
  lemma AddUsageDays(env: Env, daily: map<string, Json>, row: Row)
    requires AddUsage(env, daily, row).Some?
    ensures var day, usage := env.day(Cell(row, "timestamp")), UsageOf(env, row);
            && day.Some? && usage.Some?
            && var before := if day.value in daily then daily[day.value] else JObj(map[]);
            && IncrementDay(before, usage.value).Some?
            && AddUsage(env, daily, row).value
               == (daily[day.value := IncrementDay(before, usage.value).value], day.value)
  {
    hide IncrementDay, UsageOf;
  }

  lemma {:induction false} TouchedAreUsageDays(env: Env, source: string, p: Progress, items: seq<Item>)
    requires ImportRows(env, source, p, items).Some?
    ensures ImportRows(env, source, p, items).value.touched == p.touched + UsageDays(env, items)
  {
    hide ImportRow, AddUsage, Tally;
    if items != [] {
      var n := |items| - 1;
      TouchedAreUsageDays(env, source, p, items[..n]);
      var m := ImportRows(env, source, p, items[..n]).value;
      RowDaily(env, source, m, items[n]);
      if items[n].table == USAGE {
        var row := UsageStep(env, source, m, items[n]);
        AddUsageDays(env, m.db.daily, row);
      }
    }
  }

  // ----- rows that keep every day receiptable -----

  /** A receipt can be taken of those of the days that are stored. */
  ghost predicate Ready(daily: map<string, Json>, days: set<string>)
  {
    forall day :: day in days && day in daily ==> Receiptable(daily[day])
  }

  /** The model cell holds no dictionary, or one that a receipt can be taken of. */
  predicate ModelFits(item: Item)
  {
    item.table == USAGE ==> Receiptable(Cell(item.entry.row, "model"))
  }

  lemma ItemIsSound(env: Env, source: string, item: Item, row: Row)
    requires item.table == USAGE && !BadItem(env, source, item) && ModelFits(item)
    requires UsageOf(env, row) == ItemUsage(env, source, item) && UsageOf(env, row).Some?
             && Cell(row, "model") == Cell(item.entry.row, "model")
    ensures Sound(UsageOf(env, row).value)
  {
    hide ProjectUsage, Sound, Receiptable, AmountsOf, COUNTERS;
    AccountIsNoCounter(env, source, item.entry.row);
    SoundWhen(UsageOf(env, row).value);
  }

  lemma StepStaysReady(env: Env, source: string, p: Progress, item: Item, days: set<string>)
    requires ImportRow(env, source, p, item).Some? && Ready(p.db.daily, days) && !BadItem(env, source, item)
             && ModelFits(item)
    ensures Ready(ImportRow(env, source, p, item).value.db.daily, days)
  {
    hide ImportRow, AddUsage, Tally, BadItem, ModelFits, Receiptable, IncrementDay, UsageOf, ItemUsage, Sound;
    RowDaily(env, source, p, item);
    if item.table == USAGE {
      var row := UsageStep(env, source, p, item);
      AddUsageDays(env, p.db.daily, row);
      ItemIsSound(env, source, item, row);
      var day, u := env.day(Cell(row, "timestamp")).value, UsageOf(env, row).value;
      EmptyIsReceiptable();
      if day in days {
        SoundStaysReceiptable(if day in p.db.daily then p.db.daily[day] else JObj(map[]), u);
      }
    }
  }

  lemma {:induction false} RowsStayReady(env: Env, source: string, p: Progress, items: seq<Item>, days: set<string>)
    requires ImportRows(env, source, p, items).Some? && Ready(p.db.daily, days)
    requires forall i :: 0 <= i < |items| ==> !BadItem(env, source, items[i]) && ModelFits(items[i])
    ensures Ready(ImportRows(env, source, p, items).value.db.daily, days)
  {
    hide ImportRow, BadItem, ModelFits, Ready;
    if items != [] {
      var n := |items| - 1;
      RowsStayReady(env, source, p, items[..n], days);
      StepStaysReady(env, source, ImportRows(env, source, p, items[..n]).value, items[n], days);
    }
  }

  // ----- rows that spoil a day -----

  ghost predicate NotedDay(p: Progress, day: string, key: string)
  {
    day in p.touched && day in p.db.daily && p.db.daily[day].JObj? && NotedCounter(p.db.daily[day].fields, key)
  }

  /** The note is written by a bad row and removed by none. */
  lemma StepNotes(env: Env, source: string, p: Progress, item: Item, day: string, key: string)
    requires ImportRow(env, source, p, item).Some?
    requires NotedDay(p, day, key) || (BadItem(env, source, item) && key == ItemUsage(env, source, item).value.modelName
                                       && env.day(Cell(item.entry.row, "timestamp")) == Some(day))
    ensures NotedDay(ImportRow(env, source, p, item).value, day, key)
  {
    hide ImportRow, AddUsage, Tally, NotedCounter, UsageOf, CounterNamed, IncrementDay, ProjectUsage;
    RowDaily(env, source, p, item);
    if item.table == USAGE {
      var row := UsageStep(env, source, p, item);
      AddUsageDays(env, p.db.daily, row);
      if env.day(Cell(row, "timestamp")) == Some(day) {
        var before := if day in p.db.daily then p.db.daily[day] else JObj(map[]);
        IncrementShape(before, UsageOf(env, row).value);
        IncrementNotes(before, UsageOf(env, row).value, key);
      }
    }
  }

  lemma {:induction false} RowsNote(env: Env, source: string, p: Progress, items: seq<Item>, i: nat)
    returns (day: string, key: string)
    requires ImportRows(env, source, p, items).Some? && i < |items| && BadItem(env, source, items[i])
    ensures NotedDay(ImportRows(env, source, p, items).value, day, key)
    decreases |items|
  {
    hide ImportRow, NotedDay, UsageOf, CounterNamed, AddUsage;
    var n := |items| - 1;
    var m := ImportRows(env, source, p, items[..n]).value;
    if i == n {
      var row := UsageStep(env, source, m, items[n]);
      AddUsageDays(env, m.db.daily, row);
      day, key := env.day(Cell(items[n].entry.row, "timestamp")).value,
        ItemUsage(env, source, items[n]).value.modelName;
    } else {
      day, key := RowsNote(env, source, p, items[..n], i);
    }
    StepNotes(env, source, m, items[n], day, key);
  }

  // ----- the receipt -----

  /** The stored days that the snapshot adds to can have a receipt taken of them, and so can the model cells. */
  ghost predicate Acceptable(env: Env, db: Db, items: seq<Item>)
  {
    Ready(db.daily, UsageDays(env, items)) && forall i :: 0 <= i < |items| ==> ModelFits(items[i])
  }

  ghost predicate NoBadItem(env: Env, source: string, items: seq<Item>)
  {
    forall i :: 0 <= i < |items| ==> !BadItem(env, source, items[i])
  }

  /** Whether the import's own receipt holds can be told from the snapshot: no usage row may be a bad one. */
  lemma ReceiptHoldsIffNoBadItem(env: Env, db: Db, snapshot: Snapshot, source: string)
    requires HISTORY <= snapshot.records.Keys && Sorts(env.sort) && Imports(env, db, snapshot, source).Some?
    requires Acceptable(env, db, Items(snapshot, Order(env, snapshot)))
    ensures var p := Imports(env, db, snapshot, source).value; source in p.db.sources && p.touched <= p.db.daily.Keys
    ensures var sealed := Seal(Imports(env, db, snapshot, source).value, source);
            && source in sealed.sources && sealed.sources[source].receipt.Some?
            && (ReceiptHolds(sealed, sealed.sources[source].receipt.value)
                <==> NoBadItem(env, source, Items(snapshot, Order(env, snapshot))))
  {
    hide ImportRows, Items, Order, Tally, HISTORY, BadItem, ModelFits, Seal, Begin, ReceiptHolds, Receiptable,
      NotedCounter, UsageDays, Sorts;
    OrderListsTables(env, snapshot);
    var begun, items := Begin(db, snapshot, source), Items(snapshot, Order(env, snapshot));
    BeginIsEmpty(db, snapshot, source);
    TouchedExist(env, source, begun, items);
    var p := ImportRows(env, source, begun, items).value;
    SealKeeps(p, source);
    OwnReceiptHoldsIff(p, source);
    TouchedAreUsageDays(env, source, begun, items);
    if NoBadItem(env, source, items) {
      RowsStayReady(env, source, begun, items, UsageDays(env, items));
    } else {
      var i :| 0 <= i < |items| && BadItem(env, source, items[i]);
      var day, key := RowsNote(env, source, begun, items, i);
      NotedCounterFails(p.db.daily[day].fields, key);
    }
  }

  /** A snapshot with a bad row is refused by every database that does not know it yet, whatever the database holds. */
  lemma CounterNamedModelNeverImports(env: Env, db: Db, snapshot: Snapshot, source: string)
    requires HISTORY <= snapshot.records.Keys && Sorts(env.sort) && !Known(db, snapshot, source)
    requires !NoBadItem(env, source, Items(snapshot, Order(env, snapshot)))
    ensures Apply(env, db, snapshot, source) == (db, None)
  {
    hide ImportRows, Items, Order, Tally, HISTORY, BadItem, Seal, Begin, ArchiveMatches, ReceiptHolds, Receiptable,
      NotedCounter, Rows, Known;
    OrderListsTables(env, snapshot);
    var begun, items := Begin(db, snapshot, source), Items(snapshot, Order(env, snapshot));
    BeginIsEmpty(db, snapshot, source);
    TouchedExist(env, source, begun, items);
    if ImportRows(env, source, begun, items).Some? {
      var p := ImportRows(env, source, begun, items).value;
      var i :| 0 <= i < |items| && BadItem(env, source, items[i]);
      var day, key := RowsNote(env, source, begun, items, i);
      NotedCounterFails(p.db.daily[day].fields, key);
      OwnReceiptHoldsIff(p, source);
    }
  }

  /** A row of nothing but a model called "cost". */
  function CostRow(): Row
  {
    map k | k in Columns(USAGE) :: if k == "model" then JStr("cost") else JNull
  }

  /** A snapshot that holds this one row. */
  function CostSnapshot(fingerprint: string): Snapshot
  {
    Snapshot(fingerprint, 1, map t | t in HISTORY :: if t == USAGE then [Entry("1", CostRow())] else [])
  }

  lemma CostCells(text: Text, source: string)
    requires text.load(JNull) == None
    ensures var r := ProjectUsage(text, source, CostRow());
            && Cell(r, "tokens") == JNull && Cell(r, "promptTokens") == JNull && Cell(r, "completionTokens") == JNull
            && Cell(r, "cost") == JNull && Cell(r, "provider") == JNull && Cell(r, "connectionId") == JNull
            && Cell(r, "endpoint") == JNull && Cell(r, "model") == JStr("cost")
  {
    hide LegacyMeta;
    assert Cell(CostRow(), "connectionId") == JNull;
  }

  lemma CostRowIsBad(env: Env, source: string)
    requires env.text.load(JNull) == None
    ensures BadItem(env, source, Item(USAGE, Entry("1", CostRow())))
  {
    hide ProjectUsage, CostRow;
    CostCells(env.text, source);
    CostIsCounter();
  }

  lemma CostIsCounter()
    ensures "cost" in COUNTERS
  {
  }

  lemma {:induction false} Listed(snapshot: Snapshot, tables: seq<string>, t: string, entry: Entry) returns (i: nat)
    requires (forall t :: t in tables ==> t in snapshot.records) && t in tables && snapshot.records[t] == [entry]
    ensures i < |Items(snapshot, tables)| && Items(snapshot, tables)[i] == Item(t, entry)
  {
    var n := |tables| - 1;
    if tables[n] == t {
      i := |Items(snapshot, tables[..n])|;
      assert TableItems(t, snapshot.records[t])[0] == Item(t, entry);
    } else {
      i := Listed(snapshot, tables[..n], t, entry);
    }
  }

  /** It is refused by every database that does not know it. */
  lemma CostSnapshotIsRefused(env: Env, db: Db, fingerprint: string, source: string)
    requires Sorts(env.sort) && env.text.load(JNull) == None && !Known(db, CostSnapshot(fingerprint), source)
    ensures HISTORY <= CostSnapshot(fingerprint).records.Keys
    ensures Apply(env, db, CostSnapshot(fingerprint), source) == (db, None)
  {
    hide Sorts, Known, Apply, Order, Items, BadItem, CostRow, HISTORY;
    var snapshot := CostSnapshot(fingerprint);
    OrderListsTables(env, snapshot);
    AccountsAreHistory();
    var i := Listed(snapshot, Order(env, snapshot), USAGE, Entry("1", CostRow()));
    CostRowIsBad(env, source);
    CounterNamedModelNeverImports(env, db, snapshot, source);
  }

  // ----- the archive -----

  /** SQLite reads back what it was given. */
  ghost predicate Faithful(env: Env)
  {
    forall table, row, k :: k in row ==> k in env.store(table, row) && env.store(table, row)[k] == row[k]
  }

  /** The record of an expected row has its content, and its projection stands. */
  ghost predicate Recorded(db: Db, expected: Expectation, key: RecordKey)
    requires key in expected
  {
    && key in db.records && expected[key] == (db.records[key].rawRow, db.records[key].fingerprint)
    && (db.records[key].imported.Some? ==> Stands(db, key.table, db.records[key].imported.value))
  }

  lemma PlacedStands(env: Env, p: Progress, table: string, row: Row)
    requires Faithful(env) && Place(env, p, table, row).Some?
    ensures var (q, imported) := Place(env, p, table, row).value; Stands(q.db, table, imported)
  {
    hide AddUsage;
  }

  lemma RowIsRecorded(env: Env, source: string, p: Progress, item: Item)
    requires Faithful(env) && ImportRow(env, source, p, item).Some?
    ensures var db, key := ImportRow(env, source, p, item).value.db, RecordKey(source, item.table, item.entry.key);
            && key in db.records
            && (db.records[key].rawRow, db.records[key].fingerprint)
               == (ArchiveRow(item.table, item.entry.row), env.hash(item.entry.row))
            && (db.records[key].imported.Some? ==> Stands(db, item.table, db.records[key].imported.value))
  {
    hide Project, Place, ArchiveRow, Faithful;
    var projection := Project(env.text, source, item.table, item.entry.row).0;
    if projection.Some? {
      PlacedStands(env, p, item.table, projection.value);
    }
  }

  lemma StandsOn(a: Db, b: Db, table: string, imported: Imported)
    requires Keeps(a, b) && Stands(a, table, imported)
    ensures Stands(b, table, imported)
  {
  }

  lemma {:induction false} RowsAreRecorded(env: Env, source: string, p: Progress, items: seq<Item>, key: RecordKey)
    requires Faithful(env) && ImportRows(env, source, p, items).Some? && key in Expected(env, source, items)
    ensures Recorded(ImportRows(env, source, p, items).value.db, Expected(env, source, items), key)
  {
    hide ImportRow, ArchiveRow, Keeps, Follows, Stands, Tally, Faithful;
    var n := |items| - 1;
    var m, q := ImportRows(env, source, p, items[..n]).value, ImportRows(env, source, p, items).value;
    RowSteps(env, source, m, items[n]);
    if key == RecordKey(source, items[n].table, items[n].entry.key) {
      RowIsRecorded(env, source, m, items[n]);
    } else {
      RowsAreRecorded(env, source, p, items[..n], key);
      if m.db.records[key].imported.Some? {
        StandsOn(m.db, q.db, key.table, m.db.records[key].imported.value);
      }
    }
  }

  lemma ArchiveWillMatch(db: Db, after: Db, source: string, expected: Expectation)
    requires Joined(db.records, after.records, expected) && Archived(db, source) == {}
    requires forall key :: key in expected ==> key.source == source && Recorded(after, expected, key)
    ensures ArchiveMatches(after, source, expected)
  {
    hide Stands;
    forall key ensures key in Archived(after, source) <==> key in expected {
      assert key in Archived(db, source) <==> key in db.records && key.source == source;
    }
    assert Archived(after, source) == expected.Keys;
  }

  // ----- the outcome -----

  lemma SealedArchiveMatches(env: Env, db: Db, snapshot: Snapshot, source: string, items: seq<Item>)
    requires Faithful(env) && Archived(db, source) == {}
             && ImportRows(env, source, Begin(db, snapshot, source), items).Some?
    requires var p := ImportRows(env, source, Begin(db, snapshot, source), items).value;
             source in p.db.sources && p.touched <= p.db.daily.Keys
    ensures ArchiveMatches(Seal(ImportRows(env, source, Begin(db, snapshot, source), items).value, source), source,
            Expected(env, source, items))
  {
    hide ImportRows, Expected, Faithful, Begin, Stands, Archived, Joined, ArchiveMatches, Seal;
    var begun := Begin(db, snapshot, source);
    BeginIsEmpty(db, snapshot, source);
    RowsArchived(env, source, begun, items);
    var p := ImportRows(env, source, begun, items).value;
    var sealed := Seal(p, source);
    SealKeeps(p, source);
    forall key | key in Expected(env, source, items) ensures Recorded(sealed, Expected(env, source, items), key) {
      RowsAreRecorded(env, source, begun, items, key);
      if p.db.records[key].imported.Some? {
        SameTables(p.db, sealed);
        StandsOn(p.db, sealed, key.table, p.db.records[key].imported.value);
      }
    }
    ArchiveWillMatch(db, sealed, source, Expected(env, source, items));
  }

  /**
   * An unknown snapshot whose rows can be written is committed exactly when it has no bad row and the foreign
   * keys hold: none of the import's other checks can fail.
   */
  lemma ImportCommitsIff(env: Env, db: Db, snapshot: Snapshot, source: string)
    requires HISTORY <= snapshot.records.Keys && Sorts(env.sort) && !Known(db, snapshot, source) && !env.triggers(db)
    requires Imports(env, db, snapshot, source).Some? && Acceptable(env, db, Items(snapshot, Order(env, snapshot)))
    requires Faithful(env) && Archived(db, source) == {}
    ensures var p := Imports(env, db, snapshot, source).value; source in p.db.sources && p.touched <= p.db.daily.Keys
    ensures Apply(env, db, snapshot, source).1.Some? <==>
              && NoBadItem(env, source, Items(snapshot, Order(env, snapshot)))
              && env.intact(Seal(Imports(env, db, snapshot, source).value, source))
  {
    hide ImportRows, Items, Order, Tally, HISTORY, Acceptable, NoBadItem, Seal, Begin, ReceiptHolds, ArchiveMatches,
      Known, Sorts, Faithful, Archived, Rows;
    OrderListsTables(env, snapshot);
    var items := Items(snapshot, Order(env, snapshot));
    ReceiptHoldsIffNoBadItem(env, db, snapshot, source);
    SealedArchiveMatches(env, db, snapshot, source, items);
    RowDeltasAlwaysMatch(env, db, snapshot, source);
    var p := Imports(env, db, snapshot, source).value;
    SealKeeps(p, source);
    SameTables(p.db, Seal(p, source));
  }
}
