/** Exactly when a committed import is accepted again, whatever happened to the database in between. */
module HistoryReplay {
  import opened Bytes
  import opened DailyCounters
  import opened LiveUsage
  import opened Projection
  import opened HistoryImport
  import opened HistoryProofs
  import opened HistoryOutcome

  /** Every projected cell of an imported row is found in its table. */
  predicate ReadsBack(db: Db, table: string, imported: Imported)
  {
    && table in db.tables && imported.id in db.tables[table]
    && forall k :: k in imported.projection.Keys ==>
         Lookup(db.tables[table][imported.id], k) == Some(imported.projection[k])
  }

  /** No record of the source is missing, added or altered, and the rows they point at read back. */
  ghost predicate ArchiveKept(a: Db, b: Db, source: string)
  {
    && (forall key: RecordKey :: key.source == source ==> (key in b.records <==> key in a.records))
    && (forall key: RecordKey :: key.source == source && key in a.records && key in b.records ==>
         RecordKept(b, key, a.records[key], b.records[key]))
  }

  predicate RecordKept(b: Db, key: RecordKey, before: Record, now: Record)
  {
    && now.rawRow == before.rawRow && now.fingerprint == before.fingerprint
    && (now.imported.Some? ==> ReadsBack(b, key.table, now.imported.value))
  }

  /** On each of these days no counted number has fallen or disappeared. */
  ghost predicate CountersKept(a: Db, b: Db, days: set<string>)
  {
    forall day :: day in days ==> day in a.daily && day in b.daily && Grows(a.daily[day], Some(b.daily[day]), false)
  }

  // ----- what a row becomes -----

  /**
   * The record has the archived form and the digest of the original, says what became of it and stands for the
   * projected row, which is in its table under the id it was projected with or was given.
   */
  ghost predicate Landed(env: Env, source: string, db: Db, item: Item)
  {
    var key := RecordKey(source, item.table, item.entry.key);
    var (projection, disposition) := Project(env.text, source, item.table, item.entry.row);
    && key in db.records
    && var record := db.records[key];
    && record.rawRow == ArchiveRow(item.table, item.entry.row) && record.fingerprint == env.hash(item.entry.row)
    && record.disposition == disposition && (record.imported.Some? <==> projection.Some?)
    && (record.imported.Some? ==> Written(env, db, item.table, projection.value, record.imported.value))
  }

  predicate Written(env: Env, db: Db, table: string, row: Row, imported: Imported)
  {
    && imported.projection == row["id" := imported.id] && ("id" in row ==> imported.id == row["id"])
    && table in db.tables && imported.id in db.tables[table]
    && db.tables[table][imported.id] == env.store(table, imported.projection)
  }

  lemma PlacedIsWritten(env: Env, p: Progress, table: string, row: Row)
    requires Place(env, p, table, row).Some?
    ensures var (q, imported) := Place(env, p, table, row).value; Written(env, q.db, table, row, imported)
  {
    hide AddUsage;
  }

  lemma RowLands(env: Env, source: string, p: Progress, item: Item)
    requires ImportRow(env, source, p, item).Some?
    ensures Landed(env, source, ImportRow(env, source, p, item).value.db, item)
  {
    hide Project, Place, ArchiveRow, Written;
    var projection := Project(env.text, source, item.table, item.entry.row).0;
    if projection.Some? {
      PlacedIsWritten(env, p, item.table, projection.value);
      var (m, imported) := Place(env, p, item.table, projection.value).value;
      StaysWritten(env, m.db, ImportRow(env, source, p, item).value.db, item.table, projection.value, imported);
    }
  }

  lemma StaysWritten(env: Env, a: Db, b: Db, table: string, row: Row, imported: Imported)
    requires Written(env, a, table, row, imported) && (b.tables == a.tables || Keeps(a, b))
    ensures Written(env, b, table, row, imported)
  {
  }

  lemma StaysLanded(env: Env, source: string, p: Progress, q: Progress, item: Item, other: Item)
    requires Landed(env, source, p.db, other) && Stepped(env, source, p, item, q)
    ensures Landed(env, source, q.db, other)
  {
    hide Project, ArchiveRow, Written, Keeps, Follows, Tally;
    var projection := Project(env.text, source, other.table, other.entry.row).0;
    var key := RecordKey(source, other.table, other.entry.key);
    if projection.Some? {
      StaysWritten(env, p.db, q.db, other.table, projection.value, p.db.records[key].imported.value);
    }
  }

  /** Every row of an import ends up as its projection says, or as an archive record alone. */
  lemma {:induction false} RowsLand(env: Env, source: string, p: Progress, items: seq<Item>, i: nat)
    requires ImportRows(env, source, p, items).Some? && i < |items|
    ensures Landed(env, source, ImportRows(env, source, p, items).value.db, items[i])
  {
    hide ImportRow, Landed, Stepped;
    var n := |items| - 1;
    var m := ImportRows(env, source, p, items[..n]).value;
    if i == n {
      RowLands(env, source, m, items[n]);
    } else {
      RowsLand(env, source, p, items[..n], i);
      RowSteps(env, source, m, items[n]);
      StaysLanded(env, source, m, ImportRow(env, source, m, items[n]).value, items[n], items[i]);
    }
  }

  // ----- the archive -----

  lemma ReadsBackIsStanding(db: Db, table: string, imported: Imported)
    ensures Stands(db, table, imported) <==> ReadsBack(db, table, imported)
  {
  }

  lemma MatchedKeys(db: Db, source: string, expected: Expectation)
    requires ArchiveMatches(db, source, expected)
    ensures Archived(db, source) == expected.Keys
  {
    hide Stands;
    assert Archived(db, source) <= expected.Keys;
    SubsetOfSameSize(Archived(db, source), expected.Keys);
  }

  lemma SubsetOfSameSize<T>(a: set<T>, b: set<T>)
    requires a <= b && |a| == |b|
    ensures a == b
  {
    assert |b - a| == |b| - |a|;
  }

  lemma SameArchived(a: Db, b: Db, source: string)
    ensures Archived(a, source) == Archived(b, source)
            <==> forall key: RecordKey :: key.source == source ==> (key in b.records <==> key in a.records)
  {
    var x, y := Archived(a, source), Archived(b, source);
    if x == y {
      forall key: RecordKey | key.source == source ensures key in b.records <==> key in a.records {
        assert key in x <==> key in y;
      }
    }
  }

  lemma ArchiveMatchesIff(a: Db, b: Db, source: string, expected: Expectation)
    requires ArchiveMatches(a, source, expected)
    ensures ArchiveMatches(b, source, expected) <==> ArchiveKept(a, b, source)
  {
    hide Stands, ReadsBack;
    MatchedKeys(a, source, expected);
    SameArchived(a, b, source);
    if ArchiveMatches(b, source, expected) {
      MatchedKeys(b, source, expected);
      forall key: RecordKey | key.source == source && key in a.records && key in b.records
        ensures RecordKept(b, key, a.records[key], b.records[key])
      {
        assert key in Archived(a, source) && key in Archived(b, source);
        if b.records[key].imported.Some? {
          ReadsBackIsStanding(b, key.table, b.records[key].imported.value);
        }
      }
    }
    if ArchiveKept(a, b, source) {
      forall key | key in Archived(b, source)
        ensures && key in expected && expected[key] == (b.records[key].rawRow, b.records[key].fingerprint)
                && (b.records[key].imported.Some? ==> Stands(b, key.table, b.records[key].imported.value))
      {
        assert key in Archived(a, source);
        assert RecordKept(b, key, a.records[key], b.records[key]);
        if b.records[key].imported.Some? {
          ReadsBackIsStanding(b, key.table, b.records[key].imported.value);
        }
      }
    }
  }

  // ----- the receipt -----

  lemma SealedReceipt(p: Progress, source: string)
    requires source in p.db.sources && p.touched <= p.db.daily.Keys
    ensures var db := Seal(p, source);
            && db.daily == p.db.daily && db.lifetime.Some? && source in db.sources
            && db.sources[source].receipt.Some?
            && var receipt := db.sources[source].receipt.value;
            && receipt.lifetimeMinimum == db.lifetime.value && receipt.days.Keys == p.touched
            && forall day :: day in p.touched ==> receipt.days[day] == NumericCounters(p.db.daily[day])
  {
    hide NumericCounters;
  }

  lemma SealedReceiptHoldsIff(p: Progress, source: string, b: Db)
    requires source in p.db.sources && p.touched <= p.db.daily.Keys
    requires forall day :: day in p.touched ==> Receiptable(p.db.daily[day])
    ensures var a := Seal(p, source);
            ReceiptHolds(b, a.sources[source].receipt.value) <==>
              CountersKept(a, b, p.touched) && b.lifetime.Some? && b.lifetime.value >= a.lifetime.value
  {
    hide Bounded, Receiptable, NumericCounters, Grows, Seal;
    SealedReceipt(p, source);
    forall day | day in p.touched && day in b.daily
      ensures Bounded(Some(b.daily[day]), NumericCounters(p.db.daily[day]))
              <==> Grows(p.db.daily[day], Some(b.daily[day]), false)
    {
      ReceiptIsGrowth(p.db.daily[day], Some(b.daily[day]));
    }
  }

  // ----- the replay -----

  /** A committed import is the sealed result of its rows, on days that can be receipted. */
  lemma CommittedIsSealed(env: Env, db: Db, snapshot: Snapshot, source: string)
    requires HISTORY <= snapshot.records.Keys && Sorts(env.sort)
    requires !Known(db, snapshot, source) && Apply(env, db, snapshot, source).1.Some?
    ensures var items := Items(snapshot, Order(env, snapshot));
            var p := ImportRows(env, source, Begin(db, snapshot, source), items);
            && p.Some? && source in p.value.db.sources && p.value.touched <= p.value.db.daily.Keys
            && p.value.touched == UsageDays(env, items)
            && Apply(env, db, snapshot, source).0 == Seal(p.value, source)
            && forall day :: day in p.value.touched ==> Receiptable(p.value.db.daily[day])
  {
    hide ImportRows, Items, Order, Tally, HISTORY, Seal, Begin, ReceiptHolds, ArchiveMatches, Known, Sorts, Rows,
      UsageDays, Receiptable;
    OrderListsTables(env, snapshot);
    var begun := Begin(db, snapshot, source);
    var items := Items(snapshot, Order(env, snapshot));
    BeginIsEmpty(db, snapshot, source);
    TouchedExist(env, source, begun, items);
    var p := ImportRows(env, source, begun, items).value;
    TouchedAreUsageDays(env, source, begun, items);
    OwnReceiptHoldsIff(p, source);
  }

  /**
   * Applying a committed snapshot again is accepted exactly when nothing of the import was lost, whoever wrote to the
   * database since: its records are the same and their rows read back, on the days of its usage rows no counted number
   * fell, and neither did the lifetime counter.
   */
  lemma ReplayAcceptedIff(env: Env, db: Db, snapshot: Snapshot, source: string, b: Db)
    requires HISTORY <= snapshot.records.Keys && Sorts(env.sort)
    requires !Known(db, snapshot, source) && Apply(env, db, snapshot, source).1.Some?
    requires var a := Apply(env, db, snapshot, source).0;
             source in a.sources && source in b.sources && b.sources[source] == a.sources[source]
    ensures var a := Apply(env, db, snapshot, source).0;
            Apply(env, b, snapshot, source).1.Some? <==>
              && ArchiveKept(a, b, source)
              && CountersKept(a, b, UsageDays(env, Items(snapshot, Order(env, snapshot))))
              && a.lifetime.Some? && b.lifetime.Some? && b.lifetime.value >= a.lifetime.value
  {
    hide ImportRows, Items, Order, HISTORY, Seal, Begin, ReceiptHolds, ArchiveMatches, Sorts, UsageDays, Receiptable,
      ArchiveKept, CountersKept, Expected, ImportNew;
    OrderListsTables(env, snapshot);
    var items := Items(snapshot, Order(env, snapshot));
    var a := Apply(env, db, snapshot, source).0;
    CommittedIsSealed(env, db, snapshot, source);
    CommittedIsVerified(env, db, snapshot, source);
    var p := ImportRows(env, source, Begin(db, snapshot, source), items).value;
    SealedReceipt(p, source);
    SealedReceiptHoldsIff(p, source, b);
    ArchiveMatchesIff(a, b, source, Expected(env, source, items));
  }

  /** And the same snapshot is not imported a second time under another name. */
  lemma NoSecondImport(env: Env, db: Db, snapshot: Snapshot, source: string, b: Db, other: string)
    requires HISTORY <= snapshot.records.Keys && Sorts(env.sort)
    requires !Known(db, snapshot, source) && Apply(env, db, snapshot, source).1.Some?
    requires var a := Apply(env, db, snapshot, source).0;
             source in a.sources && source in b.sources && b.sources[source] == a.sources[source]
    requires other !in b.sources
    ensures Apply(env, b, snapshot, other) == (b, None)
  {
    hide Items, Order, HISTORY, Sorts, Verified, ImportNew;
    OrderListsTables(env, snapshot);
    CommittedIsVerified(env, db, snapshot, source);
  }
}
