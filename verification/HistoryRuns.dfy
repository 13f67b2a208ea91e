/** Imports among live requests and other imports: what keeps each of them verifiable, over whole histories. */
module HistoryRuns {
  import opened Bytes
  import opened Json
  import opened DailyCounters
  import opened DailyIncrements
  import opened LiveUsage
  import opened Projection
  import opened HistoryImport
  import opened HistoryProofs
  import opened HistoryLive
  import opened HistoryOutcome

  // ----- exactly when one import leaves another verified -----

  /** A day after the usage rows of a snapshot that fall on it, one after the other. */
  function DayAfter(env: Env, source: string, items: seq<Item>, day: string, stored: Option<Json>): Option<Json>
  {
    if items == [] then stored
    else
      var item := items[|items| - 1];
      var before := DayAfter(env, source, items[..|items| - 1], day, stored);
      var u := ItemUsage(env, source, item);
      if u.None? || env.day(Cell(item.entry.row, "timestamp")) != Some(day) then before
      else IncrementDay(if before.Some? then before.value else JObj(map[]), u.value)
  }

  lemma {:induction false} DaysAreFolded(env: Env, source: string, p: Progress, items: seq<Item>, day: string)
    requires ImportRows(env, source, p, items).Some?
    ensures Lookup(ImportRows(env, source, p, items).value.db.daily, day)
         == DayAfter(env, source, items, day, Lookup(p.db.daily, day))
  {
    hide ImportRow, AddUsage, Tally, UsageOf, IncrementDay, ItemUsage;
    if items != [] {
      var n := |items| - 1;
      DaysAreFolded(env, source, p, items[..n], day);
      var m := ImportRows(env, source, p, items[..n]).value;
      RowDaily(env, source, m, items[n]);
      if items[n].table == USAGE {
        var row := UsageStep(env, source, m, items[n]);
        AddUsageDays(env, m.db.daily, row);
      } else {
        NoUsage(env, source, items[n]);
      }
    }
  }

  lemma NoUsage(env: Env, source: string, item: Item)
    requires item.table != USAGE
    ensures ItemUsage(env, source, item).None?
  {
  }

  /** Every day of the receipt, with the snapshot's rows added to it, still has what the receipt asks for. */
  ghost predicate DaysSuffice(env: Env, db: Db, source: string, items: seq<Item>, receipt: Receipt)
  {
    forall day :: day in receipt.days ==>
      Bounded(DayAfter(env, source, items, day, Lookup(db.daily, day)), receipt.days[day])
  }

  lemma ReceiptHoldsIffSuffice(env: Env, db: Db, after: Db, source: string, items: seq<Item>, receipt: Receipt)
    requires ReceiptHolds(db, receipt) && after.lifetime.Some? && db.lifetime.value <= after.lifetime.value
    requires forall day :: Lookup(after.daily, day) == DayAfter(env, source, items, day, Lookup(db.daily, day))
    requires forall day :: day in db.daily ==> day in after.daily
    ensures ReceiptHolds(after, receipt) <==> DaysSuffice(env, db, source, items, receipt)
  {
    hide Bounded, DayAfter;
    forall day | day in receipt.days
      ensures DayAfter(env, source, items, day, Lookup(db.daily, day)) == Some(after.daily[day])
    {
      assert Lookup(after.daily, day) == Some(after.daily[day]);
    }
  }

  /**
   * A verified import is still verified after another source was imported exactly when the days of its receipt,
   * with the other snapshot's rows added, still meet it. Everything else about it cannot change.
   */
  lemma ImportKeepsOtherIff(
      env: Env, db: Db, snapshot: Snapshot, source: string, other: string, items: seq<Item>)
    requires HISTORY <= snapshot.records.Keys && Sorts(env.sort) && source != other
    requires !Known(db, snapshot, source) && Apply(env, db, snapshot, source).1.Some?
    requires Verified(env, db, other, items)
    ensures Verified(env, Apply(env, db, snapshot, source).0, other, items)
       <==> DaysSuffice(env, db, source, Items(snapshot, Order(env, snapshot)), db.sources[other].receipt.value)
  {
    hide Apply, Items, Order, Sorts, HISTORY, Known, Expected, ArchiveMatches, ReceiptHolds, Archived, Untouched,
      DaysSuffice, Keeps, Joined, ImportRows, DayAfter, Begin;
    OrderListsTables(env, snapshot);
    var rows, after := Items(snapshot, Order(env, snapshot)), Apply(env, db, snapshot, source).0;
    var begun := Begin(db, snapshot, source);
    CommittedIsBeside(env, db, snapshot, source);
    BesideKeepsOthers(db, after, Expected(env, source, rows), source, other);
    ArchiveStillMatches(db, after, other, Expected(env, other, items));
    BeginIsEmpty(db, snapshot, source);
    assert db.lifetime.Some? by { HeldLifetime(db, db.sources[other].receipt.value); }
    forall day ensures Lookup(after.daily, day) == DayAfter(env, source, rows, day, Lookup(db.daily, day)) {
      DaysAreFolded(env, source, begun, rows, day);
    }
    forall day | day in db.daily ensures day in after.daily {
      StoredDaysStay(env, source, begun, rows, day);
    }
    ReceiptHoldsIffSuffice(env, db, after, source, rows, db.sources[other].receipt.value);
  }

  lemma HeldLifetime(db: Db, receipt: Receipt)
    requires ReceiptHolds(db, receipt)
    ensures db.lifetime.Some?
  {
  }

  lemma {:induction false} StoredDaysStay(env: Env, source: string, p: Progress, items: seq<Item>, day: string)
    requires ImportRows(env, source, p, items).Some? && day in p.db.daily
    ensures day in ImportRows(env, source, p, items).value.db.daily
  {
    hide ImportRow, AddUsage, Tally, UsageOf, IncrementDay, ItemUsage;
    if items != [] {
      var n := |items| - 1;
      StoredDaysStay(env, source, p, items[..n], day);
      var m := ImportRows(env, source, p, items[..n]).value;
      RowDaily(env, source, m, items[n]);
      if items[n].table == USAGE {
        var row := UsageStep(env, source, m, items[n]);
        AddUsageDays(env, m.db.daily, row);
      }
    }
  }

  // ----- histories -----

  /** Every usage row of the snapshot is regular: text model, no negative amount. */
  ghost predicate RegularSnapshot(env: Env, snapshot: Snapshot, source: string)
    requires HISTORY <= snapshot.records.Keys && Sorts(env.sort)
  {
    forall item :: item in Items(snapshot, Order(env, snapshot)) ==> RegularItem(env, source, item)
  }

  /** A regular import lets the days grow and leaves them calm. */
  lemma RegularImport(env: Env, db: Db, snapshot: Snapshot, source: string)
    requires HISTORY <= snapshot.records.Keys && Sorts(env.sort)
    requires !Known(db, snapshot, source) && Apply(env, db, snapshot, source).1.Some?
    requires CalmDays(db.daily) && RegularSnapshot(env, snapshot, source)
    ensures var after := Apply(env, db, snapshot, source).0; CalmDays(after.daily) && DaysGrow(db.daily, after.daily)
  {
    hide Apply, Items, Order, Sorts, HISTORY, Known, CalmDays, DaysGrow, RegularItem, ImportRows, Begin;
    OrderListsTables(env, snapshot);
    CommittedIsBeside(env, db, snapshot, source);
    BeginIsEmpty(db, snapshot, source);
    RowsGrow(env, source, Begin(db, snapshot, source), Items(snapshot, Order(env, snapshot)));
  }

  /** Somebody applies a regular snapshot under some source id, with whatever outcome. */
  ghost predicate Applied(env: Env, a: Db, b: Db, snapshot: Snapshot, source: string)
    requires Sorts(env.sort)
  {
    HISTORY <= snapshot.records.Keys && RegularSnapshot(env, snapshot, source) && b == Apply(env, a, snapshot, source).0
  }

  ghost predicate Applies(env: Env, a: Db, b: Db)
    requires Sorts(env.sort)
  {
    exists snapshot, source :: Applied(env, a, b, snapshot, source)
  }

  lemma SameIsLive(db: Db, source: string)
    ensures Live(db, db, source)
  {
    forall day | day in db.daily ensures Grows(db.daily[day], Some(db.daily[day]), false) {
      GrowsReflexive(db.daily[day], false);
    }
  }

  /** Whoever is applied, an import already there is not disturbed. */
  lemma ApplyIsLive(env: Env, a: Db, b: Db, snapshot: Snapshot, applied: string, source: string)
    requires Sorts(env.sort) && Applied(env, a, b, snapshot, applied) && CalmDays(a.daily) && source in a.sources
    ensures Live(a, b, source) && CalmDays(b.daily)
  {
    hide CalmDays, Items, Order, Sorts, HISTORY, Verified, RegularSnapshot, Live, Beside, DaysGrow;
    SameIsLive(a, source);
    if !Known(a, snapshot, applied) && Apply(env, a, snapshot, applied).1.Some? {
      OrderListsTables(env, snapshot);
      RegularImport(env, a, snapshot, applied);
      CommittedIsBeside(env, a, snapshot, applied);
      BesideIsLive(a, b, Expected(env, applied, Items(snapshot, Order(env, snapshot))), applied, source);
    } else {
      Unchanged(env, a, snapshot, applied);
    }
  }

  lemma Unchanged(env: Env, a: Db, snapshot: Snapshot, source: string)
    requires HISTORY <= snapshot.records.Keys && Sorts(env.sort)
    requires Known(a, snapshot, source) || Apply(env, a, snapshot, source).1.None?
    ensures Apply(env, a, snapshot, source).0 == a
  {
    hide Verified, Items, Order, ImportNew, Sorts, HISTORY;
  }

  /** In particular a verified import stays verified when a regular snapshot of another source is imported. */
  lemma ImportsCoexist(env: Env, db: Db, snapshot: Snapshot, source: string, other: string, items: seq<Item>)
    requires HISTORY <= snapshot.records.Keys && Sorts(env.sort)
    requires CalmDays(db.daily) && RegularSnapshot(env, snapshot, source)
    requires Verified(env, db, other, items) && Shaped(db, other)
    ensures Verified(env, Apply(env, db, snapshot, source).0, other, items)
  {
    hide Verified, Apply, CalmDays, Sorts, HISTORY, Live, RegularSnapshot, ShapedReceipt;
    var after := Apply(env, db, snapshot, source).0;
    ApplyIsLive(env, db, after, snapshot, source, other);
    LiveKeepsVerified(env, db, after, other, items);
  }

  /** The proxy serves a request, or somebody applies a snapshot. */
  ghost predicate Happens(env: Env, js: Js, a: Db, b: Db)
    requires Sorts(env.sort)
  {
    Serves(js, a, b) || Applies(env, a, b)
  }

  lemma HappensIsLive(env: Env, js: Js, a: Db, b: Db, source: string)
    requires Sorts(env.sort) && Happens(env, js, a, b) && CalmDays(a.daily) && source in a.sources
    ensures Live(a, b, source) && CalmDays(b.daily) && source in b.sources
  {
    hide CalmDays, Sorts, Served, Applied;
    if Serves(js, a, b) {
      var day, r, g, id, row :| Served(js, a, b, day, r, g, id, row);
      RequestIsLive(js, a, b, day, r, g, id, row, source);
    } else {
      var snapshot, applied :| Applied(env, a, b, snapshot, applied);
      ApplyIsLive(env, a, b, snapshot, applied, source);
    }
  }

  lemma {:induction false} HistoryIsLive(env: Env, js: Js, run: seq<Db>, source: string)
    requires Sorts(env.sort) && run != [] && CalmDays(run[0].daily) && source in run[0].sources
    requires forall i :: 0 <= i < |run| - 1 ==> Happens(env, js, run[i], run[i + 1])
    ensures var last := run[|run| - 1]; CalmDays(last.daily) && source in last.sources
    ensures forall i :: 0 <= i < |run| - 1 ==> Live(run[i], run[i + 1], source)
    decreases |run|
  {
    hide CalmDays, Live, Happens, Sorts;
    if |run| > 1 {
      var n := |run| - 1;
      var before := run[..n];
      assert forall i :: 0 <= i < n ==> before[i] == run[i];
      HistoryIsLive(env, js, before, source);
      assert Happens(env, js, run[n - 1], run[n - 1 + 1]);
      HappensIsLive(env, js, run[n - 1], run[n], source);
      forall i | 0 <= i < n ensures Live(run[i], run[i + 1], source) {
        assert i < n - 1 ==> Live(before[i], before[i + 1], source);
      }
    }
  }

  /**
   * A committed import stays verifiable over every history: whatever requests the proxy serves and whichever
   * snapshots are applied afterwards, in any order, re-applying the snapshot is accepted and changes nothing.
   * What it takes can be seen beforehand: calm stored days and regular rows.
   */
  lemma ImportStaysVerifiable(
      env: Env, js: Js, db: Db, snapshot: Snapshot, source: string, run: seq<Db>)
    requires HISTORY <= snapshot.records.Keys && Sorts(env.sort)
    requires !Known(db, snapshot, source) && Apply(env, db, snapshot, source).1.Some?
    requires CalmDays(db.daily) && RegularSnapshot(env, snapshot, source)
    requires run != [] && run[0] == Apply(env, db, snapshot, source).0
    requires forall i :: 0 <= i < |run| - 1 ==> Happens(env, js, run[i], run[i + 1])
    ensures var last := run[|run| - 1];
            Apply(env, last, snapshot, source) == (last, Some(AlreadyImported(snapshot.count)))
  {
    hide Apply, Live, CalmDays, Happens, HISTORY, Known, Sorts, RegularSnapshot, DaysGrow, Verified, Items, Order;
    OrderListsTables(env, snapshot);
    RegularImport(env, db, snapshot, source);
    CommittedIsVerified(env, db, snapshot, source);
    HistoryIsLive(env, js, run, source);
    ReplayAccepted(env, db, snapshot, source, run);
  }
}
