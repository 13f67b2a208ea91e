/**
 * The import of one frozen history snapshot into the live database: archive every row, project the ones the
 * destination understands, add their usage to the daily aggregates, take a receipt and verify it, all in
 * one transaction.
 */
module HistoryImport {
  import opened Bytes
  import opened Json
  import opened DailyCounters
  import opened DailyIncrements
  import opened Projection

  const CONTRACT: string := "nine-router-history-v1"

  datatype RecordKey = RecordKey(source: string, table: string, key: string)

  /** The destination row a record stands for. */
  datatype Imported = Imported(id: Json, projection: Row)

  datatype Record = Record(rawRow: Row, fingerprint: string, disposition: string, imported: Option<Imported>)

  datatype Receipt = Receipt(lifetimeMinimum: int, days: map<string, Fields>)

  datatype Source = Source(fingerprint: string, contract: string, rows: nat, receipt: Option<Receipt>)

  type Table = map<Json, Row>

  datatype Db = Db(
    tables: map<string, Table>,
    daily: map<string, Json>,
    lifetime: Option<int>,
    sources: map<string, Source>,
    records: map<RecordKey, Record>
  )

  datatype Entry = Entry(key: string, row: Row)

  datatype Snapshot = Snapshot(fingerprint: string, count: nat, records: map<string, seq<Entry>>)

  /** What the database engine and the library decide. */
  datatype Env = Env(
    text: Text,
    hash: Row -> string,                        // digest of an original row
    store: (string, Row) -> Row,                // a row as SQLite reads it back
    rowId: Table -> Json,                       // next automatic id
    admits: (Db, string, Row) -> bool,          // constraints other than the primary key
    intact: Db -> bool,                         // PRAGMA foreign_key_check
    triggers: Db -> bool,                       // triggers on the destination tables
    day: Json -> Option<string>,                // local calendar day of a timestamp
    show: Json -> string,                       // str of a model that is not text
    sort: set<string> -> seq<string>
  )

  /** `sorted` lists every member once. */
  ghost predicate Sorts(sort: set<string> -> seq<string>)
  {
    forall s ::
      && (forall t :: t in sort(s) <==> t in s)
      && forall i, j :: 0 <= i < j < |sort(s)| ==> sort(s)[i] != sort(s)[j]
  }

  // ----- the work list -----

  datatype Item = Item(table: string, entry: Entry)

  function TableItems(table: string, entries: seq<Entry>): (items: seq<Item>)
    ensures |items| == |entries|
  {
    seq(|entries|, i requires 0 <= i < |entries| => Item(table, entries[i]))
  }

  /** Accounts first, then the other tables by name. */
  function Order(env: Env, snapshot: Snapshot): seq<string>
  {
    [ACCOUNTS] + env.sort(snapshot.records.Keys - {ACCOUNTS})
  }

  function Items(snapshot: Snapshot, tables: seq<string>): seq<Item>
    requires forall t :: t in tables ==> t in snapshot.records
  {
    if tables == [] then []
    else
      var n := |tables| - 1;
      Items(snapshot, tables[..n]) + TableItems(tables[n], snapshot.records[tables[n]])
  }

  // ----- one row -----

  datatype Progress = Progress(db: Db, inserted: map<string, nat>, archived: map<string, nat>, touched: set<string>)

  function Tally(m: map<string, nat>, table: string): nat
  {
    if table in m then m[table] else 0
  }

  /** INSERT of a projected row: the new table and the row's id. */
  function Insert(env: Env, db: Db, table: string, row: Row): Option<(Db, Json)>
  {
    if table !in db.tables || !env.admits(db, table, row) then None else
    var id := if "id" in row then row["id"] else env.rowId(db.tables[table]);
    if id in db.tables[table] then None
    else Some((db.(tables := db.tables[table := db.tables[table][id := env.store(table, row["id" := id])]]), id))
  }

  /** `value or 0` */
  function Amount(v: Json): Option<real>
  {
    match v
    case JNum(n) => Some(n)
    case JBool(b) => Some(if b then 1.0 else 0.0)
    case JNull => Some(0.0)
    case JStr(s) => if s == "" then Some(0.0) else None
    case JArr(items) => if items == [] then Some(0.0) else None
    case JObj(fields) => if fields == map[] then Some(0.0) else None
  }

  /** Text, or nothing; Err when the string concatenations would raise. */
  function OptionalText(v: Json): Result<Option<string>>
  {
    match v
    case JStr(s) => Ok(if s == "" then None else Some(s))
    case _ => if Amount(v) == Some(0.0) then Ok(None) else Err("TypeError")
  }

  /** The projected token object; None when reading it raises. */
  function TokenFields(env: Env, cell: Json): Option<Fields>
  {
    if !Truthy(Some(cell)) then Some(map[])
    else
      match env.text.load(cell)
      case Some(JObj(fields)) => Some(fields)
      case _ => None
  }

  function AmountsOf(env: Env, row: Row): (a: Option<Amounts>)
    ensures a.Some? ==> a.value.Keys == COUNTERS && a.value["requests"] == 1.0
  {
    var tokens := TokenFields(env, Cell(row, "tokens"));
    if tokens.None? then None else
    var prompt := Amount(Cell(row, "promptTokens"));
    var completion := Amount(Cell(row, "completionTokens"));
    var cached := Amount(Cell(tokens.value, "cached_tokens"));
    var created := Amount(Cell(tokens.value, "cache_creation_input_tokens"));
    var cost := Amount(Cell(row, "cost"));
    if prompt.None? || completion.None? || cached.None? || created.None? || cost.None? then None
    else Some(map["requests" := 1.0, "promptTokens" := prompt.value, "completionTokens" := completion.value,
                  "cachedTokens" := cached.value, "cacheCreationTokens" := created.value, "cost" := cost.value])
  }

  function UsageOf(env: Env, row: Row): (u: Option<Usage>)
    ensures u.Some? ==> u.value.amounts.Keys == COUNTERS && u.value.amounts["requests"] == 1.0
  {
    var amounts := AmountsOf(env, row);
    var provider := OptionalText(Cell(row, "provider"));
    var account := OptionalText(Cell(row, "connectionId"));
    var endpoint := OptionalText(Cell(row, "endpoint"));
    if amounts.None? || provider.Err? || account.Err? || endpoint.Err? then None else
    var model := Cell(row, "model");
    var name := match model case JNull => "null" case JStr(s) => s case _ => env.show(model);
    Some(Usage(amounts.value, provider.value, name, model, account.value,
               if endpoint.value.Some? then endpoint.value.value else "Unknown"))
  }

  /** The aggregates after one projected usage row, and the day it fell on. */
  function AddUsage(env: Env, daily: map<string, Json>, row: Row): Option<(map<string, Json>, string)>
  {
    var day := env.day(Cell(row, "timestamp"));
    var usage := UsageOf(env, row);
    if day.None? || usage.None? then None else
    var before := if day.value in daily then daily[day.value] else JObj(map[]);
    var after := IncrementDay(before, usage.value);
    if after.None? then None else Some((daily[day.value := after.value], day.value))
  }

  function Archive(env: Env, source: string, p: Progress, item: Item, disposition: string,
      imported: Option<Imported>): Option<Progress>
  {
    var key := RecordKey(source, item.table, item.entry.key);
    if key in p.db.records then None
    else
      var record := Record(ArchiveRow(item.table, item.entry.row), env.hash(item.entry.row), disposition, imported);
      Some(p.(db := p.db.(records := p.db.records[key := record])))
  }

  /** The projected row goes in, and a usage row into its day as well. */
  function Place(env: Env, p: Progress, table: string, row: Row): Option<(Progress, Imported)>
  {
    var put := Insert(env, p.db, table, row);
    if put.None? then None else
    var (db, id) := put.value;
    var imported := Imported(id, row["id" := id]);
    var q := p.(db := db, inserted := p.inserted[table := Tally(p.inserted, table) + 1]);
    if table != USAGE then Some((q, imported)) else
    var added := AddUsage(env, db.daily, imported.projection);
    if added.None? then None
    else Some((q.(db := db.(daily := added.value.0), touched := q.touched + {added.value.1}), imported))
  }

  function ImportRow(env: Env, source: string, p: Progress, item: Item): Option<Progress>
  {
    var (projection, disposition) := Project(env.text, source, item.table, item.entry.row);
    if projection.None? then
      Archive(env, source, p.(archived := p.archived[item.table := Tally(p.archived, item.table) + 1]), item,
        disposition, None)
    else
      var placed := Place(env, p, item.table, projection.value);
      if placed.None? then None
      else Archive(env, source, placed.value.0, item, disposition, Some(placed.value.1))
  }

  function ImportRows(env: Env, source: string, p: Progress, items: seq<Item>): Option<Progress>
  {
    if items == [] then Some(p)
    else
      var q := ImportRows(env, source, p, items[..|items| - 1]);
      if q.None? then None else ImportRow(env, source, q.value, items[|items| - 1])
  }

  // ----- verification -----

  type Expectation = map<RecordKey, (Row, string)>

  /** What the archive must hold for a source. */
  function Expected(env: Env, source: string, items: seq<Item>): Expectation
  {
    if items == [] then map[]
    else
      var item := items[|items| - 1];
      Expected(env, source, items[..|items| - 1])
        [RecordKey(source, item.table, item.entry.key) :=
          (ArchiveRow(item.table, item.entry.row), env.hash(item.entry.row))]
  }

  function Archived(db: Db, source: string): set<RecordKey>
  {
    set key | key in db.records && key.source == source
  }

  /** The destination still reads back what was projected. */
  predicate Stands(db: Db, table: string, imported: Imported)
  {
    && table in db.tables && imported.id in db.tables[table]
    && forall k :: k in imported.projection ==>
       k in db.tables[table][imported.id] && db.tables[table][imported.id][k] == imported.projection[k]
  }

  predicate ArchiveMatches(db: Db, source: string, expected: Expectation)
  {
    && |Archived(db, source)| == |expected|
    && forall key :: key in Archived(db, source) ==>
         && key in expected && expected[key] == (db.records[key].rawRow, db.records[key].fingerprint)
         && (db.records[key].imported.Some? ==> Stands(db, key.table, db.records[key].imported.value))
  }

  predicate ReceiptHolds(db: Db, receipt: Receipt)
  {
    && (forall day :: day in receipt.days ==> day in db.daily && Bounded(Some(db.daily[day]), receipt.days[day]))
    && db.lifetime.Some? && db.lifetime.value >= receipt.lifetimeMinimum
  }

  /** `verify_replay` does not raise. */
  predicate Verified(env: Env, db: Db, source: string, items: seq<Item>)
  {
    && ArchiveMatches(db, source, Expected(env, source, items))
    && source in db.sources && db.sources[source].receipt.Some?
    && ReceiptHolds(db, db.sources[source].receipt.value)
  }

  // ----- the whole import -----

  datatype Report =
    | AlreadyImported(rows: nat)
    | Complete(rows: nat, inserted: map<string, nat>, archived: map<string, nat>, lifetimeBefore: int,
      lifetimeAfter: int)

  function Begin(db: Db, snapshot: Snapshot, source: string): Progress
  {
    var zero := map t | t in snapshot.records :: 0 as nat;
    var entry := Source(snapshot.fingerprint, CONTRACT, snapshot.count, None);
    Progress(db.(sources := db.sources[source := entry]), zero, zero, {})
  }

  function LifetimeOf(db: Db): int
  {
    if db.lifetime.Some? then db.lifetime.value else 0
  }

  /** Lifetime counter and receipt. */
  function Seal(p: Progress, source: string): Db
    requires source in p.db.sources && p.touched <= p.db.daily.Keys
  {
    var lifetime := LifetimeOf(p.db) + Tally(p.inserted, USAGE);
    var receipt := Receipt(lifetime, map day | day in p.touched :: NumericCounters(p.db.daily[day]));
    p.db.(lifetime := Some(lifetime),
      sources := p.db.sources[source := p.db.sources[source].(receipt := Some(receipt))])
  }

  function Rows(db: Db, table: string): nat
  {
    if table in db.tables then |db.tables[table]| else 0
  }

  /** Some source claims this snapshot, or this id is taken. */
  predicate Known(db: Db, snapshot: Snapshot, source: string)
  {
    source in db.sources || exists s :: s in db.sources && db.sources[s].fingerprint == snapshot.fingerprint
  }

  predicate SameImport(db: Db, snapshot: Snapshot, source: string)
  {
    source in db.sources && db.sources[source].fingerprint == snapshot.fingerprint
      && db.sources[source].contract == CONTRACT
  }

  lemma {:induction false} TouchedExist(env: Env, source: string, p: Progress, items: seq<Item>)
    requires p.touched <= p.db.daily.Keys
    ensures var q := ImportRows(env, source, p, items);
            q.Some? ==> q.value.touched <= q.value.db.daily.Keys && q.value.db.sources == p.db.sources
  {
    if items != [] {
      TouchedExist(env, source, p, items[..|items| - 1]);
      var q := ImportRows(env, source, p, items[..|items| - 1]);
      if q.Some? {
        RowTouches(env, source, q.value, items[|items| - 1]);
      }
    }
  }

  lemma RowTouches(env: Env, source: string, p: Progress, item: Item)
    requires p.touched <= p.db.daily.Keys
    ensures var q := ImportRow(env, source, p, item);
            q.Some? ==> q.value.touched <= q.value.db.daily.Keys && q.value.db.sources == p.db.sources
  {
    hide Project, Place, ArchiveRow;
    var projection := Project(env.text, source, item.table, item.entry.row).0;
    if projection.Some? {
      PlaceTouches(env, p, item.table, projection.value);
    }
  }

  lemma PlaceTouches(env: Env, p: Progress, table: string, row: Row)
    requires p.touched <= p.db.daily.Keys
    ensures var q := Place(env, p, table, row);
            q.Some? ==> q.value.0.touched <= q.value.0.db.daily.Keys && q.value.0.db.sources == p.db.sources
  {
    hide IncrementDay, UsageOf;
  }

  /** The import of a snapshot nobody has imported yet; None when anything raises. */
  function ImportNew(env: Env, db: Db, snapshot: Snapshot, source: string): Option<(Db, Report)>
    requires HISTORY <= snapshot.records.Keys && Sorts(env.sort)
  {
    var items := Items(snapshot, Order(env, snapshot));
    var begun := Begin(db, snapshot, source);
    TouchedExist(env, source, begun, items);
    var p := ImportRows(env, source, begun, items);
    if p.None? then None else
    var sealed := Seal(p.value, source);
    if (exists t :: t in HISTORY && Rows(sealed, t) - Rows(db, t) != Tally(p.value.inserted, t))
       || !Verified(env, sealed, source, items) || !env.intact(sealed) then None
    else Some((sealed,
      Complete(snapshot.count, p.value.inserted, p.value.archived, LifetimeOf(db), sealed.lifetime.value)))
  }

  /** The database afterwards and the report, None when the import raised. */
  function Apply(env: Env, db: Db, snapshot: Snapshot, source: string): (Db, Option<Report>)
    requires HISTORY <= snapshot.records.Keys && Sorts(env.sort)
  {
    if Known(db, snapshot, source) then
      if SameImport(db, snapshot, source) && Verified(env, db, source, Items(snapshot, Order(env, snapshot)))
      then (db, Some(AlreadyImported(snapshot.count))) else (db, None)
    else if env.triggers(db) then (db, None)
    else
      var done := ImportNew(env, db, snapshot, source);
      if done.None? then (db, None) else (done.value.0, Some(done.value.1))
  }

  /** The destination: what is committed, and what the open transaction sees. */
  class Database {
    var committed: Db
    var working: Db

    constructor (db: Db)
      ensures committed == db && working == db
    {
      committed, working := db, db;
    }

    /** One transaction: it commits a verified import, and leaves the database alone in every other case. */
    method ApplySnapshot(env: Env, snapshot: Snapshot, source: string) returns (report: Option<Report>)
      requires HISTORY <= snapshot.records.Keys && Sorts(env.sort)
      modifies this
      ensures (committed, report) == Apply(env, old(committed), snapshot, source)
      ensures working == committed
    {
      hide Verified, Known, Items, ImportRows, Seal, Begin;
      working := committed;
      var tables := Order(env, snapshot);
      var items := Items(snapshot, tables);
      if Known(working, snapshot, source) {
        if SameImport(working, snapshot, source) && Verified(env, working, source, items) {
          return Some(AlreadyImported(snapshot.count));
        }
        return None;
      }
      if env.triggers(working) {
        return None;
      }
      var begun := Begin(working, snapshot, source);
      var p := ImportTables(env, snapshot, source, tables, begun);
      if p.None? {
        return None;
      }
      BeginHasSource(committed, snapshot, source);
      TouchedExist(env, source, begun, items);
      working := Seal(p.value, source);
      if (exists t :: t in HISTORY && Rows(working, t) - Rows(committed, t) != Tally(p.value.inserted, t))
         || !Verified(env, working, source, items) || !env.intact(working) {
        working := committed;
        return None;
      }
      SealSetsLifetime(p.value, source);
      report := Some(Complete(snapshot.count, p.value.inserted, p.value.archived, LifetimeOf(committed),
        working.lifetime.value));
      committed := working;
    }
  }

  lemma BeginHasSource(db: Db, snapshot: Snapshot, source: string)
    ensures var p := Begin(db, snapshot, source); source in p.db.sources && p.touched == {}
  {
  }

  lemma SealSetsLifetime(p: Progress, source: string)
    requires source in p.db.sources && p.touched <= p.db.daily.Keys
    ensures Seal(p, source).lifetime.Some?
  {
  }

  /** The rows of one table, after the rows `before`. */
  method ImportEntries(env: Env, source: string, table: string, entries: seq<Entry>, start: Progress,
      ghost begun: Progress, ghost before: seq<Item>)
    returns (p: Option<Progress>)
    requires ImportRows(env, source, begun, before) == Some(start)
    ensures p == ImportRows(env, source, begun, before + TableItems(table, entries))
  {
    hide ImportRow;
    p := Some(start);
    ghost var here := TableItems(table, entries);
    assert before + here[..0] == before;
    for j := 0 to |entries|
      invariant p == ImportRows(env, source, begun, before + here[..j]) && p.Some?
    {
      assert (before + here[..j + 1])[..|before| + j] == before + here[..j];
      p := ImportRow(env, source, p.value, Item(table, entries[j]));
      if p.None? {
        FailureSticks(env, source, begun, before + here[..j + 1], before + here);
        return;
      }
    }
    assert here[..|entries|] == here;
  }

  /** Table after table. */
  method ImportTables(env: Env, snapshot: Snapshot, source: string, tables: seq<string>, begun: Progress)
    returns (p: Option<Progress>)
    requires forall t :: t in tables ==> t in snapshot.records
    ensures p == ImportRows(env, source, begun, Items(snapshot, tables))
  {
    hide ImportRow, TableItems;
    p := Some(begun);
    for i := 0 to |tables|
      invariant p == ImportRows(env, source, begun, Items(snapshot, tables[..i])) && p.Some?
    {
      assert tables[..i + 1][..i] == tables[..i];
      p := ImportEntries(env, source, tables[i], snapshot.records[tables[i]], p.value, begun,
        Items(snapshot, tables[..i]));
      if p.None? {
        ItemsPrefix(snapshot, tables, i + 1);
        FailureSticks(env, source, begun, Items(snapshot, tables[..i + 1]), Items(snapshot, tables));
        return;
      }
    }
    assert tables[..|tables|] == tables;
  }

  lemma {:induction false} FailureSticks(env: Env, source: string, p: Progress, some: seq<Item>, items: seq<Item>)
    requires some <= items && ImportRows(env, source, p, some) == None
    ensures ImportRows(env, source, p, items) == None
    decreases |items|
  {
    if some != items {
      FailureSticks(env, source, p, some, items[..|items| - 1]);
    }
  }

  lemma {:induction false} ItemsPrefix(snapshot: Snapshot, tables: seq<string>, k: nat)
    requires k <= |tables| && forall t :: t in tables ==> t in snapshot.records
    ensures Items(snapshot, tables[..k]) <= Items(snapshot, tables)
    decreases |tables|
  {
    if k < |tables| {
      var n := |tables| - 1;
      ItemsPrefix(snapshot, tables[..n], k);
      assert tables[..n][..k] == tables[..k];
    } else {
      assert tables[..k] == tables;
    }
  }
}
