/** What an imported row becomes in the destination, and what is archived of it. */
module Projection {
  import opened Bytes
  import opened Json

  type Row = map<string, Json>

  /** Library calls. */
  datatype Text = Text(
    digest: (string, string, Json) -> string,  // SHA-256 of source id, kind and original id
    load: Json -> Option<Json>,                // json.loads of a cell, None when it raises
    dump: Json -> string
  )

  const USAGE: string := "usageHistory"
  const STATS: string := "requestStats"
  const DETAILS: string := "requestDetails"
  const ACCOUNTS: string := "providerConnections"
  const HISTORY: set<string> := {USAGE, STATS, DETAILS, ACCOUNTS}

  function Columns(table: string): set<string>
  {
    if table == USAGE then
      {"id", "timestamp", "provider", "model", "connectionId", "apiKey", "endpoint", "promptTokens", "completionTokens",
       "cost", "status", "tokens", "meta"}
    else if table == STATS then
      {"id", "timestamp", "provider", "model", "connectionId", "status", "promptTokens", "completionTokens",
       "cachedTokens", "cacheCreationTokens", "reasoningTokens", "latencyTotal", "latencyTtft"}
    else if table == DETAILS then
      {"id", "timestamp", "provider", "model", "connectionId", "status", "data"}
    else if table == ACCOUNTS then
      {"id", "provider", "authType", "name", "email", "priority", "isActive", "data", "createdAt", "updatedAt"}
    else {}
  }

  const OPAQUE: set<string> := {"data", "apiKey", "meta", "tokens"}

  const NUMERIC: set<string> := {
    "prompt_tokens", "completion_tokens", "cached_tokens", "cache_creation_tokens", "cache_creation_input_tokens",
    "reasoning_tokens", "input_tokens", "output_tokens", "total_tokens", "total", "ttft"
  }

  const DETAIL_KEYS: set<string> :=
    {"id", "timestamp", "provider", "model", "connectionId", "status", "latency", "tokens"}

  /** `row.get(column)` */
  function Cell(row: Row, column: string): Json
  {
    if column in row then row[column] else JNull
  }

  function MappedId(text: Text, source: string, kind: string, original: Json): Json
  {
    JStr("legacy-" + kind + "-" + text.digest(source, kind, original))
  }

  /** The archived form: opaque payloads, credentials and all configuration are replaced by a marker. */
  function ArchiveRow(table: string, row: Row): Row
  {
    map k | k in row :: if k in Columns(table) - OPAQUE then row[k]
      else JObj(map["preservedInPrivateSnapshot" := JBool(true)])
  }

  function NumericObject(v: Json): Row
  {
    if v.JObj? then map k | k in v.fields && k in NUMERIC && v.fields[k].JNum? :: v.fields[k] else map[]
  }

  function MapConnection(text: Text, source: string, row: Row): Row
  {
    if Cell(row, "connectionId").JNull? then row
    else row["connectionId" := MappedId(text, source, "account", row["connectionId"])]
  }

  function LegacyMeta(source: string): Json
  {
    JObj(map["legacyImport" := JObj(map[
      "contract" := JStr("nine-router-history-v1"),
      "sourceId" := JStr(source),
      "apiKeyIdentity" := JStr("unavailable")
    ])])
  }

  function Tokens(text: Text, cell: Json): Json
  {
    var parsed := text.load(cell);
    var data := if parsed.Some? then NumericObject(parsed.value) else map[];
    if data == map[] then JNull else JStr(text.dump(JObj(data)))
  }

  function ProjectUsage(text: Text, source: string, row: Row): Row
  {
    (MapConnection(text, source, row) - {"id"})
      ["apiKey" := JNull]
      ["meta" := JStr(text.dump(LegacyMeta(source)))]
      ["tokens" := Tokens(text, Cell(row, "tokens"))]
  }

  /** The part of a detail payload that reaches the destination. */
  function DetailData(data: Row, id: Json, connection: Json): Row
  {
    map k | k in DETAIL_KEYS && (k in data || k == "id" || k == "connectionId") ::
      if k == "id" then id else if k == "connectionId" then connection else DetailCell(k, data[k])
  }

  function DetailCell(key: string, v: Json): Json
  {
    if key == "latency" || key == "tokens" then JObj(NumericObject(v)) else v
  }

  function ProjectAccount(text: Text, source: string, row: Row): Row
  {
    row["id" := MappedId(text, source, "account", Cell(row, "id"))]["isActive" := JNum(0.0)]["data" := JStr("{}")]
  }

  function ProjectStats(text: Text, source: string, row: Row): Row
  {
    MapConnection(text, source, row)["id" := MappedId(text, source, "request", Cell(row, "id"))]
  }

  /** `row` is projected like a statistics row; `data` is its parsed payload. */
  function ProjectDetails(text: Text, row: Row, data: Row): Row
  {
    row["data" := JStr(text.dump(JObj(DetailData(data, Cell(row, "id"), Cell(row, "connectionId")))))]
  }

  /** The destination row, None when the original is only archived, and the recorded disposition. */
  function Project(text: Text, source: string, table: string, row: Row): (Option<Row>, string)
  {
    if table !in HISTORY then (None, "archived-original-state")
    else if table == ACCOUNTS
      then (Some(ProjectAccount(text, source, row)), "inactive-metadata-only-credentials-archived")
    else if table == USAGE then (Some(ProjectUsage(text, source, row)), "history-projection-original-archived")
    else if table == STATS then (Some(ProjectStats(text, source, row)), "history-projection-original-archived")
    else
      match text.load(Cell(row, "data"))
      case None => (None, "archived-unparseable-detail")
      case Some(JObj(data)) =>
        (Some(ProjectDetails(text, ProjectStats(text, source, row), data)), "history-projection-original-archived")
      case Some(_) => (None, "archived-nonobject-detail")
  }

  // ----- what the projection keeps and what it keeps out -----

  /** Two original rows that only their opaque columns tell apart. */
  predicate SameOpenPart(a: Row, b: Row)
  {
    a.Keys == b.Keys && forall k :: k in a && k !in OPAQUE ==> a[k] == b[k]
  }

  /** What a detail payload shows: whether it is an object, and the named members. */
  predicate SameDetail(x: Option<Json>, y: Option<Json>)
  {
    match (x, y)
    case (Some(JObj(f)), Some(JObj(g))) => DetailData(f, JNull, JNull) == DetailData(g, JNull, JNull)
    case (Some(JObj(_)), _) => false
    case (_, Some(JObj(_))) => false
    case _ => x.None? == y.None?
  }

  lemma DetailDataShown(f: Row, g: Row, id: Json, connection: Json)
    requires DetailData(f, JNull, JNull) == DetailData(g, JNull, JNull)
    ensures DetailData(f, id, connection) == DetailData(g, id, connection)
  {
    hide DETAIL_KEYS, DetailCell;
    var x, y := DetailData(f, JNull, JNull), DetailData(g, JNull, JNull);
    var v, w := DetailData(f, id, connection), DetailData(g, id, connection);
    assert v.Keys == x.Keys && w.Keys == y.Keys;
    forall k | k in v ensures v[k] == w[k] {
      assert x[k] == y[k];
    }
  }

  lemma OpaqueColumns(table: string)
    ensures table == STATS ==> Columns(table) !! OPAQUE
    ensures table == DETAILS || table == ACCOUNTS ==> Columns(table) * OPAQUE <= {"data"}
    ensures table == USAGE ==> Columns(table) * OPAQUE <= {"apiKey", "meta", "tokens"}
  {
  }

  lemma MapConnectionSame(text: Text, source: string, a: Row, b: Row)
    requires SameOpenPart(a, b)
    ensures SameOpenPart(MapConnection(text, source, a), MapConnection(text, source, b))
    ensures MapConnection(text, source, a).Keys == a.Keys
    ensures Cell(MapConnection(text, source, a), "connectionId") == Cell(MapConnection(text, source, b), "connectionId")
  {
    assert "connectionId" !in OPAQUE;
  }

  lemma StatsSame(text: Text, source: string, a: Row, b: Row)
    requires SameOpenPart(a, b)
    ensures SameOpenPart(ProjectStats(text, source, a), ProjectStats(text, source, b))
    ensures ProjectStats(text, source, a).Keys == a.Keys + {"id"}
    ensures Cell(ProjectStats(text, source, a), "id") == Cell(ProjectStats(text, source, b), "id")
    ensures Cell(ProjectStats(text, source, a), "connectionId") == Cell(ProjectStats(text, source, b), "connectionId")
  {
    hide MapConnection, MappedId;
    MapConnectionSame(text, source, a, b);
    assert "id" !in OPAQUE && "id" != "connectionId";
  }

  lemma OutsideSame(a: Row, b: Row, mine: set<string>)
    requires SameOpenPart(a, b) && a.Keys * OPAQUE <= mine
    ensures forall k :: k in a && k !in mine ==> a[k] == b[k]
  {
    hide OPAQUE;
    forall k | k in a && k !in mine ensures a[k] == b[k] {
      assert k !in a.Keys * OPAQUE;
    }
  }

  lemma AccountSame(text: Text, source: string, a: Row, b: Row)
    requires SameOpenPart(a, b) && a.Keys * OPAQUE <= {"data"}
    ensures ProjectAccount(text, source, a) == ProjectAccount(text, source, b)
  {
    hide MappedId, OPAQUE;
    OutsideSame(a, b, {"data"});
    var x, y := ProjectAccount(text, source, a), ProjectAccount(text, source, b);
    assert x.Keys == y.Keys;
    assert "id" != "data" && "id" != "isActive" && "data" != "isActive";
  }

  lemma UsageSame(text: Text, source: string, a: Row, b: Row)
    requires SameOpenPart(a, b) && a.Keys * OPAQUE <= {"apiKey", "meta", "tokens"}
    requires Tokens(text, Cell(a, "tokens")) == Tokens(text, Cell(b, "tokens"))
    ensures ProjectUsage(text, source, a) == ProjectUsage(text, source, b)
  {
    hide MapConnection, LegacyMeta, Tokens, OPAQUE;
    MapConnectionSame(text, source, a, b);
    var v, w := MapConnection(text, source, a), MapConnection(text, source, b);
    OutsideSame(v, w, {"apiKey", "meta", "tokens"});
    var x, y := ProjectUsage(text, source, a), ProjectUsage(text, source, b);
    assert x.Keys == y.Keys;
  }

  lemma DetailsSame(text: Text, a: Row, b: Row, f: Row, g: Row)
    requires SameOpenPart(a, b) && a.Keys * OPAQUE <= {"data"}
    requires Cell(a, "id") == Cell(b, "id") && Cell(a, "connectionId") == Cell(b, "connectionId")
    requires DetailData(f, JNull, JNull) == DetailData(g, JNull, JNull)
    ensures ProjectDetails(text, a, f) == ProjectDetails(text, b, g)
  {
    hide DetailData, OPAQUE, Cell;
    DetailDataShown(f, g, Cell(a, "id"), Cell(a, "connectionId"));
    OutsideSame(a, b, {"data"});
  }

  lemma ArchiveSame(table: string, a: Row, b: Row)
    requires SameOpenPart(a, b)
    ensures ArchiveRow(table, a) == ArchiveRow(table, b)
  {
    hide OPAQUE, Columns;
  }

  lemma IdIsOpen(a: Row)
    requires a.Keys * OPAQUE <= {"data"}
    ensures (a.Keys + {"id"}) * OPAQUE <= {"data"}
  {
    assert "id" !in OPAQUE;
  }

  lemma StatsEqual(text: Text, source: string, a: Row, b: Row)
    requires SameOpenPart(a, b) && a.Keys !! OPAQUE
    ensures ProjectStats(text, source, a) == ProjectStats(text, source, b)
  {
    assert a == b;
  }

  /**
   * Credentials, raw payloads and non-numeric token data reach neither the destination nor the archived form.
   * The archive record also stores a digest of the whole original row, which does depend on them.
   */
  lemma SecretsStayOut(text: Text, source: string, table: string, a: Row, b: Row)
    requires table in HISTORY && a.Keys == Columns(table) && SameOpenPart(a, b)
    requires table == USAGE ==> Tokens(text, Cell(a, "tokens")) == Tokens(text, Cell(b, "tokens"))
    requires table == DETAILS ==> SameDetail(text.load(Cell(a, "data")), text.load(Cell(b, "data")))
    ensures Project(text, source, table, a) == Project(text, source, table, b)
    ensures ArchiveRow(table, a) == ArchiveRow(table, b)
  {
    hide SameOpenPart, OPAQUE, Columns, Cell, DetailData, ArchiveRow, ProjectStats, ProjectUsage, ProjectAccount,
      ProjectDetails, Tokens;
    ArchiveSame(table, a, b);
    OpaqueColumns(table);
    if table == USAGE {
      UsageSame(text, source, a, b);
    } else if table == ACCOUNTS {
      AccountSame(text, source, a, b);
    } else if table == STATS {
      StatsEqual(text, source, a, b);
    } else {
      StatsSame(text, source, a, b);
      IdIsOpen(a);
      var x, y := text.load(Cell(a, "data")), text.load(Cell(b, "data"));
      if x.Some? && x.value.JObj? {
        DetailsSame(text, ProjectStats(text, source, a), ProjectStats(text, source, b), x.value.fields, y.value.fields);
      }
    }
  }

  lemma UsageConnection(text: Text, source: string, row: Row)
    ensures Cell(ProjectUsage(text, source, row), "connectionId")
            == Cell(MapConnection(text, source, row), "connectionId")
  {
    hide MapConnection, LegacyMeta, Tokens;
  }

  lemma RequestConnection(text: Text, source: string, row: Row, data: Row)
    ensures Cell(ProjectStats(text, source, row), "connectionId")
            == Cell(MapConnection(text, source, row), "connectionId")
    ensures Cell(ProjectDetails(text, row, data), "connectionId") == Cell(row, "connectionId")
  {
    hide MapConnection, MappedId, DetailData;
  }

  lemma ConnectionProjected(text: Text, source: string, table: string, row: Row)
    requires table in HISTORY && table != ACCOUNTS && Project(text, source, table, row).0.Some?
    ensures Cell(Project(text, source, table, row).0.value, "connectionId")
            == Cell(MapConnection(text, source, row), "connectionId")
  {
    hide Cell, MapConnection, ProjectUsage, ProjectStats, ProjectDetails;
    UsageConnection(text, source, row);
    RequestConnection(text, source, row, map[]);
    var data := text.load(Cell(row, "data"));
    if data.Some? && data.value.JObj? {
      RequestConnection(text, source, ProjectStats(text, source, row), data.value.fields);
    }
  }

  lemma AccountProjected(text: Text, source: string, row: Row)
    ensures Project(text, source, ACCOUNTS, row).0.Some?
    ensures Cell(Project(text, source, ACCOUNTS, row).0.value, "id")
            == MappedId(text, source, "account", Cell(row, "id"))
  {
    hide MappedId;
  }

  lemma MappedIdInjective(text: Text, source: string, kind: string, v: Json, w: Json)
    requires MappedId(text, source, kind, v) == MappedId(text, source, kind, w)
    ensures text.digest(source, kind, v) == text.digest(source, kind, w)
  {
    var head := "legacy-" + kind + "-";
    var x, y := head + text.digest(source, kind, v), head + text.digest(source, kind, w);
    assert x[|head|..] == y[|head|..];
    assert x[|head|..] == text.digest(source, kind, v) && y[|head|..] == text.digest(source, kind, w);
  }

  /** The digests of a request's account and of an account agree, as they do when the ids do. */
  predicate SameDigest(text: Text, source: string, request: Row, account: Row)
  {
    text.digest(source, "account", Cell(request, "connectionId")) == text.digest(source, "account", Cell(account, "id"))
  }

  /**
   * A projected request points at the projected account exactly when the original named an account with the
   * same digest: its own account, unless the digest collides on these very two ids. Nobody's requests stay nobody's.
   */
  lemma LineageKept(text: Text, source: string, table: string, request: Row, account: Row)
    requires table in HISTORY && table != ACCOUNTS && Project(text, source, table, request).0.Some?
    ensures Project(text, source, ACCOUNTS, account).0.Some?
    ensures var r, a := Project(text, source, table, request).0.value, Project(text, source, ACCOUNTS, account).0.value;
            var named, id := Cell(request, "connectionId"), Cell(account, "id");
            && (Cell(r, "connectionId") == Cell(a, "id")
               <==> !named.JNull? && SameDigest(text, source, request, account))
            && (named == id && !id.JNull? ==> Cell(r, "connectionId") == Cell(a, "id"))
            && (named.JNull? ==> Cell(r, "connectionId").JNull?)
  {
    hide Project, HISTORY;
    ConnectionProjected(text, source, table, request);
    AccountProjected(text, source, account);
    var named, id := Cell(request, "connectionId"), Cell(account, "id");
    if !named.JNull? && MappedId(text, source, "account", named) == MappedId(text, source, "account", id) {
      MappedIdInjective(text, source, "account", named, id);
    }
  }

  // ----- what each projection writes -----

  /** The columns not named are those of the original. */
  ghost predicate Kept(row: Row, out: Row, changed: set<string>)
  {
    forall k :: k !in changed ==> Get(Some(JObj(out)), k) == Get(Some(JObj(row)), k)
  }

  /** An imported account can authenticate nobody: it is inactive and its data are an empty object. */
  lemma AccountIsInert(text: Text, source: string, row: Row)
    ensures Project(text, source, ACCOUNTS, row).0.Some?
    ensures var out := Project(text, source, ACCOUNTS, row).0.value;
            && Cell(out, "isActive") == JNum(0.0) && Cell(out, "data") == JStr("{}")
            && Cell(out, "id") == JStr("legacy-account-" + text.digest(source, "account", Cell(row, "id")))
            && Kept(row, out, {"id", "isActive", "data"})
  {
    hide Columns, OPAQUE;
    assert "legacy-" + "account" + "-" == "legacy-account-";
  }

  /** The connection of a projected row: nobody's stays nobody's. */
  function Connection(text: Text, source: string, original: Json): Json
  {
    if original.JNull? then original else JStr("legacy-account-" + text.digest(source, "account", original))
  }

  /** `f` has the named numbers of the original object and nothing else. */
  ghost predicate NumberPart(original: Option<Json>, f: Row)
  {
    forall k {:trigger k in f} ::
      var v := Get(original, k);
      if k in NUMERIC && v.Some? && v.value.JNum? then k in f && f[k] == v.value else k !in f
  }

  /** A token cell is the written form of the original's numbers, null when there are none. */
  ghost predicate OnlyNumbers(text: Text, original: Json, cell: Json)
  {
    exists f: Row ::
      && NumberPart(text.load(original), f)
      && cell == if f == map[] then JNull else JStr(text.dump(JObj(f)))
  }

  lemma NumericObjectIsPart(v: Json)
    ensures NumberPart(Some(v), NumericObject(v))
  {
    hide NUMERIC;
  }

  lemma TokensAreNumbers(text: Text, original: Json)
    ensures OnlyNumbers(text, original, Tokens(text, original))
  {
    hide NUMERIC, NumericObject;
    var parsed := text.load(original);
    var f: Row := if parsed.Some? then NumericObject(parsed.value) else map[];
    assert NumberPart(parsed, f) by {
      if parsed.Some? {
        NumericObjectIsPart(parsed.value);
      }
    }
  }

  /** A projected usage row has no id and no key, and keeps every column but the connection, the tokens and the note. */
  lemma UsageColumns(text: Text, source: string, row: Row)
    ensures Project(text, source, USAGE, row).0.Some?
    ensures var out := Project(text, source, USAGE, row).0.value;
            && "id" !in out && "apiKey" in out && out["apiKey"] == JNull
            && Cell(out, "connectionId") == Connection(text, source, Cell(row, "connectionId"))
            && OnlyNumbers(text, Cell(row, "tokens"), Cell(out, "tokens"))
            && Kept(row, out, {"id", "connectionId", "apiKey", "meta", "tokens"})
  {
    hide Columns, OPAQUE, Tokens, LegacyMeta, OnlyNumbers;
    TokensAreNumbers(text, Cell(row, "tokens"));
    assert "legacy-" + "account" + "-" == "legacy-account-";
  }

  lemma StatsKept(text: Text, source: string, row: Row)
    ensures var out := ProjectStats(text, source, row);
            && Cell(out, "id") == JStr("legacy-request-" + text.digest(source, "request", Cell(row, "id")))
            && Cell(out, "connectionId") == Connection(text, source, Cell(row, "connectionId"))
            && Kept(row, out, {"id", "connectionId"})
  {
    assert "legacy-" + "account" + "-" == "legacy-account-";
    assert "legacy-" + "request" + "-" == "legacy-request-";
  }

  /** The payload of a detail row is the written form of its named members, with the row's new ids. */
  ghost predicate DetailOf(data: Row, id: Json, connection: Json, f: Row)
  {
    && "id" in f && f["id"] == id && "connectionId" in f && f["connectionId"] == connection
    && (forall k :: k in f && k != "id" && k != "connectionId" ==> k in data && DetailMember(k, data[k], f[k]))
    && (forall k :: k in data && k in DETAIL_KEYS ==> k in f)
  }

  /** Latency and token members keep their named numbers, the others are the original's. */
  ghost predicate DetailMember(k: string, original: Json, v: Json)
  {
    if k == "latency" || k == "tokens" then v.JObj? && NumberPart(Some(original), v.fields)
    else v == original && k in {"timestamp", "provider", "model", "status"}
  }

  lemma DetailIsNamed(data: Row, id: Json, connection: Json)
    ensures DetailOf(data, id, connection, DetailData(data, id, connection))
  {
    hide NUMERIC, NumberPart, NumericObject;
    if "latency" in data {
      NumericObjectIsPart(data["latency"]);
    }
    if "tokens" in data {
      NumericObjectIsPart(data["tokens"]);
    }
  }

  /** Statistics keep all their columns but the ids; details also rewrite their payload, or are only archived. */
  lemma RequestColumns(text: Text, source: string, table: string, row: Row)
    requires table == STATS || table == DETAILS
    ensures var payload := text.load(Cell(row, "data"));
            Project(text, source, table, row).0.Some? <==> table == STATS || (payload.Some? && payload.value.JObj?)
    ensures var (out, _) := Project(text, source, table, row);
            out.Some? ==>
              && Cell(out.value, "id") == JStr("legacy-request-" + text.digest(source, "request", Cell(row, "id")))
              && Cell(out.value, "connectionId") == Connection(text, source, Cell(row, "connectionId"))
              && Kept(row, out.value, {"id", "connectionId"} + if table == STATS then {} else {"data"})
              && (table == DETAILS ==> PayloadRewritten(text, row, out.value))
  {
    hide Columns, OPAQUE, ProjectStats, DetailOf, DetailData, Connection;
    StatsKept(text, source, row);
    var stats := ProjectStats(text, source, row);
    var payload := text.load(Cell(row, "data"));
    if table == DETAILS && payload.Some? && payload.value.JObj? {
      DetailIsNamed(payload.value.fields, Cell(stats, "id"), Cell(stats, "connectionId"));
    }
  }

  ghost predicate PayloadRewritten(text: Text, row: Row, out: Row)
  {
    var payload := text.load(Cell(row, "data"));
    && payload.Some? && payload.value.JObj?
    && exists f: Row ::
         && Cell(out, "data") == JStr(text.dump(JObj(f)))
         && DetailOf(payload.value.fields, Cell(out, "id"), Cell(out, "connectionId"), f)
  }

  const MARKER: Json := JObj(map["preservedInPrivateSnapshot" := JBool(true)])

  /** The archive keeps every column's name; credentials, payloads and whole configuration rows become markers. */
  lemma ArchivedColumns(table: string, row: Row)
    ensures ArchiveRow(table, row).Keys == row.Keys
    ensures forall k :: k in row ==> ArchiveRow(table, row)[k] == row[k] || ArchiveRow(table, row)[k] == MARKER
    ensures forall k :: k in row && (k in {"data", "apiKey", "meta", "tokens"} || table !in HISTORY) ==>
              ArchiveRow(table, row)[k] == MARKER
    ensures table in HISTORY && row.Keys <= Columns(table) ==>
              forall k :: k in row && k !in {"data", "apiKey", "meta", "tokens"} ==> ArchiveRow(table, row)[k] == row[k]
  {
    assert table !in HISTORY ==> Columns(table) == {};
  }
}
