/** The content API route (`GET` and `POST` on the content collection).
    The hosted table service, the direct SQL connection and the clock are
    parameters: each backend call is an oracle that either throws, reports
    an error, or returns rows. The local JSON file is a `FileStore` object. */
module ContentRoute {
  import opened Values
  import opened Text

  // ---------------------------------------------------------------------
  // Backends and responses

  /** One query against the hosted table service: the call itself threw,
      it returned an error object, or it returned (possibly no) rows. */
  datatype QueryResult = Threw | Failed(message: string) | Returned(rows: seq<Row>)

  /** One statement on the direct SQL connection (a missing `rows` reads as `[]`). */
  datatype SqlResult = SqlThrew | SqlRows(rows: seq<Row>)

  /** One insert into the hosted `contents` table; a successful insert
      carries the returned row, or None when `data` is null. */
  datatype InsertResult = InsertThrew | InsertError(code: string, message: string) | Inserted(data: Option<Row>)

  /** What the route sees of its environment: whether a hosted client was
      constructed, whether the direct connection string is set, and how
      each backend answers. */
  datatype Env = Env(
    hostedClient: bool,
    directDb: bool,
    query: string -> QueryResult,
    dbRead: SqlResult,
    sqlInsert: seq<Val> -> SqlResult,
    hostedInsert: Row -> InsertResult)

  /** The clock readings POST takes: the SQL `now`, and the three separate
      `Date.now()`/`new Date()` calls of the local branch. */
  datatype Clock = Clock(now: Val, idStamp: string, isoStamp: string, underscoreIdStamp: string)

  /** A response body: normalised records, the stored list as it is, one
      record, or an error object. */
  datatype Body = Contents(items: seq<Content>) | Rows(rows: seq<Row>) | Record(record: Row) | ErrorBody(error: string)
  datatype Response = Response(status: int, body: Body)

  /** A record in the canonical camelCase shape: exactly these nine fields. */
  datatype Content = Content(
    id: Val, title: Val, description: Val, contentType: Val, image: Val,
    externalUrl: Val, platform: Val, createdAt: Val, updatedAt: Val)

  /** The nine fields of the canonical shape. */
  const ContentFields: set<string> :=
    {"id", "title", "description", "contentType", "image", "externalUrl", "platform", "createdAt", "updatedAt"}

  /** A normalised record as the response carries it: the nine mapped fields
      through `JSON.stringify`, so a field whose value is undefined is left
      out. Only `id` and `title` can be undefined in a settled record. It
      never has an `_id`: only records of the local file carry one. */
  function ContentJson(c: Content): (row: Row)
    ensures row.Keys <= ContentFields
    ensures "_id" !in row
    ensures "id" in row <==> !c.id.Undefined?
    ensures "title" in row <==> !c.title.Undefined?
    ensures Settled(c) ==> ContentFields - {"id", "title"} <= row.Keys
    ensures Field(row, "id") == c.id && Field(row, "title") == c.title
    ensures Field(row, "description") == c.description && Field(row, "image") == c.image
    ensures Field(row, "contentType") == c.contentType && Field(row, "externalUrl") == c.externalUrl
    ensures Field(row, "platform") == c.platform
    ensures Field(row, "createdAt") == c.createdAt && Field(row, "updatedAt") == c.updatedAt
  {
    var mapped := map["id" := c.id, "title" := c.title, "description" := c.description,
        "contentType" := c.contentType, "image" := c.image, "externalUrl" := c.externalUrl,
        "platform" := c.platform, "createdAt" := c.createdAt, "updatedAt" := c.updatedAt];
    assert mapped.Keys == ContentFields;
    Serialize(mapped)
  }

  /** The backend whose answer the route returns. */
  datatype Source = Hosted | Sql | Local

  // ---------------------------------------------------------------------
  // Local file store

  /** The JSON file holding the whole collection. `file` is None when the
      file is missing or does not parse. */
  class FileStore {
    var file: Option<seq<Row>>

    constructor (initial: Option<seq<Row>>)
      ensures file == initial
    {
      file := initial;
    }

    /** `readContents()`: the stored list, or `[]` when there is none. */
    function Read(): (items: seq<Row>)
      reads this
      ensures file.None? ==> items == []
      ensures file.Some? ==> items == file.value
    {
      if file.Some? then file.value else []
    }

    /** A `writeContents` that fails. `fs.writeFile` truncates the file
        before writing, so what remains (`left`) may be the old list, an
        empty or partial file (None: it no longer parses), or the new list. */
    method FailWrite(left: Option<seq<Row>>)
      modifies this
      ensures file == left
    {
      file := left;
    }

    /** `writeContents(items)`: the whole file is overwritten. */
    method Write(items: seq<Row>)
      modifies this
      ensures file == Some(items)
      ensures Read() == items
    {
      file := Some(items);
    }
  }

  // ---------------------------------------------------------------------
  // GET: probing the hosted table names

  const TableNames: seq<string> := ["contents", "Contents", "content", "Content"]

  /** How probing ended: rows found, every candidate erred or was empty,
      or a call threw (which leaves the loop through the enclosing catch). */
  datatype Probe = Found(rows: seq<Row>) | NoneFound | Aborted

  /** A candidate the loop moves past: it reported an error or had no rows. */
  predicate Skipped(r: QueryResult) {
    r.Failed? || (r.Returned? && r.rows == [])
  }

  /** The outcome of probing `names` in order. */
  function ProbeTables(query: string -> QueryResult, names: seq<string>): (p: Probe)
    ensures p.Found? ==> p.rows != []
  {
    if names == [] then NoneFound
    else match query(names[0])
      case Threw => Aborted
      case Failed(_) => ProbeTables(query, names[1..])
      case Returned(rows) => if rows != [] then Found(rows) else ProbeTables(query, names[1..])
  }

  /** The candidate names actually queried, in order. */
  function Attempted(query: string -> QueryResult, names: seq<string>): (tried: seq<string>)
    ensures tried <= names
    ensures names != [] ==> tried != []
  {
    if names == [] then []
    else if Skipped(query(names[0])) then [names[0]] + Attempted(query, names[1..])
    else [names[0]]
  }

  /** Probing finds rows exactly when some candidate returned rows and every
      earlier candidate was skipped; those rows are the ones returned. */
  lemma {:induction false} ProbeFindsFirst(query: string -> QueryResult, names: seq<string>, rows: seq<Row>)
    ensures ProbeTables(query, names) == Found(rows) <==>
      exists i :: 0 <= i < |names| && query(names[i]) == Returned(rows) && rows != [] &&
        forall j :: 0 <= j < i ==> Skipped(query(names[j]))
  {
    if names != [] {
      ProbeFindsFirst(query, names[1..], rows);
      if ProbeTables(query, names) == Found(rows) && !(query(names[0]) == Returned(rows)) {
        var i :| 0 <= i < |names[1..]| && query(names[1..][i]) == Returned(rows) && rows != [] &&
          forall j :: 0 <= j < i ==> Skipped(query(names[1..][j]));
        assert query(names[i + 1]) == Returned(rows);
        forall j | 0 <= j < i + 1 ensures Skipped(query(names[j])) {
          if j > 0 { assert names[j] == names[1..][j - 1]; }
        }
      }
      if exists i :: 0 <= i < |names| && query(names[i]) == Returned(rows) && rows != [] &&
          forall j :: 0 <= j < i ==> Skipped(query(names[j])) {
        var i :| 0 <= i < |names| && query(names[i]) == Returned(rows) && rows != [] &&
          forall j :: 0 <= j < i ==> Skipped(query(names[j]));
        if i > 0 {
          assert Skipped(query(names[0]));
          assert query(names[1..][i - 1]) == Returned(rows);
          assert forall j :: 0 <= j < i - 1 ==> Skipped(query(names[1..][j])) by {
            forall j | 0 <= j < i - 1 ensures Skipped(query(names[1..][j])) {
              assert names[1..][j] == names[j + 1];
            }
          }
        }
      }
    }
  }

  /** An error result never stops probing: when every candidate erred or was
      empty, probing ends with nothing found, having queried every name. */
  lemma {:induction false} ProbeSkipsErrors(query: string -> QueryResult, names: seq<string>)
    requires forall j :: 0 <= j < |names| ==> Skipped(query(names[j]))
    ensures ProbeTables(query, names) == NoneFound
    ensures Attempted(query, names) == names
  {
    if names != [] {
      assert forall j :: 0 <= j < |names[1..]| ==> names[1..][j] == names[j + 1];
      ProbeSkipsErrors(query, names[1..]);
    }
  }

  /** Querying stops at the first candidate that is not skipped: the names
      queried are exactly the candidates up to and including it. */
  lemma {:induction false} AttemptedStops(query: string -> QueryResult, names: seq<string>, i: nat)
    requires i < |names| && !Skipped(query(names[i]))
    requires forall j :: 0 <= j < i ==> Skipped(query(names[j]))
    ensures Attempted(query, names) == names[..i + 1]
  {
    if i > 0 {
      assert Skipped(query(names[0]));
      forall j | 0 <= j < i - 1 ensures Skipped(query(names[1..][j])) {
        assert names[1..][j] == names[j + 1];
      }
      AttemptedStops(query, names[1..], i - 1);
      assert names[..i + 1] == [names[0]] + names[1..][..i];
    }
  }

  /** The probing loop: try each name in order and stop at the first that
      returns rows without an error. */
  method ProbeEach(query: string -> QueryResult, names: seq<string>) returns (outcome: Probe, tried: seq<string>)
    ensures outcome == ProbeTables(query, names)
    ensures tried == Attempted(query, names)
  {
    tried := [];
    var k := 0;
    while k < |names|
      invariant 0 <= k <= |names|
      invariant tried == names[..k]
      invariant ProbeTables(query, names) == ProbeTables(query, names[k..])
      invariant Attempted(query, names) == tried + Attempted(query, names[k..])
    {
      var name := names[k];
      tried := tried + [name];
      var result := query(name);
      ghost var rest := names[k..];
      assert rest[0] == name && rest[1..] == names[k + 1..];
      if result.Threw? {
        return Aborted, tried;
      } else if result.Returned? && result.rows != [] {
        return Found(result.rows), tried;
      }
      assert names[..k + 1] == names[..k] + [name];
      k := k + 1;
    }
    outcome := NoneFound;
  }

  /** The loop run over the four candidate table names. */
  method ProbeHostedTables(query: string -> QueryResult) returns (outcome: Probe, tried: seq<string>)
    ensures outcome == ProbeTables(query, TableNames)
    ensures tried == Attempted(query, TableNames)
  {
    outcome, tried := ProbeEach(query, TableNames);
  }

  // ---------------------------------------------------------------------
  // GET: normalising rows to the canonical shape

  /** Every field except `id` and `title` ends its chain with `?? null`, so
      none of them is undefined. */
  predicate Settled(c: Content) {
    !c.description.Undefined? && !c.contentType.Undefined? && !c.image.Undefined? &&
    !c.externalUrl.Undefined? && !c.platform.Undefined? && !c.createdAt.Undefined? && !c.updatedAt.Undefined?
  }

  /** A hosted-table row in camelCase; each field takes the first of its
      spellings that is neither null nor undefined, else null. */
  function NormalizeHosted(item: Row): (r: Content)
    ensures Settled(r)
    ensures r.id == Field(item, "id") && r.title == Field(item, "title")
    ensures Present(Field(item, "description")) ==> r.description == Field(item, "description")
    ensures !Present(Field(item, "description")) && Present(Field(item, "text")) ==> r.description == Field(item, "text")
    ensures Present(Field(item, "contentType")) ==> r.contentType == Field(item, "contentType")
    ensures !Present(Field(item, "contentType")) ==> r.contentType == Coalesce([Field(item, "contenttype")])
    ensures Present(Field(item, "externalUrl")) ==> r.externalUrl == Field(item, "externalUrl")
    ensures !Present(Field(item, "externalUrl")) ==> r.externalUrl == Coalesce([Field(item, "externalurl")])
    ensures Present(Field(item, "createdAt")) ==> r.createdAt == Field(item, "createdAt")
    ensures Present(Field(item, "updatedAt")) ==> r.updatedAt == Field(item, "updatedAt")
    ensures r.description == Coalesce([Field(item, "description"), Field(item, "text")])
    ensures r.contentType == Coalesce([Field(item, "contentType"), Field(item, "contenttype")])
    ensures r.image == Coalesce([Field(item, "image")])
    ensures r.externalUrl == Coalesce([Field(item, "externalUrl"), Field(item, "externalurl")])
    ensures r.platform == Coalesce([Field(item, "platform")])
    ensures r.createdAt == Coalesce([Field(item, "createdAt"), Field(item, "createdat"), Field(item, "created_at")])
    ensures r.updatedAt == Coalesce([Field(item, "updatedAt"), Field(item, "updatedat"), Field(item, "updated_at")])
  {
    assert !Present(Field(item, "description")) ==>
      NonePresentBefore([Field(item, "description"), Field(item, "text")], 1);
    Content(
      id := Field(item, "id"),
      title := Field(item, "title"),
      description := Coalesce([Field(item, "description"), Field(item, "text")]),
      contentType := Coalesce([Field(item, "contentType"), Field(item, "contenttype")]),
      image := Coalesce([Field(item, "image")]),
      externalUrl := Coalesce([Field(item, "externalUrl"), Field(item, "externalurl")]),
      platform := Coalesce([Field(item, "platform")]),
      createdAt := Coalesce([Field(item, "createdAt"), Field(item, "createdat"), Field(item, "created_at")]),
      updatedAt := Coalesce([Field(item, "updatedAt"), Field(item, "updatedat"), Field(item, "updated_at")])
    )
  }

  /** A direct-SQL row in camelCase. Only the lowercase `contenttype` and
      `externalurl` columns are read for those two fields. */
  function NormalizeSql(item: Row): (r: Content)
    ensures Settled(r)
    ensures r.id == Field(item, "id") && r.title == Field(item, "title")
    ensures Present(Field(item, "contenttype")) ==> r.contentType == Field(item, "contenttype")
    ensures !Present(Field(item, "contenttype")) ==> r.contentType == Null
    ensures Present(Field(item, "externalurl")) ==> r.externalUrl == Field(item, "externalurl")
    ensures !Present(Field(item, "externalurl")) ==> r.externalUrl == Null
    ensures r.description == Coalesce([Field(item, "description"), Field(item, "text")])
    ensures r.image == Coalesce([Field(item, "image")])
    ensures r.platform == Coalesce([Field(item, "platform")])
    ensures r.createdAt == Coalesce([Field(item, "createdAt")])
    ensures r.updatedAt == Coalesce([Field(item, "updatedAt")])
  {
    Content(
      id := Field(item, "id"),
      title := Field(item, "title"),
      description := Coalesce([Field(item, "description"), Field(item, "text")]),
      contentType := Coalesce([Field(item, "contenttype")]),
      image := Coalesce([Field(item, "image")]),
      externalUrl := Coalesce([Field(item, "externalurl")]),
      platform := Coalesce([Field(item, "platform")]),
      createdAt := Coalesce([Field(item, "createdAt")]),
      updatedAt := Coalesce([Field(item, "updatedAt")])
    )
  }

  /** `rows.map(normalize)`: same length, same order. */
  function NormalizeRows(rows: seq<Row>, normalize: Row -> Content): (r: seq<Content>)
    ensures |r| == |rows|
    ensures forall i :: 0 <= i < |rows| ==> r[i] == normalize(rows[i])
  {
    seq(|rows|, i requires 0 <= i < |rows| => normalize(rows[i]))
  }

  /** Every column name the hosted normalisation consults. */
  const HostedColumns: set<string> :=
    {"id", "title", "description", "text", "contentType", "contenttype", "image", "externalUrl", "externalurl",
     "platform", "createdAt", "createdat", "created_at", "updatedAt", "updatedat", "updated_at"}

  /** Every column name the SQL normalisation consults. */
  const SqlColumns: set<string> :=
    {"id", "title", "description", "text", "contenttype", "image", "externalurl", "platform", "createdAt", "updatedAt"}

  /** Columns the hosted normalisation does not consult are dropped: two
      rows that agree on the consulted columns normalise alike. */
  lemma NormalizeHostedReadsOnly(a: Row, b: Row)
    requires forall c :: c in HostedColumns ==> Field(a, c) == Field(b, c)
    ensures NormalizeHosted(a) == NormalizeHosted(b)
  {
  }

  /** The SQL normalisation ignores camelCase `contentType`/`externalUrl`
      columns and every column not in SqlColumns. */
  lemma NormalizeSqlReadsOnly(a: Row, b: Row)
    requires forall c :: c in SqlColumns ==> Field(a, c) == Field(b, c)
    ensures NormalizeSql(a) == NormalizeSql(b)
  {
  }

  // ---------------------------------------------------------------------
  // GET: source precedence

  /** The backend that answers a GET. */
  function ReadSource(env: Env): (s: Source)
    ensures s == Hosted <==> env.hostedClient && ProbeTables(env.query, TableNames).Found?
    ensures s == Sql ==> env.directDb && env.dbRead.SqlRows? && env.dbRead.rows != []
    ensures s == Local ==> !env.directDb || env.dbRead.SqlThrew? || env.dbRead.rows == []
  {
    if env.hostedClient && ProbeTables(env.query, TableNames).Found? then Hosted
    else if env.directDb && env.dbRead.SqlRows? && env.dbRead.rows != [] then Sql
    else Local
  }

  /** The response to GET, given the stored list of the local file. */
  function GetResponse(env: Env, stored: seq<Row>): (r: Response)
    ensures r.status == 200
    ensures ReadSource(env) == Hosted ==>
      r.body == Contents(NormalizeRows(ProbeTables(env.query, TableNames).rows, NormalizeHosted))
    ensures ReadSource(env) == Sql ==> r.body == Contents(NormalizeRows(env.dbRead.rows, NormalizeSql))
    ensures ReadSource(env) == Local ==> r.body == Rows(stored)
    ensures r.body.Contents? ==> r.body.items != []
  {
    match ReadSource(env)
    case Hosted => Response(200, Contents(NormalizeRows(ProbeTables(env.query, TableNames).rows, NormalizeHosted)))
    case Sql => Response(200, Contents(NormalizeRows(env.dbRead.rows, NormalizeSql)))
    case Local => Response(200, Rows(stored))
  }

  /** GET /content. */
  method Get(env: Env, store: FileStore) returns (resp: Response, tried: seq<string>)
    ensures resp == GetResponse(env, store.Read())
    ensures tried == if env.hostedClient then Attempted(env.query, TableNames) else []
  {
    tried := [];
    if env.hostedClient {
      var outcome;
      outcome, tried := ProbeHostedTables(env.query);
      if outcome.Found? {
        return Response(200, Contents(NormalizeRows(outcome.rows, NormalizeHosted))), tried;
      }
    }
    if env.directDb {
      match env.dbRead {
        case SqlThrew =>
        case SqlRows(rows) =>
          if rows != [] {
            return Response(200, Contents(NormalizeRows(rows, NormalizeSql))), tried;
          }
      }
    }
    var contents := store.Read();
    resp := Response(200, Rows(contents));
  }

  /** With only the second candidate name holding rows, GET returns those
      rows normalised and never queries the last two names. */
  lemma CapitalContentsScenario(env: Env, rows: seq<Row>, stored: seq<Row>)
    requires env.hostedClient
    requires Skipped(env.query("contents"))
    requires env.query("Contents") == Returned(rows) && rows != []
    ensures GetResponse(env, stored) == Response(200, Contents(NormalizeRows(rows, NormalizeHosted)))
    ensures Attempted(env.query, TableNames) == ["contents", "Contents"]
  {
    assert TableNames[1..] == ["Contents", "content", "Content"];
    assert TableNames[1..][1..] == ["content", "Content"];
  }

  /** When every candidate table errs or is empty and no direct connection
      is set, GET still answers 200 with the local file as stored. */
  lemma AllTablesFailingFallsBackToFile(env: Env, stored: seq<Row>)
    requires forall j :: 0 <= j < |TableNames| ==> Skipped(env.query(TableNames[j]))
    requires !env.directDb
    ensures GetResponse(env, stored) == Response(200, Rows(stored))
  {
    ProbeSkipsErrors(env.query, TableNames);
  }

  // ---------------------------------------------------------------------
  // POST: body mapping and write precedence

  /** The request body mapped to the stored columns (`mappedBody`). */
  datatype Draft = Draft(title: Val, description: Val, contentType: Val, image: Val, externalUrl: Val, platform: Val)

  /** `v || null`. */
  predicate NullIfFalsy(source: Val, v: Val) {
    v == if Truthy(source) then source else Null
  }

  function MapBody(body: Row): (d: Draft)
    ensures d.title == Field(body, "title") && d.contentType == Field(body, "contentType")
    ensures Truthy(Field(body, "text")) ==> d.description == Field(body, "text")
    ensures !Truthy(Field(body, "text")) ==> d.description == Field(body, "description")
    ensures NullIfFalsy(Field(body, "image"), d.image)
    ensures NullIfFalsy(Field(body, "externalUrl"), d.externalUrl)
    ensures NullIfFalsy(Field(body, "platform"), d.platform)
  {
    Draft(
      title := Field(body, "title"),
      description := Or(Field(body, "text"), Field(body, "description")),
      contentType := Field(body, "contentType"),
      image := Or(Field(body, "image"), Null),
      externalUrl := Or(Field(body, "externalUrl"), Null),
      platform := Or(Field(body, "platform"), Null)
    )
  }

  /** The eight parameters of the SQL insert. */
  function InsertValues(d: Draft, now: Val): (vs: seq<Val>)
    ensures |vs| == 8 && vs[6] == vs[7] == now
    ensures vs[..6] == [d.title, d.description, d.contentType, d.image, d.externalUrl, d.platform]
  {
    [d.title, d.description, d.contentType, d.image, d.externalUrl, d.platform, now, now]
  }

  /** `{ ...mappedBody }`: the camelCase row of the first hosted insert. */
  function CamelRow(d: Draft): (row: Row)
    ensures row.Keys == {"title", "description", "contentType", "image", "externalUrl", "platform"}
    ensures row["title"] == d.title && row["description"] == d.description
    ensures row["contentType"] == d.contentType && row["image"] == d.image
    ensures row["externalUrl"] == d.externalUrl && row["platform"] == d.platform
  {
    map["title" := d.title, "description" := d.description, "contentType" := d.contentType,
        "image" := d.image, "externalUrl" := d.externalUrl, "platform" := d.platform]
  }

  /** The lowercase row of the retry. */
  function LowerRow(d: Draft): (row: Row)
    ensures row.Keys == {"title", "description", "contenttype", "image", "externalurl", "platform"}
    ensures "contenttype" in row && row["contenttype"] == d.contentType
    ensures "externalurl" in row && row["externalurl"] == d.externalUrl
    ensures forall k :: k in row && k in CamelRow(d) ==> row[k] == CamelRow(d)[k]
    ensures row["title"] == d.title && row["description"] == d.description
    ensures row["image"] == d.image && row["platform"] == d.platform
  {
    map["title" := d.title, "description" := d.description, "contenttype" := d.contentType,
        "image" := d.image, "externalurl" := d.externalUrl, "platform" := d.platform]
  }

  /** An insert error that names an unknown column. */
  function UnknownColumn(r: InsertResult): (unknown: bool)
    ensures unknown ==> r.InsertError?
    ensures r.InsertError? && r.code == "PGRST204" ==> unknown
    ensures r.InsertError? && IndexOf(r.message, "Could not find").Some? ==> unknown
    ensures r.InsertError? && r.code != "PGRST204" && !Contains(r.message, "Could not find") ==> !unknown
  {
    r.InsertError? && (r.code == "PGRST204" || Contains(r.message, "Could not find"))
  }

  /** The rows sent to the hosted insert, in order. */
  function HostedAttempts(insert: Row -> InsertResult, d: Draft): (attempts: seq<Row>)
    ensures 1 <= |attempts| <= 2 && attempts[0] == CamelRow(d)
    ensures |attempts| == 2 <==> UnknownColumn(insert(CamelRow(d)))
    ensures |attempts| == 2 ==> attempts[1] == LowerRow(d)
  {
    if UnknownColumn(insert(CamelRow(d))) then [CamelRow(d), LowerRow(d)] else [CamelRow(d)]
  }

  /** The camelCase insert, retried once with lowercase keys on an
      unknown-column error. */
  method InsertHosted(insert: Row -> InsertResult, d: Draft) returns (res: InsertResult, attempts: seq<Row>)
    ensures attempts == HostedAttempts(insert, d)
    ensures res == insert(attempts[|attempts| - 1])
  {
    var camel := CamelRow(d);
    attempts := [camel];
    res := insert(camel);
    if res.InsertError? {
      if res.code == "PGRST204" || Contains(res.message, "Could not find") {
        var lower := LowerRow(d);
        attempts := attempts + [lower];
        res := insert(lower);
      }
    }
  }

  /** `{...out, k: e, ...}`: the row returned by a backend with the entries
      of `extra` written over its own columns. */
  function Overlay(out: Row, extra: Row): (r: Row)
    ensures r.Keys == out.Keys + extra.Keys
    ensures forall k :: k in extra ==> r[k] == extra[k]
    ensures forall k :: k in out && k !in extra ==> r[k] == out[k]
  {
    out + extra
  }

  /** The columns a write response restates in camelCase. */
  const ResponseColumns: set<string> := {"contentType", "externalUrl", "createdAt", "updatedAt"}

  /** The inserted SQL row with camelCase fields taken from its lowercase
      columns; every other column is passed through. */
  function SqlInsertResponse(out: Row): (r: Row)
    ensures r.Keys == out.Keys + ResponseColumns
    ensures forall k :: k in out && k !in ResponseColumns ==> r[k] == out[k]
    ensures "contentType" in r && r["contentType"] == (if Present(Field(out, "contenttype")) then Field(out, "contenttype") else Null)
    ensures "externalUrl" in r && r["externalUrl"] == (if Present(Field(out, "externalurl")) then Field(out, "externalurl") else Null)
    ensures "createdAt" in r && r["createdAt"] == (if Present(Field(out, "createdAt")) then Field(out, "createdAt") else Null)
    ensures "updatedAt" in r && r["updatedAt"] == (if Present(Field(out, "updatedAt")) then Field(out, "updatedAt") else Null)
  {
    Overlay(out, map[
      "contentType" := Coalesce([Field(out, "contenttype")]),
      "externalUrl" := Coalesce([Field(out, "externalurl")]),
      "createdAt" := Coalesce([Field(out, "createdAt")]),
      "updatedAt" := Coalesce([Field(out, "updatedAt")])
    ])
  }

  /** The inserted hosted row with each camelCase field taken from either
      spelling, camelCase first; every other column is passed through. */
  function HostedInsertResponse(out: Row): (r: Row)
    ensures r.Keys == out.Keys + ResponseColumns
    ensures forall k :: k in out && k !in ResponseColumns ==> r[k] == out[k]
    ensures "contentType" in r
    ensures Present(Field(out, "contentType")) ==> r["contentType"] == Field(out, "contentType")
    ensures !Present(Field(out, "contentType")) ==>
      r["contentType"] == (if Present(Field(out, "contenttype")) then Field(out, "contenttype") else Null)
    ensures r["externalUrl"] == Coalesce([Field(out, "externalUrl"), Field(out, "externalurl")])
    ensures r["createdAt"] == Coalesce([Field(out, "createdAt"), Field(out, "createdat")])
    ensures r["updatedAt"] == Coalesce([Field(out, "updatedAt"), Field(out, "updatedat")])
  {
    assert !Present(Field(out, "contentType")) ==>
      NonePresentBefore([Field(out, "contentType"), Field(out, "contenttype")], 1);
    Overlay(out, map[
      "contentType" := Coalesce([Field(out, "contentType"), Field(out, "contenttype")]),
      "externalUrl" := Coalesce([Field(out, "externalUrl"), Field(out, "externalurl")]),
      "createdAt" := Coalesce([Field(out, "createdAt"), Field(out, "createdat")]),
      "updatedAt" := Coalesce([Field(out, "updatedAt"), Field(out, "updatedat")])
    ])
  }

  /** The record appended to the local file. */
  function NewLocalItem(d: Draft, clock: Clock): (item: Row)
    ensures item.Keys == CamelRow(d).Keys + {"id", "createdAt", "_id", "text"}
    ensures "updatedAt" !in item
    ensures "text" in item && "description" in item && item["text"] == item["description"] == d.description
    ensures "id" in item && item["id"] == Str(clock.idStamp)
    ensures "_id" in item && item["_id"] == Str(clock.underscoreIdStamp)
    ensures "createdAt" in item && item["createdAt"] == Str(clock.isoStamp)
    ensures forall k :: k in CamelRow(d) ==> item[k] == CamelRow(d)[k]
    ensures item["title"] == d.title && item["contentType"] == d.contentType
    ensures item["image"] == d.image && item["externalUrl"] == d.externalUrl
    ensures item["platform"] == d.platform
  {
    CamelRow(d) + map[
      "id" := Str(clock.idStamp),
      "createdAt" := Str(clock.isoStamp),
      "_id" := Str(clock.underscoreIdStamp),
      "text" := d.description
    ]
  }

  /** The direct connection is set and its insert returned a row. */
  predicate SqlAccepts(env: Env, d: Draft, now: Val) {
    var res := env.sqlInsert(InsertValues(d, now));
    env.directDb && res.SqlRows? && res.rows != []
  }

  /** The hosted client exists and its (possibly retried) insert succeeded
      with a row. A null `data` makes the response's field reads throw
      inside the hosted `try`, so POST falls back to the file. */
  predicate HostedAccepts(env: Env, d: Draft) {
    var attempts := HostedAttempts(env.hostedInsert, d);
    var res := env.hostedInsert(attempts[|attempts| - 1]);
    env.hostedClient && res.Inserted? && res.data.Some?
  }

  /** The backend that accepts a POST: SQL, then hosted, then the local file. */
  function WriteSource(env: Env, d: Draft, now: Val): (s: Source)
    ensures s == Sql <==> SqlAccepts(env, d, now)
    ensures s == Hosted <==> !SqlAccepts(env, d, now) && HostedAccepts(env, d)
    ensures s == Local <==> !SqlAccepts(env, d, now) && !HostedAccepts(env, d)
  {
    if SqlAccepts(env, d, now) then Sql
    else if HostedAccepts(env, d) then Hosted
    else Local
  }

  /** How the local file write ends: it succeeds, or it fails and leaves
      the file as `left`. */
  datatype WriteResult = WriteOk | WriteFailed(left: Option<seq<Row>>)

  /** What a POST does to the local file. */
  datatype FileEffect = Untouched | Replaced(contents: Option<seq<Row>>)

  /** What a POST answers and what it does to the local file. */
  datatype PostResult = PostResult(response: Response, file: FileEffect)

  function PostOutcome(env: Env, body: Row, clock: Clock, stored: seq<Row>, write: WriteResult): (r: PostResult)
    ensures var d := MapBody(body); WriteSource(env, d, clock.now) != Local ==>
      r.file == Untouched && r.response.status == 201
    ensures var d := MapBody(body); WriteSource(env, d, clock.now) == Sql ==>
      r.response.body == Record(Serialize(SqlInsertResponse(env.sqlInsert(InsertValues(d, clock.now)).rows[0])))
    ensures var d := MapBody(body); WriteSource(env, d, clock.now) == Hosted ==>
      var attempts := HostedAttempts(env.hostedInsert, d);
      r.response.body == Record(Serialize(HostedInsertResponse(env.hostedInsert(attempts[|attempts| - 1]).data.value)))
    ensures var d := MapBody(body);
      WriteSource(env, d, clock.now) == Local && write == WriteOk ==>
        r.response == Response(201, Record(Serialize(NewLocalItem(d, clock)))) &&
        r.file == Replaced(Some(stored + [Serialize(NewLocalItem(d, clock))]))
    ensures var d := MapBody(body);
      WriteSource(env, d, clock.now) == Local && write.WriteFailed? ==>
        r.response.status == 500 && r.file == Replaced(write.left)
    ensures write == WriteOk && r.file.Replaced? ==>
      r.file.contents.Some? && |r.file.contents.value| == |stored| + 1 &&
      r.file.contents.value[..|stored|] == stored
  {
    var d := MapBody(body);
    match WriteSource(env, d, clock.now)
    case Sql =>
      PostResult(Response(201, Record(Serialize(SqlInsertResponse(env.sqlInsert(InsertValues(d, clock.now)).rows[0])))), Untouched)
    case Hosted =>
      var attempts := HostedAttempts(env.hostedInsert, d);
      PostResult(Response(201, Record(Serialize(HostedInsertResponse(env.hostedInsert(attempts[|attempts| - 1]).data.value)))), Untouched)
    case Local =>
      var item := Serialize(NewLocalItem(d, clock));
      match write
      case WriteFailed(left) => PostResult(Response(500, ErrorBody("Failed to create content")), Replaced(left))
      case WriteOk =>
        assert (stored + [item])[..|stored|] == stored;
        PostResult(Response(201, Record(item)), Replaced(Some(stored + [item])))
  }

  /** POST /content. `write` stands for how the file write ends; a failing
      write is the one failure that reaches the 500 answer. */
  method Post(env: Env, body: Row, clock: Clock, store: FileStore, write: WriteResult) returns (resp: Response)
    modifies store
    ensures var o := PostOutcome(env, body, clock, old(store.Read()), write);
      resp == o.response &&
      (if o.file.Replaced? then store.file == o.file.contents else store.file == old(store.file))
  {
    var d := MapBody(body);
    if env.directDb {
      var res := env.sqlInsert(InsertValues(d, clock.now));
      match res {
        case SqlThrew =>
        case SqlRows(rows) =>
          if rows != [] {
            return Response(201, Record(Serialize(SqlInsertResponse(rows[0]))));
          }
      }
    }
    if env.hostedClient {
      var res, attempts := InsertHosted(env.hostedInsert, d);
      if res.Inserted? && res.data.Some? {
        return Response(201, Record(Serialize(HostedInsertResponse(res.data.value))));
      }
    }
    assert WriteSource(env, d, clock.now) == Local;
    var contents := store.Read();
    var item := Serialize(NewLocalItem(d, clock));
    contents := contents + [item];
    if write.WriteFailed? {
      store.FailWrite(write.left);
      return Response(500, ErrorBody("Failed to create content"));
    }
    store.Write(contents);
    resp := Response(201, Record(item));
  }
}
