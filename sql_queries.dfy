/** The schema registry: the seven table specifications of the warehouse
    (two staging tables loaded from object storage, five star-schema tables
    filled by SELECT queries) and the four statement lists derived from it. */
module SqlQueries {
  import opened Wrappers
  import opened Text
  import opened CreateSql

  /** One registry entry. The source writes each entry as a dictionary whose
      optional keys (`pkeys`, `source`, `json_path`, `query`) may be absent;
      an absent key is `None` here. */
  datatype TableSpec = TableSpec(
    name: string,
    columns: seq<Column>,
    pkeys: Option<seq<string>>,
    source: Option<string>,
    jsonPath: Option<string>,
    query: Option<string>)

  /** Configuration values the registry reads, already trimmed of their
      surrounding quote characters: the two storage locations, the field
      mapping file of the event logs, and the credential used by COPY. */
  datatype Config = Config(logData: string, logJsonPath: string, songData: string, iamRole: string)

  /** Looking up a dictionary key that is not there. */
  datatype LookupError = KeyError(key: string)

  /** Name prefix that marks a table as a staging table. */
  const StagingPrefix := "staging_"

  /** Staging tables receive COPY; all other tables receive INSERT. */
  predicate IsStaging(t: TableSpec) {
    StartsWith(t.name, StagingPrefix)
  }

  // The five populating queries, kept as opaque text.

  const QueryUsers := "\nSELECT\n  e.userId AS user_id,\n  e.firstName AS first_name,\n  e.lastName AS last_name,\n  e.gender AS gender,\n  e.level AS level\nFROM staging_events AS e\nINNER JOIN (SELECT userId AS user_id, MAX(ts) AS latest_ts\n            FROM staging_events\n            WHERE userId IS NOT NULL\n            GROUP BY 1) AS last_update\n            ON last_update.user_id = e.userId\n            AND last_update.latest_ts = e.ts"

  const QuerySongs := "\nSELECT\n  song_id,\n  MAX(title) AS title,\n  MAX(artist_id) AS artist_id,\n  MAX(year) AS year,\n  MAX(duration) AS duration\nFROM staging_songs\nWHERE song_id IS NOT NULL\nGROUP BY song_id"

  const QueryArtists := "\nSELECT\n  artist_id,\n  MIN(artist_name) AS name,\n  MAX(artist_location) AS location,\n  MAX(artist_latitude) AS latitude,\n  MAX(artist_longitude) AS longitude\nFROM staging_songs\nWHERE artist_id IS NOT NULL\nGROUP BY artist_id"

  const QueryTime := "\nSELECT\n  e.t AS start_time,\n  EXTRACT(HOUR FROM e.t) AS hour,\n  EXTRACT(DAY FROM e.t) AS day,\n  EXTRACT(WEEK FROM e.t) AS week,\n  EXTRACT(MONTH FROM e.t) AS month,\n  EXTRACT(YEAR FROM e.t) AS year,\n  EXTRACT(WEEKDAY FROM e.t) AS weekday\nFROM (SELECT DISTINCT TIMESTAMP 'EPOCH' + ts/1000 * INTERVAL '1 SECOND' AS t\n      FROM staging_events\n      WHERE ts IS NOT NULL AND page = 'NextSong') AS e"

  const QuerySongplays := "\nSELECT\n  TIMESTAMP 'EPOCH' + e.ts/1000 * INTERVAL '1 SECOND' AS start_time,\n  e.userId AS user_id,\n  e.level,\n  s.song_id,\n  s.artist_id,\n  e.sessionId AS session_id,\n  e.location,\n  e.userAgent AS user_agent\nFROM staging_events AS e\nINNER JOIN staging_songs AS s\n   ON (s.title = e.song AND s.artist_name = e.artist)\nWHERE e.page = 'NextSong'\n  AND e.userId IS NOT NULL\n  AND e.ts IS NOT NULL"

  // The seven registry entries, in registry order. Each staging entry has a
  // source and no keys; each other entry has a query and, as its primary
  // key, its first column.

  function StagingEvents(cfg: Config): (t: TableSpec)
    ensures t.name == "staging_events" && |t.columns| == 18
    ensures t.pkeys.None? && t.query.None?
    ensures t.source == Some(cfg.logData) && t.jsonPath == Some(cfg.logJsonPath)
  {
    TableSpec("staging_events",
      [ MakeColumn("artist", "VARCHAR"),
        MakeColumn("auth", "VARCHAR"),
        MakeColumn("firstName", "VARCHAR"),
        MakeColumn("gender", "CHAR(1)"),
        MakeColumn("itemInSession", "SMALLINT"),
        MakeColumn("lastName", "VARCHAR"),
        MakeColumn("length", "DOUBLE PRECISION"),
        MakeColumn("level", "CHAR(4)"),
        MakeColumn("location", "VARCHAR"),
        MakeColumn("method", "VARCHAR(6)"),
        MakeColumn("page", "VARCHAR"),
        MakeColumn("registration", "INT8"),
        MakeColumn("sessionId", "INT4"),
        MakeColumn("song", "VARCHAR"),
        MakeColumn("status", "INT2"),
        MakeColumn("ts", "INT8"),
        MakeColumn("userAgent", "VARCHAR"),
        MakeColumn("userId", "INT4") ],
      None, Some(cfg.logData), Some(cfg.logJsonPath), None)
  }

  function StagingSongs(cfg: Config): (t: TableSpec)
    ensures t.name == "staging_songs" && |t.columns| == 10
    ensures t.pkeys.None? && t.query.None?
    ensures t.source == Some(cfg.songData) && t.jsonPath.None?
  {
    TableSpec("staging_songs",
      [ MakeColumn("num_songs", "INT2"),
        MakeColumn("artist_id", "VARCHAR(64)"),
        MakeColumn("artist_latitude", "DOUBLE PRECISION"),
        MakeColumn("artist_longitude", "DOUBLE PRECISION"),
        MakeColumn("artist_location", "VARCHAR"),
        MakeColumn("artist_name", "VARCHAR"),
        MakeColumn("song_id", "VARCHAR(64)"),
        MakeColumn("title", "VARCHAR"),
        MakeColumn("duration", "DOUBLE PRECISION"),
        MakeColumn("year", "INT2") ],
      None, Some(cfg.songData), None, None)
  }

  function Users(): (t: TableSpec)
    ensures t.name == "users" && |t.columns| == 5
    ensures t.pkeys == Some([t.columns[0].name])
    ensures t.source.None? && t.jsonPath.None? && t.query == Some(QueryUsers)
  {
    TableSpec("users",
      [ MakeColumn("user_id", "INT4"),
        MakeColumn("first_name", "VARCHAR"),
        MakeColumn("last_name", "VARCHAR"),
        MakeColumn("gender", "CHAR(1)"),
        MakeColumn("level", "CHAR(4)") ],
      Some(["user_id"]), None, None, Some(QueryUsers))
  }

  function Songs(): (t: TableSpec)
    ensures t.name == "songs" && |t.columns| == 5
    ensures t.pkeys == Some([t.columns[0].name])
    ensures t.source.None? && t.jsonPath.None? && t.query == Some(QuerySongs)
  {
    TableSpec("songs",
      [ MakeColumn("song_id", "VARCHAR(64)"),
        MakeColumn("title", "VARCHAR"),
        MakeColumn("artist_id", "VARCHAR(64)"),
        MakeColumn("year", "INT2"),
        MakeColumn("duration", "DOUBLE PRECISION") ],
      Some(["song_id"]), None, None, Some(QuerySongs))
  }

  function Artists(): (t: TableSpec)
    ensures t.name == "artists" && |t.columns| == 5
    ensures t.pkeys == Some([t.columns[0].name])
    ensures t.source.None? && t.jsonPath.None? && t.query == Some(QueryArtists)
  {
    TableSpec("artists",
      [ MakeColumn("artist_id", "VARCHAR(64)"),
        MakeColumn("name", "VARCHAR"),
        MakeColumn("location", "VARCHAR"),
        MakeColumn("latitude", "DOUBLE PRECISION"),
        MakeColumn("longitude", "DOUBLE PRECISION") ],
      Some(["artist_id"]), None, None, Some(QueryArtists))
  }

  function Time(): (t: TableSpec)
    ensures t.name == "time" && |t.columns| == 7
    ensures t.pkeys == Some([t.columns[0].name])
    ensures t.source.None? && t.jsonPath.None? && t.query == Some(QueryTime)
  {
    TableSpec("time",
      [ MakeColumn("start_time", "TIMESTAMP"),
        Column("hour", "INT2", "NOT NULL"),
        Column("day", "INT2", "NOT NULL"),
        Column("week", "INT2", "NOT NULL"),
        Column("month", "INT2", "NOT NULL"),
        Column("year", "INT2", "NOT NULL"),
        Column("weekday", "INT2", "NOT NULL") ],
      Some(["start_time"]), None, None, Some(QueryTime))
  }

  function Songplays(): (t: TableSpec)
    ensures t.name == "songplays" && |t.columns| == 9
    ensures t.pkeys == Some([t.columns[0].name])
    ensures t.source.None? && t.jsonPath.None? && t.query == Some(QuerySongplays)
  {
    TableSpec("songplays",
      [ Column("songplay_id", "INT4", "IDENTITY(0, 1)"),
        Column("start_time", "TIMESTAMP", "NOT NULL"),
        Column("user_id", "INT4", "NOT NULL"),
        MakeColumn("level", "CHAR(4)"),
        MakeColumn("song_id", "VARCHAR(64)"),
        MakeColumn("artist_id", "VARCHAR(64)"),
        MakeColumn("session_id", "INT4"),
        MakeColumn("location", "VARCHAR"),
        MakeColumn("user_agent", "VARCHAR") ],
      Some(["songplay_id"]), None, None, Some(QuerySongplays))
  }

  /** The registry, in declaration order. */
  function Tables(cfg: Config): (r: seq<TableSpec>)
    ensures |r| == 7
    ensures r[0].name == "staging_events" && r[1].name == "staging_songs"
    ensures r[2].name == "users" && r[3].name == "songs" && r[4].name == "artists"
    ensures r[5].name == "time" && r[6].name == "songplays"
  {
    [StagingEvents(cfg), StagingSongs(cfg), Users(), Songs(), Artists(), Time(), Songplays()]
  }

  /** The staging entries of `ts`, in order. */
  function StagingTables(ts: seq<TableSpec>): (r: seq<TableSpec>)
    ensures |r| <= |ts|
    ensures forall i :: 0 <= i < |r| ==> IsStaging(r[i])
  {
    if |ts| == 0 then [] else (if IsStaging(ts[0]) then [ts[0]] else []) + StagingTables(ts[1..])
  }

  /** The non-staging entries of `ts`, in order. */
  function DerivedTables(ts: seq<TableSpec>): (r: seq<TableSpec>)
    ensures |r| <= |ts|
    ensures forall i :: 0 <= i < |r| ==> !IsStaging(r[i])
  {
    if |ts| == 0 then [] else (if IsStaging(ts[0]) then [] else [ts[0]]) + DerivedTables(ts[1..])
  }

  /** The staging list holds exactly the staging entries of `ts`, the
      derived list exactly the others. */
  lemma {:induction false} FilterMembers(ts: seq<TableSpec>)
    ensures forall t :: t in StagingTables(ts) <==> t in ts && IsStaging(t)
    ensures forall t :: t in DerivedTables(ts) <==> t in ts && !IsStaging(t)
  {
    if |ts| > 0 {
      FilterMembers(ts[1..]);
      assert ts == [ts[0]] + ts[1..];
    }
  }

  /** Every entry is in exactly one of the two filtered lists. */
  lemma {:induction false} StagingAndDerivedPartition(ts: seq<TableSpec>)
    ensures multiset(StagingTables(ts)) + multiset(DerivedTables(ts)) == multiset(ts)
    ensures |StagingTables(ts)| + |DerivedTables(ts)| == |ts|
  {
    if |ts| > 0 {
      StagingAndDerivedPartition(ts[1..]);
      assert ts == [ts[0]] + ts[1..];
    }
  }

  /** One DROP statement per entry, in registry order. */
  function DropTableQueries(ts: seq<TableSpec>): (r: seq<string>)
    ensures |r| == |ts|
    ensures forall i :: 0 <= i < |ts| ==> r[i] == Drop(ts[i].name)
  {
    if |ts| == 0 then [] else [Drop(ts[0].name)] + DropTableQueries(ts[1..])
  }

  /** One CREATE statement per entry, in registry order, each with the
      entry's primary keys or none when the entry declares none. */
  function CreateTableQueries(ts: seq<TableSpec>): (r: seq<string>)
    ensures |r| == |ts|
    ensures forall i :: 0 <= i < |ts| ==> r[i] == Create(ts[i].name, ts[i].columns, ts[i].pkeys)
  {
    if |ts| == 0 then [] else [Create(ts[0].name, ts[0].columns, ts[0].pkeys)] + CreateTableQueries(ts[1..])
  }

  /** The COPY statement of one staging entry, with the default region. */
  function CopyFor(t: TableSpec, iamRole: string): string
    requires t.source.Some?
  {
    Copy(t.name, t.source.value, iamRole, t.jsonPath, DefaultRegion)
  }

  /** The COPY statements of entries that all have a source, in order. */
  function CopyAll(ts: seq<TableSpec>, iamRole: string): (r: seq<string>)
    requires forall t :: t in ts ==> t.source.Some?
    ensures |r| == |ts|
    ensures forall i :: 0 <= i < |ts| ==> r[i] == CopyFor(ts[i], iamRole)
  {
    if |ts| == 0 then [] else [CopyFor(ts[0], iamRole)] + CopyAll(ts[1..], iamRole)
  }

  /** One COPY statement per staging entry, in order. Reading the `source`
      of a staging entry that has none raises `KeyError('source')`. */
  function CopyTableQueries(ts: seq<TableSpec>, iamRole: string): (r: Result<seq<string>, LookupError>)
    ensures r.Ok? <==> forall t :: t in StagingTables(ts) ==> t.source.Some?
    ensures r.Err? ==> r.error == KeyError("source")
    ensures r.Ok? ==> r.value == CopyAll(StagingTables(ts), iamRole)
  {
    if |ts| == 0 then Ok([])
    else if !IsStaging(ts[0]) then
      assert StagingTables(ts) == StagingTables(ts[1..]);
      CopyTableQueries(ts[1..], iamRole)
    else
      var staged := StagingTables(ts[1..]);
      assert StagingTables(ts) == [ts[0]] + staged;
      if ts[0].source.None? then Err(KeyError("source"))
      else match CopyTableQueries(ts[1..], iamRole)
           case Err(e) => Err(e)
           case Ok(rest) =>
             assert ([ts[0]] + staged)[1..] == staged;
             Ok([CopyFor(ts[0], iamRole)] + rest)
  }

  /** The INSERT statement of one derived entry. */
  function InsertFor(t: TableSpec): string
    requires t.query.Some?
  {
    Insert(t.name, t.columns, t.query.value)
  }

  /** The INSERT statements of entries that all have a query, in order. */
  function InsertAll(ts: seq<TableSpec>): (r: seq<string>)
    requires forall t :: t in ts ==> t.query.Some?
    ensures |r| == |ts|
    ensures forall i :: 0 <= i < |ts| ==> r[i] == InsertFor(ts[i])
  {
    if |ts| == 0 then [] else [InsertFor(ts[0])] + InsertAll(ts[1..])
  }

  /** One INSERT statement per non-staging entry, in order. Reading the
      `query` of an entry that has none raises `KeyError('query')`. */
  function InsertTableQueries(ts: seq<TableSpec>): (r: Result<seq<string>, LookupError>)
    ensures r.Ok? <==> forall t :: t in DerivedTables(ts) ==> t.query.Some?
    ensures r.Err? ==> r.error == KeyError("query")
    ensures r.Ok? ==> r.value == InsertAll(DerivedTables(ts))
  {
    if |ts| == 0 then Ok([])
    else if IsStaging(ts[0]) then
      assert DerivedTables(ts) == DerivedTables(ts[1..]);
      InsertTableQueries(ts[1..])
    else
      var derived := DerivedTables(ts[1..]);
      assert DerivedTables(ts) == [ts[0]] + derived;
      if ts[0].query.None? then Err(KeyError("query"))
      else match InsertTableQueries(ts[1..])
           case Err(e) => Err(e)
           case Ok(rest) =>
             assert ([ts[0]] + derived)[1..] == derived;
             Ok([InsertFor(ts[0])] + rest)
  }

  /** The keys each entry carries match its role: a staging entry has a
      `source` and no `query`, any other entry a `query` and no `source`. */
  predicate KeysMatchRole(t: TableSpec) {
    if IsStaging(t) then t.source.Some? && t.query.None? else t.query.Some? && t.source.None?
  }

  /** When every entry's keys match its role, neither derived list raises. */
  lemma KeysMatchingRoleNeverRaise(ts: seq<TableSpec>, iamRole: string)
    requires forall t :: t in ts ==> KeysMatchRole(t)
    ensures CopyTableQueries(ts, iamRole).Ok? && InsertTableQueries(ts).Ok?
  {
    FilterMembers(ts);
  }

  /** Every declared primary key names a column of its own table. */
  predicate KeysAreColumns(t: TableSpec) {
    t.pkeys.Some? ==> forall k :: k in t.pkeys.value ==> exists c :: c in t.columns && c.name == k
  }

  /** Classification of the registry: the first two entries are staging
      tables, the other five are not. */
  lemma RegistryRoles(cfg: Config)
    ensures IsStaging(StagingEvents(cfg)) && IsStaging(StagingSongs(cfg))
    ensures !IsStaging(Users()) && !IsStaging(Songs()) && !IsStaging(Artists())
    ensures !IsStaging(Time()) && !IsStaging(Songplays())
  {
    assert "staging_events"[..8] == StagingPrefix;
    assert "staging_songs"[..8] == StagingPrefix;
    assert "songplays"[..8] != StagingPrefix by { assert "songplays"[1] != StagingPrefix[1]; }
  }

  /** Concatenation is associative. */
  lemma AppendAssoc<T>(a: seq<T>, b: seq<T>, c: seq<T>)
    ensures a + (b + c) == (a + b) + c
  {
  }

  /** The empty sequence is a unit of concatenation. */
  lemma AppendEmpty<T>(a: seq<T>, b: seq<T>)
    ensures a + [] == a && [] + b == b
  {
  }

  /** Filtering a concatenation filters each part. */
  lemma {:induction false} FilterAppend(xs: seq<TableSpec>, ys: seq<TableSpec>)
    ensures StagingTables(xs + ys) == StagingTables(xs) + StagingTables(ys)
    ensures DerivedTables(xs + ys) == DerivedTables(xs) + DerivedTables(ys)
  {
    if |xs| == 0 {
      assert xs + ys == ys;
    } else {
      FilterAppend(xs[1..], ys);
      var t := xs[0];
      assert (xs + ys)[0] == t;
      assert (xs + ys)[1..] == xs[1..] + ys;
      var keep := if IsStaging(t) then [t] else [];
      var drop := if IsStaging(t) then [] else [t];
      assert StagingTables(xs + ys) == keep + (StagingTables(xs[1..]) + StagingTables(ys));
      AppendAssoc(keep, StagingTables(xs[1..]), StagingTables(ys));
      assert DerivedTables(xs + ys) == drop + (DerivedTables(xs[1..]) + DerivedTables(ys));
      AppendAssoc(drop, DerivedTables(xs[1..]), DerivedTables(ys));
    }
  }

  /** A list of staging entries only is kept whole by the staging filter and
      dropped by the other; a list of non-staging entries the reverse. */
  lemma {:induction false} FilterUniform(ts: seq<TableSpec>)
    ensures (forall i :: 0 <= i < |ts| ==> IsStaging(ts[i])) ==> StagingTables(ts) == ts && DerivedTables(ts) == []
    ensures (forall i :: 0 <= i < |ts| ==> !IsStaging(ts[i])) ==> StagingTables(ts) == [] && DerivedTables(ts) == ts
  {
    if |ts| > 0 {
      FilterUniform(ts[1..]);
      assert ts == [ts[0]] + ts[1..];
    }
  }

  /** Filtering a list whose first two entries are staging tables and whose
      five others are not. */
  lemma FilterSeven(a: TableSpec, b: TableSpec, c: TableSpec, d: TableSpec, e: TableSpec, f: TableSpec, g: TableSpec)
    requires IsStaging(a) && IsStaging(b)
    requires !IsStaging(c) && !IsStaging(d) && !IsStaging(e) && !IsStaging(f) && !IsStaging(g)
    ensures StagingTables([a, b, c, d, e, f, g]) == [a, b]
    ensures DerivedTables([a, b, c, d, e, f, g]) == [c, d, e, f, g]
  {
    var xs := [a, b];
    var ys := [c, d, e, f, g];
    assert [a, b, c, d, e, f, g] == xs + ys;
    FilterAppend(xs, ys);
    assert forall i :: 0 <= i < |xs| ==> IsStaging(xs[i]);
    FilterUniform(xs);
    assert forall i :: 0 <= i < |ys| ==> !IsStaging(ys[i]);
    FilterUniform(ys);
    AppendEmpty(xs, ys);
  }

  /** The filters applied to the registry: the two staging tables go to
      COPY, the five others, in registry order, to INSERT. */
  lemma RegistryPartition(cfg: Config)
    ensures StagingTables(Tables(cfg)) == [StagingEvents(cfg), StagingSongs(cfg)]
    ensures DerivedTables(Tables(cfg)) == [Users(), Songs(), Artists(), Time(), Songplays()]
  {
    RegistryRoles(cfg);
    FilterSeven(StagingEvents(cfg), StagingSongs(cfg), Users(), Songs(), Artists(), Time(), Songplays());
  }

  /** Each registry entry carries exactly the keys its role reads, so
      building the four lists raises no error. */
  lemma {:induction false} RegistryKeysMatchRole(cfg: Config)
    ensures forall t :: t in Tables(cfg) ==> KeysMatchRole(t)
  {
    RegistryRoles(cfg);
  }

  /** COPY statements for a list with exactly two staging entries. */
  lemma CopyOfTwo(ts: seq<TableSpec>, iamRole: string, a: TableSpec, b: TableSpec)
    requires StagingTables(ts) == [a, b] && a.source.Some? && b.source.Some?
    ensures CopyTableQueries(ts, iamRole).Ok?
    ensures var v := CopyTableQueries(ts, iamRole).value;
            |v| == 2 && v[0] == CopyFor(a, iamRole) && v[1] == CopyFor(b, iamRole)
  {
    assert forall t :: t in [a, b] ==> t.source.Some?;
  }

  /** INSERT statements for a list with exactly five non-staging entries. */
  lemma InsertOfFive(ts: seq<TableSpec>, c: TableSpec, d: TableSpec, e: TableSpec, f: TableSpec, g: TableSpec)
    requires DerivedTables(ts) == [c, d, e, f, g]
    requires c.query.Some? && d.query.Some? && e.query.Some? && f.query.Some? && g.query.Some?
    ensures InsertTableQueries(ts).Ok?
    ensures var v := InsertTableQueries(ts).value;
            |v| == 5 && v[0] == InsertFor(c) && v[1] == InsertFor(d) && v[2] == InsertFor(e)
            && v[3] == InsertFor(f) && v[4] == InsertFor(g)
  {
    var l := [c, d, e, f, g];
    assert forall t :: t in l ==> t.query.Some?;
    var w := InsertAll(l);
    assert InsertTableQueries(ts).value == w;
    assert l[0] == c && l[1] == d && l[2] == e && l[3] == f && l[4] == g;
  }

  /** The two COPY statements: both use the default region; the event logs
      use their field-mapping file, the song data (which has none) `auto`. */
  lemma RegistryCopyStatements(cfg: Config)
    ensures CopyTableQueries(Tables(cfg), cfg.iamRole).Ok?
    ensures var v := CopyTableQueries(Tables(cfg), cfg.iamRole).value;
            |v| == 2
            && v[0] == Copy("staging_events", cfg.logData, cfg.iamRole, Some(cfg.logJsonPath), "us-west-2")
            && v[1] == Copy("staging_songs", cfg.songData, cfg.iamRole, Some("auto"), "us-west-2")
  {
    RegistryPartition(cfg);
    CopyOfTwo(Tables(cfg), cfg.iamRole, StagingEvents(cfg), StagingSongs(cfg));
    CopyDefaultIsAuto("staging_songs", cfg.songData, cfg.iamRole, "us-west-2");
  }

  /** The five INSERT statements, for users, songs, artists, time and
      songplays in that order, each with all of its table's columns. */
  lemma RegistryInsertStatements(cfg: Config)
    ensures InsertTableQueries(Tables(cfg)).Ok?
    ensures var v := InsertTableQueries(Tables(cfg)).value;
            |v| == 5
            && v[0] == Insert("users", Users().columns, QueryUsers)
            && v[1] == Insert("songs", Songs().columns, QuerySongs)
            && v[2] == Insert("artists", Artists().columns, QueryArtists)
            && v[3] == Insert("time", Time().columns, QueryTime)
            && v[4] == Insert("songplays", Songplays().columns, QuerySongplays)
  {
    RegistryPartition(cfg);
    InsertOfFive(Tables(cfg), Users(), Songs(), Artists(), Time(), Songplays());
  }

  /** The registry yields 7 DROP and 7 CREATE statements, one per entry. */
  lemma RegistryDropCreateCounts(cfg: Config)
    ensures |DropTableQueries(Tables(cfg))| == 7
    ensures |CreateTableQueries(Tables(cfg))| == 7
  {
  }

  /** The registry yields 2 COPY and 5 INSERT statements, and raises no
      error while building them. */
  lemma RegistryCopyInsertCounts(cfg: Config)
    ensures CopyTableQueries(Tables(cfg), cfg.iamRole).Ok?
    ensures |CopyTableQueries(Tables(cfg), cfg.iamRole).value| == 2
    ensures InsertTableQueries(Tables(cfg)).Ok?
    ensures |InsertTableQueries(Tables(cfg)).value| == 5
  {
    RegistryPartition(cfg);
    CopyOfTwo(Tables(cfg), cfg.iamRole, StagingEvents(cfg), StagingSongs(cfg));
    InsertOfFive(Tables(cfg), Users(), Songs(), Artists(), Time(), Songplays());
  }

  /** The songplays table's first column is an identity column, and the
      INSERT for songplays lists it with the eight others: the generator does
      not leave identity columns out. */
  lemma SongplaysInsertListsIdentityColumn()
    ensures Songplays().columns[0] == Column("songplay_id", "INT4", "IDENTITY(0, 1)")
    ensures |ColumnNames(Songplays().columns)| == 9
    ensures ColumnNames(Songplays().columns)[0] == "songplay_id"
  {
  }

  /** The two staging tables declare no primary key, so their CREATE
      statements carry no PRIMARY KEY clause. */
  lemma RegistryStagingCreates(cfg: Config)
    ensures CreateTableQueries(Tables(cfg))[0] == Create("staging_events", StagingEvents(cfg).columns, None)
    ensures CreateTableQueries(Tables(cfg))[1] == Create("staging_songs", StagingSongs(cfg).columns, None)
  {
  }

  /** Every declared primary key of the registry names a column of its own
      table (user_id, song_id, artist_id, start_time, songplay_id). */
  lemma {:induction false} RegistryKeysAreColumns(cfg: Config)
    ensures forall t :: t in Tables(cfg) ==> KeysAreColumns(t)
  {
    assert Users().columns[0].name == "user_id";
    assert Songs().columns[0].name == "song_id";
    assert Artists().columns[0].name == "artist_id";
    assert Time().columns[0].name == "start_time";
    assert Songplays().columns[0].name == "songplay_id";
  }
}
