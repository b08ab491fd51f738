# SQL statement generator of a warehouse loading pipeline

This project models the core of a small data-warehouse loader. The loader
reads raw event logs and song metadata from object storage into two staging
tables, then fills a star schema (users, songs, artists, time, songplays)
from them. The core is the SQL text generator and the schema registry that
drives it:

- `create_sql.py`: the `Column(name, type, extra)` record and four pure
  string builders for DROP TABLE, CREATE TABLE, COPY and INSERT ... SELECT.
  They are modelled in `create_sql.dfy` (module `CreateSql`). The Python
  string operations they rely on (`str.join`, `str.strip()`,
  `str.rstrip(';')`, `str.startswith`) are defined once in `text.dfy`
  (module `Text`), and `Option`/`Result` live in `wrappers.dfy`.
- `sql_queries.py`: the registry of seven table specifications and the four
  statement lists derived from it. They are modelled in `sql_queries.dfy`
  (module `SqlQueries`). A registry entry is a `TableSpec` whose optional
  dictionary keys are `Option`s. A lookup of a key that is absent
  (`t['source']`, `t['query']`) is the error `KeyError(key)` of a `Result`.
- `generator_cases.dfy` (module `GeneratorCases`) states what the
  generators yield for each of the nine inputs used in `test_create_sql.py`
  (two DROP, two CREATE, two COPY, three INSERT), including the three cases
  where the code and those tests disagree.

The code is modelled as written. Where the repository's tests expect
something else, or where the code departs from the obvious alternative, the
model follows the code:

- COPY has no line break before `EMPTYASNULL` or before `BLANKSASNULL`.
  The text ends `FORMAT JSON AS '<hint>'EMPTYASNULLBLANKSASNULL;`, while the
  tests expect `'\nEMPTYASNULL\nBLANKSASNULL;`
  (`GeneratorCases.CopyDiffersFromTest`,
  `GeneratorCases.CopyWithJsonPathDiffersFromTest`).
- INSERT lists every column, identity columns included. The third insert
  test expects the identity column to be left out
  (`GeneratorCases.InsertKeepsIdentityColumn`,
  `SqlQueries.SongplaysInsertListsIdentityColumn`).
- A space goes before a column's extra text only when that text has more
  than one character. A one-character extra is glued to the type. The
  alternative rule, a space exactly when the extra text is non-empty, gives
  the same text for every other extra; the only non-empty extra in the
  CREATE tests (test_create_sql.py:22) is the eight-character `NOT NULL`,
  which fits both (`CreateSql.RenderColumnAgreesUnlessOneChar`).
- The query normalisation removes every trailing `;`, not at most one. It
  is not idempotent, because whitespace before the removed semicolons
  survives (`CreateSql.QueryBodyNotIdempotent`).
- An empty column list is accepted, not rejected. With primary keys it
  yields a body that starts with a stray `,` (`CreateSql.CreateWithNoColumns`).
- The `Column` record declares no default for `extra`, yet the registry and
  the tests build two-argument columns, which would raise a `TypeError`.
  The model reads those as columns with an empty extra (`CreateSql.MakeColumn`).
- `trim_value` and `CONFIG` are imported from `db_utils.py` but not defined
  there. The trimmed configuration strings are the fields of
  `SqlQueries.Config`, a parameter of the registry.

## Model

| member | source | states |
|---|---|---|
| `Text.JoinShape` | create_sql.py:60 | `sep.join(parts)` is empty for no parts; otherwise its length is the parts' total length plus one separator per neighbouring pair, and it starts with the first part and ends with the last |
| `Text.JoinSnoc` | create_sql.py:60-64 | joining one more part appends the separator and that part, so the parts appear in input order |
| `Text.TrimStart` | create_sql.py:143 | the result is a suffix of the input, every removed character satisfies the predicate, and the first kept one does not |
| `Text.TrimEnd` | create_sql.py:143 | the result is a prefix of the input, every removed character satisfies the predicate, and the last kept one does not (`rstrip`) |
| `Text.Strip` | create_sql.py:143 | `str.strip()`: the result is a contiguous piece of the input with only whitespace before and after it, neither starts nor ends with whitespace, and is empty exactly when the input is all whitespace |
| `Text.TrimEndAbsorbs` | create_sql.py:143 | a trimmed character appended at the end disappears again |
| `CreateSql.MakeColumn` | create_sql.py:6 | a two-argument column has the given name and type and an empty extra (the record itself declares no default) |
| `CreateSql.Drop` | create_sql.py:9-27 | the statement is `DROP TABLE IF EXISTS ` + table + ` CASCADE;`, with the table name recoverable from between prefix and suffix |
| `CreateSql.DropInjective` | create_sql.py:27 | distinct table names give distinct DROP statements |
| `CreateSql.RenderColumn` | create_sql.py:57-58 | a column line starts with name, space, type and ends with the extra text; exactly one more space separates them when the extra text is longer than one character |
| `CreateSql.RenderColumnCases` | create_sql.py:57-59 | a column renders as name, space, type; an empty extra adds nothing, a one-character extra is glued on, a longer one follows a single space |
| `CreateSql.RenderColumnAgreesUnlessOneChar` | create_sql.py:58 | the rendering equals the "space iff extra is non-empty" rule exactly when the extra is not one character long |
| `CreateSql.RenderColumns` | create_sql.py:57-59 | one rendered column per input column, in input order |
| `CreateSql.Create` | create_sql.py:30-68 | the statement starts with `CREATE TABLE IF NOT EXISTS <name> (\n  ` and ends with `);` |
| `CreateSql.CreateIsJoinedLines` | create_sql.py:54-68 | for a non-empty column list the body is the rendered columns and, if and only if keys are given, the `PRIMARY KEY (k1, k2, ...)` clause, all joined by `,\n  ` |
| `CreateSql.CreateWithKeysExtendsCreateWithout` | create_sql.py:62-68 | giving keys (even an empty list) inserts exactly the separator and the key clause before the closing `);`; giving none adds nothing |
| `CreateSql.CreateWithNoColumns` | create_sql.py:54-68 | an empty column list raises nothing: without keys the body is empty, with keys it starts with a stray separator |
| `CreateSql.JsonPathOrAuto` | create_sql.py:105 | the FORMAT JSON hint is `auto` when no path is given, otherwise the given path unchanged |
| `CreateSql.Copy` | create_sql.py:71-112 | the statement is the FROM/IAM_ROLE/REGION head, then the hint (`auto` for none, otherwise verbatim), then `'EMPTYASNULLBLANKSASNULL;` with no line breaks |
| `CreateSql.CopyDefaultIsAuto` | create_sql.py:105 | leaving the json path out is the same as passing `auto` |
| `CreateSql.CopyHintRecoverable` | create_sql.py:105-112 | two COPY statements that differ only in the hint are equal exactly when the hints agree once `None` reads as `auto` |
| `CreateSql.QueryBody` | create_sql.py:143 | the normalised query is a prefix of the stripped query, everything after it is `;`, and it does not end in `;` |
| `CreateSql.ColumnNames` | create_sql.py:142 | the column list holds each column's bare name, in order, one per column |
| `CreateSql.Insert` | create_sql.py:115-143 | the statement is `INSERT INTO <table> (<names>)\n`, then the normalised query (stripped, trailing `;` removed), then exactly one `;` |
| `CreateSql.InsertIgnoresTypesAndExtras` | create_sql.py:142 | types and extra constraints, identity specifications included, never change the statement |
| `CreateSql.InsertAbsorbsSemicolons` | create_sql.py:143 | any number of `;` after a query that ends in a non-space character leaves the statement unchanged |
| `CreateSql.QueryBodyAbsorbsSemicolons` | create_sql.py:143 | the normalised query ignores any number of trailing `;` after a non-space character |
| `CreateSql.QueryBodyNotIdempotent` | create_sql.py:143 | for `s + " ;"` one pass keeps the space before the removed `;` and a second pass removes it |
| `GeneratorCases.DropCases` | test_create_sql.py:7-13 | the two tested DROP statements come out as expected |
| `GeneratorCases.CreateCases` | test_create_sql.py:16-25 | the two tested CREATE statements come out as expected, line by line |
| `GeneratorCases.OneCharacterExtraCase` | create_sql.py:58 | a column with extra `X` renders as `flag CHAR(1)X` |
| `GeneratorCases.CopyDiffersFromTest` | create_sql.py:106-112 | for the first tested COPY the code ends in `'EMPTYASNULLBLANKSASNULL;`, not in the tested `'\nEMPTYASNULL\nBLANKSASNULL;` |
| `GeneratorCases.CopyWithJsonPathDiffersFromTest` | test_create_sql.py:38-42 | for the second tested COPY the code ends in the json path and `'EMPTYASNULLBLANKSASNULL;`, not in the tested `'\nEMPTYASNULL\nBLANKSASNULL;` |
| `GeneratorCases.InsertFirstCase` | test_create_sql.py:52-54 | the first tested INSERT comes out as expected: `INSERT INTO my_table (foo, bar)\nSELECT FROM;` |
| `GeneratorCases.InsertSecondCase` | test_create_sql.py:55-57 | the second tested INSERT comes out as expected, and equals the statement for the third input, whose second column carries `IDENTITY(0, 1) NOT NULL` |
| `GeneratorCases.InsertKeepsIdentityColumn` | create_sql.py:140-143 | for the third tested INSERT the code lists `c1, c2`, not the tested `c1` alone |
| `SqlQueries.StagingEvents` | sql_queries.py:90-113 | `staging_events`: 18 columns, no keys, the configured log location and json path as source and hint, no query |
| `SqlQueries.StagingSongs` | sql_queries.py:114-127 | `staging_songs`: 10 columns, no keys, the configured song location as source, no hint and no query |
| `SqlQueries.Users` | sql_queries.py:128-137 | `users`: 5 columns, primary key its first column, the users query, no source |
| `SqlQueries.Songs` | sql_queries.py:138-147 | `songs`: 5 columns, primary key its first column, the songs query, no source |
| `SqlQueries.Artists` | sql_queries.py:148-157 | `artists`: 5 columns, primary key its first column, the artists query, no source |
| `SqlQueries.Time` | sql_queries.py:158-169 | `time`: 7 columns, primary key its first column, the time query, no source |
| `SqlQueries.Songplays` | sql_queries.py:170-183 | `songplays`: 9 columns, primary key its first column, the songplays query, no source |
| `SqlQueries.Tables` | sql_queries.py:90-184 | the registry holds seven entries, named in order staging_events, staging_songs, users, songs, artists, time, songplays |
| `SqlQueries.StagingTables` | sql_queries.py:196 | the filtered list is no longer than the registry and holds only staging entries |
| `SqlQueries.DerivedTables` | sql_queries.py:202 | the filtered list is no longer than the registry and holds only non-staging entries |
| `SqlQueries.FilterMembers` | sql_queries.py:196 | the staging list holds exactly the entries whose name starts with `staging_`, the other list exactly the rest |
| `SqlQueries.StagingAndDerivedPartition` | sql_queries.py:193-202 | the two filters partition the registry: together they hold every entry exactly once |
| `SqlQueries.DropTableQueries` | sql_queries.py:186 | one DROP statement per entry, in registry order |
| `SqlQueries.CreateTableQueries` | sql_queries.py:188-191 | one CREATE statement per entry, in order, each with the entry's keys or none when it declares none |
| `SqlQueries.CopyAll` | sql_queries.py:193-195 | one COPY statement per given entry, in order, with the default region |
| `SqlQueries.CopyTableQueries` | sql_queries.py:193-196 | succeeds exactly when every staging entry has a source, else raises `KeyError('source')`; on success it is the COPY statements of the staging entries in order |
| `SqlQueries.InsertAll` | sql_queries.py:198-200 | one INSERT statement per given entry, in order |
| `SqlQueries.InsertTableQueries` | sql_queries.py:198-202 | succeeds exactly when every non-staging entry has a query, else raises `KeyError('query')`; on success it is the INSERT statements of the other entries in order |
| `SqlQueries.KeysMatchingRoleNeverRaise` | sql_queries.py:193-202 | if every staging entry has a source and every other entry a query, neither list raises |
| `SqlQueries.RegistryRoles` | sql_queries.py:90-184 | `staging_events` and `staging_songs` are staging tables; users, songs, artists, time and songplays are not |
| `SqlQueries.RegistryPartition` | sql_queries.py:193-202 | COPY is built from the two staging tables, INSERT from users, songs, artists, time, songplays in that order |
| `SqlQueries.RegistryKeysMatchRole` | sql_queries.py:90-184 | every staging entry has a source and no query, every other entry a query and no source |
| `SqlQueries.RegistryDropCreateCounts` | sql_queries.py:186-191 | the registry yields 7 DROP and 7 CREATE statements |
| `SqlQueries.RegistryCopyInsertCounts` | sql_queries.py:193-202 | the registry yields 2 COPY and 5 INSERT statements without raising |
| `SqlQueries.RegistryCopyStatements` | sql_queries.py:112-127 | the two COPY statements use the configured role and region `us-west-2`; the event logs use their json path, the song data `auto` |
| `SqlQueries.RegistryInsertStatements` | sql_queries.py:198-202 | the five INSERT statements are for users, songs, artists, time and songplays, each with all of its columns and its query |
| `SqlQueries.SongplaysInsertListsIdentityColumn` | sql_queries.py:170-183 | the identity column `songplay_id` is the first of the nine columns the songplays INSERT lists |
| `SqlQueries.RegistryStagingCreates` | sql_queries.py:188-191 | the two staging tables get CREATE statements without a PRIMARY KEY clause |
| `SqlQueries.RegistryKeysAreColumns` | sql_queries.py:128-183 | every declared primary key names a column of its own table |

## Left out

- `db_utils.py`: reading the configuration file, opening the database connection, and executing and committing statements one by one. This is I/O.
- `etl.py` and `create_tables.py`: entry points that concatenate statement lists and hand them to the executor.
- `trim_value` and `CONFIG`: neither is defined in the repository's files. The trimmed strings they would produce are the fields of `SqlQueries.Config`.
- The default `iam_role` of `get_copy_statement`, read once from configuration when the function is defined: it is an explicit parameter, and the registry passes `Config.iamRole`.
- The meaning of the five populating queries: they are opaque constants. Nothing checks that a query's select list matches the INSERT column list (songplays lists nine columns, its query selects eight).
- `str.strip()` is modelled with the fixed set of characters for which Python's `str.isspace()` holds (`Text.IsSpace`). Nothing beyond that character test is modelled of Unicode.
- `CreateSql.Create`: its own contract states only the fixed start and end. The full text is stated by `CreateIsJoinedLines`, `CreateWithKeysExtendsCreateWithout` and `CreateWithNoColumns`.
- `SqlQueries.SongplaysInsertListsIdentityColumn`: it states the length and first name of the list of column names, not all nine names.
- `GeneratorCases.CreateCases`, `GeneratorCases.CopyDiffersFromTest` and `GeneratorCases.CopyWithJsonPathDiffersFromTest`: they state the expected text as a concatenation of the statement head and short pieces rather than as one literal.
