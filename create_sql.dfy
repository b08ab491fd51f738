/** The SQL text generator: DROP TABLE, CREATE TABLE, COPY and
    INSERT ... SELECT statements assembled from table names, column
    descriptions and opaque strings. Every generator is a pure function. */
module CreateSql {
  import opened Wrappers
  import opened Text

  /** One table column: its name, its SQL type literal and the text of any
      extra constraints (for example `NOT NULL` or `IDENTITY(0, 1)`). */
  datatype Column = Column(name: string, sqlType: string, extra: string)

  /** A column with no extra constraints. The source builds such columns with
      two arguments, although its record type declares no default for the
      third; this helper stands for the evidently intended empty default. */
  function MakeColumn(name: string, sqlType: string): (c: Column)
    ensures c.name == name && c.sqlType == sqlType && c.extra == []
  {
    Column(name, sqlType, "")
  }

  const DropPrefix := "DROP TABLE IF EXISTS "
  const DropSuffix := " CASCADE;"

  /** The DROP TABLE statement: idempotent (`IF EXISTS`) and removing
      dependent objects (`CASCADE`). The table name is not quoted, so it can
      be read back from between the fixed prefix and suffix. */
  function Drop(table: string): (r: string)
    ensures StartsWith(r, DropPrefix) && EndsWith(r, DropSuffix)
    ensures |r| == |DropPrefix| + |table| + |DropSuffix|
    ensures r[|DropPrefix|..|r| - |DropSuffix|] == table
  {
    DropPrefix + table + DropSuffix
  }

  /** Two tables get the same DROP statement only if they have the same name. */
  lemma DropInjective(a: string, b: string)
    requires Drop(a) == Drop(b)
    ensures a == b
  {
    assert a == Drop(a)[|DropPrefix|..|Drop(a)| - |DropSuffix|];
  }

  /** Separator between the lines of a CREATE TABLE body. */
  const Separator := ",\n  "

  /** Start of every CREATE TABLE statement for `table`, up to the first
      column's text. */
  function CreateHeader(table: string): string {
    "CREATE TABLE IF NOT EXISTS " + table + " (\n  "
  }

  /** One column definition: name, a space, type, then the extra text. The
      source inserts a space before the extra text only when the extra text
      has MORE THAN ONE character; a one-character extra is glued to the type. */
  function RenderColumn(c: Column): (r: string)
    ensures StartsWith(r, c.name + " " + c.sqlType) && EndsWith(r, c.extra)
    ensures |r| == |c.name| + 1 + |c.sqlType| + |c.extra| + (if |c.extra| > 1 then 1 else 0)
    ensures |c.extra| > 1 ==> r[|c.name| + 1 + |c.sqlType|] == ' '
  {
    c.name + " " + c.sqlType + (if |c.extra| > 1 then " " else "") + c.extra
  }

  /** The alternative rule: a separating space exactly when the extra text is
      non-empty. */
  function AlternativeRenderColumn(c: Column): string {
    c.name + " " + c.sqlType + (if |c.extra| > 0 then " " + c.extra else "")
  }

  /** The source's rendering agrees with the alternative rule exactly when
      the extra text is not a single character. */
  lemma RenderColumnAgreesUnlessOneChar(c: Column)
    ensures RenderColumn(c) == AlternativeRenderColumn(c) <==> |c.extra| != 1
  {
    var head := c.name + " " + c.sqlType;
    if |c.extra| == 1 {
      assert |RenderColumn(c)| == |head| + 1;
      assert |AlternativeRenderColumn(c)| == |head| + 2;
    }
  }

  /** An empty extra leaves no trailing space; a longer one is separated by
      exactly one space; a single character follows the type directly. */
  lemma RenderColumnCases(c: Column)
    ensures |c.extra| == 0 ==> RenderColumn(c) == c.name + " " + c.sqlType
    ensures |c.extra| == 1 ==> RenderColumn(c) == c.name + " " + c.sqlType + c.extra
    ensures |c.extra| > 1 ==> RenderColumn(c) == c.name + " " + c.sqlType + " " + c.extra
    ensures StartsWith(RenderColumn(c), c.name + " " + c.sqlType)
  {
    assert |c.extra| == 0 ==> c.extra == [];
  }

  /** Each column rendered, in input order. */
  function RenderColumns(columns: seq<Column>): (r: seq<string>)
    ensures |r| == |columns|
    ensures forall i :: 0 <= i < |columns| ==> r[i] == RenderColumn(columns[i])
  {
    if |columns| == 0 then [] else [RenderColumn(columns[0])] + RenderColumns(columns[1..])
  }

  /** The PRIMARY KEY clause: the keys in the given order joined by `, `. */
  function PrimaryKeyClause(keys: seq<string>): string {
    "PRIMARY KEY (" + Join(", ", keys) + ")"
  }

  /** The CREATE TABLE statement: the rendered columns joined by the
      separator, then, when primary keys are given (even an empty list), the
      separator and a PRIMARY KEY clause. An empty column list is accepted. */
  function Create(table: string, columns: seq<Column>, primaryKeys: Option<seq<string>>): (r: string)
    ensures StartsWith(r, CreateHeader(table)) && EndsWith(r, ");")
  {
    var cols := Join(Separator, RenderColumns(columns));
    var pkeys := if primaryKeys.Some? then Separator + PrimaryKeyClause(primaryKeys.value) else "";
    ConcatParts(CreateHeader(table), cols + pkeys, ");");
    CreateHeader(table) + (cols + pkeys) + ");"
  }

  /** The lines of a CREATE TABLE body: one per column, then the key clause. */
  function BodyLines(columns: seq<Column>, primaryKeys: Option<seq<string>>): seq<string> {
    RenderColumns(columns) + (if primaryKeys.Some? then [PrimaryKeyClause(primaryKeys.value)] else [])
  }

  /** For a non-empty column list, the statement is the header, the columns
      and (if and only if keys are supplied) the key clause, all joined by the
      same separator, then `);`. */
  lemma {:induction false} CreateIsJoinedLines(table: string, columns: seq<Column>, primaryKeys: Option<seq<string>>)
    requires |columns| > 0
    ensures Create(table, columns, primaryKeys)
            == CreateHeader(table) + Join(Separator, BodyLines(columns, primaryKeys)) + ");"
  {
    var lines := RenderColumns(columns);
    if primaryKeys.Some? {
      JoinSnoc(Separator, lines, PrimaryKeyClause(primaryKeys.value));
    } else {
      assert BodyLines(columns, primaryKeys) == lines;
    }
  }

  /** Supplying keys changes the statement only by inserting the separator and
      the key clause before the closing `);`; omitting them adds nothing. */
  lemma CreateWithKeysExtendsCreateWithout(table: string, columns: seq<Column>, keys: seq<string>)
    ensures var without := Create(table, columns, None);
            Create(table, columns, Some(keys))
            == without[..|without| - 2] + Separator + PrimaryKeyClause(keys) + ");"
  {
    var without := Create(table, columns, None);
    var body := "CREATE TABLE IF NOT EXISTS " + table + " (\n" + "  " + Join(Separator, RenderColumns(columns));
    assert without == body + ");";
    assert without[..|without| - 2] == body;
  }

  /** An empty column list raises no error: without keys it yields an empty
      body, and with keys a body that starts with a stray separator. */
  lemma CreateWithNoColumns(table: string, keys: seq<string>)
    ensures Create(table, [], None) == CreateHeader(table) + ");"
    ensures Create(table, [], Some(keys)) == CreateHeader(table) + Separator + PrimaryKeyClause(keys) + ");"
  {
    assert RenderColumns([]) == [];
  }

  /** Region used when the caller does not give one. */
  const DefaultRegion := "us-west-2"

  /** The field-mapping hint the COPY statement uses: the given path, or
      `auto` when there is none. */
  function JsonPathOrAuto(jsonPath: Option<string>): (hint: string)
    ensures jsonPath.None? ==> hint == "auto"
    ensures jsonPath.Some? ==> hint == jsonPath.value
  {
    jsonPath.GetOr("auto")
  }

  /** Everything a COPY statement holds before its field-mapping hint. */
  function CopyHead(table: string, dataSource: string, iamRole: string, region: string): string {
    "COPY " + table + "\n"
    + "FROM '" + dataSource + "'\n"
    + "IAM_ROLE '" + iamRole + "'\n"
    + "REGION '" + region + "'\n"
    + "FORMAT JSON AS '"
  }

  /** Everything after the hint: the source writes the two NULL modifiers
      with no line break before either of them. */
  const CopyTail := "'EMPTYASNULLBLANKSASNULL;"

  /** The COPY statement. The role (whose default the source reads once from
      configuration) and the region are explicit parameters. A missing
      `jsonPath` becomes `auto`; a given one lands verbatim between quotes. */
  function Copy(table: string, dataSource: string, iamRole: string, jsonPath: Option<string>, region: string): (r: string)
    ensures StartsWith(r, CopyHead(table, dataSource, iamRole, region)) && EndsWith(r, CopyTail)
    ensures |r| == |CopyHead(table, dataSource, iamRole, region)| + |JsonPathOrAuto(jsonPath)| + |CopyTail|
    ensures r[|CopyHead(table, dataSource, iamRole, region)|..|r| - |CopyTail|] == JsonPathOrAuto(jsonPath)
  {
    var hint := JsonPathOrAuto(jsonPath);
    ConcatParts(CopyHead(table, dataSource, iamRole, region), hint, CopyTail);
    CopyHead(table, dataSource, iamRole, region) + hint + CopyTail
  }

  /** Leaving the hint out is the same as passing `auto`. */
  lemma CopyDefaultIsAuto(table: string, dataSource: string, iamRole: string, region: string)
    ensures Copy(table, dataSource, iamRole, None, region) == Copy(table, dataSource, iamRole, Some("auto"), region)
  {
  }

  /** Two COPY statements for the same table, source, role and region agree
      exactly when their hints agree once `None` is read as `auto`. */
  lemma CopyHintRecoverable(table: string, dataSource: string, iamRole: string, a: Option<string>, b: Option<string>, region: string)
    ensures Copy(table, dataSource, iamRole, a, region) == Copy(table, dataSource, iamRole, b, region)
            <==> JsonPathOrAuto(a) == JsonPathOrAuto(b)
  {
    var head := CopyHead(table, dataSource, iamRole, region);
    var ra := Copy(table, dataSource, iamRole, a, region);
    var rb := Copy(table, dataSource, iamRole, b, region);
    assert ra[|head|..|ra| - |CopyTail|] == JsonPathOrAuto(a);
    assert rb[|head|..|rb| - |CopyTail|] == JsonPathOrAuto(b);
    if JsonPathOrAuto(a) == JsonPathOrAuto(b) {
      assert ra == head + JsonPathOrAuto(a) + CopyTail;
      assert rb == head + JsonPathOrAuto(b) + CopyTail;
    }
  }

  /** The character `rstrip(';')` removes. */
  predicate IsSemicolon(c: char) {
    c == ';'
  }

  /** The query text inserted after the column list: leading and trailing
      whitespace removed, then every trailing `;` removed. */
  function QueryBody(query: string): (r: string)
    ensures r == [] || r[|r| - 1] != ';'
    ensures StartsWith(Strip(query), r)
    ensures forall k :: |r| <= k < |Strip(query)| ==> Strip(query)[k] == ';'
  {
    TrimEnd(Strip(query), IsSemicolon)
  }

  /** The bare names of the columns, in order; types and extras are ignored. */
  function ColumnNames(columns: seq<Column>): (r: seq<string>)
    ensures |r| == |columns|
    ensures forall i :: 0 <= i < |columns| ==> r[i] == columns[i].name
  {
    if |columns| == 0 then [] else [columns[0].name] + ColumnNames(columns[1..])
  }

  /** Start of every INSERT statement for `table` and these columns. */
  function InsertHead(table: string, columns: seq<Column>): string {
    "INSERT INTO " + table + " (" + Join(", ", ColumnNames(columns)) + ")\n"
  }

  /** The INSERT ... SELECT statement: every column's name (identity columns
      included), then the normalised query and a single terminating `;`. */
  function Insert(table: string, columns: seq<Column>, query: string): (r: string)
    ensures StartsWith(r, InsertHead(table, columns))
    ensures |r| == |InsertHead(table, columns)| + |QueryBody(query)| + 1
    ensures r[|InsertHead(table, columns)|..|r| - 1] == QueryBody(query)
    ensures r[|r| - 1] == ';' && r[|r| - 2] != ';'
  {
    var head := InsertHead(table, columns);
    var body := QueryBody(query);
    ConcatParts(head, body, ";");
    InsertHeadEndsWithNewline(table, columns);
    EndsInExactlyOne(head, body, ';');
    head + body + ";"
  }

  /** The column list is closed by `)` and a line break. */
  lemma InsertHeadEndsWithNewline(table: string, columns: seq<Column>)
    ensures var head := InsertHead(table, columns); head != [] && head[|head| - 1] == '\n'
  {
    var pre := "INSERT INTO " + table + " (" + Join(", ", ColumnNames(columns));
    assert InsertHead(table, columns) == pre + ")\n";
  }

  /** Only the columns' names matter: types and extra constraints, identity
      specifications included, never change the statement. */
  lemma InsertIgnoresTypesAndExtras(table: string, a: seq<Column>, b: seq<Column>, query: string)
    requires |a| == |b|
    requires forall i :: 0 <= i < |a| ==> a[i].name == b[i].name
    ensures Insert(table, a, query) == Insert(table, b, query)
  {
    assert ColumnNames(a) == ColumnNames(b);
  }

  /** Any number of `;` written after a query whose last character is not
      whitespace is absorbed into the single terminating `;`. */
  lemma {:induction false} InsertAbsorbsSemicolons(table: string, columns: seq<Column>, query: string, n: nat)
    requires query != [] && !IsSpace(query[|query| - 1])
    ensures Insert(table, columns, query + Semicolons(n)) == Insert(table, columns, query)
  {
    QueryBodyAbsorbsSemicolons(query, n);
  }

  /** `n` semicolons. */
  function Semicolons(n: nat): (r: string)
    ensures |r| == n && forall k :: 0 <= k < n ==> r[k] == ';'
  {
    if n == 0 then "" else Semicolons(n - 1) + ";"
  }

  /** Trailing semicolons after a non-space character never reach the
      normalised query. */
  lemma {:induction false} QueryBodyAbsorbsSemicolons(query: string, n: nat)
    requires query != [] && !IsSpace(query[|query| - 1])
    ensures QueryBody(query + Semicolons(n)) == QueryBody(query)
  {
    var lead := TrimStart(query, IsSpace);
    StripKeepsLastNonSpace(query, n);
    StripKeepsLastNonSpace(query, 0);
    assert query + Semicolons(0) == query;
    SemicolonsTrimmed(lead, n);
  }

  /** Stripping a text that ends in a non-space character keeps its tail. */
  lemma StripKeepsLastNonSpace(query: string, n: nat)
    requires query != [] && !IsSpace(query[|query| - 1])
    ensures Strip(query + Semicolons(n)) == TrimStart(query, IsSpace) + Semicolons(n)
  {
    assert !IsSpace(';');
    TrimBothOfAppend(query, Semicolons(n), IsSpace);
  }

  /** Removing trailing semicolons also removes `n` added ones. */
  lemma {:induction false} SemicolonsTrimmed(s: string, n: nat)
    ensures TrimEnd(s + Semicolons(n), IsSemicolon) == TrimEnd(s, IsSemicolon)
  {
    if n > 0 {
      assert s + Semicolons(n) == (s + Semicolons(n - 1)) + [';'];
      TrimEndAbsorbs(s + Semicolons(n - 1), IsSemicolon, ';');
      SemicolonsTrimmed(s, n - 1);
    } else {
      assert s + Semicolons(0) == s;
    }
  }

  /** A query followed by a space and a semicolon loses only the semicolon. */
  lemma QueryBodyKeepsSpaceBeforeSemicolon(s: string)
    requires s != [] && !IsSpace(s[0])
    ensures QueryBody(s + " ;") == s + " "
  {
    var q := s + " ;";
    var once := s + " ";
    assert q[0] == s[0] && !IsSpace(q[|q| - 1]);
    TrimKeeps(q, IsSpace);
    assert Strip(q) == q;
    assert q == once + [';'];
    TrimEndAbsorbs(once, IsSemicolon, ';');
    assert once[|once| - 1] == ' ';
    TrimKeeps(once, IsSemicolon);
  }

  /** A query followed by a space loses the space. */
  lemma QueryBodyDropsTrailingSpace(s: string)
    requires s != [] && !IsSpace(s[0]) && !IsSpace(s[|s| - 1]) && s[|s| - 1] != ';'
    ensures QueryBody(s + " ") == s
  {
    var once := s + " ";
    assert once[0] == s[0];
    TrimKeeps(once, IsSpace);
    assert once == s + [' '];
    TrimEndAbsorbs(s, IsSpace, ' ');
    TrimKeeps(s, IsSpace);
    assert Strip(once) == s;
    TrimKeeps(s, IsSemicolon);
  }

  /** The normalisation is not idempotent: for a query `s` followed by a
      space and a semicolon, the space that stood before the stripped
      semicolon survives one pass and is removed by a second. */
  lemma QueryBodyNotIdempotent(s: string)
    requires s != [] && !IsSpace(s[0]) && !IsSpace(s[|s| - 1]) && s[|s| - 1] != ';'
    ensures QueryBody(s + " ;") == s + " "
    ensures QueryBody(QueryBody(s + " ;")) == s
  {
    QueryBodyKeepsSpaceBeforeSemicolon(s);
    QueryBodyDropsTrailingSpace(s);
  }
}
