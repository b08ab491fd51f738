/** What the generators yield for the inputs the repository's own tests use,
    including the cases where the code as written and those tests disagree. */
module GeneratorCases {
  import opened Wrappers
  import opened Text
  import opened CreateSql

  /** The DROP statements for the two tested table names. */
  lemma DropCases()
    ensures Drop("foo_table") == "DROP TABLE IF EXISTS foo_table CASCADE;"
    ensures Drop("bar123") == "DROP TABLE IF EXISTS bar123 CASCADE;"
  {
    assert Drop("foo_table") == "DROP TABLE IF EXISTS " + "foo_table" + " CASCADE;";
    assert Drop("bar123") == "DROP TABLE IF EXISTS " + "bar123" + " CASCADE;";
  }

  /** The two tested CREATE statements come out as the tests expect: the
      columns one per line, then the key clause on a line of its own. */
  lemma CreateCases()
    ensures Create("table_name", [MakeColumn("c1", "t1"), MakeColumn("c2", "t2")], None)
            == CreateHeader("table_name") + "c1 t1" + Separator + "c2 t2" + ");"
    ensures Create("my_table", [Column("c1", "t1", "NOT NULL"), MakeColumn("c2", "t2")], Some(["c1"]))
            == CreateHeader("my_table") + "c1 t1 NOT NULL" + Separator + "c2 t2" + Separator + "PRIMARY KEY (c1)" + ");"
  {
    CreatePlainCase();
    CreateKeyedCase();
  }

  /** The first tested CREATE statement: two columns, no keys. */
  lemma CreatePlainCase()
    ensures Create("table_name", [MakeColumn("c1", "t1"), MakeColumn("c2", "t2")], None)
            == CreateHeader("table_name") + "c1 t1" + Separator + "c2 t2" + ");"
  {
    PlainLines();
    var plain := Join(Separator, ["c1 t1", "c2 t2"]);
    assert plain == "c1 t1" + Separator + "c2 t2";
  }

  /** The second tested CREATE statement: a NOT NULL column and one key. */
  lemma CreateKeyedCase()
    ensures Create("my_table", [Column("c1", "t1", "NOT NULL"), MakeColumn("c2", "t2")], Some(["c1"]))
            == CreateHeader("my_table") + "c1 t1 NOT NULL" + Separator + "c2 t2" + Separator + "PRIMARY KEY (c1)" + ");"
  {
    KeyedLines();
    var keyed := Join(Separator, ["c1 t1 NOT NULL", "c2 t2"]);
    assert keyed == "c1 t1 NOT NULL" + Separator + "c2 t2";
  }

  /** The column lines of the first tested CREATE statement. */
  lemma PlainLines()
    ensures RenderColumns([MakeColumn("c1", "t1"), MakeColumn("c2", "t2")]) == ["c1 t1", "c2 t2"]
  {
    var a := [MakeColumn("c1", "t1"), MakeColumn("c2", "t2")];
    var r := RenderColumns(a);
    RenderColumnCases(a[0]);
    RenderColumnCases(a[1]);
    assert r[0] == "c1" + " " + "t1" == "c1 t1";
    assert r[1] == "c2" + " " + "t2" == "c2 t2";
  }

  /** The column lines and the key clause of the second tested CREATE statement. */
  lemma KeyedLines()
    ensures RenderColumns([Column("c1", "t1", "NOT NULL"), MakeColumn("c2", "t2")]) == ["c1 t1 NOT NULL", "c2 t2"]
    ensures PrimaryKeyClause(["c1"]) == "PRIMARY KEY (c1)"
  {
    var b := [Column("c1", "t1", "NOT NULL"), MakeColumn("c2", "t2")];
    var r := RenderColumns(b);
    assert |b[0].extra| == 8;
    RenderColumnCases(b[0]);
    RenderColumnCases(b[1]);
    assert r[0] == "c1" + " " + "t1" + " " + "NOT NULL" == "c1 t1 NOT NULL";
    assert r[1] == "c2" + " " + "t2" == "c2 t2";
    assert Join(", ", ["c1"]) == "c1";
  }

  /** A one-character extra is glued to the type. */
  lemma OneCharacterExtraCase()
    ensures RenderColumn(Column("flag", "CHAR(1)", "X")) == "flag CHAR(1)X"
  {
  }

  /** The first tested COPY: the code puts no line break before
      `EMPTYASNULL` or `BLANKSASNULL`, so its output is not the text the test
      expects, which continues the same head and hint with both breaks. */
  lemma CopyDiffersFromTest()
    ensures Copy("my_table", "s3://path/to/files", "my-arn", None, "my-region")
            == CopyHead("my_table", "s3://path/to/files", "my-arn", "my-region") + "auto" + "'EMPTYASNULLBLANKSASNULL;"
    ensures Copy("my_table", "s3://path/to/files", "my-arn", None, "my-region")
            != CopyHead("my_table", "s3://path/to/files", "my-arn", "my-region") + "auto" + "'\nEMPTYASNULL\nBLANKSASNULL;"
  {
  }

  /** The second tested COPY, with an explicit json path: again no line
      break before `EMPTYASNULL` or `BLANKSASNULL`, unlike the tested text. */
  lemma CopyWithJsonPathDiffersFromTest()
    ensures Copy("another_table", "s3://bucket/files", "arn:", Some("s3://bucket/file.json"), "region-name")
            == CopyHead("another_table", "s3://bucket/files", "arn:", "region-name") + "s3://bucket/file.json" + "'EMPTYASNULLBLANKSASNULL;"
    ensures Copy("another_table", "s3://bucket/files", "arn:", Some("s3://bucket/file.json"), "region-name")
            != CopyHead("another_table", "s3://bucket/files", "arn:", "region-name") + "s3://bucket/file.json" + "'\nEMPTYASNULL\nBLANKSASNULL;"
  {
  }

  /** The first tested INSERT comes out as the test expects: the column
      names in order, then the query and one `;`. */
  lemma InsertFirstCase()
    ensures Insert("my_table", [MakeColumn("foo", "VARCHAR"), Column("bar", "INT", "NOT NULL")], "SELECT FROM")
            == "INSERT INTO my_table (foo, bar)\n" + "SELECT FROM" + ";"
  {
    var cols := [MakeColumn("foo", "VARCHAR"), Column("bar", "INT", "NOT NULL")];
    var head := InsertHead("my_table", cols);
    var body := QueryBody("SELECT FROM");
    PlainColumnsListed();
    SelectFromBody();
    assert Insert("my_table", cols, "SELECT FROM") == head + body + ";";
  }

  /** The second tested INSERT, whose columns carry no extra text, comes out
      as the test expects; it is the same statement as for the third input. */
  lemma InsertSecondCase()
    ensures Insert("another_table", [MakeColumn("c1", "anything"), MakeColumn("c2", "my_type")], "SELECT <statement>")
            == "INSERT INTO another_table (c1, c2)\nSELECT <statement>;"
    ensures Insert("another_table", [MakeColumn("c1", "anything"), MakeColumn("c2", "my_type")], "SELECT <statement>")
            == Insert("another_table", [MakeColumn("c1", "anything"), Column("c2", "my_type", "IDENTITY(0, 1) NOT NULL")], "SELECT <statement>")
  {
    var b := [MakeColumn("c1", "anything"), MakeColumn("c2", "my_type")];
    var withIdentity := [MakeColumn("c1", "anything"), Column("c2", "my_type", "IDENTITY(0, 1) NOT NULL")];
    InsertIgnoresTypesAndExtras("another_table", b, withIdentity, "SELECT <statement>");
    InsertKeepsIdentityColumn();
  }

  lemma PlainColumnsListed()
    ensures InsertHead("my_table", [MakeColumn("foo", "VARCHAR"), Column("bar", "INT", "NOT NULL")])
            == "INSERT INTO my_table (foo, bar)\n"
  {
    var cols := [MakeColumn("foo", "VARCHAR"), Column("bar", "INT", "NOT NULL")];
    assert cols[1..] == [cols[1]];
    assert ColumnNames(cols) == ["foo", "bar"];
    assert Join(", ", ["foo", "bar"]) == "foo, bar";
  }

  /** The first tested query text needs no normalisation. */
  lemma SelectFromBody()
    ensures QueryBody("SELECT FROM") == "SELECT FROM"
  {
    var q := "SELECT FROM";
    assert !IsSpace(q[0]) && !IsSpace(q[|q| - 1]) && q[|q| - 1] != ';';
    TrimKeeps(q, IsSpace);
    TrimKeeps(q, IsSemicolon);
  }

  /** The third tested INSERT: the code keeps the identity column `c2` in
      the column list, where the test expects it to be left out. */
  lemma InsertKeepsIdentityColumn()
    ensures Insert("another_table", [MakeColumn("c1", "anything"), Column("c2", "my_type", "IDENTITY(0, 1) NOT NULL")], "SELECT <statement>")
            == "INSERT INTO another_table (c1, c2)\nSELECT <statement>;"
    ensures Insert("another_table", [MakeColumn("c1", "anything"), Column("c2", "my_type", "IDENTITY(0, 1) NOT NULL")], "SELECT <statement>")
            != "INSERT INTO another_table (c1)\nSELECT <statement>;"
  {
    SelectStatementBody();
    IdentityColumnListed();
  }

  lemma IdentityColumnListed()
    ensures InsertHead("another_table", [MakeColumn("c1", "anything"), Column("c2", "my_type", "IDENTITY(0, 1) NOT NULL")])
            == "INSERT INTO another_table (c1, c2)\n"
  {
    var cols := [MakeColumn("c1", "anything"), Column("c2", "my_type", "IDENTITY(0, 1) NOT NULL")];
    assert cols[1..] == [cols[1]];
    assert ColumnNames(cols) == ["c1", "c2"];
    assert Join(", ", ["c1", "c2"]) == "c1, c2";
  }

  /** The tested query text needs no normalisation. */
  lemma SelectStatementBody()
    ensures QueryBody("SELECT <statement>") == "SELECT <statement>"
  {
    var q := "SELECT <statement>";
    assert !IsSpace(q[0]) && !IsSpace(q[|q| - 1]) && q[|q| - 1] != ';';
    TrimKeeps(q, IsSpace);
    TrimKeeps(q, IsSemicolon);
  }
}
