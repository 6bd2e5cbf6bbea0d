/** `aws_config_schema_design.py`: the warehouse table the Config records are
    loaded into, and the SQL text that creates it and its indexes. Everything
    here is pure string templating over a fixed schema value; since Dafny
    values are immutable, the generators cannot change the schema they read. */
module SchemaDesign {

  datatype Column = Column(name: string, sqlType: string, description: string)

  datatype Schema = Schema(tableName: string, columns: seq<Column>)

  /** Separator between column definitions in the CREATE TABLE text. */
  const ColumnSeparator := ",\n    "

  /** A line break followed by the f-strings' four-space indentation. */
  const Indent := "\n    "

  /** Separator (and leading/trailing padding) of the index statements. */
  const IndexSeparator := "\n    "

  /** The columns `create_index_sql` indexes, in statement order. */
  const IndexedColumns := ["resource_id", "resource_type", "region", "capture_time"]

  /** `define_aws_config_schema`: the `aws_config_resources` table with six
      columns, no two of which share a name. */
  function DefineAwsConfigSchema(): (schema: Schema)
    ensures schema.tableName == "aws_config_resources" && |schema.columns| == 6
    ensures forall i, j :: 0 <= i < j < |schema.columns| ==> schema.columns[i].name != schema.columns[j].name
  {
    Schema("aws_config_resources", [
      Column("resource_id", "VARCHAR(255)", "Unique identifier for the resource."),
      Column("resource_type", "VARCHAR(50)", "Type of AWS resource (e.g., EC2, S3)."),
      Column("region", "VARCHAR(20)", "AWS region where the resource is located."),
      Column("configuration", "JSON", "AWS Config resource configuration."),
      Column("tags", "JSON", "Tags applied to the resource."),
      Column("capture_time", "TIMESTAMP", "Time when the configuration was captured.")
    ])
  }

  function Names(columns: seq<Column>): seq<string>
  {
    seq(|columns|, i requires 0 <= i < |columns| => columns[i].name)
  }

  /** Python's `sep.join(parts)`: the text starts with the first part. */
  function Join(parts: seq<string>, sep: string): (joined: string)
    ensures parts != [] ==> parts[0] <= joined
  {
    if |parts| == 0 then ""
    else if |parts| == 1 then parts[0]
    else parts[0] + sep + Join(parts[1..], sep)
  }

  /** `f"{col['name']} {col['type']}"`: the column's name, one space, then its type. */
  function ColumnDefinition(column: Column): (definition: string)
    ensures |definition| == |column.name| + 1 + |column.sqlType|
    ensures definition[..|column.name|] == column.name && definition[|column.name|] == ' '
    ensures definition[|column.name| + 1..] == column.sqlType
  {
    column.name + " " + column.sqlType
  }

  function ColumnDefinitions(columns: seq<Column>): seq<string>
  {
    seq(|columns|, i requires 0 <= i < |columns| => ColumnDefinition(columns[i]))
  }

  function CreateTableHead(tableName: string): string
  {
    Indent + "CREATE TABLE " + tableName + " (" + "\n        "
  }

  /** The closing parenthesis of the CREATE TABLE text, on its own indented line
      and followed by the f-string's trailing line break and indentation. */
  const CreateTableTail := Indent + ");" + Indent

  /** `generate_create_table_sql`: the opening, the first column's definition
      right after it, and the closing at the very end. */
  function GenerateCreateTableSql(schema: Schema): (sql: string)
    ensures schema.columns != [] ==> CreateTableHead(schema.tableName) + ColumnDefinition(schema.columns[0]) <= sql
    ensures |CreateTableTail| <= |sql| && sql[|sql| - |CreateTableTail|..] == CreateTableTail
  {
    CreateTableHead(schema.tableName) + Join(ColumnDefinitions(schema.columns), ColumnSeparator) + CreateTableTail
  }

  /** One line of the index text: index `idx_<column>` on `<column>` of the table. */
  function IndexStatement(tableName: string, column: string): string
  {
    "CREATE INDEX idx_" + column + " ON " + tableName + " (" + column + ");"
  }

  /** `create_index_sql`: exactly the four statements on `resource_id`,
      `resource_type`, `region` and `capture_time`, joined by `"\n    "` and
      padded with it on both sides. */
  function CreateIndexSql(schema: Schema): (sql: string)
    ensures sql == IndexSeparator + Join(IndexStatements(schema.tableName), IndexSeparator) + IndexSeparator
  {
    var t := schema.tableName;
    JoinFourPadded(IndexStatements(t), IndexSeparator);
    IndexSeparator + IndexStatement(t, "resource_id")
    + IndexSeparator + IndexStatement(t, "resource_type")
    + IndexSeparator + IndexStatement(t, "region")
    + IndexSeparator + IndexStatement(t, "capture_time")
    + IndexSeparator
  }

  /** The index statements for the columns of `IndexedColumns`, in order. */
  function IndexStatements(tableName: string): seq<string>
  {
    seq(|IndexedColumns|, i requires 0 <= i < |IndexedColumns| => IndexStatement(tableName, IndexedColumns[i]))
  }

  // ---------------------------------------------------------------------------
  // The schema
  // ---------------------------------------------------------------------------

  /** The table is `aws_config_resources` with exactly six columns, in this
      order, and no two columns share a name. */
  lemma AwsConfigSchemaShape()
    ensures DefineAwsConfigSchema().tableName == "aws_config_resources"
    ensures Names(DefineAwsConfigSchema().columns)
            == ["resource_id", "resource_type", "region", "configuration", "tags", "capture_time"]
    ensures var names := Names(DefineAwsConfigSchema().columns);
            forall i, j :: 0 <= i < j < |names| ==> names[i] != names[j]
  {
  }

  /** The four indexed columns are distinct columns of the defined schema. */
  lemma IndexedColumnsInSchema()
    ensures |IndexedColumns| == 4
    ensures forall i, j :: 0 <= i < j < |IndexedColumns| ==> IndexedColumns[i] != IndexedColumns[j]
    ensures forall c :: c in IndexedColumns ==> c in Names(DefineAwsConfigSchema().columns)
  {
    var names := Names(DefineAwsConfigSchema().columns);
    assert names[0] == "resource_id" && names[1] == "resource_type";
    assert names[2] == "region" && names[5] == "capture_time";
  }

  // ---------------------------------------------------------------------------
  // join
  // ---------------------------------------------------------------------------

  /** Joining two non-empty lists of parts puts exactly one separator at the seam. */
  lemma {:induction false} JoinAppend(a: seq<string>, b: seq<string>, sep: string)
    requires a != [] && b != []
    ensures Join(a + b, sep) == Join(a, sep) + sep + Join(b, sep)
    decreases |a|
  {
    assert (a + b)[0] == a[0];
    assert (a + b)[1..] == a[1..] + b;
    if |a| > 1 {
      JoinAppend(a[1..], b, sep);
    }
  }

  /** Part `i` of a join sits between the join of the parts before it and the
      join of the parts after it, with one separator on each side that has parts. */
  lemma JoinAround(parts: seq<string>, sep: string, i: nat)
    requires i < |parts|
    ensures Join(parts, sep)
            == (if i == 0 then "" else Join(parts[..i], sep) + sep)
               + parts[i]
               + (if i + 1 == |parts| then "" else sep + Join(parts[i + 1..], sep))
  {
    var before, after := parts[..i], parts[i + 1..];
    assert Join([parts[i]], sep) == parts[i];
    if i + 1 < |parts| {
      assert parts[i..] == [parts[i]] + after;
      JoinAppend([parts[i]], after, sep);
    } else {
      assert parts[i..] == [parts[i]];
    }
    if i > 0 {
      assert parts == before + parts[i..];
      JoinAppend(before, parts[i..], sep);
    } else {
      assert parts == parts[i..];
    }
  }

  /** `|parts|` widths of each part plus one separator. */
  function Width(parts: seq<string>, sep: string): nat
  {
    if parts == [] then 0 else |parts[0]| + |sep| + Width(parts[1..], sep)
  }

  /** A join is as long as its parts plus one separator fewer than there are
      parts: `n` parts carry `n - 1` separators. */
  lemma {:induction false} JoinLength(parts: seq<string>, sep: string)
    ensures |Join(parts, sep)| + (if parts == [] then 0 else |sep|) == Width(parts, sep)
    decreases |parts|
  {
    if |parts| > 1 {
      JoinLength(parts[1..], sep);
    }
  }

  /** Joining nothing gives the empty string; joining one part gives that part. */
  lemma JoinDegenerate(sep: string, part: string)
    ensures Join([], sep) == ""
    ensures Join([part], sep) == part
  {
  }

  // ---------------------------------------------------------------------------
  // CREATE TABLE and CREATE INDEX
  // ---------------------------------------------------------------------------

  lemma SliceOfConcat<T>(a: seq<T>, b: seq<T>, c: seq<T>, lo: nat, hi: nat)
    requires lo <= hi <= |b|
    ensures (a + b + c)[|a| + lo..|a| + hi] == b[lo..hi]
  {
  }

  /** The CREATE TABLE text opens with `CREATE TABLE <table> (`. */
  lemma CreateTableOpens(schema: Schema)
    ensures var sql := GenerateCreateTableSql(schema);
            var opening := "CREATE TABLE " + schema.tableName + " (";
            |Indent| + |opening| <= |sql| && sql[|Indent|..|Indent| + |opening|] == opening
  {
    var head := CreateTableHead(schema.tableName);
    var opening := "CREATE TABLE " + schema.tableName + " (";
    assert head == Indent + opening + "\n        ";
    SliceOfConcat(Indent, opening, "\n        " + Join(ColumnDefinitions(schema.columns), ColumnSeparator) + CreateTableTail, 0, |opening|);
    assert GenerateCreateTableSql(schema)
           == Indent + opening + ("\n        " + Join(ColumnDefinitions(schema.columns), ColumnSeparator) + CreateTableTail);
  }

  /** The CREATE TABLE text closes with `);` followed by the f-string's trailing
      newline and indentation. */
  lemma CreateTableCloses(schema: Schema)
    ensures var sql := GenerateCreateTableSql(schema);
            |Indent| + 2 + |Indent| <= |sql| &&
            sql[|sql| - |Indent| - 2..|sql| - |Indent|] == ");" &&
            sql[|sql| - |Indent|..] == Indent
  {
    var sql := GenerateCreateTableSql(schema);
    var front := CreateTableHead(schema.tableName) + Join(ColumnDefinitions(schema.columns), ColumnSeparator);
    SliceOfConcat(front, CreateTableTail, [], |Indent|, |Indent| + 2);
    SliceOfConcat(front, CreateTableTail, [], |Indent| + 2, |CreateTableTail|);
    assert sql == front + CreateTableTail + [];
  }

  lemma ColumnDefinitionsSlices(columns: seq<Column>, i: nat)
    requires i < |columns|
    ensures ColumnDefinitions(columns)[..i] == ColumnDefinitions(columns[..i])
    ensures ColumnDefinitions(columns)[i + 1..] == ColumnDefinitions(columns[i + 1..])
  {
  }

  /** Between its opening and closing, the CREATE TABLE text holds every column's
      `<name> <type>` in schema order: column `i` comes after the definitions of
      the columns before it and before those of the columns after it, with one
      `",\n    "` between neighbours. */
  lemma CreateTableColumnAt(schema: Schema, i: nat)
    requires i < |schema.columns|
    ensures var columns := schema.columns;
            GenerateCreateTableSql(schema)
            == CreateTableHead(schema.tableName)
               + (if i == 0 then "" else Join(ColumnDefinitions(columns[..i]), ColumnSeparator) + ColumnSeparator)
               + ColumnDefinition(columns[i])
               + (if i + 1 == |columns| then "" else ColumnSeparator + Join(ColumnDefinitions(columns[i + 1..]), ColumnSeparator))
               + CreateTableTail
  {
    JoinAround(ColumnDefinitions(schema.columns), ColumnSeparator, i);
    ColumnDefinitionsSlices(schema.columns, i);
  }

  /** Four parts joined, padded with the separator on both sides. */
  lemma {:induction false} JoinFourPadded(parts: seq<string>, sep: string)
    requires |parts| == 4
    ensures sep + Join(parts, sep) + sep
            == sep + parts[0] + sep + parts[1] + sep + parts[2] + sep + parts[3] + sep
  {
    assert parts[1..][1..] == parts[2..];
    assert parts[2..][1..] == parts[3..];
    assert Join(parts[3..], sep) == parts[3];
    assert Join(parts[2..], sep) == parts[2] + sep + parts[3];
    assert Join(parts[1..], sep) == parts[1] + sep + (parts[2] + sep + parts[3]);
  }
}
