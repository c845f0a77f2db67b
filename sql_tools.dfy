/**
 * The statement builder of the MySQL sink (`SqlTools`): it renders a change
 * record as an INSERT, UPDATE or DELETE statement against the replica's
 * table, one entry per column of the table's metadata, and tells DDL
 * statements that create or alter a table apart from the rest.
 *
 * Converting a column's value to SQL text is a parameter `convert`; it yields
 * `None` where the converter returns a null reference.
 */
module SqlTools {
  import opened Wrappers
  import opened JavaStrings

  datatype ColumnMetaData = ColumnMetaData(columnName: string, columnType: string, scale: int)

  datatype TableMetaData = TableMetaData(schemaName: string, tableName: string, columnList: seq<ColumnMetaData>)

  /** The three record operations a value list is built for. */
  datatype Operation = Create | Update | Delete

  const JsonPrefix := "::jsonb"
  const PointPolygonPrefix := "~"

  /** A name between double quotes; quotes inside the name are not escaped. */
  function Quoted(name: string): string {
    "\"" + name + "\""
  }

  function QualifiedName(t: TableMetaData): string {
    Quoted(t.schemaName) + "." + Quoted(t.tableName)
  }

  /** The WHERE condition a DELETE (and the WHERE part of an UPDATE) uses for one column. */
  function WhereCondition(col: ColumnMetaData, v: Option<string>): string {
    var name := Quoted(col.columnName);
    if v.None? then name + " is null"
    else if col.columnType == "json" then name + JsonPrefix + "=" + v.value
    else if col.columnType == "point" || col.columnType == "polygon" then name + PointPolygonPrefix + "=" + v.value
    else name + " = " + v.value
  }

  /** The entry one column contributes to a value list: the bare value, an assignment, or a condition. */
  function Entry(op: Operation, col: ColumnMetaData, v: Option<string>): Option<string> {
    match op
    case Create => v
    case Update => Some(Quoted(col.columnName) + " = " + StringOf(v))
    case Delete => Some(WhereCondition(col, v))
  }

  /** The value list of `getValueList`: one entry per column, in the table's column order. */
  function ValueList<Row>(cols: seq<ColumnMetaData>, row: Row, op: Operation,
                          convert: (ColumnMetaData, Row) -> Option<string>): (r: seq<Option<string>>)
    ensures |r| == |cols|
    ensures forall i :: 0 <= i < |cols| ==> r[i] == Entry(op, cols[i], convert(cols[i], row))
    ensures op != Create ==> forall i :: 0 <= i < |r| ==> r[i].Some?
    decreases |cols|
  {
    if cols == [] then []
    else
      var last := cols[|cols| - 1];
      ValueList(cols[..|cols| - 1], row, op, convert) + [Entry(op, last, convert(last, row))]
  }

  /** `getValueList`: the loop over the table's columns. */
  method GetValueList<Row>(t: TableMetaData, row: Row, op: Operation,
                           convert: (ColumnMetaData, Row) -> Option<string>) returns (valueList: seq<Option<string>>)
    ensures valueList == ValueList(t.columnList, row, op, convert)
  {
    valueList := [];
    var columnMetaDataList := t.columnList;
    var i := 0;
    while i < |columnMetaDataList|
      invariant 0 <= i <= |columnMetaDataList|
      invariant valueList == ValueList(columnMetaDataList[..i], row, op, convert)
    {
      var columnMetaData := columnMetaDataList[i];
      var singleValue := convert(columnMetaData, row);
      var columnName := "\"" + columnMetaData.columnName + "\"";
      var columnType := columnMetaData.columnType;
      match op {
        case Create =>
          valueList := valueList + [singleValue];
        case Update =>
          valueList := valueList + [Some(columnName + " = " + StringOf(singleValue))];
        case Delete =>
          if singleValue.None? {
            valueList := valueList + [Some(columnName + " is null")];
          } else if columnType == "json" {
            valueList := valueList + [Some(columnName + JsonPrefix + "=" + singleValue.value)];
          } else if columnType == "point" || columnType == "polygon" {
            valueList := valueList + [Some(columnName + PointPolygonPrefix + "=" + singleValue.value)];
          } else {
            valueList := valueList + [Some(columnName + " = " + singleValue.value)];
          }
      }
      assert columnMetaDataList[..i + 1][..i] == columnMetaDataList[..i];
      i := i + 1;
    }
    assert columnMetaDataList[..i] == columnMetaDataList;
  }

  /** The conditions of a WHERE clause, joined with AND. */
  function WhereClause<Row>(t: TableMetaData, before: Row, convert: (ColumnMetaData, Row) -> Option<string>): string {
    Join(" and ", ValueList(t.columnList, before, Delete, convert))
  }

  function InsertSql<Row>(t: TableMetaData, after: Row, convert: (ColumnMetaData, Row) -> Option<string>): string {
    "insert into " + QualifiedName(t) + " values (" + Join(", ", ValueList(t.columnList, after, Create, convert)) + ");"
  }

  function UpdateSql<Row>(t: TableMetaData, before: Row, after: Row, convert: (ColumnMetaData, Row) -> Option<string>): string {
    "update " + QualifiedName(t) + " set " + Join(", ", ValueList(t.columnList, after, Update, convert))
    + " where " + WhereClause(t, before, convert) + ";"
  }

  function DeleteSql<Row>(t: TableMetaData, before: Row, convert: (ColumnMetaData, Row) -> Option<string>): string {
    "delete from " + QualifiedName(t) + " where " + WhereClause(t, before, convert) + ";"
  }

  /** `getInsertSql` */
  method GetInsertSql<Row>(t: TableMetaData, after: Row, convert: (ColumnMetaData, Row) -> Option<string>) returns (sql: string)
    ensures sql == InsertSql(t, after, convert)
  {
    var sb := "insert into \"" + t.schemaName + "\".\"" + t.tableName + "\"" + " values (";
    var valueList := GetValueList(t, after, Create, convert);
    sb := sb + Join(", ", valueList);
    sb := sb + ");";
    sql := sb;
  }

  /** `getUpdateSql`: SET from the new row, WHERE from the old one. */
  method GetUpdateSql<Row>(t: TableMetaData, before: Row, after: Row, convert: (ColumnMetaData, Row) -> Option<string>)
    returns (sql: string)
    ensures sql == UpdateSql(t, before, after, convert)
  {
    var sb := "update \"" + t.schemaName + "\".\"" + t.tableName + "\"" + " set ";
    assert sb == "update " + QualifiedName(t) + " set ";
    var updateSetValueList := GetValueList(t, after, Update, convert);
    sb := sb + Join(", ", updateSetValueList);
    sb := sb + " where ";
    var whereConditionValueList := GetValueList(t, before, Delete, convert);
    assert Join(" and ", whereConditionValueList) == WhereClause(t, before, convert);
    sb := sb + Join(" and ", whereConditionValueList);
    sb := sb + ";";
    sql := sb;
  }

  /** `getDeleteSql` */
  method GetDeleteSql<Row>(t: TableMetaData, before: Row, convert: (ColumnMetaData, Row) -> Option<string>) returns (sql: string)
    ensures sql == DeleteSql(t, before, convert)
  {
    var sb := "delete from \"" + t.schemaName + "\".\"" + t.tableName + "\"" + " where ";
    var whereConditionValueList := GetValueList(t, before, Delete, convert);
    sb := sb + Join(" and ", whereConditionValueList);
    sb := sb + ";";
    sql := sb;
  }

  /**
   * `isCreateOrAlterTableStatement`: the lower-cased statement starts with
   * `create table` or `alter table`, that is, its first 12 (or 11) characters
   * are those words up to case.
   */
  function IsCreateOrAlterTableStatement(sql: string): (r: bool)
    ensures r <==> (|sql| >= 12 && ToLowerCase(sql[..12]) == "create table") ||
                   (|sql| >= 11 && ToLowerCase(sql[..11]) == "alter table")
  {
    LowerCaseOfPrefix(sql, 12);
    LowerCaseOfPrefix(sql, 11);
    StartsWith(ToLowerCase(sql), "create table") || StartsWith(ToLowerCase(sql), "alter table")
  }

  lemma LowerCaseOfPrefix(sql: string, k: nat)
    ensures k <= |sql| ==> ToLowerCase(sql)[..k] == ToLowerCase(sql[..k])
  {
  }

  // ------------------------------------------------------------------ lemmas

  /** A DELETE condition names its column first, whatever the column's type and value. */
  lemma WhereConditionStartsWithColumn(col: ColumnMetaData, v: Option<string>)
    ensures StartsWith(WhereCondition(col, v), Quoted(col.columnName))
  {
  }

  /** An `is null` condition never reads like a comparison with a value. */
  lemma NullConditionDiffers(col: ColumnMetaData, v: string)
    ensures WhereCondition(col, None) != WhereCondition(col, Some(v))
  {
    var q := Quoted(col.columnName);
    var n := WhereCondition(col, None);
    var w := WhereCondition(col, Some(v));
    assert n == q + " is null";
    if col.columnType == "json" {
      assert w == q + "::jsonb=" + v;
      assert n[|q|] != w[|q|];
    } else if col.columnType == "point" || col.columnType == "polygon" {
      assert w == q + "~=" + v;
      assert n[|q|] != w[|q|];
    } else {
      assert w == q + " = " + v;
      assert n[|q| + 1] != w[|q| + 1];
    }
  }

  /** Two comparisons on the same column agree only when they compare with the same value. */
  lemma ComparisonDeterminesValue(col: ColumnMetaData, x: string, y: string)
    requires WhereCondition(col, Some(x)) == WhereCondition(col, Some(y))
    ensures x == y
  {
    var q := Quoted(col.columnName);
    var op := if col.columnType == "json" then JsonPrefix + "="
              else if col.columnType == "point" || col.columnType == "polygon" then PointPolygonPrefix + "="
              else " = ";
    assert WhereCondition(col, Some(x)) == (q + op) + x;
    assert WhereCondition(col, Some(y)) == (q + op) + y;
    assert x == WhereCondition(col, Some(x))[|q + op|..];
  }

  /**
   * For one column, the condition text determines the value it compares
   * with, null included: distinct values never render as the same condition.
   */
  lemma WhereConditionDeterminesValue(col: ColumnMetaData, a: Option<string>, b: Option<string>)
    ensures WhereCondition(col, a) == WhereCondition(col, b) <==> a == b
  {
    if a.Some? && b.None? {
      NullConditionDiffers(col, a.value);
    } else if a.None? && b.Some? {
      NullConditionDiffers(col, b.value);
    } else if a.Some? && b.Some? && WhereCondition(col, a) == WhereCondition(col, b) {
      ComparisonDeterminesValue(col, a.value, b.value);
    }
  }

  /** A null value gives `is null` whatever the column's type; a non-null value compares with `=` on any type but json, point and polygon. */
  lemma WhereConditionOperators(col: ColumnMetaData, v: string)
    ensures WhereCondition(col, None) == Quoted(col.columnName) + " is null"
    ensures col.columnType == "json" ==> WhereCondition(col, Some(v)) == Quoted(col.columnName) + "::jsonb=" + v
    ensures col.columnType in {"point", "polygon"} ==> WhereCondition(col, Some(v)) == Quoted(col.columnName) + "~=" + v
    ensures col.columnType !in {"json", "point", "polygon"} ==> WhereCondition(col, Some(v)) == Quoted(col.columnName) + " = " + v
  {
  }

  /** The type test is case-sensitive: a column typed `JSON` is compared with `=`. */
  lemma JsonTypeIsCaseSensitive()
    ensures WhereCondition(ColumnMetaData("doc", "JSON", 0), Some("'{}'")) == "\"doc\" = '{}'"
  {
  }

  /** An UPDATE keeps the WHERE clause the DELETE of its old row would use: both statements end with it. */
  lemma {:induction false} UpdateAndDeleteShareWhereClause<Row>(t: TableMetaData, before: Row, after: Row,
                                                               convert: (ColumnMetaData, Row) -> Option<string>)
    ensures var tail := " where " + WhereClause(t, before, convert) + ";";
      var u := UpdateSql(t, before, after, convert);
      var d := DeleteSql(t, before, convert);
      |tail| <= |u| && |tail| <= |d| && u[|u| - |tail|..] == tail && d[|d| - |tail|..] == tail
  {
    var tail := " where " + WhereClause(t, before, convert) + ";";
    var uh := "update " + QualifiedName(t) + " set " + Join(", ", ValueList(t.columnList, after, Update, convert));
    var dh := "delete from " + QualifiedName(t);
    assert UpdateSql(t, before, after, convert) == uh + tail;
    assert DeleteSql(t, before, convert) == dh + tail;
    assert (uh + tail)[|uh|..] == tail;
    assert (dh + tail)[|dh|..] == tail;
  }

  /** Every column's value list entry is independent of the other columns: appending a column appends its entry. */
  lemma {:induction false} ValueListSnoc<Row>(cols: seq<ColumnMetaData>, c: ColumnMetaData, row: Row, op: Operation,
                                             convert: (ColumnMetaData, Row) -> Option<string>)
    ensures ValueList(cols + [c], row, op, convert) == ValueList(cols, row, op, convert) + [Entry(op, c, convert(c, row))]
  {
    assert (cols + [c])[..|cols + [c]| - 1] == cols;
  }

  /** A table with one more column inserts one more value, after a comma. */
  lemma {:induction false} InsertValuesForOneMoreColumn<Row>(cols: seq<ColumnMetaData>, c: ColumnMetaData, row: Row,
                                                            convert: (ColumnMetaData, Row) -> Option<string>)
    requires |cols| > 0
    ensures Join(", ", ValueList(cols + [c], row, Create, convert))
         == Join(", ", ValueList(cols, row, Create, convert)) + ", " + StringOf(convert(c, row))
  {
    ValueListSnoc(cols, c, row, Create, convert);
    JoinSnoc(", ", ValueList(cols, row, Create, convert), convert(c, row));
  }

  /**
   * A null value is inserted as the SQL literal `null`, at its column's place
   * among the values of the other columns.
   */
  lemma InsertOfNullValue<Row>(t: TableMetaData, row: Row, convert: (ColumnMetaData, Row) -> Option<string>, i: nat)
    requires i < |t.columnList| && convert(t.columnList[i], row) == None
    ensures var vs := ValueList(t.columnList, row, Create, convert);
      InsertSql(t, row, convert)
      == "insert into " + QualifiedName(t) + " values ("
         + (if i == 0 then "" else Join(", ", vs[..i]) + ", ") + "null"
         + (if i + 1 == |vs| then "" else ", " + Join(", ", vs[i + 1..])) + ");"
  {
    var vs := ValueList(t.columnList, row, Create, convert);
    JoinAt(", ", vs, i);
  }

  /** Lower-casing a statement first does not change the classification. */
  lemma {:induction false} CreateOrAlterIgnoresCase(sql: string)
    ensures IsCreateOrAlterTableStatement(ToLowerCase(sql)) == IsCreateOrAlterTableStatement(sql)
  {
    assert ToLowerCase(ToLowerCase(sql)) == ToLowerCase(sql) by {
      forall i | 0 <= i < |sql| ensures ToLowerCase(ToLowerCase(sql))[i] == ToLowerCase(sql)[i] {
        assert LowerChar(LowerChar(sql[i])) == LowerChar(sql[i]);
      }
    }
  }

  /** Only the start of the statement matters: whatever follows a recognised prefix keeps it recognised. */
  lemma {:induction false} CreateOrAlterIsPrefixClosed(sql: string, rest: string)
    requires IsCreateOrAlterTableStatement(sql)
    ensures IsCreateOrAlterTableStatement(sql + rest)
  {
    assert ToLowerCase(sql + rest)[..|sql|] == ToLowerCase(sql);
  }

  /** A statement whose characters lower-case to `p` one by one starts with `p` once lower-cased. */
  lemma LowerCasePrefix(sql: string, p: string)
    requires |p| <= |sql| && forall i :: 0 <= i < |p| ==> LowerChar(sql[i]) == p[i]
    ensures StartsWith(ToLowerCase(sql), p)
  {
    assert ToLowerCase(sql)[..|p|] == p;
  }

  /** A statement with a character at `i` that does not lower-case to `p[i]` does not start with `p` once lower-cased. */
  lemma LowerCaseMismatch(sql: string, p: string, i: int)
    requires 0 <= i < |p| && i < |sql| && LowerChar(sql[i]) != p[i]
    ensures !StartsWith(ToLowerCase(sql), p)
  {
    if |p| <= |sql| {
      assert ToLowerCase(sql)[..|p|][i] != p[i];
    }
  }

  /** Upper-case keywords are recognised. */
  lemma UpperCaseCreateIsRecognised()
    ensures IsCreateOrAlterTableStatement("CREATE TABLE")
  {
    var p := "create table";
    forall i | 0 <= i < |p| ensures LowerChar("CREATE TABLE"[i]) == p[i] {
    }
    LowerCasePrefix("CREATE TABLE", p);
  }

  /** Mixed-case keywords are recognised. */
  lemma MixedCaseAlterIsRecognised()
    ensures IsCreateOrAlterTableStatement("Alter Table")
  {
    var p := "alter table";
    forall i | 0 <= i < |p| ensures LowerChar("Alter Table"[i]) == p[i] {
    }
    LowerCasePrefix("Alter Table", p);
  }

  /** Leading blanks and a doubled blank are not skipped, and other statements are not recognised. */
  lemma CreateOrAlterIsLiteral()
    ensures !IsCreateOrAlterTableStatement(" create table")
    ensures !IsCreateOrAlterTableStatement("create  table")
    ensures !IsCreateOrAlterTableStatement("create index")
  {
    LowerCaseMismatch(" create table", "create table", 0);
    LowerCaseMismatch(" create table", "alter table", 0);
    LowerCaseMismatch("create  table", "create table", 7);
    LowerCaseMismatch("create  table", "alter table", 0);
    LowerCaseMismatch("create index", "create table", 7);
    LowerCaseMismatch("create index", "alter table", 0);
  }

  /** Names are quoted but not escaped, so two different tables can render the same qualified name. */
  lemma QualifiedNameIsNotEscaped()
    ensures QualifiedName(TableMetaData("a\".\"b", "c", [])) == QualifiedName(TableMetaData("a", "b\".\"c", []))
  {
  }
}
