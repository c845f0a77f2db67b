/**
 * The parts of the PL/SQL parse tree that the column-definition listener
 * reads, as values.  A token accessor that returns null when the token is
 * absent becomes membership in a set of keywords or an Option; a parse-tree
 * child that is read through `getText()` becomes its text; an `Integer.valueOf`
 * of a numeric token becomes the parsed integer.
 */
module PlSql {
  import opened Wrappers

  /** The tokens of a `native_datatype_element` that the type resolution tests. */
  datatype NativeKeyword =
    | Int | Integer | SmallInt | Numeric | Decimal | Date | Timestamp
    | Varchar2 | Varchar | NVarchar2 | Char | NChar | BinaryFloat | BinaryDouble
    | Float | Double | Precision | Real | Number | Blob | Clob | Long | Raw
    | SdoGeometry | SdoTopoGeometry | SdoListType | RowId | XmlType
    | UriType | HttpUriType | XdbUriType

  /** A `native_datatype_element`: the keyword tokens it holds and its text. */
  datatype NativeElement = NativeElement(keywords: set<NativeKeyword>, text: string)

  /**
   * A `precision_part`: `(` numeric-or-`*` [`,` numeric-or-negative] `)`.
   * `numerics` are the unsigned numeric children in order, `negative` the
   * `numeric_negative` child, `asterisk` whether `*` was written.
   */
  datatype PrecisionPart = PrecisionPart(numerics: seq<nat>, negative: Option<int>, asterisk: bool)

  /** The tokens of a `datatype` rule outside its native element. */
  datatype DatatypeKeyword = With | Local | Time | Zone | Interval | Year | To | Month | Day | Second

  /** An `expression` child of an interval datatype: its integer value and whether it starts after `TO`. */
  datatype IntervalExpression = IntervalExpression(value: int, afterTo: bool)

  /** A `datatype` rule. */
  datatype Datatype = Datatype(
    native: Option<NativeElement>,
    precision: Option<PrecisionPart>,
    keywords: set<DatatypeKeyword>,
    expressions: seq<IntervalExpression>)

  /** The alternatives of an `inline_constraint` body: `NOT? NULL`, `UNIQUE`, `PRIMARY KEY`, a references clause, a check constraint. */
  datatype ConstraintBody =
    | NullBody(notToken: bool)
    | UniqueBody
    | PrimaryBody(primaryText: string)
    | ReferencesBody(clause: string)
    | CheckBody(condition: string)

  /** An `inline_constraint`: an optional `CONSTRAINT name` and one body. */
  datatype InlineConstraint = InlineConstraint(constraintName: Option<string>, body: ConstraintBody) {

    /** `NOT() != null` */
    predicate HasNot() { body.NullBody? && body.notToken }

    /** `NULL_() != null`: true of `NULL` and of `NOT NULL` alike. */
    predicate HasNull() { body.NullBody? }

    /** `UNIQUE() != null` */
    predicate HasUnique() { body.UniqueBody? }

    /** `PRIMARY() != null` */
    predicate HasPrimary() { body.PrimaryBody? }

    /** `check_constraint() != null` */
    predicate HasCheck() { body.CheckBody? }

    /** `references_clause() != null` */
    predicate HasReferences() { body.ReferencesBody? }
  }

  /** A `column_definition`: the column name text, a datatype or a type name, a DEFAULT value text, the inline constraints. */
  datatype ColumnDefinition = ColumnDefinition(
    columnName: string,
    dataType: Option<Datatype>,
    typeName: Option<string>,
    defaultValue: Option<string>,
    constraints: seq<InlineConstraint>)

  /** A `modify_col_properties` clause of `ALTER TABLE ... MODIFY`. */
  datatype ModifyColProperties = ModifyColProperties(
    columnName: string,
    dataType: Option<Datatype>,
    defaultValue: Option<string>,
    constraints: seq<InlineConstraint>)

  /**
   * The helpers the listener inherits and that are not part of this model,
   * as uninterpreted functions: `getColumnName` (column name text to column
   * name), `getTableOrColumnName` (constraint name text to name),
   * `Logical_expression_parse` (check condition to condition text) and
   * `enterInline_ref_constraint` (references clause, schema, column name to
   * foreign-key descriptors).
   */
  datatype Helpers = Helpers(
    columnName: string -> string,
    tableOrColumnName: string -> string,
    logicalExpression: string -> string,
    inlineRefConstraint: (string, string, string) -> seq<map<string, string>>)

  /** `inline_constraint.stream().anyMatch(c -> c.NOT() != null)` */
  predicate AnyNot(cs: seq<InlineConstraint>) {
    exists i :: 0 <= i < |cs| && cs[i].HasNot()
  }

  /** `inline_constraint.stream().anyMatch(c -> c.NULL_() != null)` */
  predicate AnyNull(cs: seq<InlineConstraint>) {
    exists i :: 0 <= i < |cs| && cs[i].HasNull()
  }
}
