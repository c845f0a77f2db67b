/**
 * Snapshots of what the column and table editors hold: the column being
 * defined and the table it belongs to, with the constraint descriptors the
 * listener records.
 */
module Relational {
  import opened Wrappers

  /** The change keys a `MODIFY` reports: `DEFAULT_VALUE_KEY` and `OPTIONAL_KEY`. */
  datatype ModifyKey = DefaultValueKey | OptionalKey

  /** A column as `ColumnEditor.create()` would build it. */
  datatype Column = Column(
    name: string,
    jdbcType: int,
    typeName: string,
    length: int,
    scale: Option<int>,
    optional: bool,
    defaultValueExpression: Option<string>,
    modifyKeys: seq<ModifyKey>)

  datatype TableId = TableId(schema: string, table: string)

  /** A unique-constraint descriptor: `INDEX_NAME` and `COLUMN_NAME`. */
  datatype UniqueEntry = UniqueEntry(indexName: string, columnName: string)

  /** A check-constraint descriptor: `INDEX_NAME` and `CONDITION`. */
  datatype CheckEntry = CheckEntry(indexName: string, condition: string)

  /** The only primary-key action this listener records, `PRIMARY_KEY_ADD`. */
  datatype PrimaryKeyAction = PrimaryKeyAdd

  /** A primary-key change: `COLUMN_NAME`, `PRIMARY_KEY_ACTION` and, for a named constraint, `CONSTRAINT_NAME`. */
  datatype PrimaryKeyChange = PrimaryKeyChange(columnName: string, action: PrimaryKeyAction, constraintName: Option<string>)

  /** A constraint change: `CONSTRAINT_NAME` and `TYPE_NAME`. */
  datatype ConstraintChange = ConstraintChange(constraintName: string, typeName: string)

  /** A table as the table editor holds it. */
  datatype Table = Table(
    id: TableId,
    columns: seq<Column>,
    primaryKeyNames: seq<string>,
    uniqueColumns: seq<UniqueEntry>,
    checkColumns: seq<CheckEntry>,
    foreignKeys: seq<map<string, string>>,
    constraintChanges: seq<ConstraintChange>,
    primaryKeyChanges: seq<PrimaryKeyChange>)
}
