/**
 * `ColumnDefinitionParserListener`: the listener that turns a parsed Oracle
 * column definition or MODIFY clause into updates of a column editor (which
 * the listener may be handed anew) and of a table editor.  Each method is
 * proved to leave the editors in the state the functions of TypeResolution
 * and ColumnRules describe.
 */
module Listener {
  import opened Wrappers
  import opened PlSql
  import opened Relational
  import opened TypeResolution
  import opened ColumnRules
  import opened Editors
  import J = JdbcTypes
  import opened JavaStrings

  class ColumnDefinitionParserListener {
    var columnEditor: ColumnEditor
    const tableEditor: TableEditor
    const helpers: Helpers

    constructor (tableEditor: TableEditor, columnEditor: ColumnEditor, helpers: Helpers)
      ensures this.tableEditor == tableEditor && this.columnEditor == columnEditor && this.helpers == helpers
    {
      this.tableEditor := tableEditor;
      this.columnEditor := columnEditor;
      this.helpers := helpers;
    }

    /** `setColumnEditor`: later calls write to the given editor. */
    method SetColumnEditor(e: ColumnEditor)
      modifies this
      ensures columnEditor == e
    {
      columnEditor := e;
    }

    /** `getColumn`: the column the current editor describes. */
    method GetColumn() returns (c: Column)
      ensures c == columnEditor.Snapshot()
    {
      c := columnEditor.Snapshot();
    }

    /** `enterColumn_definition` */
    method EnterColumnDefinition(ctx: ColumnDefinition) returns (outcome: Outcome)
      modifies columnEditor, tableEditor
      ensures var s := DefinitionColumn(old(columnEditor.Snapshot()), ctx, helpers);
        columnEditor.Snapshot() == s.column && outcome == s.outcome &&
        tableEditor.Snapshot() == if s.outcome.Completed? then DefinitionTable(old(tableEditor.Snapshot()), ctx, helpers)
                                  else old(tableEditor.Snapshot())
    {
      outcome := ResolveColumnDefinitionType(ctx);
      if outcome.Threw? {
        return;
      }
      if ctx.defaultValue.Some? {
        columnEditor.SetDefaultValueExpression(ctx.defaultValue.value);
      }
      var inlineConstraints := ctx.constraints;
      if |inlineConstraints| > 0 {
        var indexName := CheckIndexName(ctx);
        var columnName := helpers.columnName(ctx.columnName);
        ghost var t0 := tableEditor.Snapshot();
        ghost var c1 := columnEditor.Snapshot();
        var i := 0;
        while i < |inlineConstraints|
          invariant 0 <= i <= |inlineConstraints|
          invariant tableEditor.Snapshot() == ApplyConstraints(t0, inlineConstraints[..i], indexName, columnName, helpers)
          invariant columnEditor.Snapshot() == c1
        {
          EnterInlineConstraint(inlineConstraints[i], indexName, columnName);
          assert inlineConstraints[..i + 1][..i] == inlineConstraints[..i];
          i := i + 1;
        }
        assert inlineConstraints[..i] == inlineConstraints;
      }
    }

    /** `enterPrimary_key_clause`: the column becomes mandatory, is added to the table and named its primary key. */
    method EnterPrimaryKeyClause()
      modifies columnEditor, tableEditor
      ensures columnEditor.Snapshot() == old(columnEditor.Snapshot()).(optional := false)
      ensures tableEditor.Snapshot() ==
        old(tableEditor.Snapshot()).(columns := old(tableEditor.columns) + [columnEditor.Snapshot()],
                                     primaryKeyNames := [columnEditor.name])
    {
      columnEditor.SetOptional(false);
      tableEditor.AddColumn(columnEditor.Snapshot());
      tableEditor.SetPrimaryKeyNames(columnEditor.name);
    }

    /** `enterInline_constraint(ctx, indexName, columnName)` */
    method EnterInlineConstraint(ic: InlineConstraint, indexName: string, columnName: string)
      modifies tableEditor
      ensures tableEditor.Snapshot() == ApplyConstraint(old(tableEditor.Snapshot()), ic, indexName, columnName, helpers)
    {
      if ic.HasCheck() {
        var condition := helpers.logicalExpression(ic.body.condition);
        tableEditor.SetCheckColumns([CheckEntry(indexName, condition)]);
      }
      if ic.HasReferences() {
        var fkColumns := helpers.inlineRefConstraint(ic.body.clause, tableEditor.id.schema, columnName);
        tableEditor.SetForeignKeys(fkColumns);
      }
      if ic.HasUnique() {
        var uniqueColumns := tableEditor.uniqueColumns;
        var uniqueName := if ic.constraintName.Some? then helpers.tableOrColumnName(ic.constraintName.value)
                          else tableEditor.id.table + "_" + columnName + "_key";
        uniqueColumns := uniqueColumns + [UniqueEntry(uniqueName, columnName)];
        tableEditor.SetUniqueColumns(uniqueColumns);
      }
      if ic.HasPrimary() {
        var pkColumnChanges: seq<PrimaryKeyChange> := [];
        var constraintChanges: seq<ConstraintChange> := [];
        var constraintName: Option<string> := None;
        if ic.constraintName.Some? {
          constraintName := Some(helpers.tableOrColumnName(ic.constraintName.value));
          constraintChanges := constraintChanges + [ConstraintChange(constraintName.value, ic.body.primaryText)];
        }
        pkColumnChanges := pkColumnChanges + [PrimaryKeyChange(columnName, PrimaryKeyAdd, constraintName)];
        tableEditor.SetConstraintChanges(constraintChanges);
        tableEditor.SetPrimaryKeyChanges(pkColumnChanges);
      }
    }

    /** `enterModify_col_properties`: the column is resolved, DEFAULT recorded, and the change keys replaced. */
    method EnterModifyColProperties(ctx: ModifyColProperties) returns (outcome: Outcome)
      modifies columnEditor
      ensures var s := ModifyColumn(old(columnEditor.Snapshot()), ctx, helpers);
        columnEditor.Snapshot() == s.column && outcome == s.outcome
    {
      var resolved;
      outcome, resolved := ResolveModifyColumnType(ctx);
      if outcome.Threw? {
        return;
      }
      var modifyKeys: seq<ModifyKey> := [];
      if ctx.defaultValue.Some? {
        columnEditor.SetDefaultValueExpression(ctx.defaultValue.value);
        modifyKeys := modifyKeys + [DefaultValueKey];
      }
      if resolved == Some(OptionalKey) {
        modifyKeys := modifyKeys + [OptionalKey];
      }
      columnEditor.SetModifyKeys(modifyKeys);
    }

    /** `resolveColumnDataType(Column_definitionContext)` */
    method ResolveColumnDefinitionType(ctx: ColumnDefinition) returns (outcome: Outcome)
      modifies columnEditor
      ensures var s := ResolveColumnDefinition(old(columnEditor.Snapshot()), ctx, helpers);
        columnEditor.Snapshot() == s.column && outcome == s.outcome
    {
      columnEditor.SetName(helpers.columnName(ctx.columnName));
      var hasNotNullConstraint := AnyNot(ctx.constraints);
      columnEditor.SetOptional(!hasNotNullConstraint);
      outcome := Completed;
      if ctx.dataType.None? {
        if ctx.typeName.Some? && EqualsIgnoreCase(SdoGeometryTypeName, ctx.typeName.value) {
          columnEditor.SetJdbcType(J.OTHER);
          columnEditor.SetType("MDSYS.SDO_GEOMETRY");
        } else if ctx.typeName.Some? && EqualsIgnoreCase(SdoTopoGeometryTypeName, ctx.typeName.value) {
          columnEditor.SetJdbcType(J.OTHER);
          columnEditor.SetType("MDSYS.SDO_TOPO_GEOMETRY");
        } else if ctx.typeName.Some? && EqualsIgnoreCase(SdoListTypeTypeName, ctx.typeName.value) {
          columnEditor.SetJdbcType(J.ARRAY);
          columnEditor.SetType("MDSYS.SDO_LIST_TYPE");
        } else if ctx.typeName.None? {
          columnEditor.SetJdbcType(J.STRUCT);
          outcome := Threw(NoTypeName);
        } else {
          columnEditor.SetJdbcType(J.STRUCT);
          columnEditor.SetType(ToUpperCase(ctx.typeName.value));
        }
      } else {
        outcome := ResolveDatatype(ctx.dataType.value);
      }
    }

    /**
     * `resolveColumnDataType(Modify_col_propertiesContext)`; returns
     * `Some(OptionalKey)` where the source returns OPTIONAL_KEY and `None`
     * where it returns the empty string.  `NOT NULL` counts as a NULL
     * constraint too, since it carries the NULL token.
     */
    method ResolveModifyColumnType(ctx: ModifyColProperties) returns (outcome: Outcome, key: Option<ModifyKey>)
      modifies columnEditor
      ensures var (s, report) := ResolveModifyColumn(old(columnEditor.Snapshot()), ctx, helpers);
        columnEditor.Snapshot() == s.column && outcome == s.outcome &&
        key == if report then Some(OptionalKey) else None
    {
      columnEditor.SetName(helpers.columnName(ctx.columnName));
      outcome := Completed;
      if ctx.dataType.Some? {
        outcome := ResolveDatatype(ctx.dataType.value);
        if outcome.Threw? {
          key := None;
          return;
        }
      }
      var hasNullConstraint := AnyNull(ctx.constraints);
      var hasNotNullConstraint := AnyNot(ctx.constraints);
      if hasNotNullConstraint && columnEditor.optional {
        columnEditor.SetOptional(false);
        key := Some(OptionalKey);
      } else if hasNullConstraint && !columnEditor.optional {
        columnEditor.SetOptional(true);
        key := Some(OptionalKey);
      } else {
        key := None;
      }
    }

    /** `setPrecision`: the length becomes the first numeric; a missing precision part or numeric throws. */
    method SetPrecision(pp: Option<PrecisionPart>) returns (outcome: Outcome)
      modifies columnEditor
      ensures var s := TypeResolution.SetPrecision(old(columnEditor.Snapshot()), pp);
        columnEditor.Snapshot() == s.column && outcome == s.outcome
    {
      if pp.None? {
        return Threw(NoPrecisionPart);
      }
      if |pp.value.numerics| == 0 {
        return Threw(NoPrecisionNumeric);
      }
      columnEditor.SetLength(pp.value.numerics[0]);
      outcome := Completed;
    }

    /** `setScale`: the second numeric child, else the negative numeric, else 0. */
    method SetScale(pp: PrecisionPart)
      modifies columnEditor
      ensures columnEditor.Snapshot() == TypeResolution.SetScale(old(columnEditor.Snapshot()), pp)
    {
      if |pp.numerics| > 1 {
        columnEditor.SetScale(pp.numerics[1]);
      } else if pp.negative.Some? {
        columnEditor.SetScale(pp.negative.value);
      } else {
        columnEditor.SetScale(0);
      }
    }

    /** Sets the type tag and name in one go, as the source's chained calls do. */
    method SetTypeOf(jdbcType: int, typeName: string)
      modifies columnEditor
      ensures columnEditor.Snapshot() == TypeResolution.SetType(old(columnEditor.Snapshot()), jdbcType, typeName)
    {
      columnEditor.SetJdbcType(jdbcType);
      columnEditor.SetType(typeName);
    }

    /** `resolveColumnDataType(DatatypeContext)` */
    method ResolveDatatype(dt: Datatype) returns (outcome: Outcome)
      modifies columnEditor
      ensures var s := TypeResolution.ResolveDatatype(old(columnEditor.Snapshot()), dt);
        columnEditor.Snapshot() == s.column && outcome == s.outcome
    {
      outcome := Completed;
      if dt.native.Some? {
        outcome := ResolveNativeElement(dt.native.value, dt);
      } else if Interval in dt.keywords && Year in dt.keywords && To in dt.keywords && Month in dt.keywords {
        SetTypeOf(J.INTERVALYM, "INTERVAL YEAR TO MONTH");
        columnEditor.SetLength(2);
        if |dt.expressions| > 0 {
          columnEditor.SetLength(dt.expressions[0].value);
        }
      } else if Interval in dt.keywords && Day in dt.keywords && To in dt.keywords && Second in dt.keywords {
        SetTypeOf(J.INTERVALDS, "INTERVAL DAY TO SECOND");
        columnEditor.SetLength(2);
        columnEditor.SetScale(6);
        var expressions := dt.expressions;
        ghost var c1 := columnEditor.Snapshot();
        var i := 0;
        while i < |expressions|
          invariant 0 <= i <= |expressions|
          invariant columnEditor.Snapshot() == DayToSecondLoop(c1, expressions[..i])
        {
          var e := expressions[i];
          if e.afterTo {
            columnEditor.SetScale(e.value);
          } else {
            columnEditor.SetLength(e.value);
          }
          assert expressions[..i + 1][..i] == expressions[..i];
          i := i + 1;
        }
        assert expressions[..i] == expressions;
        if |expressions| > 0 {
          columnEditor.SetLength(expressions[0].value);
        }
      } else {
        SetTypeOf(J.STRUCT, "OTHER");
      }
    }

    /**
     * The native-element branch of `resolveColumnDataType(DatatypeContext)`:
     * the if/else chain over the element's tokens, in three consecutive parts.
     */
    method ResolveNativeElement(e: NativeElement, dt: Datatype) returns (outcome: Outcome)
      modifies columnEditor
      ensures var s := ResolveNative(old(columnEditor.Snapshot()), e, dt);
        columnEditor.Snapshot() == s.column && outcome == s.outcome
    {
      var k := e.keywords;
      var precisionPart := dt.precision;
      outcome := Completed;
      if Int in k || Integer in k || SmallInt in k || Numeric in k || Decimal in k {
        SetTypeOf(J.NUMERIC, "NUMBER");
        if precisionPart.None? {
          columnEditor.SetLength(38);
          columnEditor.SetScale(0);
        } else {
          outcome := SetPrecision(precisionPart);
          if outcome.Completed? {
            SetScale(precisionPart.value);
          }
        }
      } else if Date in k {
        SetTypeOf(J.TIMESTAMP, "DATE");
      } else if Timestamp in k {
        if With in dt.keywords && Time in dt.keywords && Zone in dt.keywords {
          if Local in dt.keywords {
            SetTypeOf(J.TIMESTAMPLTZ, "TIMESTAMP WITH LOCAL TIME ZONE");
          } else {
            SetTypeOf(J.TIMESTAMPTZ, "TIMESTAMP WITH TIME ZONE");
          }
        } else {
          SetTypeOf(J.TIMESTAMP, "TIMESTAMP");
        }
        if precisionPart.None? {
          columnEditor.SetLength(6);
        } else {
          outcome := SetPrecision(precisionPart);
        }
      } else if Varchar2 in k || Varchar in k {
        SetTypeOf(J.VARCHAR, "VARCHAR2");
        if precisionPart.None? {
          columnEditor.SetLength(VarCharDefaultLength);
        } else {
          outcome := SetPrecision(precisionPart);
        }
      } else if NVarchar2 in k {
        SetTypeOf(J.NVARCHAR, "NVARCHAR2");
        if precisionPart.None? {
          columnEditor.SetLength(VarCharDefaultLength);
        } else {
          outcome := SetPrecision(precisionPart);
        }
      } else if Char in k {
        SetTypeOf(J.CHAR, "CHAR");
        columnEditor.SetLength(1);
        if precisionPart.Some? {
          outcome := SetPrecision(precisionPart);
        }
      } else if NChar in k {
        SetTypeOf(J.NCHAR, "NCHAR");
        columnEditor.SetLength(1);
        if precisionPart.Some? {
          outcome := SetPrecision(precisionPart);
        }
      } else {
        outcome := ResolveNativeFromBinaryFloat(e, dt);
      }
    }

    /** The chain from BINARY_FLOAT to RAW, reached when no character, date or integer rule applies. */
    method ResolveNativeFromBinaryFloat(e: NativeElement, dt: Datatype) returns (outcome: Outcome)
      requires !NumericFamily(e.keywords) && Date !in e.keywords && Timestamp !in e.keywords
      requires Varchar2 !in e.keywords && Varchar !in e.keywords && NVarchar2 !in e.keywords
      requires Char !in e.keywords && NChar !in e.keywords
      modifies columnEditor
      ensures var s := ResolveNative(old(columnEditor.Snapshot()), e, dt);
        columnEditor.Snapshot() == s.column && outcome == s.outcome
    {
      var k := e.keywords;
      var precisionPart := dt.precision;
      outcome := Completed;
      if BinaryFloat in k {
        SetTypeOf(J.BINARY_FLOAT, "BINARY_FLOAT");
      } else if BinaryDouble in k {
        SetTypeOf(J.BINARY_DOUBLE, "BINARY_DOUBLE");
      } else if Float in k || (Double in k && Precision in k) {
        SetTypeOf(J.FLOAT, "FLOAT");
        columnEditor.SetLength(126);
        if precisionPart.Some? {
          outcome := SetPrecision(precisionPart);
        }
      } else if Real in k {
        SetTypeOf(J.FLOAT, "FLOAT");
        columnEditor.SetLength(63);
      } else if Number in k {
        SetTypeOf(J.NUMERIC, "NUMBER");
        if precisionPart.None? {
          columnEditor.SetLength(38);
        } else {
          if precisionPart.value.asterisk {
            columnEditor.SetLength(38);
          } else {
            outcome := SetPrecision(precisionPart);
          }
          if outcome.Completed? {
            SetScale(precisionPart.value);
          }
        }
      } else if Blob in k {
        SetTypeOf(J.BLOB, "BLOB");
      } else if Clob in k {
        SetTypeOf(J.CLOB, "CLOB");
      } else if Long in k {
        if Raw in k {
          SetTypeOf(J.LONGVARBINARY, "LONG RAW");
        } else {
          SetTypeOf(J.LONGVARCHAR, "LONG");
        }
      } else if Raw in k {
        SetTypeOf(J.VARBINARY, "RAW");
        outcome := SetPrecision(precisionPart);
      } else {
        ResolveNativeFromSdoGeometry(e, dt);
      }
    }

    /** The rest of the chain, from SDO_GEOMETRY to the fallback on the element's own text; none of it throws. */
    method ResolveNativeFromSdoGeometry(e: NativeElement, dt: Datatype)
      requires !NumericFamily(e.keywords) && Date !in e.keywords && Timestamp !in e.keywords
      requires Varchar2 !in e.keywords && Varchar !in e.keywords && NVarchar2 !in e.keywords
      requires Char !in e.keywords && NChar !in e.keywords
      requires BinaryFloat !in e.keywords && BinaryDouble !in e.keywords && Float !in e.keywords
      requires !(Double in e.keywords && Precision in e.keywords)
      requires Real !in e.keywords && Number !in e.keywords && Blob !in e.keywords && Clob !in e.keywords
      requires Long !in e.keywords && Raw !in e.keywords
      modifies columnEditor
      ensures var s := ResolveNative(old(columnEditor.Snapshot()), e, dt);
        columnEditor.Snapshot() == s.column && s.outcome == Completed
    {
      var k := e.keywords;
      if SdoGeometry in k {
        SetTypeOf(J.OTHER, "SDO_GEOMETRY");
        columnEditor.SetLength(1);
      } else if SdoTopoGeometry in k {
        SetTypeOf(J.OTHER, "SDO_TOPO_GEOMETRY");
      } else if SdoListType in k {
        SetTypeOf(J.ARRAY, "SDO_LIST_TYPE()");
      } else if RowId in k {
        SetTypeOf(J.VARCHAR, "ROWID");
      } else if XmlType in k {
        SetTypeOf(J.SQLXML, "XMLTYPE");
        columnEditor.SetLength(2000);
      } else if UriType in k {
        SetTypeOf(J.OTHER, "URITYPE");
        columnEditor.SetLength(VarCharDefaultLength);
      } else if HttpUriType in k {
        SetTypeOf(J.OTHER, "HTTPURITYPE");
        columnEditor.SetLength(VarCharDefaultLength);
      } else if XdbUriType in k {
        SetTypeOf(J.OTHER, "XDBURITYPE");
        columnEditor.SetLength(VarCharDefaultLength);
      } else {
        SetTypeOf(J.OTHER, e.text);
      }
    }
  }
}
