/**
 * What the listener's entry points do to the column and the table: the
 * column of a `column_definition`, the constraint descriptors its inline
 * constraints record, and the column and change keys of a `MODIFY` clause.
 */
module ColumnRules {
  import opened Wrappers
  import opened PlSql
  import opened Relational
  import opened TypeResolution
  import J = JdbcTypes
  import opened JavaStrings

  const SdoGeometryTypeName: string := "\"MDSYS\".\"SDO_GEOMETRY\""
  const SdoTopoGeometryTypeName: string := "\"MDSYS\".\"SDO_TOPO_GEOMETRY\""
  const SdoListTypeTypeName: string := "\"MDSYS\".\"SDO_LIST_TYPE\""

  // ---------------------------------------------------------------- column_definition

  /** `resolveColumnDataType(Column_definitionContext)`: name, optionality, then the datatype or the type name. */
  function ResolveColumnDefinition(c: Column, ctx: ColumnDefinition, h: Helpers): Step {
    var c1 := c.(name := h.columnName(ctx.columnName), optional := !AnyNot(ctx.constraints));
    if ctx.dataType.Some? then ResolveDatatype(c1, ctx.dataType.value)
    else if ctx.typeName.Some? && EqualsIgnoreCase(SdoGeometryTypeName, ctx.typeName.value) then
      Done(SetType(c1, J.OTHER, "MDSYS.SDO_GEOMETRY"))
    else if ctx.typeName.Some? && EqualsIgnoreCase(SdoTopoGeometryTypeName, ctx.typeName.value) then
      Done(SetType(c1, J.OTHER, "MDSYS.SDO_TOPO_GEOMETRY"))
    else if ctx.typeName.Some? && EqualsIgnoreCase(SdoListTypeTypeName, ctx.typeName.value) then
      Done(SetType(c1, J.ARRAY, "MDSYS.SDO_LIST_TYPE"))
    else if ctx.typeName.None? then Step(c1.(jdbcType := J.STRUCT), Threw(NoTypeName))
    else Done(SetType(c1, J.STRUCT, ToUpperCase(ctx.typeName.value)))
  }

  /** The column after `enterColumn_definition`: resolved, then given its DEFAULT expression. */
  function DefinitionColumn(c: Column, ctx: ColumnDefinition, h: Helpers): Step {
    var s := ResolveColumnDefinition(c, ctx, h);
    if s.outcome.Threw? then s
    else if ctx.defaultValue.Some? then Done(s.column.(defaultValueExpression := ctx.defaultValue))
    else s
  }

  /** A column definition is optional exactly when no inline constraint has NOT; its DEFAULT text, when given, becomes the default expression; the change keys are untouched. */
  lemma DefinitionOptionalityAndDefault(c: Column, ctx: ColumnDefinition, h: Helpers)
    ensures var r := DefinitionColumn(c, ctx, h);
      r.column.name == h.columnName(ctx.columnName) &&
      (r.column.optional <==> !(exists i :: 0 <= i < |ctx.constraints| && ctx.constraints[i].HasNot())) &&
      r.column.modifyKeys == c.modifyKeys &&
      (r.outcome.Completed? ==>
        r.column.defaultValueExpression == if ctx.defaultValue.Some? then ctx.defaultValue else c.defaultValueExpression)
  {
  }

  /**
   * A definition with neither a datatype nor a type name throws on reading the
   * missing type name, after the type tag STRUCT is written and before the type
   * name or the DEFAULT expression are.
   */
  lemma DefinitionWithoutTypeThrows(c: Column, ctx: ColumnDefinition, h: Helpers)
    requires ctx.dataType.None? && ctx.typeName.None?
    ensures var r := DefinitionColumn(c, ctx, h);
      r.outcome == Threw(NoTypeName) && r.column.jdbcType == J.STRUCT &&
      r.column.typeName == c.typeName && r.column.length == c.length && r.column.scale == c.scale &&
      r.column.defaultValueExpression == c.defaultValueExpression
  {
  }

  /** The three MDSYS spatial type names are matched ignoring case, in order; any other type name is STRUCT with the name upper-cased. */
  lemma DefinitionTypeNames(c: Column, ctx: ColumnDefinition, h: Helpers)
    requires ctx.dataType.None? && ctx.typeName.Some?
    ensures var r := DefinitionColumn(c, ctx, h); var n := ctx.typeName.value;
      r.outcome == Completed &&
      (EqualsIgnoreCase(SdoGeometryTypeName, n) ==> r.column.jdbcType == J.OTHER && r.column.typeName == "MDSYS.SDO_GEOMETRY") &&
      (!EqualsIgnoreCase(SdoGeometryTypeName, n) && EqualsIgnoreCase(SdoTopoGeometryTypeName, n) ==>
        r.column.jdbcType == J.OTHER && r.column.typeName == "MDSYS.SDO_TOPO_GEOMETRY") &&
      ((!EqualsIgnoreCase(SdoGeometryTypeName, n) && !EqualsIgnoreCase(SdoTopoGeometryTypeName, n) &&
        EqualsIgnoreCase(SdoListTypeTypeName, n)) ==>
        r.column.jdbcType == J.ARRAY && r.column.typeName == "MDSYS.SDO_LIST_TYPE") &&
      (!EqualsIgnoreCase(SdoGeometryTypeName, n) && !EqualsIgnoreCase(SdoTopoGeometryTypeName, n) &&
       !EqualsIgnoreCase(SdoListTypeTypeName, n) ==>
        r.column.jdbcType == J.STRUCT && r.column.typeName == ToUpperCase(n)) &&
      r.column.length == c.length && r.column.scale == c.scale
  {
  }

  // ---------------------------------------------------------------- inline constraints

  /** The CHECK index name: the type name's text, else `CHECK_` and the column name text without underscores, upper-cased. */
  function CheckIndexName(ctx: ColumnDefinition): string {
    if ctx.typeName.Some? then ctx.typeName.value
    else "CHECK_" + ToUpperCase(RemoveAll(ctx.columnName, '_'))
  }

  /**
   * A generated CHECK name is `CHECK_` followed by the column name's
   * characters other than `_`, in their order (`RemoveAllConcat`),
   * upper-cased: no underscore and no lower-case letter remain.
   */
  lemma GeneratedCheckName(ctx: ColumnDefinition)
    requires ctx.typeName.None?
    ensures var n := CheckIndexName(ctx); var rest := RemoveAll(ctx.columnName, '_');
      |n| == 6 + |rest| && n[..6] == "CHECK_" &&
      (forall i :: 0 <= i < |rest| ==> n[6 + i] == UpperChar(rest[i])) &&
      forall i :: 6 <= i < |n| ==> n[i] != '_' && !('a' <= n[i] <= 'z')
  {
    var rest := RemoveAll(ctx.columnName, '_');
    var n := CheckIndexName(ctx);
    forall i | 6 <= i < |n| ensures n[i] != '_' && !('a' <= n[i] <= 'z') {
      assert n[i] == UpperChar(rest[i - 6]);
      assert rest[i - 6] in rest;
    }
  }

  /** The name of a UNIQUE constraint: its own name, else `<table>_<column>_key`. */
  function UniqueName(tableName: string, ic: InlineConstraint, columnName: string, h: Helpers): string {
    if ic.constraintName.Some? then h.tableOrColumnName(ic.constraintName.value)
    else tableName + "_" + columnName + "_key"
  }

  /** `enterInline_constraint(ctx, indexName, columnName)`: its effect on the table. */
  function ApplyConstraint(t: Table, ic: InlineConstraint, indexName: string, columnName: string, h: Helpers): Table {
    var t1 := if ic.HasCheck() then t.(checkColumns := [CheckEntry(indexName, h.logicalExpression(ic.body.condition))]) else t;
    var t2 := if ic.HasReferences() then t1.(foreignKeys := h.inlineRefConstraint(ic.body.clause, t.id.schema, columnName)) else t1;
    var t3 := if ic.HasUnique() then
                t2.(uniqueColumns := t2.uniqueColumns + [UniqueEntry(UniqueName(t.id.table, ic, columnName, h), columnName)])
              else t2;
    if ic.HasPrimary() then
      var named := ic.constraintName.Some?;
      var name := if named then Some(h.tableOrColumnName(ic.constraintName.value)) else None;
      t3.(constraintChanges := if named then [ConstraintChange(name.value, ic.body.primaryText)] else [],
          primaryKeyChanges := [PrimaryKeyChange(columnName, PrimaryKeyAdd, name)])
    else t3
  }

  /** The inline constraints applied one after another, in order. */
  function ApplyConstraints(t: Table, cs: seq<InlineConstraint>, indexName: string, columnName: string, h: Helpers): (r: Table)
    ensures r.id == t.id && r.columns == t.columns && r.primaryKeyNames == t.primaryKeyNames
    decreases |cs|
  {
    if cs == [] then t
    else ApplyConstraint(ApplyConstraints(t, cs[..|cs| - 1], indexName, columnName, h), cs[|cs| - 1], indexName, columnName, h)
  }

  /** The table after `enterColumn_definition`: the inline constraints, when there are any, under the definition's CHECK index name and column name. */
  function DefinitionTable(t: Table, ctx: ColumnDefinition, h: Helpers): Table {
    if |ctx.constraints| > 0 then ApplyConstraints(t, ctx.constraints, CheckIndexName(ctx), h.columnName(ctx.columnName), h)
    else t
  }

  /** The unique descriptors a constraint sequence contributes, in order. */
  function UniqueEntries(tableName: string, cs: seq<InlineConstraint>, columnName: string, h: Helpers): seq<UniqueEntry> {
    if cs == [] then []
    else (if cs[0].HasUnique() then [UniqueEntry(UniqueName(tableName, cs[0], columnName, h), columnName)] else []) +
         UniqueEntries(tableName, cs[1..], columnName, h)
  }

  lemma {:induction false} UniqueEntriesSnoc(tableName: string, cs: seq<InlineConstraint>, x: InlineConstraint, columnName: string, h: Helpers)
    ensures UniqueEntries(tableName, cs + [x], columnName, h) ==
      UniqueEntries(tableName, cs, columnName, h) +
      (if x.HasUnique() then [UniqueEntry(UniqueName(tableName, x, columnName, h), columnName)] else [])
  {
    if cs != [] {
      assert (cs + [x])[1..] == cs[1..] + [x];
      UniqueEntriesSnoc(tableName, cs[1..], x, columnName, h);
    } else {
      assert [x][1..] == [];
    }
  }

  /** Each UNIQUE appends one descriptor after the unique list already there, in constraint order. */
  lemma {:induction false} UniqueColumnsAppended(t: Table, cs: seq<InlineConstraint>, indexName: string, columnName: string, h: Helpers)
    ensures ApplyConstraints(t, cs, indexName, columnName, h).uniqueColumns ==
      t.uniqueColumns + UniqueEntries(t.id.table, cs, columnName, h)
  {
    if cs != [] {
      var init := cs[..|cs| - 1];
      UniqueColumnsAppended(t, init, indexName, columnName, h);
      UniqueEntriesSnoc(t.id.table, init, cs[|cs| - 1], columnName, h);
      assert init + [cs[|cs| - 1]] == cs;
    }
  }

  /** The constraints whose descriptors replace the previous list. */
  datatype Kind = CheckKind | ReferencesKind | PrimaryKind

  predicate IsKind(ic: InlineConstraint, kind: Kind) {
    match kind
    case CheckKind => ic.HasCheck()
    case ReferencesKind => ic.HasReferences()
    case PrimaryKind => ic.HasPrimary()
  }

  /** `j` is the last constraint of the given kind. */
  predicate LastOfKind(cs: seq<InlineConstraint>, j: int, kind: Kind) {
    0 <= j < |cs| && IsKind(cs[j], kind) && forall k :: j < k < |cs| ==> !IsKind(cs[k], kind)
  }

  /** The table fields replaced by constraints of the given kind. */
  predicate SameKindFields(a: Table, b: Table, kind: Kind) {
    match kind
    case CheckKind => a.checkColumns == b.checkColumns
    case ReferencesKind => a.foreignKeys == b.foreignKeys
    case PrimaryKind => a.constraintChanges == b.constraintChanges && a.primaryKeyChanges == b.primaryKeyChanges
  }

  /** Applying one constraint of the given kind to any two tables makes their fields of that kind agree. */
  lemma SameKindAfter(a: Table, b: Table, ic: InlineConstraint, indexName: string, columnName: string, h: Helpers, kind: Kind)
    requires IsKind(ic, kind) && a.id == b.id
    ensures SameKindFields(ApplyConstraint(a, ic, indexName, columnName, h), ApplyConstraint(b, ic, indexName, columnName, h), kind)
  {
  }

  /**
   * CHECK, REFERENCES and PRIMARY replace their lists: with no constraint of
   * a kind the table keeps its fields of that kind; otherwise those fields
   * are what the last constraint of that kind records.
   */
  lemma {:induction false} LastConstraintOfKindWins(t: Table, cs: seq<InlineConstraint>, indexName: string, columnName: string, h: Helpers, kind: Kind)
    ensures var r := ApplyConstraints(t, cs, indexName, columnName, h);
      ((forall k :: 0 <= k < |cs| ==> !IsKind(cs[k], kind)) ==> SameKindFields(r, t, kind)) &&
      (forall j :: LastOfKind(cs, j, kind) ==>
        SameKindFields(r, ApplyConstraint(ApplyConstraints(t, cs[..j], indexName, columnName, h), cs[j], indexName, columnName, h), kind))
  {
    if cs != [] {
      var init := cs[..|cs| - 1];
      var last := cs[|cs| - 1];
      LastConstraintOfKindWins(t, init, indexName, columnName, h, kind);
      var r0 := ApplyConstraints(t, init, indexName, columnName, h);
      var r := ApplyConstraint(r0, last, indexName, columnName, h);
      assert ApplyConstraints(t, cs, indexName, columnName, h) == r;
      if IsKind(last, kind) {
        forall j | LastOfKind(cs, j, kind) ensures j == |cs| - 1 {
        }
      } else {
        OtherKindKeeps(r0, last, indexName, columnName, h, kind);
        forall j | LastOfKind(cs, j, kind)
          ensures SameKindFields(r, ApplyConstraint(ApplyConstraints(t, cs[..j], indexName, columnName, h), cs[j], indexName, columnName, h), kind)
        {
          assert LastOfKind(init, j, kind) && init[..j] == cs[..j] && init[j] == cs[j];
        }
      }
    }
  }

  /** A constraint of another kind leaves the fields of this kind alone. */
  lemma OtherKindKeeps(t: Table, ic: InlineConstraint, indexName: string, columnName: string, h: Helpers, kind: Kind)
    requires !IsKind(ic, kind)
    ensures SameKindFields(ApplyConstraint(t, ic, indexName, columnName, h), t, kind)
  {
  }

  /** What the last CHECK, REFERENCES or PRIMARY constraint records, whatever came before it. */
  lemma LastConstraintRecords(t: Table, ic: InlineConstraint, indexName: string, columnName: string, h: Helpers)
    ensures var r := ApplyConstraint(t, ic, indexName, columnName, h);
      (ic.HasCheck() ==> r.checkColumns == [CheckEntry(indexName, h.logicalExpression(ic.body.condition))]) &&
      (ic.HasReferences() ==> r.foreignKeys == h.inlineRefConstraint(ic.body.clause, t.id.schema, columnName)) &&
      (ic.HasPrimary() ==>
        r.primaryKeyChanges == [PrimaryKeyChange(columnName, PrimaryKeyAdd,
                                  if ic.constraintName.Some? then Some(h.tableOrColumnName(ic.constraintName.value)) else None)] &&
        r.constraintChanges == (if ic.constraintName.Some?
                                then [ConstraintChange(h.tableOrColumnName(ic.constraintName.value), ic.body.primaryText)]
                                else []))
  {
  }

  // ---------------------------------------------------------------- modify_col_properties

  /**
   * The optionality rule of `resolveColumnDataType(Modify_col_propertiesContext)`:
   * NOT on an optional column makes it mandatory, a NULL token on a mandatory
   * column makes it optional; the flag says whether OPTIONAL_KEY is reported.
   * `NOT NULL` carries a NULL token too, so on a mandatory column it makes
   * the column optional.
   */
  function ModifyOptionalityAsWritten(optional: bool, cs: seq<InlineConstraint>): (r: (bool, bool))
    ensures AnyNot(cs) ==> AnyNull(cs)
    ensures AnyNot(cs) ==> r == (!optional, true)
    ensures !AnyNot(cs) && AnyNull(cs) ==> r.0
    ensures !AnyNull(cs) ==> r.0 == optional
    ensures r.1 <==> r.0 != optional
  {
    if AnyNot(cs) && optional then (false, true)
    else if AnyNull(cs) && !optional then (true, true)
    else (optional, false)
  }

  /**
   * The rule as intended, with a NULL constraint counted only when there is
   * no NOT NULL: NOT NULL makes the column mandatory, NULL alone optional,
   * neither keeps it; OPTIONAL_KEY is reported exactly when the optionality
   * changes.
   */
  function ModifyOptionality(optional: bool, cs: seq<InlineConstraint>): (r: (bool, bool))
    ensures AnyNot(cs) ==> !r.0
    ensures !AnyNot(cs) && AnyNull(cs) ==> r.0
    ensures !AnyNot(cs) && !AnyNull(cs) ==> r.0 == optional
    ensures r.1 <==> r.0 != optional
  {
    if AnyNot(cs) && optional then (false, true)
    else if AnyNull(cs) && !AnyNot(cs) && !optional then (true, true)
    else (optional, false)
  }

  /** As written, `MODIFY (a NOT NULL)` on a column that is already NOT NULL makes it optional and reports OPTIONAL_KEY, so applying the same clause twice flips the column back. */
  lemma ModifyOptionalityAsWrittenFlipsBack()
    ensures var notNull := [InlineConstraint(None, NullBody(true))];
      ModifyOptionalityAsWritten(true, notNull) == (false, true) &&
      ModifyOptionalityAsWritten(false, notNull) == (true, true) &&
      ModifyOptionality(false, notNull) == (false, false)
  {
    var notNull := [InlineConstraint(None, NullBody(true))];
    assert notNull[0].HasNot() && notNull[0].HasNull();
  }

  /** Reapplying the intended rule leaves the optionality as it is and reports no change. */
  lemma ModifyOptionalityIsIdempotent(optional: bool, cs: seq<InlineConstraint>)
    ensures var after := ModifyOptionality(optional, cs).0;
      ModifyOptionality(after, cs) == (after, false)
  {
  }

  /** The column of a MODIFY after its name and datatype, before optionality. */
  function ModifyNameAndType(c: Column, ctx: ModifyColProperties, h: Helpers): (r: Step)
    ensures KeepsIdentity(c.(name := h.columnName(ctx.columnName)), r.column)
  {
    var c1 := c.(name := h.columnName(ctx.columnName));
    if ctx.dataType.Some? then ResolveDatatype(c1, ctx.dataType.value) else Done(c1)
  }

  /**
   * `resolveColumnDataType(Modify_col_propertiesContext)`: the column after
   * name, datatype and optionality (by the rule as written), and whether
   * OPTIONAL_KEY is returned; it is returned exactly when the optionality
   * changed.
   */
  function ResolveModifyColumn(c: Column, ctx: ModifyColProperties, h: Helpers): (r: (Step, bool))
    ensures r.0.column.name == h.columnName(ctx.columnName)
    ensures r.0.column.defaultValueExpression == c.defaultValueExpression && r.0.column.modifyKeys == c.modifyKeys
    ensures r.1 <==> r.0.column.optional != c.optional
    ensures r.0.outcome.Threw? ==> !r.1
  {
    var s := ModifyNameAndType(c, ctx, h);
    if s.outcome.Threw? then (s, false)
    else
      var (after, report) := ModifyOptionalityAsWritten(s.column.optional, ctx.constraints);
      (Done(s.column.(optional := after)), report)
  }

  /** The same with the intended optionality rule. */
  function IntendedResolveModifyColumn(c: Column, ctx: ModifyColProperties, h: Helpers): (r: (Step, bool))
    ensures r.0.column.name == h.columnName(ctx.columnName)
    ensures r.0.column.defaultValueExpression == c.defaultValueExpression && r.0.column.modifyKeys == c.modifyKeys
    ensures r.1 <==> r.0.column.optional != c.optional
    ensures r.0.outcome.Threw? ==> !r.1
  {
    var s := ModifyNameAndType(c, ctx, h);
    if s.outcome.Threw? then (s, false)
    else
      var (after, report) := ModifyOptionality(s.column.optional, ctx.constraints);
      (Done(s.column.(optional := after)), report)
  }

  /** The keys a MODIFY reports: DEFAULT_VALUE_KEY first, then OPTIONAL_KEY. */
  function ModifyKeys(hasDefault: bool, optionalChanged: bool): seq<ModifyKey> {
    (if hasDefault then [DefaultValueKey] else []) + (if optionalChanged then [OptionalKey] else [])
  }

  /** The rest of `enterModify_col_properties` after resolution: DEFAULT recorded, change keys replaced. */
  function RecordModify(resolved: (Step, bool), ctx: ModifyColProperties): Step {
    var (s, report) := resolved;
    if s.outcome.Threw? then s
    else
      var c1 := if ctx.defaultValue.Some? then s.column.(defaultValueExpression := ctx.defaultValue) else s.column;
      Done(c1.(modifyKeys := ModifyKeys(ctx.defaultValue.Some?, report)))
  }

  /** The column after `enterModify_col_properties`. */
  function ModifyColumn(c: Column, ctx: ModifyColProperties, h: Helpers): Step {
    RecordModify(ResolveModifyColumn(c, ctx, h), ctx)
  }

  /** The column after `enterModify_col_properties` with the intended optionality rule. */
  function IntendedModifyColumn(c: Column, ctx: ModifyColProperties, h: Helpers): Step {
    RecordModify(IntendedResolveModifyColumn(c, ctx, h), ctx)
  }

  /** DEFAULT_VALUE_KEY is reported exactly when DEFAULT is given, OPTIONAL_KEY exactly when the optionality changed; this holds of the rule as written and of the intended one. */
  lemma ModifyReportsRealChanges(c: Column, ctx: ModifyColProperties, h: Helpers)
    ensures var r := ModifyColumn(c, ctx, h);
      r.outcome.Completed? ==>
        (DefaultValueKey in r.column.modifyKeys <==> ctx.defaultValue.Some?) &&
        (OptionalKey in r.column.modifyKeys <==> r.column.optional != c.optional) &&
        r.column.defaultValueExpression == (if ctx.defaultValue.Some? then ctx.defaultValue else c.defaultValueExpression) &&
        r.column.name == h.columnName(ctx.columnName)
    ensures var r := IntendedModifyColumn(c, ctx, h);
      r.outcome.Completed? ==>
        (DefaultValueKey in r.column.modifyKeys <==> ctx.defaultValue.Some?) &&
        (OptionalKey in r.column.modifyKeys <==> r.column.optional != c.optional) &&
        r.column.defaultValueExpression == (if ctx.defaultValue.Some? then ctx.defaultValue else c.defaultValueExpression) &&
        r.column.name == h.columnName(ctx.columnName)
  {
  }

  /** A completed resolution, applied again with the same datatype, changes nothing more. */
  lemma ResolveDatatypeIsIdempotent(c: Column, dt: Datatype)
    requires ResolveDatatype(c, dt).outcome.Completed?
    ensures ResolveDatatype(ResolveDatatype(c, dt).column, dt) == ResolveDatatype(c, dt)
  {
    var r := ResolveDatatype(c, dt).column;
    if dt.native.Some? {
      ResolveNativeIsIdempotent(c, dt.native.value, dt);
    } else if !YearToMonth(dt.keywords) && DayToSecond(dt.keywords) {
      assert SetType(r, J.INTERVALDS, "INTERVAL DAY TO SECOND").(length := 2, scale := Some(6)) ==
             SetType(c, J.INTERVALDS, "INTERVAL DAY TO SECOND").(length := 2, scale := Some(6));
    }
  }

  lemma ResolveNativeIsIdempotent(c: Column, e: NativeElement, dt: Datatype)
    requires ResolveNative(c, e, dt).outcome.Completed?
    ensures ResolveNative(ResolveNative(c, e, dt).column, e, dt) == ResolveNative(c, e, dt)
  {
    match RuleFor(e.keywords)
    case NumericFamilyRule =>
    case DateRule =>
    case TimestampRule =>
    case Varchar2Rule =>
    case NVarchar2Rule =>
    case CharRule =>
    case NCharRule =>
    case BinaryFloatRule =>
    case BinaryDoubleRule =>
    case FloatRule =>
    case RealRule =>
    case NumberRule =>
    case BlobRule =>
    case ClobRule =>
    case LongRule =>
    case RawRule =>
    case SdoGeometryRule =>
    case SdoTopoGeometryRule =>
    case SdoListTypeRule =>
    case RowIdRule =>
    case XmlTypeRule =>
    case UriTypeRule =>
    case HttpUriTypeRule =>
    case XdbUriTypeRule =>
    case NativeTextRule =>
  }

  /**
   * As written, a MODIFY with NOT NULL toggles the column's optionality each
   * time it is applied and reports OPTIONAL_KEY both times.
   */
  lemma ModifyNotNullToggles(c: Column, ctx: ModifyColProperties, h: Helpers)
    requires AnyNot(ctx.constraints) && ModifyColumn(c, ctx, h).outcome.Completed?
    ensures var r1 := ModifyColumn(c, ctx, h); var r2 := ModifyColumn(r1.column, ctx, h);
      r2.outcome.Completed? &&
      r1.column.optional == !c.optional && OptionalKey in r1.column.modifyKeys &&
      r2.column.optional == c.optional && OptionalKey in r2.column.modifyKeys
  {
    var r1 := ModifyColumn(c, ctx, h).column;
    var d1 := r1.(name := h.columnName(ctx.columnName));
    var c1 := c.(name := h.columnName(ctx.columnName));
    if ctx.dataType.Some? {
      OutcomeIgnoresColumn(d1, c1, ctx.dataType.value);
    }
  }

  /** With the intended rule, reapplying the same MODIFY leaves the column as the first application left it and reports no OPTIONAL_KEY; only DEFAULT_VALUE_KEY is reported again. */
  lemma IntendedModifyIsIdempotent(c: Column, ctx: ModifyColProperties, h: Helpers)
    requires IntendedModifyColumn(c, ctx, h).outcome.Completed?
    ensures var r1 := IntendedModifyColumn(c, ctx, h).column;
      var r2 := IntendedModifyColumn(r1, ctx, h);
      r2.outcome.Completed? && OptionalKey !in r2.column.modifyKeys &&
      r2.column == r1.(modifyKeys := ModifyKeys(ctx.defaultValue.Some?, false))
  {
    var c1 := c.(name := h.columnName(ctx.columnName));
    var r1 := IntendedModifyColumn(c, ctx, h).column;
    var d1 := r1.(name := h.columnName(ctx.columnName));
    if ctx.dataType.Some? {
      var dt := ctx.dataType.value;
      var s := ResolveDatatype(c1, dt);
      var after := ModifyOptionality(s.column.optional, ctx.constraints).0;
      ModifyOptionalityIsIdempotent(s.column.optional, ctx.constraints);
      ResolveDatatypeIsIdempotent(c1, dt);
      var x := s.column.(optional := after);
      assert d1 == (if ctx.defaultValue.Some? then x.(defaultValueExpression := ctx.defaultValue) else x)
                     .(modifyKeys := ModifyKeys(ctx.defaultValue.Some?, ModifyOptionality(s.column.optional, ctx.constraints).1));
      OutcomeIgnoresColumn(d1, s.column, dt);
      ResolveDatatypeAgreesOffIdentity(d1, s.column, dt);
    } else {
      ModifyOptionalityIsIdempotent(c1.optional, ctx.constraints);
    }
  }

  /** Resolution overwrites or keeps each of jdbcType, typeName, length and scale the same way whatever column it starts from. */
  lemma ResolveDatatypeAgreesOffIdentity(a: Column, b: Column, dt: Datatype)
    requires a.jdbcType == b.jdbcType && a.typeName == b.typeName && a.length == b.length && a.scale == b.scale
    ensures var ra := ResolveDatatype(a, dt).column; var rb := ResolveDatatype(b, dt).column;
      ra.jdbcType == rb.jdbcType && ra.typeName == rb.typeName && ra.length == rb.length && ra.scale == rb.scale
  {
    if dt.native.Some? {
      ResolveNativeAgreesOffIdentity(a, b, dt.native.value, dt);
    } else if !YearToMonth(dt.keywords) && DayToSecond(dt.keywords) {
      DayToSecondLoopAgrees(SetType(a, J.INTERVALDS, "INTERVAL DAY TO SECOND").(length := 2, scale := Some(6)),
                            SetType(b, J.INTERVALDS, "INTERVAL DAY TO SECOND").(length := 2, scale := Some(6)), dt.expressions);
    }
  }

  lemma ResolveNativeAgreesOffIdentity(a: Column, b: Column, e: NativeElement, dt: Datatype)
    requires TypeOf(a) == TypeOf(b)
    ensures TypeOf(ResolveNative(a, e, dt).column) == TypeOf(ResolveNative(b, e, dt).column)
  {
    var pp := dt.precision;
    match RuleFor(e.keywords)
    case NumericFamilyRule =>
      if pp.Some? {
        PrecisionThenScaleAgrees(SetType(a, J.NUMERIC, "NUMBER"), SetType(b, J.NUMERIC, "NUMBER"), pp);
      }
    case DateRule =>
    case TimestampRule =>
    case Varchar2Rule =>
    case NVarchar2Rule =>
    case CharRule =>
    case NCharRule =>
    case BinaryFloatRule =>
    case BinaryDoubleRule =>
    case FloatRule =>
    case RealRule =>
    case NumberRule =>
      if pp.Some? && !pp.value.asterisk {
        PrecisionThenScaleAgrees(SetType(a, J.NUMERIC, "NUMBER"), SetType(b, J.NUMERIC, "NUMBER"), pp);
      }
    case BlobRule =>
    case ClobRule =>
    case LongRule =>
    case RawRule =>
    case SdoGeometryRule =>
    case SdoTopoGeometryRule =>
    case SdoListTypeRule =>
    case RowIdRule =>
    case XmlTypeRule =>
    case UriTypeRule =>
    case HttpUriTypeRule =>
    case XdbUriTypeRule =>
    case NativeTextRule =>
  }

  /** Two columns of the same type stay of the same type through `setPrecision` then `setScale`. */
  lemma PrecisionThenScaleAgrees(a: Column, b: Column, pp: Option<PrecisionPart>)
    requires TypeOf(a) == TypeOf(b) && pp.Some?
    ensures TypeOf(ThenScale(SetPrecision(a, pp), pp.value).column) == TypeOf(ThenScale(SetPrecision(b, pp), pp.value).column)
  {
  }

  lemma {:induction false} DayToSecondLoopAgrees(a: Column, b: Column, es: seq<IntervalExpression>)
    requires a.jdbcType == b.jdbcType && a.typeName == b.typeName && a.length == b.length && a.scale == b.scale
    ensures var ra := DayToSecondLoop(a, es); var rb := DayToSecondLoop(b, es);
      ra.jdbcType == rb.jdbcType && ra.typeName == rb.typeName && ra.length == rb.length && ra.scale == rb.scale
    decreases |es|
  {
    if es != [] {
      DayToSecondLoopAgrees(a, b, es[..|es| - 1]);
    }
  }
}
