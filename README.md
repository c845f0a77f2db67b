# Oracle column definitions and MySQL-sink statements, in Dafny

This project models two pieces of the openGauss-flavoured Debezium connectors.

**The Oracle DDL column listener** (`ColumnDefinitionParserListener`). It walks a
parsed `column_definition` or `MODIFY` column clause and writes the result
into a column editor and a table editor:

- the column's name, optionality and DEFAULT expression;
- its JDBC type tag, type name, length and scale;
- the constraint descriptors of its inline constraints: CHECK, REFERENCES,
  UNIQUE and PRIMARY KEY;
- the change keys a `MODIFY` reports.

**The MySQL sink's `SqlTools`**. It renders a change record as an INSERT,
UPDATE or DELETE against the replica table, with one entry per column of the
table's metadata. It also recognises `CREATE TABLE` / `ALTER TABLE`
statements.

Layout:

- `plsql_context.dfy` (`PlSql`): the parse-tree contexts the listener reads,
  as datatypes. A token's presence is membership in a keyword set. A
  precision part is its numeric children, its negative numeric and its `*`.
- `relational.dfy` (`Relational`): the column and table values the editors
  build.
- `editors.dfy` (`Editors`): `ColumnEditor` and `TableEditor` as classes with
  mutable fields, one setter per field, and a `Snapshot` function.
- `type_resolution.dfy` (`TypeResolution`): what
  `resolveColumnDataType(DatatypeContext)`, `setPrecision` and `setScale` do to
  a column. The native types are an ordered chain of 25 rules, and
  `FirstMatchingRuleWins` proves that the first applicable rule is the one
  taken.
- `column_rules.dfy` (`ColumnRules`): the column definition, the inline
  constraints and the MODIFY clause as functions of the old column and table.
  The lemmas here cover optionality, constraint replacement and append order,
  MODIFY keys, and the optionality toggle of MODIFY ... NOT NULL as written
  against the idempotence of the intended rule.
- `listener.dfy` (`Listener`): the listener class. Each method updates the
  editors step by step, as the Java does, and its `ensures` ties the new
  editor state to the functions above. These functions model the code as
  written, including the two defects under "## Findings"; the intended
  rules are separate functions with their own lemmas. The long native-type
  chain is split into three consecutive methods.
- `sql_tools.dfy` (`SqlTools`): the value-list loop as a method proved against
  `ValueList`, and the three statement builders proved against
  `InsertSql`/`UpdateSql`/`DeleteSql`. Lemmas cover WHERE conditions,
  the statement structure and the DDL classifier.
- `java_strings.dfy`, `jdbc_types.dfy`, `wrappers.dfy`: the Java string
  operations used (ASCII case mapping, `replace`, `String.join` with null
  items), the `java.sql.Types` / `OracleTypes` constants, and `Option`.

Java exceptions are modelled as values. A null precision part, a missing
numeric child in `setPrecision`, or a missing type name for an unknown type
gives the outcome `Threw(...)`. The column keeps what the setters had written
before the throw, and the listener methods stop where the Java would
propagate the exception. For a missing type name that includes the type tag
STRUCT: the Java chain `jdbcType(Types.STRUCT).type(...)` writes the tag
before it reads the type name.

The code does the following, which its callers might not expect:

- A `NUMBER` without a precision part sets length 38 and leaves the scale as
  it was. It is not set to 0.
- The DELETE conditions for json and point/polygon columns are written
  without blanks: `"c"::jsonb=v` and `"c"~=v`.
- UPDATE's SET list covers every column of the metadata, changed or not.
- The CHECK index name is the `type_name` text when one is present, and
  `CHECK_<NAME>` only without one.

## Model

| member | source | states |
|---|---|---|
| Listener.ColumnDefinitionParserListener.constructor | debezium-connector-oracle/src/main/java/io/debezium/connector/oracle/antlr/listener/ColumnDefinitionParserListener.java:49-56 | the listener holds the given table and column editors |
| Listener.ColumnDefinitionParserListener.SetColumnEditor | debezium-connector-oracle/src/main/java/io/debezium/connector/oracle/antlr/listener/ColumnDefinitionParserListener.java:58-60 | later calls write to the new column editor |
| Listener.ColumnDefinitionParserListener.GetColumn | debezium-connector-oracle/src/main/java/io/debezium/connector/oracle/antlr/listener/ColumnDefinitionParserListener.java:62-64 | returns the column the current editor describes |
| Listener.ColumnDefinitionParserListener.EnterColumnDefinition | debezium-connector-oracle/src/main/java/io/debezium/connector/oracle/antlr/listener/ColumnDefinitionParserListener.java:67-83 | the column becomes `DefinitionColumn` of the old one; on completion the table becomes `DefinitionTable` of the old table (every inline constraint applied in order, by a loop); on a throw the table is untouched, and on the missing-type-name throw the column tag is already STRUCT |
| Listener.ColumnDefinitionParserListener.EnterPrimaryKeyClause | debezium-connector-oracle/src/main/java/io/debezium/connector/oracle/antlr/listener/ColumnDefinitionParserListener.java:86-93 | the column becomes mandatory, is appended to the table's columns, and its name becomes the only primary key name; nothing else in either editor changes |
| Listener.ColumnDefinitionParserListener.EnterInlineConstraint | debezium-connector-oracle/src/main/java/io/debezium/connector/oracle/antlr/listener/ColumnDefinitionParserListener.java:95-155 | the table becomes `ApplyConstraint` of the old table: CHECK, REFERENCES and PRIMARY replace their lists, UNIQUE appends to the unique list |
| Listener.ColumnDefinitionParserListener.EnterModifyColProperties | debezium-connector-oracle/src/main/java/io/debezium/connector/oracle/antlr/listener/ColumnDefinitionParserListener.java:165-177 | the column becomes `ModifyColumn` of the old one: resolved by the rule as written, DEFAULT recorded, change keys replaced by DEFAULT_VALUE_KEY then OPTIONAL_KEY as they apply |
| Listener.ColumnDefinitionParserListener.ResolveColumnDefinitionType | debezium-connector-oracle/src/main/java/io/debezium/connector/oracle/antlr/listener/ColumnDefinitionParserListener.java:180-209 | the column becomes `ResolveColumnDefinition` of the old one, with the same outcome; on the missing-type-name throw the tag STRUCT has been written |
| Listener.ColumnDefinitionParserListener.ResolveModifyColumnType | debezium-connector-oracle/src/main/java/io/debezium/connector/oracle/antlr/listener/ColumnDefinitionParserListener.java:211-230 | the column becomes `ResolveModifyColumn` of the old one (a NULL token, `NOT NULL` included, counts as a NULL constraint), and OPTIONAL_KEY is returned exactly when that function reports a change of optionality |
| Listener.ColumnDefinitionParserListener.ResolveDatatype | debezium-connector-oracle/src/main/java/io/debezium/connector/oracle/antlr/listener/ColumnDefinitionParserListener.java:232-448 | the column and outcome are `TypeResolution.ResolveDatatype` of the old column; the DAY TO SECOND loop keeps the column equal to `DayToSecondLoop` of the expressions seen so far |
| Listener.ColumnDefinitionParserListener.ResolveNativeElement | debezium-connector-oracle/src/main/java/io/debezium/connector/oracle/antlr/listener/ColumnDefinitionParserListener.java:238-311 | the native-type chain as a whole equals `ResolveNative`; the INT family to NCHAR are handled here |
| Listener.ColumnDefinitionParserListener.ResolveNativeFromBinaryFloat | debezium-connector-oracle/src/main/java/io/debezium/connector/oracle/antlr/listener/ColumnDefinitionParserListener.java:312-374 | with no earlier rule applicable, BINARY_FLOAT to RAW give `ResolveNative` |
| Listener.ColumnDefinitionParserListener.ResolveNativeFromSdoGeometry | debezium-connector-oracle/src/main/java/io/debezium/connector/oracle/antlr/listener/ColumnDefinitionParserListener.java:375-421 | with no earlier rule applicable, SDO_GEOMETRY to the fallback give `ResolveNative`, and never throw |
| Listener.ColumnDefinitionParserListener.SetPrecision | debezium-connector-oracle/src/main/java/io/debezium/connector/oracle/antlr/listener/ColumnDefinitionParserListener.java:455-457 | the column and outcome are `TypeResolution.SetPrecision`: the length becomes the first numeric, or the step throws |
| Listener.ColumnDefinitionParserListener.SetScale | debezium-connector-oracle/src/main/java/io/debezium/connector/oracle/antlr/listener/ColumnDefinitionParserListener.java:459-469 | the scale becomes `TypeResolution.SetScale`: the second numeric child, else the negative numeric, else 0 |
| Listener.ColumnDefinitionParserListener.SetTypeOf | debezium-connector-oracle/src/main/java/io/debezium/connector/oracle/antlr/listener/ColumnDefinitionParserListener.java:243 | sets the type tag and the type name and nothing else |
| Editors.ColumnEditor.SetName | debezium-connector-oracle/src/main/java/io/debezium/connector/oracle/antlr/listener/ColumnDefinitionParserListener.java:185 | only the name changes |
| Editors.ColumnEditor.SetJdbcType | debezium-connector-oracle/src/main/java/io/debezium/connector/oracle/antlr/listener/ColumnDefinitionParserListener.java:192 | only the JDBC type tag changes |
| Editors.ColumnEditor.SetType | debezium-connector-oracle/src/main/java/io/debezium/connector/oracle/antlr/listener/ColumnDefinitionParserListener.java:192 | only the type name changes |
| Editors.ColumnEditor.SetLength | debezium-connector-oracle/src/main/java/io/debezium/connector/oracle/antlr/listener/ColumnDefinitionParserListener.java:246 | only the length changes |
| Editors.ColumnEditor.SetScale | debezium-connector-oracle/src/main/java/io/debezium/connector/oracle/antlr/listener/ColumnDefinitionParserListener.java:246 | only the scale changes, to the given value |
| Editors.ColumnEditor.SetOptional | debezium-connector-oracle/src/main/java/io/debezium/connector/oracle/antlr/listener/ColumnDefinitionParserListener.java:188 | only the optionality changes |
| Editors.ColumnEditor.SetDefaultValueExpression | debezium-connector-oracle/src/main/java/io/debezium/connector/oracle/antlr/listener/ColumnDefinitionParserListener.java:70 | only the default expression changes, to the given text |
| Editors.ColumnEditor.SetModifyKeys | debezium-connector-oracle/src/main/java/io/debezium/connector/oracle/antlr/listener/ColumnDefinitionParserListener.java:175 | only the change keys change |
| Editors.TableEditor.AddColumn | debezium-connector-oracle/src/main/java/io/debezium/connector/oracle/antlr/listener/ColumnDefinitionParserListener.java:90 | the column is appended; the rest of the table is unchanged |
| Editors.TableEditor.SetPrimaryKeyNames | debezium-connector-oracle/src/main/java/io/debezium/connector/oracle/antlr/listener/ColumnDefinitionParserListener.java:91 | the primary key names become the one given name |
| Editors.TableEditor.SetUniqueColumns | debezium-connector-oracle/src/main/java/io/debezium/connector/oracle/antlr/listener/ColumnDefinitionParserListener.java:132 | only the unique descriptors change |
| Editors.TableEditor.SetCheckColumns | debezium-connector-oracle/src/main/java/io/debezium/connector/oracle/antlr/listener/ColumnDefinitionParserListener.java:111 | only the check descriptors change |
| Editors.TableEditor.SetForeignKeys | debezium-connector-oracle/src/main/java/io/debezium/connector/oracle/antlr/listener/ColumnDefinitionParserListener.java:117 | only the foreign keys change |
| Editors.TableEditor.SetConstraintChanges | debezium-connector-oracle/src/main/java/io/debezium/connector/oracle/antlr/listener/ColumnDefinitionParserListener.java:150 | only the constraint changes change |
| Editors.TableEditor.SetPrimaryKeyChanges | debezium-connector-oracle/src/main/java/io/debezium/connector/oracle/antlr/listener/ColumnDefinitionParserListener.java:151 | only the primary key changes change |
| TypeResolution.SetPrecision | debezium-connector-oracle/src/main/java/io/debezium/connector/oracle/antlr/listener/ColumnDefinitionParserListener.java:455-457 | throws exactly without a precision part or a numeric, leaving the column as it was; otherwise only the length changes, to the first numeric |
| TypeResolution.ScaleAsWritten | debezium-connector-oracle/src/main/java/io/debezium/connector/oracle/antlr/listener/ColumnDefinitionParserListener.java:459-469 | the scale `setScale` reads: without `*` the declared scale; after `*` with one numeric child and no negative one, 0 |
| TypeResolution.DeclaredScale | debezium-connector-oracle/src/main/java/io/debezium/connector/oracle/antlr/listener/ColumnDefinitionParserListener.java:459-469 | the intended scale: after `*` the first numeric child; with no numeric child the negative numeric, else 0 |
| TypeResolution.SetScale | debezium-connector-oracle/src/main/java/io/debezium/connector/oracle/antlr/listener/ColumnDefinitionParserListener.java:459-469 | only the scale changes, to the scale as written; name, optionality, default, change keys, type and length are kept |
| TypeResolution.ResolveNative | debezium-connector-oracle/src/main/java/io/debezium/connector/oracle/antlr/listener/ColumnDefinitionParserListener.java:238-421 | the native-type chain never touches name, optionality, default or change keys |
| TypeResolution.ResolveDatatype | debezium-connector-oracle/src/main/java/io/debezium/connector/oracle/antlr/listener/ColumnDefinitionParserListener.java:232-448 | type resolution never touches name, optionality, default or change keys |
| TypeResolution.DayToSecondLoop | debezium-connector-oracle/src/main/java/io/debezium/connector/oracle/antlr/listener/ColumnDefinitionParserListener.java:431-438 | the interval loop changes only length and scale |
| TypeResolution.DeclaredScaleIsWrittenScale | debezium-connector-oracle/src/main/java/io/debezium/connector/oracle/antlr/listener/ColumnDefinitionParserListener.java:459-469 | for every precision written in DDL (`p`, `p, s`, `*`, `*, s`, negative `s`), the scale read is the scale written, 0 when none is |
| TypeResolution.ScaleAsWrittenDropsScaleAfterStar | debezium-connector-oracle/src/main/java/io/debezium/connector/oracle/antlr/listener/ColumnDefinitionParserListener.java:459-469 | as written, `(*, 2)` has one numeric child and `setScale` reads scale 0; the corrected reading gives 2 |
| TypeResolution.ScaleAsWrittenVersusDeclared | debezium-connector-oracle/src/main/java/io/debezium/connector/oracle/antlr/listener/ColumnDefinitionParserListener.java:459-469 | for every written precision, the scale as read is the written one except after `*` with a scale of 0 or more, where it is 0; the two readings differ exactly for `*` with a positive scale |
| TypeResolution.FirstMatchingRuleWins | debezium-connector-oracle/src/main/java/io/debezium/connector/oracle/antlr/listener/ColumnDefinitionParserListener.java:238-421 | the chain picks rule r exactly when r's tokens are present and no earlier rule's are |
| TypeResolution.DayToSecondLoopScale | debezium-connector-oracle/src/main/java/io/debezium/connector/oracle/antlr/listener/ColumnDefinitionParserListener.java:431-438 | the loop leaves the scale to the last expression after TO, or unchanged when there is none |
| TypeResolution.OutcomeIgnoresColumn | debezium-connector-oracle/src/main/java/io/debezium/connector/oracle/antlr/listener/ColumnDefinitionParserListener.java:232-448 | whether resolution throws depends on the datatype only |
| TypeResolution.ThrowsOnlyWithoutPrecisionNumeric | debezium-connector-oracle/src/main/java/io/debezium/connector/oracle/antlr/listener/ColumnDefinitionParserListener.java:238-374 | resolution throws exactly for a RAW without precision part, or a precision part without numeric on a rule that calls `setPrecision` (NUMBER only without `*`) |
| TypeResolution.NumericFamilyWithoutPrecision | debezium-connector-oracle/src/main/java/io/debezium/connector/oracle/antlr/listener/ColumnDefinitionParserListener.java:239-247 | INT, INTEGER, SMALLINT, NUMERIC and DECIMAL without a precision part give NUMERIC "NUMBER", length 38, scale 0 |
| TypeResolution.NumericFamilyWithPrecision | debezium-connector-oracle/src/main/java/io/debezium/connector/oracle/antlr/listener/ColumnDefinitionParserListener.java:248-251 | with a precision part that has a numeric, the length is the first numeric and the scale the second, else the negative numeric, else 0; so `DECIMAL(*, 2)` gets length 2 and scale 0 |
| TypeResolution.NumberRuleLengthAndScale | debezium-connector-oracle/src/main/java/io/debezium/connector/oracle/antlr/listener/ColumnDefinitionParserListener.java:333-349 | NUMBER: no precision part gives length 38 with the scale unchanged; `*` gives length 38 and the scale as `setScale` reads it; otherwise the first numeric and that scale |
| TypeResolution.NumberFromWrittenPrecision | debezium-connector-oracle/src/main/java/io/debezium/connector/oracle/antlr/listener/ColumnDefinitionParserListener.java:333-349 | `NUMBER(p, s)` gives length p and scale s (0 when absent); `NUMBER(*, s)` gives length 38 and scale 0 for s of 0 or more, s for a negative s |
| TypeResolution.TimestampVariants | debezium-connector-oracle/src/main/java/io/debezium/connector/oracle/antlr/listener/ColumnDefinitionParserListener.java:257-276 | the three TIMESTAMP types by WITH/TIME/ZONE/LOCAL, length 6 unless a precision is given, scale kept |
| TypeResolution.DefaultLengths | debezium-connector-oracle/src/main/java/io/debezium/connector/oracle/antlr/listener/ColumnDefinitionParserListener.java:277-327 | default lengths 4000 (VARCHAR2, VARCHAR, NVARCHAR2), 1 (CHAR, NCHAR), 126 (FLOAT, DOUBLE PRECISION), each replaced by a written precision |
| TypeResolution.VarcharIsVarchar2 | debezium-connector-oracle/src/main/java/io/debezium/connector/oracle/antlr/listener/ColumnDefinitionParserListener.java:277-287 | VARCHAR and VARCHAR2 both give VARCHAR "VARCHAR2" |
| TypeResolution.RealIsAlways63 | debezium-connector-oracle/src/main/java/io/debezium/connector/oracle/antlr/listener/ColumnDefinitionParserListener.java:328-332 | REAL is FLOAT with length 63 whatever precision is written |
| TypeResolution.DoubleWithoutPrecisionIsNotFloat | debezium-connector-oracle/src/main/java/io/debezium/connector/oracle/antlr/listener/ColumnDefinitionParserListener.java:318-320 | DOUBLE alone does not take the FLOAT rule and falls through to OTHER with the element's text |
| TypeResolution.LongAndRaw | debezium-connector-oracle/src/main/java/io/debezium/connector/oracle/antlr/listener/ColumnDefinitionParserListener.java:356-374 | LONG RAW vs LONG by the RAW token; RAW without a precision part throws after setting VARBINARY "RAW" |
| TypeResolution.TypeOnlyRulesKeepLengthAndScale | debezium-connector-oracle/src/main/java/io/debezium/connector/oracle/antlr/listener/ColumnDefinitionParserListener.java:253-421 | DATE, BINARY_FLOAT, BINARY_DOUBLE, BLOB, CLOB, LONG, SDO_TOPO_GEOMETRY, SDO_LIST_TYPE, ROWID and the fallback keep length and scale |
| TypeResolution.IntervalYearToMonthLength | debezium-connector-oracle/src/main/java/io/debezium/connector/oracle/antlr/listener/ColumnDefinitionParserListener.java:423-428 | INTERVAL YEAR TO MONTH: length 2, or the first expression's value; scale kept |
| TypeResolution.IntervalDayToSecondLengthAndScale | debezium-connector-oracle/src/main/java/io/debezium/connector/oracle/antlr/listener/ColumnDefinitionParserListener.java:429-442 | INTERVAL DAY TO SECOND: length ends as the first expression's value (2 without one); scale is the last expression after TO (6 without one) |
| TypeResolution.NoNativeNoIntervalIsStruct | debezium-connector-oracle/src/main/java/io/debezium/connector/oracle/antlr/listener/ColumnDefinitionParserListener.java:443-447 | any other datatype gives STRUCT "OTHER" |
| ColumnRules.DefinitionOptionalityAndDefault | debezium-connector-oracle/src/main/java/io/debezium/connector/oracle/antlr/listener/ColumnDefinitionParserListener.java:67-71 | the column is named by the helper, is optional exactly when no inline constraint has NOT, keeps its change keys, and takes the DEFAULT text when given |
| ColumnRules.DefinitionWithoutTypeThrows | debezium-connector-oracle/src/main/java/io/debezium/connector/oracle/antlr/listener/ColumnDefinitionParserListener.java:200-204 | no datatype and no type name throws `NoTypeName`; the type tag is already STRUCT, while the type name, length, scale and DEFAULT expression are as before |
| ColumnRules.DefinitionTypeNames | debezium-connector-oracle/src/main/java/io/debezium/connector/oracle/antlr/listener/ColumnDefinitionParserListener.java:190-205 | the MDSYS names are tried in order ignoring case: SDO_GEOMETRY and SDO_TOPO_GEOMETRY give OTHER, SDO_LIST_TYPE gives ARRAY, each with its `MDSYS.` name; any other type name gives STRUCT with the name upper-cased; length and scale kept |
| ColumnRules.GeneratedCheckName | debezium-connector-oracle/src/main/java/io/debezium/connector/oracle/antlr/listener/ColumnDefinitionParserListener.java:76 | a generated CHECK name is `CHECK_` followed by the column name's characters other than `_`, in order, each upper-cased; no underscore or lower-case letter remains |
| ColumnRules.ApplyConstraints | debezium-connector-oracle/src/main/java/io/debezium/connector/oracle/antlr/listener/ColumnDefinitionParserListener.java:80 | inline constraints never touch the table id, its columns or its primary key names |
| ColumnRules.UniqueColumnsAppended | debezium-connector-oracle/src/main/java/io/debezium/connector/oracle/antlr/listener/ColumnDefinitionParserListener.java:121-133 | each UNIQUE appends one descriptor, named by its constraint name or `<table>_<column>_key`, after those already there, in order |
| ColumnRules.LastConstraintOfKindWins | debezium-connector-oracle/src/main/java/io/debezium/connector/oracle/antlr/listener/ColumnDefinitionParserListener.java:100-152 | CHECK, REFERENCES and PRIMARY descriptors are those of the last constraint of that kind, or unchanged when there is none |
| ColumnRules.LastConstraintRecords | debezium-connector-oracle/src/main/java/io/debezium/connector/oracle/antlr/listener/ColumnDefinitionParserListener.java:100-152 | what one CHECK, REFERENCES or PRIMARY constraint records, including the constraint change only for a named PRIMARY KEY |
| ColumnRules.ModifyOptionalityAsWrittenFlipsBack | debezium-connector-oracle/src/main/java/io/debezium/connector/oracle/antlr/listener/ColumnDefinitionParserListener.java:218-227 | as written, `NOT NULL` makes an optional column mandatory and a mandatory one optional, reporting OPTIONAL_KEY both times; the intended rule leaves a mandatory column alone |
| ColumnRules.ModifyOptionalityAsWritten | debezium-connector-oracle/src/main/java/io/debezium/connector/oracle/antlr/listener/ColumnDefinitionParserListener.java:218-229 | as written: NOT inverts the optionality (NOT implies a NULL token); NULL alone makes the column optional; without NULL it is kept; OPTIONAL_KEY exactly when it changed |
| ColumnRules.ModifyOptionality | debezium-connector-oracle/src/main/java/io/debezium/connector/oracle/antlr/listener/ColumnDefinitionParserListener.java:218-229 | intended rule: NOT NULL makes the column mandatory, NULL alone optional, neither keeps it; OPTIONAL_KEY exactly when it changed |
| ColumnRules.ModifyNameAndType | debezium-connector-oracle/src/main/java/io/debezium/connector/oracle/antlr/listener/ColumnDefinitionParserListener.java:212-216 | the MODIFY column is renamed by the helper and resolved; optionality, default and change keys are kept |
| ColumnRules.ResolveModifyColumn | debezium-connector-oracle/src/main/java/io/debezium/connector/oracle/antlr/listener/ColumnDefinitionParserListener.java:211-230 | the column is renamed, keeps its default and change keys, and OPTIONAL_KEY is returned exactly when the optionality changed (never on a throw) |
| ColumnRules.IntendedResolveModifyColumn | debezium-connector-oracle/src/main/java/io/debezium/connector/oracle/antlr/listener/ColumnDefinitionParserListener.java:211-230 | the same properties for the intended optionality rule |
| ColumnRules.ModifyOptionalityIsIdempotent | debezium-connector-oracle/src/main/java/io/debezium/connector/oracle/antlr/listener/ColumnDefinitionParserListener.java:218-229 | applying the intended rule again changes nothing and reports nothing |
| ColumnRules.ModifyReportsRealChanges | debezium-connector-oracle/src/main/java/io/debezium/connector/oracle/antlr/listener/ColumnDefinitionParserListener.java:165-177 | for the rule as written and for the intended one, DEFAULT_VALUE_KEY is reported exactly when DEFAULT is given, OPTIONAL_KEY exactly when the optionality changed |
| ColumnRules.ResolveDatatypeIsIdempotent | debezium-connector-oracle/src/main/java/io/debezium/connector/oracle/antlr/listener/ColumnDefinitionParserListener.java:232-448 | resolving a completed column again with the same datatype gives the same result |
| ColumnRules.ResolveNativeIsIdempotent | debezium-connector-oracle/src/main/java/io/debezium/connector/oracle/antlr/listener/ColumnDefinitionParserListener.java:238-421 | the same for every rule of the native chain |
| ColumnRules.ModifyNotNullToggles | debezium-connector-oracle/src/main/java/io/debezium/connector/oracle/antlr/listener/ColumnDefinitionParserListener.java:165-230 | as written, a MODIFY with NOT NULL toggles the optionality each time it is applied and reports OPTIONAL_KEY both times |
| ColumnRules.IntendedModifyIsIdempotent | debezium-connector-oracle/src/main/java/io/debezium/connector/oracle/antlr/listener/ColumnDefinitionParserListener.java:165-230 | with the intended rule, applying the same MODIFY twice gives the same column and no OPTIONAL_KEY the second time |
| ColumnRules.ResolveDatatypeAgreesOffIdentity | debezium-connector-oracle/src/main/java/io/debezium/connector/oracle/antlr/listener/ColumnDefinitionParserListener.java:232-448 | the type fields after resolution depend only on the type fields before it |
| ColumnRules.ResolveNativeAgreesOffIdentity | debezium-connector-oracle/src/main/java/io/debezium/connector/oracle/antlr/listener/ColumnDefinitionParserListener.java:238-421 | the same for the native chain |
| ColumnRules.DayToSecondLoopAgrees | debezium-connector-oracle/src/main/java/io/debezium/connector/oracle/antlr/listener/ColumnDefinitionParserListener.java:431-438 | the same for the interval loop |
| JavaStrings.ToLowerCase | debezium-connector-mysql/src/main/java/io/debezium/connector/mysql/sink/util/SqlTools.java:138-139 | same length, every character lower-cased |
| JavaStrings.ToUpperCase | debezium-connector-oracle/src/main/java/io/debezium/connector/oracle/antlr/listener/ColumnDefinitionParserListener.java:203 | same length, every character upper-cased |
| JavaStrings.RemoveAll | debezium-connector-oracle/src/main/java/io/debezium/connector/oracle/antlr/listener/ColumnDefinitionParserListener.java:76 | no occurrence of the character is left, nothing else is added, and a string without it is returned unchanged |
| JavaStrings.RemoveAllConcat | debezium-connector-oracle/src/main/java/io/debezium/connector/oracle/antlr/listener/ColumnDefinitionParserListener.java:76 | removal distributes over concatenation, so the kept characters stay in their order |
| JavaStrings.RemoveAllOneCharacter | debezium-connector-oracle/src/main/java/io/debezium/connector/oracle/antlr/listener/ColumnDefinitionParserListener.java:76 | on one character, the removed character disappears and any other is kept |
| JavaStrings.JoinSnoc | debezium-connector-mysql/src/main/java/io/debezium/connector/mysql/sink/util/SqlTools.java:66 | joining one more item appends the separator and that item (a null item as `null`) |
| JavaStrings.JoinAt | debezium-connector-mysql/src/main/java/io/debezium/connector/mysql/sink/util/SqlTools.java:66 | each item of a `String.join` appears at its place, after the joined items before it and a separator, and before a separator and the joined items after it; a null item reads `null` |
| JavaStrings.JoinLength | debezium-connector-mysql/src/main/java/io/debezium/connector/mysql/sink/util/SqlTools.java:66 | the joined length is the items' lengths plus one separator per neighbouring pair |
| SqlTools.ValueList | debezium-connector-mysql/src/main/java/io/debezium/connector/mysql/sink/util/SqlTools.java:95-129 | one entry per column, in column order, each the column's entry for the operation; UPDATE and DELETE entries are never null |
| SqlTools.Entry | debezium-connector-mysql/src/main/java/io/debezium/connector/mysql/sink/util/SqlTools.java:101-127 | no contract of its own; what each column contributes is stated by the `ValueList` ensures and by `WhereConditionOperators` |
| SqlTools.WhereCondition | debezium-connector-mysql/src/main/java/io/debezium/connector/mysql/sink/util/SqlTools.java:112-125 | no contract of its own; its four renderings are stated by `WhereConditionOperators`, and that it determines the value by `WhereConditionDeterminesValue` |
| SqlTools.GetValueList | debezium-connector-mysql/src/main/java/io/debezium/connector/mysql/sink/util/SqlTools.java:95-129 | the loop builds exactly `ValueList` |
| SqlTools.GetInsertSql | debezium-connector-mysql/src/main/java/io/debezium/connector/mysql/sink/util/SqlTools.java:61-69 | `insert into "s"."t" values (v1, ..., vn);` with the CREATE value list |
| SqlTools.GetUpdateSql | debezium-connector-mysql/src/main/java/io/debezium/connector/mysql/sink/util/SqlTools.java:71-83 | `update "s"."t" set ... where ...;` with SET from the new row and WHERE from the old |
| SqlTools.GetDeleteSql | debezium-connector-mysql/src/main/java/io/debezium/connector/mysql/sink/util/SqlTools.java:85-93 | `delete from "s"."t" where c1 and ... ;` with the DELETE conditions of the old row |
| SqlTools.IsCreateOrAlterTableStatement | debezium-connector-mysql/src/main/java/io/debezium/connector/mysql/sink/util/SqlTools.java:137-140 | true exactly when the first 12 characters lower-case to `create table` or the first 11 to `alter table` |
| SqlTools.WhereConditionStartsWithColumn | debezium-connector-mysql/src/main/java/io/debezium/connector/mysql/sink/util/SqlTools.java:112-125 | every condition starts with the quoted column name |
| SqlTools.NullConditionDiffers | debezium-connector-mysql/src/main/java/io/debezium/connector/mysql/sink/util/SqlTools.java:113-124 | an `is null` condition is never a comparison |
| SqlTools.ComparisonDeterminesValue | debezium-connector-mysql/src/main/java/io/debezium/connector/mysql/sink/util/SqlTools.java:116-124 | two comparisons on one column are equal only for equal values |
| SqlTools.WhereConditionDeterminesValue | debezium-connector-mysql/src/main/java/io/debezium/connector/mysql/sink/util/SqlTools.java:112-125 | for one column, two conditions are equal exactly when their values (null included) are |
| SqlTools.WhereConditionOperators | debezium-connector-mysql/src/main/java/io/debezium/connector/mysql/sink/util/SqlTools.java:112-125 | null gives `is null` on any type; json `::jsonb=`; point and polygon `~=`; every other type ` = ` |
| SqlTools.JsonTypeIsCaseSensitive | debezium-connector-mysql/src/main/java/io/debezium/connector/mysql/sink/util/SqlTools.java:116 | a column typed `JSON` is compared with ` = ` |
| SqlTools.UpdateAndDeleteShareWhereClause | debezium-connector-mysql/src/main/java/io/debezium/connector/mysql/sink/util/SqlTools.java:71-93 | an UPDATE ends with the WHERE clause the DELETE of its old row ends with |
| SqlTools.ValueListSnoc | debezium-connector-mysql/src/main/java/io/debezium/connector/mysql/sink/util/SqlTools.java:101-127 | appending a column appends exactly its entry |
| SqlTools.InsertValuesForOneMoreColumn | debezium-connector-mysql/src/main/java/io/debezium/connector/mysql/sink/util/SqlTools.java:61-69 | a table with one more column inserts one more value after `, ` |
| SqlTools.InsertOfNullValue | debezium-connector-mysql/src/main/java/io/debezium/connector/mysql/sink/util/SqlTools.java:106-108 | in a table of any width, a column whose value is null is inserted as the literal `null`, at that column's place between the values before and after it |
| SqlTools.CreateOrAlterIgnoresCase | debezium-connector-mysql/src/main/java/io/debezium/connector/mysql/sink/util/SqlTools.java:137-140 | lower-casing first does not change the classification |
| SqlTools.CreateOrAlterIsPrefixClosed | debezium-connector-mysql/src/main/java/io/debezium/connector/mysql/sink/util/SqlTools.java:137-140 | anything may follow a recognised prefix |
| SqlTools.UpperCaseCreateIsRecognised | debezium-connector-mysql/src/main/java/io/debezium/connector/mysql/sink/util/SqlTools.java:137-140 | `CREATE TABLE` is recognised |
| SqlTools.MixedCaseAlterIsRecognised | debezium-connector-mysql/src/main/java/io/debezium/connector/mysql/sink/util/SqlTools.java:137-140 | `Alter Table` is recognised |
| SqlTools.CreateOrAlterIsLiteral | debezium-connector-mysql/src/main/java/io/debezium/connector/mysql/sink/util/SqlTools.java:137-140 | a leading blank, a doubled blank and `create index` are not recognised |
| SqlTools.QualifiedNameIsNotEscaped | debezium-connector-mysql/src/main/java/io/debezium/connector/mysql/sink/util/SqlTools.java:63-64 | quotes inside names are not escaped, so two different tables can give the same qualified name |

## Left out

- JDBC access in `SqlTools` is not modelled: the constructor, `getTableMetaData`, `getXlogLocation` and `closeConnection` are database I/O. Table metadata is an input, and a `null` metadata from a failed query is not modelled.
- `DebeziumValueConverters.getValue` is not part of this model. It is the parameter `convert`, and `None` stands for a null result.
- The ANTLR parse tree and the `BaseParserListener` helpers (`getColumnName`, `getTableOrColumnName`, `Logical_expression_parse`, `enterInline_ref_constraint`) are not part of this model. They are uninterpreted functions in `PlSql.Helpers`, and the contexts are datatypes holding what the listener reads.
- The `super.enter...` calls are listener chaining with no effect modelled here. The `parser`, `dataTypeResolver` and `listeners` fields are never read by the modelled methods, so they are left out.
- `Integer.valueOf` on numeric texts is not modelled: numerics and interval expressions arrive as integers, so a `NumberFormatException` is out of scope.
- The `column_name() == null` early return (line 181) is not modelled: the grammar always gives a column definition a column name.
- JavaStrings.ToLowerCase, JavaStrings.ToUpperCase, JavaStrings.EqualsIgnoreCase: the case mapping of `toLowerCase`, `toUpperCase` and `equalsIgnoreCase` covers ASCII letters only. The model therefore differs from Java for non-ASCII letters in a column name (the `CHECK_<NAME>` index name), in a STRUCT type name (upper-cased), in the MDSYS type-name comparison and in the DDL classifier.
- `ColumnEditor` and `TableEditor` come from the Debezium core and are not part of this model. They are plain field holders. `TableEditor.addColumn` is modelled as an append, without the real editor's replacement of a column of the same name.
- Constraint descriptors (the `HashMap<String, String>` entries) are datatypes with the same keys as fields. Foreign-key maps stay as the helper returns them.
- Logging is not modelled.
- The INT family with `*` (`DECIMAL(*, 2)`) is modelled as written: `setPrecision` reads the first numeric child, which is the scale, and `setScale` then reads 0.
- `INTERVAL DAY TO SECOND(3)` is modelled as written: the final `expression(0)` assignment leaves the length at 3, although the loop assigned the last value after TO to the scale.

## Findings

| source | as written | input that shows it | evidently intended | confidence | as-written member | corrected member |
|---|---|---|---|---|---|---|
| debezium-connector-oracle/src/main/java/io/debezium/connector/oracle/antlr/listener/ColumnDefinitionParserListener.java:218-229 | a NULL token anywhere in the constraints counts as a NULL constraint, and `NOT NULL` carries a NULL token too | `MODIFY (c NOT NULL)` on a column that is already NOT NULL: the first test fails (not optional), the second holds, so the column becomes optional and OPTIONAL_KEY is reported | `NOT NULL` never makes a column optional; NULL counts only without NOT | not executed | ColumnRules.ModifyOptionalityAsWritten | ColumnRules.ModifyOptionality |
| debezium-connector-oracle/src/main/java/io/debezium/connector/oracle/antlr/listener/ColumnDefinitionParserListener.java:459-469 | the scale is read from the second numeric child | `NUMBER(*, 2)`: after `*` the scale 2 is the only numeric child, so the scale becomes 0 | the scale written after the comma, also after `*` | not executed | TypeResolution.ScaleAsWritten | TypeResolution.DeclaredScale |
