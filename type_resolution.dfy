/**
 * What `resolveColumnDataType(DatatypeContext)` does to a column: the
 * ordered chain of native-type rules (first matching rule wins), the
 * interval types, and the fallback to STRUCT "OTHER".  Every rule sets a JDBC
 * type tag and a type name and sets only some of length and scale; the rest
 * of the column is left as it was.
 */
module TypeResolution {
  import opened Wrappers
  import opened PlSql
  import opened Relational
  import J = JdbcTypes

  /** The exceptions the listener can raise: a null precision part or a missing numeric child dereferenced in `setPrecision`, a missing type name dereferenced for an unknown type. */
  datatype Failure = NoPrecisionPart | NoPrecisionNumeric | NoTypeName

  /** Whether a listener step ran to its end or threw. */
  datatype Outcome = Completed | Threw(failure: Failure)

  /** The column reached by a step, and how the step ended; on a throw, the column holds what the setters had done before it. */
  datatype Step = Step(column: Column, outcome: Outcome)

  function Done(c: Column): Step { Step(c, Completed) }

  /** `getVarCharDefaultLength()` */
  const VarCharDefaultLength: int := 4000

  /** The fields type resolution never touches are those of `c`. */
  predicate KeepsIdentity(c: Column, r: Column) {
    r.name == c.name && r.optional == c.optional &&
    r.defaultValueExpression == c.defaultValueExpression && r.modifyKeys == c.modifyKeys
  }

  // ---------------------------------------------------------------- precision and scale

  /** `setPrecision`: the length becomes the first numeric child; a missing child, or a missing precision part, throws. */
  function SetPrecision(c: Column, pp: Option<PrecisionPart>): (r: Step)
    ensures KeepsIdentity(c, r.column)
    ensures r.outcome.Threw? <==> pp.None? || |pp.value.numerics| == 0
    ensures r.outcome.Threw? ==> r.column == c
    ensures r.outcome.Completed? ==> r.column == c.(length := pp.value.numerics[0])
  {
    if pp.None? then Step(c, Threw(NoPrecisionPart))
    else if |pp.value.numerics| == 0 then Step(c, Threw(NoPrecisionNumeric))
    else Done(c.(length := pp.value.numerics[0]))
  }

  /**
   * `setScale` as written: the second numeric child, else the negative
   * numeric, else 0.  Without `*` this is the declared scale; after `*` a
   * scale of 0 or more is the only numeric child and is read as 0.
   */
  function ScaleAsWritten(pp: PrecisionPart): (r: int)
    ensures !pp.asterisk ==> r == DeclaredScale(pp)
    ensures pp.asterisk && |pp.numerics| == 1 && pp.negative.None? ==> r == 0
  {
    if |pp.numerics| > 1 then pp.numerics[1]
    else if pp.negative.Some? then pp.negative.value
    else 0
  }

  /**
   * The scale the precision part declares: the numeric after the comma, else
   * the negative numeric, else 0.  After `*` the numeric after the comma is
   * the first numeric child, not the second.
   */
  function DeclaredScale(pp: PrecisionPart): (r: int)
    ensures pp.asterisk && |pp.numerics| > 0 ==> r == pp.numerics[0]
    ensures pp.numerics == [] ==> r == pp.negative.GetOr(0)
  {
    var at := if pp.asterisk then 0 else 1;
    if |pp.numerics| > at then pp.numerics[at]
    else if pp.negative.Some? then pp.negative.value
    else 0
  }

  /** `setScale`: only the scale changes, to the scale as the source reads it. */
  function SetScale(c: Column, pp: PrecisionPart): (r: Column)
    ensures KeepsIdentity(c, r) && TypeOf(r) == TypeOf(c).(3 := Some(ScaleAsWritten(pp)))
  {
    c.(scale := Some(ScaleAsWritten(pp)))
  }

  /** The part of a column that type resolution writes. */
  function TypeOf(c: Column): (int, string, int, Option<int>) {
    (c.jdbcType, c.typeName, c.length, c.scale)
  }

  /** A precision part as written in the DDL: a precision or `*`, and an optional scale. */
  datatype PrecisionHead = Digits(n: nat) | Star
  datatype WrittenPrecision = WrittenPrecision(head: PrecisionHead, scale: Option<int>)

  /** The `precision_part` the grammar builds for a written precision: unsigned numbers are `numeric` children, a negative scale is the `numeric_negative` child. */
  function Parsed(w: WrittenPrecision): PrecisionPart {
    PrecisionPart(
      (if w.head.Digits? then [w.head.n] else []) +
      (if w.scale.Some? && w.scale.value >= 0 then [w.scale.value as nat] else []),
      if w.scale.Some? && w.scale.value < 0 then w.scale else None,
      w.head.Star?)
  }

  /** The scale read from a parsed precision part is the scale that was written, 0 when none was. */
  lemma DeclaredScaleIsWrittenScale(w: WrittenPrecision)
    ensures DeclaredScale(Parsed(w)) == w.scale.GetOr(0)
  {
  }

  /** `setScale` as written reads `NUMBER(*, 2)` as scale 0: after `*` the scale is the only numeric child. */
  lemma ScaleAsWrittenDropsScaleAfterStar()
    ensures Parsed(WrittenPrecision(Star, Some(2))) == PrecisionPart([2], None, true)
    ensures ScaleAsWritten(Parsed(WrittenPrecision(Star, Some(2)))) == 0
    ensures DeclaredScale(Parsed(WrittenPrecision(Star, Some(2)))) == 2
  {
  }

  /**
   * The source's reading and the declared scale differ exactly for `*`
   * followed by a scale other than 0 and not negative: there the source
   * reads 0.
   */
  lemma ScaleAsWrittenVersusDeclared(w: WrittenPrecision)
    ensures ScaleAsWritten(Parsed(w)) ==
      if w.head.Star? && w.scale.Some? && w.scale.value >= 0 then 0 else w.scale.GetOr(0)
    ensures ScaleAsWritten(Parsed(w)) != DeclaredScale(Parsed(w)) <==>
      w.head.Star? && w.scale.Some? && w.scale.value > 0
  {
    DeclaredScaleIsWrittenScale(w);
  }

  // ---------------------------------------------------------------- the ordered rule chain

  /** The branches of the native-type chain, in the order the chain tries them. */
  datatype Rule =
    | NumericFamilyRule | DateRule | TimestampRule | Varchar2Rule | NVarchar2Rule
    | CharRule | NCharRule | BinaryFloatRule | BinaryDoubleRule | FloatRule | RealRule
    | NumberRule | BlobRule | ClobRule | LongRule | RawRule | SdoGeometryRule
    | SdoTopoGeometryRule | SdoListTypeRule | RowIdRule | XmlTypeRule | UriTypeRule
    | HttpUriTypeRule | XdbUriTypeRule | NativeTextRule

  predicate NumericFamily(k: set<NativeKeyword>) {
    Int in k || Integer in k || SmallInt in k || Numeric in k || Decimal in k
  }

  /** The guard of each rule: which tokens make it applicable. */
  predicate Matches(r: Rule, k: set<NativeKeyword>) {
    match r
    case NumericFamilyRule => NumericFamily(k)
    case DateRule => Date in k
    case TimestampRule => Timestamp in k
    case Varchar2Rule => Varchar2 in k || Varchar in k
    case NVarchar2Rule => NVarchar2 in k
    case CharRule => Char in k
    case NCharRule => NChar in k
    case BinaryFloatRule => BinaryFloat in k
    case BinaryDoubleRule => BinaryDouble in k
    case FloatRule => Float in k || (Double in k && Precision in k)
    case RealRule => Real in k
    case NumberRule => Number in k
    case BlobRule => Blob in k
    case ClobRule => Clob in k
    case LongRule => Long in k
    case RawRule => Raw in k
    case SdoGeometryRule => SdoGeometry in k
    case SdoTopoGeometryRule => SdoTopoGeometry in k
    case SdoListTypeRule => SdoListType in k
    case RowIdRule => RowId in k
    case XmlTypeRule => XmlType in k
    case UriTypeRule => UriType in k
    case HttpUriTypeRule => HttpUriType in k
    case XdbUriTypeRule => XdbUriType in k
    case NativeTextRule => true
  }

  /** The position of each rule in the chain. */
  function Rank(r: Rule): nat {
    match r
    case NumericFamilyRule => 0
    case DateRule => 1
    case TimestampRule => 2
    case Varchar2Rule => 3
    case NVarchar2Rule => 4
    case CharRule => 5
    case NCharRule => 6
    case BinaryFloatRule => 7
    case BinaryDoubleRule => 8
    case FloatRule => 9
    case RealRule => 10
    case NumberRule => 11
    case BlobRule => 12
    case ClobRule => 13
    case LongRule => 14
    case RawRule => 15
    case SdoGeometryRule => 16
    case SdoTopoGeometryRule => 17
    case SdoListTypeRule => 18
    case RowIdRule => 19
    case XmlTypeRule => 20
    case UriTypeRule => 21
    case HttpUriTypeRule => 22
    case XdbUriTypeRule => 23
    case NativeTextRule => 24
  }

  /** The if/else chain over the tokens of a native element. */
  function RuleFor(k: set<NativeKeyword>): Rule {
    if NumericFamily(k) then NumericFamilyRule
    else if Date in k then DateRule
    else if Timestamp in k then TimestampRule
    else if Varchar2 in k || Varchar in k then Varchar2Rule
    else if NVarchar2 in k then NVarchar2Rule
    else if Char in k then CharRule
    else if NChar in k then NCharRule
    else if BinaryFloat in k then BinaryFloatRule
    else if BinaryDouble in k then BinaryDoubleRule
    else if Float in k || (Double in k && Precision in k) then FloatRule
    else if Real in k then RealRule
    else if Number in k then NumberRule
    else if Blob in k then BlobRule
    else if Clob in k then ClobRule
    else if Long in k then LongRule
    else if Raw in k then RawRule
    else if SdoGeometry in k then SdoGeometryRule
    else if SdoTopoGeometry in k then SdoTopoGeometryRule
    else if SdoListType in k then SdoListTypeRule
    else if RowId in k then RowIdRule
    else if XmlType in k then XmlTypeRule
    else if UriType in k then UriTypeRule
    else if HttpUriType in k then HttpUriTypeRule
    else if XdbUriType in k then XdbUriTypeRule
    else NativeTextRule
  }

  /** No rule before `r` in the chain applies. */
  predicate NoEarlierMatch(r: Rule, k: set<NativeKeyword>) {
    forall q :: Rank(q) < Rank(r) ==> !Matches(q, k)
  }

  lemma RankIsInjective(a: Rule, b: Rule)
    requires Rank(a) == Rank(b)
    ensures a == b
  {
  }

  /** The chain picks exactly the first applicable rule. */
  lemma {:induction false} FirstMatchingRuleWins(k: set<NativeKeyword>, r: Rule)
    ensures RuleFor(k) == r <==> Matches(r, k) && NoEarlierMatch(r, k)
  {
    var p := RuleFor(k);
    assert Matches(p, k);
    forall q | Rank(q) < Rank(p) ensures !Matches(q, k) {
    }
    if Matches(r, k) && NoEarlierMatch(r, k) && Rank(p) == Rank(r) {
      RankIsInjective(p, r);
    }
  }

  // ---------------------------------------------------------------- applying a rule

  function SetType(c: Column, jdbcType: int, typeName: string): (r: Column)
    ensures KeepsIdentity(c, r)
  {
    c.(jdbcType := jdbcType, typeName := typeName)
  }

  /** A failed `setPrecision` stops the step; otherwise `setScale` follows. */
  function ThenScale(s: Step, pp: PrecisionPart): (r: Step)
    ensures KeepsIdentity(s.column, r.column)
  {
    if s.outcome.Threw? then s else Done(SetScale(s.column, pp))
  }

  /** The TIMESTAMP variants: WITH, TIME and ZONE together select a zoned type, LOCAL the local one. */
  function TimestampType(c: Column, kw: set<DatatypeKeyword>): Column {
    if With in kw && Time in kw && Zone in kw then
      if Local in kw then SetType(c, J.TIMESTAMPLTZ, "TIMESTAMP WITH LOCAL TIME ZONE")
      else SetType(c, J.TIMESTAMPTZ, "TIMESTAMP WITH TIME ZONE")
    else SetType(c, J.TIMESTAMP, "TIMESTAMP")
  }

  /** A rule whose explicit precision, when present, overrides the default length already set. */
  function PrecisionOr(c: Column, pp: Option<PrecisionPart>): (r: Step)
    ensures KeepsIdentity(c, r.column)
  {
    if pp.None? then Done(c) else SetPrecision(c, pp)
  }

  function ResolveNative(c: Column, e: NativeElement, dt: Datatype): (r: Step)
    ensures KeepsIdentity(c, r.column)
  {
    var pp := dt.precision;
    match RuleFor(e.keywords)
    case NumericFamilyRule =>
      var c1 := SetType(c, J.NUMERIC, "NUMBER");
      if pp.None? then Done(c1.(length := 38, scale := Some(0)))
      else ThenScale(SetPrecision(c1, pp), pp.value)
    case DateRule => Done(SetType(c, J.TIMESTAMP, "DATE"))
    case TimestampRule => PrecisionOr(TimestampType(c, dt.keywords).(length := if pp.None? then 6 else c.length), pp)
    case Varchar2Rule =>
      PrecisionOr(SetType(c, J.VARCHAR, "VARCHAR2").(length := if pp.None? then VarCharDefaultLength else c.length), pp)
    case NVarchar2Rule =>
      PrecisionOr(SetType(c, J.NVARCHAR, "NVARCHAR2").(length := if pp.None? then VarCharDefaultLength else c.length), pp)
    case CharRule => PrecisionOr(SetType(c, J.CHAR, "CHAR").(length := 1), pp)
    case NCharRule => PrecisionOr(SetType(c, J.NCHAR, "NCHAR").(length := 1), pp)
    case BinaryFloatRule => Done(SetType(c, J.BINARY_FLOAT, "BINARY_FLOAT"))
    case BinaryDoubleRule => Done(SetType(c, J.BINARY_DOUBLE, "BINARY_DOUBLE"))
    case FloatRule => PrecisionOr(SetType(c, J.FLOAT, "FLOAT").(length := 126), pp)
    case RealRule => Done(SetType(c, J.FLOAT, "FLOAT").(length := 63))
    case NumberRule =>
      var c1 := SetType(c, J.NUMERIC, "NUMBER");
      if pp.None? then Done(c1.(length := 38))
      else if pp.value.asterisk then Done(SetScale(c1.(length := 38), pp.value))
      else ThenScale(SetPrecision(c1, pp), pp.value)
    case BlobRule => Done(SetType(c, J.BLOB, "BLOB"))
    case ClobRule => Done(SetType(c, J.CLOB, "CLOB"))
    case LongRule =>
      if Raw in e.keywords then Done(SetType(c, J.LONGVARBINARY, "LONG RAW"))
      else Done(SetType(c, J.LONGVARCHAR, "LONG"))
    case RawRule => SetPrecision(SetType(c, J.VARBINARY, "RAW"), pp)
    case SdoGeometryRule => Done(SetType(c, J.OTHER, "SDO_GEOMETRY").(length := 1))
    case SdoTopoGeometryRule => Done(SetType(c, J.OTHER, "SDO_TOPO_GEOMETRY"))
    case SdoListTypeRule => Done(SetType(c, J.ARRAY, "SDO_LIST_TYPE()"))
    case RowIdRule => Done(SetType(c, J.VARCHAR, "ROWID"))
    case XmlTypeRule => Done(SetType(c, J.SQLXML, "XMLTYPE").(length := 2000))
    case UriTypeRule => Done(SetType(c, J.OTHER, "URITYPE").(length := VarCharDefaultLength))
    case HttpUriTypeRule => Done(SetType(c, J.OTHER, "HTTPURITYPE").(length := VarCharDefaultLength))
    case XdbUriTypeRule => Done(SetType(c, J.OTHER, "XDBURITYPE").(length := VarCharDefaultLength))
    case NativeTextRule => Done(SetType(c, J.OTHER, e.text))
  }

  // ---------------------------------------------------------------- intervals

  predicate YearToMonth(kw: set<DatatypeKeyword>) { Interval in kw && Year in kw && To in kw && Month in kw }
  predicate DayToSecond(kw: set<DatatypeKeyword>) { Interval in kw && Day in kw && To in kw && Second in kw }

  /** One pass of the interval loop: an expression after TO sets the scale, any other the length. */
  function IntervalStep(c: Column, e: IntervalExpression): Column {
    if e.afterTo then c.(scale := Some(e.value)) else c.(length := e.value)
  }

  /** The interval loop over the given expressions, in order. */
  function DayToSecondLoop(c: Column, es: seq<IntervalExpression>): (r: Column)
    ensures KeepsIdentity(c, r) && r.jdbcType == c.jdbcType && r.typeName == c.typeName
    decreases |es|
  {
    if es == [] then c else IntervalStep(DayToSecondLoop(c, es[..|es| - 1]), es[|es| - 1])
  }

  /** `j` is the last expression after TO. */
  predicate LastAfterTo(es: seq<IntervalExpression>, j: int) {
    0 <= j < |es| && es[j].afterTo && forall k :: j < k < |es| ==> !es[k].afterTo
  }

  /** The loop leaves the scale to the last expression after TO, or untouched when there is none. */
  lemma {:induction false} DayToSecondLoopScale(c: Column, es: seq<IntervalExpression>)
    ensures (forall k :: 0 <= k < |es| ==> !es[k].afterTo) ==> DayToSecondLoop(c, es).scale == c.scale
    ensures forall j :: LastAfterTo(es, j) ==> DayToSecondLoop(c, es).scale == Some(es[j].value)
  {
    if es != [] {
      var init := es[..|es| - 1];
      DayToSecondLoopScale(c, init);
      forall j | LastAfterTo(es, j) && j < |es| - 1 ensures LastAfterTo(init, j) {
      }
    }
  }

  function IntervalDayToSecond(c: Column, es: seq<IntervalExpression>): Column {
    var c1 := SetType(c, J.INTERVALDS, "INTERVAL DAY TO SECOND").(length := 2, scale := Some(6));
    var c2 := DayToSecondLoop(c1, es);
    if |es| > 0 then c2.(length := es[0].value) else c2
  }

  function IntervalYearToMonth(c: Column, es: seq<IntervalExpression>): Column {
    var c1 := SetType(c, J.INTERVALYM, "INTERVAL YEAR TO MONTH").(length := 2);
    if |es| > 0 then c1.(length := es[0].value) else c1
  }

  // ---------------------------------------------------------------- the whole resolution

  /** `resolveColumnDataType(DatatypeContext)`. */
  function ResolveDatatype(c: Column, dt: Datatype): (r: Step)
    ensures KeepsIdentity(c, r.column)
  {
    if dt.native.Some? then ResolveNative(c, dt.native.value, dt)
    else if YearToMonth(dt.keywords) then Done(IntervalYearToMonth(c, dt.expressions))
    else if DayToSecond(dt.keywords) then Done(IntervalDayToSecond(c, dt.expressions))
    else Done(SetType(c, J.STRUCT, "OTHER"))
  }

  /** The rule (if any) that a datatype selects. */
  function NativeRule(dt: Datatype): Option<Rule> {
    if dt.native.Some? then Some(RuleFor(dt.native.value.keywords)) else None
  }

  /** Whether resolution throws depends on the datatype alone, never on the column it starts from. */
  lemma OutcomeIgnoresColumn(c1: Column, c2: Column, dt: Datatype)
    ensures ResolveDatatype(c1, dt).outcome == ResolveDatatype(c2, dt).outcome
  {
  }

  /** Resolution throws only for a `setPrecision` without a numeric to read: an INT-family, TIMESTAMP, character, FLOAT or NUMBER precision part with no numeric (NUMBER only without `*`), or a RAW without precision part. */
  lemma ThrowsOnlyWithoutPrecisionNumeric(c: Column, dt: Datatype)
    ensures ResolveDatatype(c, dt).outcome.Threw? <==>
      (NativeRule(dt) == Some(RawRule) && dt.precision.None?) ||
      (dt.precision.Some? && |dt.precision.value.numerics| == 0 &&
       NativeRule(dt).Some? &&
       (NativeRule(dt).value in {NumericFamilyRule, TimestampRule, Varchar2Rule, NVarchar2Rule, CharRule, NCharRule, FloatRule, RawRule} ||
        (NativeRule(dt).value == NumberRule && !dt.precision.value.asterisk)))
  {
  }

  // ---------------------------------------------------------------- rule by rule

  /** INT, INTEGER, SMALLINT, NUMERIC and DECIMAL with no precision part: NUMERIC "NUMBER", length 38, scale 0. */
  lemma NumericFamilyWithoutPrecision(c: Column, dt: Datatype)
    requires dt.native.Some? && NumericFamily(dt.native.value.keywords) && dt.precision.None?
    ensures ResolveDatatype(c, dt) == Done(c.(jdbcType := J.NUMERIC, typeName := "NUMBER", length := 38, scale := Some(0)))
  {
  }

  /**
   * The INT family with a precision part: length is the first numeric, scale
   * the second numeric, else the negative numeric, else 0.  With `*`
   * (`DECIMAL(*, 2)`) the first numeric is the written scale, so it becomes
   * the length and the scale is 0.
   */
  lemma NumericFamilyWithPrecision(c: Column, dt: Datatype)
    requires dt.native.Some? && NumericFamily(dt.native.value.keywords)
    requires dt.precision.Some? && |dt.precision.value.numerics| > 0
    ensures var pp := dt.precision.value;
      ResolveDatatype(c, dt) == Done(c.(jdbcType := J.NUMERIC, typeName := "NUMBER", length := pp.numerics[0],
        scale := Some(if |pp.numerics| > 1 then pp.numerics[1] else pp.negative.GetOr(0))))
  {
  }

  /** NUMBER: no precision part gives length 38 and leaves the scale; `*` gives length 38 whatever follows; a precision part sets the scale as `setScale` reads it. */
  lemma NumberRuleLengthAndScale(c: Column, dt: Datatype)
    requires NativeRule(dt) == Some(NumberRule)
    ensures var r := ResolveDatatype(c, dt);
      r.column.jdbcType == J.NUMERIC && r.column.typeName == "NUMBER" &&
      (dt.precision.None? ==> r == Done(r.column) && r.column.length == 38 && r.column.scale == c.scale) &&
      (dt.precision.Some? && dt.precision.value.asterisk ==>
        r == Done(r.column) && r.column.length == 38 && r.column.scale == Some(ScaleAsWritten(dt.precision.value))) &&
      (dt.precision.Some? && !dt.precision.value.asterisk && |dt.precision.value.numerics| > 0 ==>
        r == Done(r.column) && r.column.length == dt.precision.value.numerics[0] &&
        r.column.scale == Some(ScaleAsWritten(dt.precision.value)))
  {
  }

  /**
   * `NUMBER(p, s)` and `NUMBER(*, s)` as written in the DDL: the length is p,
   * or 38 for `*`; the scale is s (0 when none is written), except that after
   * `*` a scale of 0 or more is read as 0.
   */
  lemma NumberFromWrittenPrecision(c: Column, e: NativeElement, kw: set<DatatypeKeyword>, w: WrittenPrecision)
    requires RuleFor(e.keywords) == NumberRule
    ensures var r := ResolveDatatype(c, Datatype(Some(e), Some(Parsed(w)), kw, []));
      r == Done(c.(jdbcType := J.NUMERIC, typeName := "NUMBER",
        length := if w.head.Star? then 38 else w.head.n,
        scale := Some(if w.head.Star? && w.scale.Some? && w.scale.value >= 0 then 0 else w.scale.GetOr(0))))
  {
    ScaleAsWrittenVersusDeclared(w);
  }

  /** TIMESTAMP: WITH, TIME and ZONE with LOCAL give TIMESTAMPLTZ, without LOCAL TIMESTAMPTZ, otherwise plain TIMESTAMP; length 6 unless a precision is given, scale untouched. */
  lemma TimestampVariants(c: Column, dt: Datatype)
    requires NativeRule(dt) == Some(TimestampRule)
    ensures var r := ResolveDatatype(c, dt); var kw := dt.keywords;
      var zoned := With in kw && Time in kw && Zone in kw;
      r.column.jdbcType == (if zoned && Local in kw then J.TIMESTAMPLTZ else if zoned then J.TIMESTAMPTZ else J.TIMESTAMP) &&
      r.column.typeName == (if zoned && Local in kw then "TIMESTAMP WITH LOCAL TIME ZONE"
                            else if zoned then "TIMESTAMP WITH TIME ZONE" else "TIMESTAMP") &&
      r.column.scale == c.scale &&
      (dt.precision.None? ==> r.outcome == Completed && r.column.length == 6) &&
      (dt.precision.Some? && |dt.precision.value.numerics| > 0 ==>
        r.outcome == Completed && r.column.length == dt.precision.value.numerics[0])
  {
  }

  /** The fixed default lengths (VARCHAR/VARCHAR2/NVARCHAR2 4000, CHAR/NCHAR 1, FLOAT and DOUBLE PRECISION 126), each overridden by an explicit precision; the scale is untouched. */
  lemma DefaultLengths(c: Column, dt: Datatype)
    requires NativeRule(dt).Some? && NativeRule(dt).value in {Varchar2Rule, NVarchar2Rule, CharRule, NCharRule, FloatRule}
    ensures var r := ResolveDatatype(c, dt); var rule := NativeRule(dt).value;
      var default := if rule in {Varchar2Rule, NVarchar2Rule} then 4000 else if rule == FloatRule then 126 else 1;
      r.column.scale == c.scale &&
      (dt.precision.None? ==> r == Done(r.column) && r.column.length == default) &&
      (dt.precision.Some? && |dt.precision.value.numerics| > 0 ==>
        r == Done(r.column) && r.column.length == dt.precision.value.numerics[0])
  {
  }

  /** VARCHAR is VARCHAR2: both give VARCHAR "VARCHAR2". */
  lemma VarcharIsVarchar2(c: Column, dt: Datatype)
    requires NativeRule(dt) == Some(Varchar2Rule)
    ensures ResolveDatatype(c, dt).column.jdbcType == J.VARCHAR && ResolveDatatype(c, dt).column.typeName == "VARCHAR2"
  {
  }

  /** REAL is FLOAT with length 63, whatever precision is written. */
  lemma RealIsAlways63(c: Column, dt: Datatype)
    requires NativeRule(dt) == Some(RealRule)
    ensures ResolveDatatype(c, dt) == Done(c.(jdbcType := J.FLOAT, typeName := "FLOAT", length := 63))
  {
  }

  /** DOUBLE without PRECISION does not take the FLOAT rule: alone it falls through to the element's own text. */
  lemma DoubleWithoutPrecisionIsNotFloat(c: Column, e: NativeElement, dt: Datatype)
    requires e.keywords == {Double} && dt.native == Some(e)
    ensures RuleFor(e.keywords) == NativeTextRule
    ensures ResolveDatatype(c, dt) == Done(c.(jdbcType := J.OTHER, typeName := e.text))
  {
  }

  /** LONG RAW and LONG are told apart by RAW; RAW alone needs a precision part and throws without one. */
  lemma LongAndRaw(c: Column, dt: Datatype)
    requires NativeRule(dt).Some? && NativeRule(dt).value in {LongRule, RawRule}
    ensures var r := ResolveDatatype(c, dt); var k := dt.native.value.keywords;
      (NativeRule(dt) == Some(LongRule) ==>
        r == Done(c.(jdbcType := if Raw in k then J.LONGVARBINARY else J.LONGVARCHAR,
                     typeName := if Raw in k then "LONG RAW" else "LONG"))) &&
      (NativeRule(dt) == Some(RawRule) && dt.precision.None? ==>
        r == Step(c.(jdbcType := J.VARBINARY, typeName := "RAW"), Threw(NoPrecisionPart)))
  {
  }

  /** The rules that only name a type leave both length and scale as they were. */
  lemma TypeOnlyRulesKeepLengthAndScale(c: Column, dt: Datatype)
    requires NativeRule(dt).Some?
    requires NativeRule(dt).value in {DateRule, BinaryFloatRule, BinaryDoubleRule, BlobRule, ClobRule, LongRule,
                                      SdoTopoGeometryRule, SdoListTypeRule, RowIdRule, NativeTextRule}
    ensures var r := ResolveDatatype(c, dt);
      r.outcome == Completed && r.column.length == c.length && r.column.scale == c.scale
  {
  }

  /** INTERVAL YEAR TO MONTH: length 2 unless the first expression gives it; the scale is untouched. */
  lemma IntervalYearToMonthLength(c: Column, dt: Datatype)
    requires dt.native.None? && YearToMonth(dt.keywords)
    ensures var es := dt.expressions;
      ResolveDatatype(c, dt) == Done(c.(jdbcType := J.INTERVALYM, typeName := "INTERVAL YEAR TO MONTH",
                                        length := if |es| > 0 then es[0].value else 2))
  {
  }

  /** INTERVAL DAY TO SECOND: the length ends as the first expression's value (2 when there is none); the scale is the last expression after TO (6 when there is none). */
  lemma IntervalDayToSecondLengthAndScale(c: Column, dt: Datatype)
    requires dt.native.None? && !YearToMonth(dt.keywords) && DayToSecond(dt.keywords)
    ensures var r := ResolveDatatype(c, dt); var es := dt.expressions;
      r.outcome == Completed &&
      r.column.jdbcType == J.INTERVALDS && r.column.typeName == "INTERVAL DAY TO SECOND" &&
      r.column.length == (if |es| > 0 then es[0].value else 2) &&
      ((forall k :: 0 <= k < |es| ==> !es[k].afterTo) ==> r.column.scale == Some(6)) &&
      (forall j :: LastAfterTo(es, j) ==> r.column.scale == Some(es[j].value))
  {
    var c1 := SetType(c, J.INTERVALDS, "INTERVAL DAY TO SECOND").(length := 2, scale := Some(6));
    DayToSecondLoopScale(c1, dt.expressions);
  }

  /** A datatype with neither a native element nor an interval form is STRUCT "OTHER". */
  lemma NoNativeNoIntervalIsStruct(c: Column, dt: Datatype)
    requires dt.native.None? && !YearToMonth(dt.keywords) && !DayToSecond(dt.keywords)
    ensures ResolveDatatype(c, dt) == Done(c.(jdbcType := J.STRUCT, typeName := "OTHER"))
  {
  }
}
