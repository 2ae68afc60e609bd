/**
 * Lowering of complex expressions to MySQL text: attribute references against the
 * entity schema, literals, the full-text MATCH form, and the closed table of
 * functions the ORM understands (aggregates, date parts, fiscal year and quarter,
 * arithmetic, comparisons, logic, IN lists, TIMESTAMPDIFF and time-zone conversion).
 */
module SqlFunctions {
  import opened Outcomes
  import opened Strings
  import opened Schema
  import opened Expression

  /**
   * Where unqualified attributes resolve: the entity whose schema is consulted when
   * `lookup` is set, and the alias its table goes by in the statement.
   */
  datatype Ctx = Ctx(entity: Entity, alias: string, lookup: bool)

  /** A foreign attribute read through the join named after its relation. */
  function ForeignSql(relation: string, parts: seq<ForeignPart>): (r: string)
  {
    if |parts| == 1 && parts[0].Field? then relation + "." + ToDb(parts[0].attribute)
    else "TRIM(CONCAT(" + Join(ForeignPieces(relation, parts), ", ") + "))"
  }

  /** Each attribute piece guarded against NULL, each literal piece quoted. */
  function ForeignPieces(relation: string, parts: seq<ForeignPart>): (r: seq<string>)
    ensures |r| == |parts|
    ensures forall i :: 0 <= i < |parts| && parts[i].Literal? ==> r[i] == Quote(parts[i].text)
    ensures forall i :: 0 <= i < |parts| && parts[i].Field? ==>
              r[i] == "IFNULL(" + relation + "." + ToDb(parts[i].attribute) + ", '')"
  {
    if parts == [] then []
    else [ForeignPiece(relation, parts[0])] + ForeignPieces(relation, parts[1..])
  }

  function ForeignPiece(relation: string, p: ForeignPart): (r: string)
    ensures p.Literal? ==> r == Quote(p.text)
    ensures p.Field? ==> r == "IFNULL(" + relation + "." + ToDb(p.attribute) + ", '')"
  {
    match p
    case Field(a) => "IFNULL(" + relation + "." + ToDb(a) + ", '')"
    case Literal(t) => Quote(t)
  }

  /** A full name: first and last name separated by a space, trimmed. */
  function PersonNameSql(alias: string, first: string, last: string): string
  {
    "TRIM(CONCAT(" + alias + "." + ToDb(first) + ", ' ', " + alias + "." + ToDb(last) + "))"
  }

  function Qualified(alias: string, attr: string): string
  {
    alias + "." + ToDb(attr)
  }

  /**
   * An attribute path inside an expression: `alias.attribute` names a column of that
   * alias; a bare attribute is a foreign or full-name attribute when the schema says
   * so, and otherwise a column of the context's alias.
   */
  function AttributeRef(ctx: Ctx, path: string): (r: string)
    ensures IndexOf(path, '.').Some? ==>
              r == Qualified(path[..IndexOf(path, '.').value], path[IndexOf(path, '.').value + 1..])
    ensures '.' !in path && !ctx.lookup ==> r == Qualified(ctx.alias, path)
    ensures '.' !in path && ReadsOwnColumn(ctx, path) ==> r == ctx.alias + "." + ToDb(path)
    ensures '.' !in path && ctx.lookup && ctx.entity.FindAttribute(path).Some?
            && ctx.entity.FindAttribute(path).value.kind.Foreign? ==>
              r == ForeignSql(ctx.entity.FindAttribute(path).value.kind.relation,
                              ctx.entity.FindAttribute(path).value.kind.parts)
  {
    match IndexOf(path, '.')
    case Some(i) => Qualified(path[..i], path[i + 1..])
    case None =>
      if !ctx.lookup then Qualified(ctx.alias, path)
      else
        match ctx.entity.FindAttribute(path)
        case Some(a) => AttributeSql(ctx.alias, a)
        case None => Qualified(ctx.alias, path)
  }

  /**
   * A bare attribute reads as a column of the context's own alias unless the schema,
   * when consulted, makes it a foreign or full-name attribute.
   */
  predicate ReadsOwnColumn(ctx: Ctx, path: string)
  {
    !ctx.lookup || ctx.entity.FindAttribute(path).None?
    || !(ctx.entity.FindAttribute(path).value.kind.Foreign? || ctx.entity.FindAttribute(path).value.kind.PersonName?)
  }

  /** What an attribute of the entity aliased `alias` reads as in SQL. */
  function AttributeSql(alias: string, a: Attribute): string
  {
    match a.kind
    case Foreign(rel, parts) => ForeignSql(rel, parts)
    case PersonName(f, l) => PersonNameSql(alias, f, l)
    case _ => Qualified(alias, a.name)
  }

  // ---------------------------------------------------------------------------
  // Function table

  datatype FunctionKind =
    /** NAME(a, b, …) under an SQL name, any number of arguments. */
    | Plain(sqlName: string)
    /** DATE_FORMAT(a, 'format'). */
    | DateFormat(format: string)
    /** Year and quarter: CONCAT(YEAR(a), '_', QUARTER(a)). */
    | YearQuarter
    /** Fiscal year whose first month is shift + 1. */
    | FiscalYear(shift: nat)
    /** Fiscal year and quarter whose first month is shift + 1. */
    | FiscalQuarter(shift: nat)
    /** WEEK(a, mode). */
    | Week(mode: nat)
    /** Arithmetic: every argument joined by the operator, in parentheses. */
    | Arithmetic(op: string)
    /** Binary comparison `a op b`. */
    | Comparison(op: string)
    /** Arguments joined by OR / AND. */
    | Junction(op: string)
    | Negation
    /** `a IS NULL` / `a IS NOT NULL`. */
    | NullTest(negated: bool)
    /** `a IN (b, …)` / `a NOT IN (b, …)`. */
    | Membership(negated: bool)
    | TimestampDiff(unit: string)
    /** CONVERT_TZ from UTC to a fixed offset given in hours. */
    | ConvertTz

  const PlainNames: seq<string> := [
    "COUNT", "SUM", "MIN", "MAX", "AVG", "CONCAT", "COALESCE", "IF", "IFNULL", "NULLIF",
    "FLOOR", "CEIL", "ROUND", "ABS", "LOWER", "UPPER", "TRIM", "LENGTH", "CHAR_LENGTH",
    "NOW", "YEAR", "DATE"]

  const TimestampUnits: seq<string> := ["YEAR", "MONTH", "WEEK", "DAY", "HOUR", "MINUTE", "SECOND"]

  /** The shift n of a `PREFIX_n` name, when the rest is a decimal number. */
  function ShiftSuffix(name: string, prefix: string): (r: Option<nat>)
    ensures r.Some? ==> StartsWith(name, prefix) && |name| > |prefix|
    ensures !StartsWith(name, prefix) ==> r.None?
    ensures StartsWith(name, prefix) && |name| > |prefix| && !AllDigits(name[|prefix|..]) ==> r.None?
  {
    if StartsWith(name, prefix) && |name| > |prefix| && AllDigits(name[|prefix|..])
    then Some(DigitsValue(name[|prefix|..]))
    else None
  }

  /** The names with a fixed meaning besides the plain ones. */
  const FixedKinds: map<string, FunctionKind> := map[
    "MONTH_NUMBER" := Plain("MONTH"),
    "DATE_NUMBER" := Plain("DAYOFMONTH"),
    "YEAR_NUMBER" := Plain("YEAR"),
    "QUARTER_NUMBER" := Plain("QUARTER"),
    "DAYOFWEEK_NUMBER" := Plain("DAYOFWEEK"),
    "HOUR_NUMBER" := Plain("HOUR"),
    "MINUTE_NUMBER" := Plain("MINUTE"),
    "WEEK_NUMBER_0" := Week(6),
    "WEEK_NUMBER_1" := Week(3),
    "MONTH" := DateFormat("%Y-%m"),
    "DAY" := DateFormat("%Y-%m-%d"),
    "QUARTER" := YearQuarter,
    "ADD" := Arithmetic("+"),
    "SUB" := Arithmetic("-"),
    "MUL" := Arithmetic("*"),
    "DIV" := Arithmetic("/"),
    "MOD" := Arithmetic("%"),
    "EQUAL" := Comparison("="),
    "NOT_EQUAL" := Comparison("<>"),
    "GREATER_THAN" := Comparison(">"),
    "LESS_THAN" := Comparison("<"),
    "GREATER_THAN_OR_EQUAL" := Comparison(">="),
    "LESS_THAN_OR_EQUAL" := Comparison("<="),
    "LIKE" := Comparison("LIKE"),
    "NOT_LIKE" := Comparison("NOT LIKE"),
    "OR" := Junction(" OR "),
    "AND" := Junction(" AND "),
    "NOT" := Negation,
    "IS_NULL" := NullTest(false),
    "IS_NOT_NULL" := NullTest(true),
    "IN" := Membership(false),
    "NOT_IN" := Membership(true),
    "TZ" := ConvertTz]

  /**
   * The function table: which kind of SQL a function name lowers to, if any. No fixed
   * name is a prefix followed by digits and no plain name is a fixed one, so the order
   * of the tests does not matter.
   */
  function Classify(name: string): (r: Option<FunctionKind>)
  {
    if name in FixedKinds then Some(FixedKinds[name])
    else if name in PlainNames then Some(Plain(name))
    else if ShiftSuffix(name, "YEAR_").Some? then Some(FiscalYear(ShiftSuffix(name, "YEAR_").value))
    else if ShiftSuffix(name, "QUARTER_").Some? then Some(FiscalQuarter(ShiftSuffix(name, "QUARTER_").value))
    else if StartsWith(name, "TIMESTAMPDIFF_") && name[14..] in TimestampUnits then Some(TimestampDiff(name[14..]))
    else None
  }

  /** How many arguments a kind accepts: exactly n, or at least n. */
  datatype Arity = Exactly(n: nat) | AtLeast(n: nat)

  function ArityOf(k: FunctionKind): Arity
  {
    match k
    case Plain(_) => AtLeast(0)
    case Arithmetic(_) => AtLeast(1)
    case Junction(_) => AtLeast(1)
    case Membership(_) => AtLeast(2)
    case Comparison(_) => Exactly(2)
    case TimestampDiff(_) => Exactly(2)
    case ConvertTz => Exactly(2)
    case _ => Exactly(1)
  }

  predicate Accepts(a: Arity, count: nat)
  {
    match a
    case Exactly(n) => count == n
    case AtLeast(n) => count >= n
  }

  // ---------------------------------------------------------------------------
  // Fiscal periods

  /** First calendar month (1 to 12) of a fiscal year shifted by n months. */
  function FirstMonth(shift: nat): nat { shift + 1 }

  function FiscalYearSql(x: string, shift: nat): string
  {
    "CASE WHEN MONTH(" + x + ") >= " + NatToString(FirstMonth(shift)) + " THEN YEAR(" + x + ") ELSE YEAR(" + x + ") - 1 END"
  }

  /**
   * The fiscal quarter expression as the ORM emits it: in the part of the fiscal year
   * that falls in the next calendar year it rounds (month + 12 - first) / 3 up. The
   * number 12 - first is interpolated as an integer, negative for shifts above 11.
   */
  function FiscalQuarterSqlAsWritten(x: string, shift: nat): string
  {
    var first := NatToString(FirstMonth(shift));
    "CASE WHEN MONTH(" + x + ") >= " + first
    + " THEN CONCAT(YEAR(" + x + "), '_', FLOOR((MONTH(" + x + ") - " + first + ") / 3) + 1)"
    + " ELSE CONCAT(YEAR(" + x + ") - 1, '_', CEIL((MONTH(" + x + ") + " + IntToString(12 - FirstMonth(shift)) + ") / 3)) END"
  }

  /**
   * The fiscal quarter expression with both branches counting whole quarters from the
   * start of the fiscal year: the intended form, which the compiler does not emit.
   */
  function FiscalQuarterSql(x: string, shift: nat): string
  {
    var first := NatToString(FirstMonth(shift));
    "CASE WHEN MONTH(" + x + ") >= " + first
    + " THEN CONCAT(YEAR(" + x + "), '_', FLOOR((MONTH(" + x + ") - " + first + ") / 3) + 1)"
    + " ELSE CONCAT(YEAR(" + x + ") - 1, '_', FLOOR((MONTH(" + x + ") + " + IntToString(12 - FirstMonth(shift)) + ") / 3) + 1) END"
  }

  /** SQL CEIL of an exact quotient by a positive divisor. */
  function CeilDiv(a: int, b: int): int
    requires b > 0
  {
    -((-a) / b)
  }

  /** The value the fiscal year CASE computes for a date in the given calendar year and month. */
  function FiscalYearValue(year: int, month: int, shift: nat): int
  {
    if month >= FirstMonth(shift) then year else year - 1
  }

  /** The quarter number the as-written CASE computes for a month (1 to 12). */
  function QuarterValueAsWritten(month: int, shift: nat): int
  {
    if month >= FirstMonth(shift) then (month - FirstMonth(shift)) / 3 + 1
    else CeilDiv(month + (12 - FirstMonth(shift)), 3)
  }

  /** The quarter number the corrected CASE computes for a month (1 to 12). */
  function QuarterValue(month: int, shift: nat): int
  {
    if month >= FirstMonth(shift) then (month - FirstMonth(shift)) / 3 + 1
    else (month + (12 - FirstMonth(shift))) / 3 + 1
  }

  /** Months elapsed from the start of the fiscal year labelled fy to the given month. */
  function MonthsIntoFiscalYear(year: int, month: int, fy: int, shift: nat): int
  {
    (year * 12 + month - 1) - (fy * 12 + shift)
  }

  /** The fiscal year label is the calendar year in which that fiscal year starts. */
  lemma FiscalYearContainsDate(year: int, month: int, shift: nat)
    requires 1 <= month <= 12 && shift <= 11
    ensures 0 <= MonthsIntoFiscalYear(year, month, FiscalYearValue(year, month, shift), shift) < 12
  {
  }

  /**
   * The corrected quarter is the number of whole quarters elapsed since the fiscal
   * year started, plus one: quarter q covers months 3(q-1) to 3q-1 of the fiscal year.
   */
  lemma QuarterValueCountsQuarters(year: int, month: int, shift: nat)
    requires 1 <= month <= 12 && shift <= 11
    ensures var q := QuarterValue(month, shift);
            var m := MonthsIntoFiscalYear(year, month, FiscalYearValue(year, month, shift), shift);
            1 <= q <= 4 && 3 * (q - 1) <= m < 3 * q
  {
    var m := MonthsIntoFiscalYear(year, month, FiscalYearValue(year, month, shift), shift);
    if month >= FirstMonth(shift) {
      assert m == month - FirstMonth(shift);
    } else {
      assert m == month + 12 - FirstMonth(shift);
    }
  }

  /** The as-written quarter is always a quarter number, 1 to 4. */
  lemma QuarterValueAsWrittenInRange(month: int, shift: nat)
    requires 1 <= month <= 12 && shift <= 11
    ensures 1 <= QuarterValueAsWritten(month, shift) <= 4
  {
    if month < FirstMonth(shift) {
      var v := month + (12 - FirstMonth(shift));
      assert 1 <= v <= 11;
      assert CeilDiv(v, 3) == (v + 2) / 3;
    }
  }

  /**
   * The as-written quarter agrees with the whole-quarter count except for the months
   * before the fiscal start whose distance (month + 12 - first) is a multiple of 3:
   * those it reports one quarter early.
   */
  lemma QuarterValueAsWrittenVersusCount(month: int, shift: nat)
    requires 1 <= month <= 12 && shift <= 11
    ensures QuarterValueAsWritten(month, shift)
            == QuarterValue(month, shift)
               - (if month < FirstMonth(shift) && (month + 12 - FirstMonth(shift)) % 3 == 0 then 1 else 0)
  {
    if month < FirstMonth(shift) {
      var v := month + (12 - FirstMonth(shift));
      assert v >= 1;
      assert CeilDiv(v, 3) == (v + 2) / 3;
    }
  }

  /** The as-written quarter puts February in quarter 3 of a fiscal year starting in May. */
  lemma QuarterValueAsWrittenMisplacesFebruary()
    ensures QuarterValueAsWritten(2, 4) == 3
    ensures QuarterValue(2, 4) == 4
    ensures MonthsIntoFiscalYear(2020, 2, FiscalYearValue(2020, 2, 4), 4) == 9
  {
  }

  // ---------------------------------------------------------------------------
  // Time-zone offsets

  /** Two-digit, zero-padded rendering (str_pad to 2 with '0' on the left). */
  function Pad2(n: nat): (r: string)
    ensures n < 100 ==> |r| == 2
    ensures AllDigits(r)
  {
    if n < 10 then
      var d := NatToString(n);
      assert forall i :: 0 <= i < |"0" + d| ==> ("0" + d)[i] == if i == 0 then '0' else d[i - 1];
      "0" + d
    else
      TwoDigitLength(n);
      NatToString(n)
  }

  lemma TwoDigitLength(n: nat)
    requires n >= 10
    ensures n < 100 ==> |NatToString(n)| == 2
  {
    if n < 100 {
      assert NatToString(n) == NatToString(n / 10) + [DigitChar(n % 10)];
    }
  }

  function Pow10(k: nat): (r: nat)
    ensures r >= 1
  {
    if k == 0 then 1 else 10 * Pow10(k - 1)
  }

  lemma {:induction false} DigitsValueBelowPow10(s: string)
    requires AllDigits(s)
    ensures DigitsValue(s) < Pow10(|s|)
  {
    if s != [] {
      DigitsValueBelowPow10(s[..|s| - 1]);
    }
  }

  /** An offset given in hours, as sign, whole hours and minutes (the fraction of an hour, truncated). */
  datatype Offset = Offset(negative: bool, hours: nat, minutes: nat)

  function ParseOffset(t: string): (r: Offset)
    requires IsNumber(t)
    ensures r.minutes < 60
    ensures r.negative <==> t[0] == '-'
  {
    var negative := |t| >= 1 && t[0] == '-';
    var body := if negative then t[1..] else t;
    match IndexOf(body, '.')
    case None => Offset(negative, DigitsValue(body), 0)
    case Some(i) =>
      Offset(negative, DigitsValue(body[..i]), FractionMinutes(body[i + 1..]))
  }

  /** The minutes in a decimal fraction of an hour, truncated. */
  function FractionMinutes(frac: string): (m: nat)
    requires AllDigits(frac)
    ensures m < 60
  {
    var v := DigitsValue(frac);
    var p := Pow10(|frac|);
    DigitsValueBelowPow10(frac);
    ScaledBelow(v, p);
    v * 60 / p
  }

  lemma ScaledBelow(v: nat, p: nat)
    requires v < p
    ensures v * 60 / p < 60
  {
    var x := v * 60;
    assert x < 60 * p;
  }

  lemma {:induction false} DigitsValueAppend(a: string, b: string)
    requires AllDigits(a) && AllDigits(b)
    ensures AllDigits(a + b)
    ensures DigitsValue(a + b) == DigitsValue(a) * Pow10(|b|) + DigitsValue(b)
    decreases |b|
  {
    if b == [] {
      assert a + b == a;
    } else {
      var ab := a + b;
      var b' := b[..|b| - 1];
      assert ab[..|ab| - 1] == a + b';
      assert ab[|ab| - 1] == b[|b| - 1];
      DigitsValueAppend(a, b');
      assert DigitsValue(ab) == DigitsValue(a + b') * 10 + DigitValue(b[|b| - 1]);
      assert DigitsValue(b) == DigitsValue(b') * 10 + DigitValue(b[|b| - 1]);
      ShiftDigit(DigitsValue(a), Pow10(|b'|), DigitsValue(b'), DigitValue(b[|b| - 1]));
    }
  }

  lemma ShiftDigit(x: int, p: int, y: int, d: int)
    ensures (x * p + y) * 10 + d == x * (10 * p) + (y * 10 + d)
  {
  }

  /** Truncating division: q is the largest whole number with q * p <= v. */
  lemma FloorDiv(v: nat, p: nat)
    requires p > 0
    ensures (v / p) * p <= v < (v / p + 1) * p
  {
  }

  /**
   * A whole-hour offset `[-]i` is i hours and no minutes, negative exactly when the
   * text starts with a minus sign.
   */
  lemma ParseOffsetWhole(sign: string, i: string)
    requires sign == "" || sign == "-"
    requires |i| >= 1 && AllDigits(i)
    ensures IsNumber(sign + i)
    ensures ParseOffset(sign + i) == Offset(sign == "-", DigitsValue(i), 0)
  {
    var t := sign + i;
    if sign == "-" {
      assert t[1..] == i;
    } else {
      assert t == i;
      assert IsDigit(i[0]);
    }
    assert '.' !in i by {
      forall k | 0 <= k < |i| ensures i[k] != '.' {
        assert IsDigit(i[k]);
      }
    }
  }

  /**
   * A fractional offset `[-]i.f` is the decimal number i.f hours; the parsed offset is
   * that many hours truncated to whole minutes. With n the digits of i and f read as one
   * number and 10^|f| the scale, hours * 60 + minutes is the floor of n * 60 / 10^|f|.
   */
  lemma ParseOffsetFraction(t: string, sign: string, i: string, f: string)
    requires sign == "" || sign == "-"
    requires |i| >= 1 && AllDigits(i) && |f| >= 1 && AllDigits(f)
    requires t == sign + i + "." + f
    ensures IsNumber(t) && AllDigits(i + f)
    ensures ParseOffset(t).negative <==> sign == "-"
    ensures (ParseOffset(t).hours * 60 + ParseOffset(t).minutes) * Pow10(|f|)
            <= DigitsValue(i + f) * 60
            < (ParseOffset(t).hours * 60 + ParseOffset(t).minutes + 1) * Pow10(|f|)
  {
    FractionTextParts(t, sign, i, f);
    FractionBounds(ParseOffset(t), i, f);
  }

  /** The whole minutes of `i.f` hours bracket the number i.f scaled by 10^|f|. */
  lemma FractionBounds(o: Offset, i: string, f: string)
    requires AllDigits(i) && |f| >= 1 && AllDigits(f)
    requires o.hours == DigitsValue(i) && o.minutes == FractionMinutes(f)
    ensures AllDigits(i + f)
    ensures (o.hours * 60 + o.minutes) * Pow10(|f|)
            <= DigitsValue(i + f) * 60
            < (o.hours * 60 + o.minutes + 1) * Pow10(|f|)
  {
    DigitsValueAppend(i, f);
    MinutesFloor(o.hours, DigitsValue(f), Pow10(|f|), DigitsValue(i + f), o.minutes);
  }

  /** How `[-]i.f` is read: sign, the digits before the point, the minutes of the digits after it. */
  lemma FractionTextParts(t: string, sign: string, i: string, f: string)
    requires sign == "" || sign == "-"
    requires |i| >= 1 && AllDigits(i) && |f| >= 1 && AllDigits(f)
    requires t == sign + i + "." + f
    ensures IsNumber(t) && ParseOffset(t) == Offset(sign == "-", DigitsValue(i), FractionMinutes(f))
  {
    var body := i + "." + f;
    NumberParts(t, sign, i, f, body);
    ParseOffsetOfBody(t, body, i, f);
  }

  /** `[-]i.f` is a number whose unsigned part is `i.f`, with the point right after i. */
  lemma NumberParts(t: string, sign: string, i: string, f: string, body: string)
    requires sign == "" || sign == "-"
    requires |i| >= 1 && AllDigits(i) && |f| >= 1 && AllDigits(f)
    requires t == sign + i + "." + f && body == i + "." + f
    ensures IsNumber(t)
    ensures (|t| >= 1 && t[0] == '-') <==> sign == "-"
    ensures (if |t| >= 1 && t[0] == '-' then t[1..] else t) == body
    ensures IndexOf(body, '.') == Some(|i|) && body[..|i|] == i && body[|i| + 1..] == f
  {
    assert t == sign + body;
    assert body[0] == i[0];
    SignedBody(t, sign, body);
    PointSplits(body, i, f);
  }

  /** The offset read from a number whose unsigned part is `i.f`. */
  lemma ParseOffsetOfBody(t: string, body: string, i: string, f: string)
    requires IsNumber(t)
    requires (if |t| >= 1 && t[0] == '-' then t[1..] else t) == body
    requires AllDigits(i) && AllDigits(f)
    requires IndexOf(body, '.') == Some(|i|) && body[..|i|] == i && body[|i| + 1..] == f
    ensures ParseOffset(t) == Offset(|t| >= 1 && t[0] == '-', DigitsValue(i), FractionMinutes(f))
  {
  }

  /** A leading minus sign is read off exactly when there is one, leaving the digits. */
  lemma SignedBody(t: string, sign: string, body: string)
    requires sign == "" || sign == "-"
    requires |body| >= 1 && IsDigit(body[0]) && t == sign + body
    ensures (|t| >= 1 && t[0] == '-') <==> sign == "-"
    ensures (if |t| >= 1 && t[0] == '-' then t[1..] else t) == body
  {
    if sign == "-" {
      assert t[1..] == body;
    } else {
      assert t == body;
    }
  }

  /** The point of `i.f` is found right after the integer digits. */
  lemma PointSplits(body: string, i: string, f: string)
    requires AllDigits(i) && body == i + "." + f
    ensures IndexOf(body, '.') == Some(|i|) && body[..|i|] == i && body[|i| + 1..] == f
  {
    assert '.' !in i by {
      forall k | 0 <= k < |i| ensures i[k] != '.' {
        assert IsDigit(i[k]);
      }
    }
    IndexOfAfterPrefix(i, '.', f);
    assert body[..|i|] == i;
    assert body[|i| + 1..] == f;
  }

  /** Whole hours h and fraction v / p of an hour, truncated to m minutes: floor (h p + v) * 60 / p. */
  lemma MinutesFloor(h: nat, v: nat, p: nat, n: nat, m: nat)
    requires p > 0 && n == h * p + v && m == v * 60 / p
    ensures (h * 60 + m) * p <= n * 60 < (h * 60 + m + 1) * p
  {
    FloorDiv(v * 60, p);
    assert (h * 60 + m) * p == h * 60 * p + m * p;
    assert n * 60 == h * 60 * p + v * 60;
    assert (h * 60 + m + 1) * p == h * 60 * p + (m + 1) * p;
  }

  /** `±HH:MM` as MySQL's CONVERT_TZ expects it. */
  function OffsetText(o: Offset): (r: string)
    ensures o.hours < 100 && o.minutes < 100 ==> |r| == 6
  {
    (if o.negative then "-" else "+") + Pad2(o.hours) + ":" + Pad2(o.minutes)
  }

  /** Reads `±HH:MM` back. */
  function DecodeOffsetText(s: string): (r: Option<Offset>)
  {
    if |s| == 6 && (s[0] == '+' || s[0] == '-') && s[3] == ':' && AllDigits(s[1..3]) && AllDigits(s[4..])
    then Some(Offset(s[0] == '-', DigitsValue(s[1..3]), DigitsValue(s[4..])))
    else None
  }

  lemma Pad2Value(n: nat)
    requires n < 100
    ensures DigitsValue(Pad2(n)) == n
  {
    NatToStringValue(n);
    if n < 10 {
      var d := NatToString(n);
      assert Pad2(n)[..1] == "0";
    }
  }

  /** The rendered offset decodes to the same sign, hours and minutes. */
  lemma OffsetTextRoundTrip(o: Offset)
    requires o.hours < 100 && o.minutes < 60
    ensures DecodeOffsetText(OffsetText(o)) == Some(o)
  {
    var s := OffsetText(o);
    var sign := if o.negative then "-" else "+";
    assert s == sign + Pad2(o.hours) + ":" + Pad2(o.minutes);
    assert s[1..3] == Pad2(o.hours);
    assert s[4..] == Pad2(o.minutes);
    Pad2Value(o.hours);
    Pad2Value(o.minutes);
  }

  // ---------------------------------------------------------------------------
  // Lowering

  function ModeSql(m: MatchMode): string
  {
    match m
    case Boolean => "BOOLEAN"
    case NaturalLanguage => "NATURAL LANGUAGE"
  }

  function MatchSql(ctx: Ctx, cols: seq<string>, query: string, m: MatchMode): string
  {
    "MATCH (" + Join(ColumnRefs(ctx, cols), ",") + ") AGAINST (" + Quote(query) + " IN " + ModeSql(m) + " MODE)"
  }

  function ColumnRefs(ctx: Ctx, cols: seq<string>): (r: seq<string>)
    ensures |r| == |cols| && forall i :: 0 <= i < |cols| ==> r[i] == AttributeRef(ctx, cols[i])
  {
    if cols == [] then [] else [AttributeRef(ctx, cols[0])] + ColumnRefs(ctx, cols[1..])
  }

  /** An expression tree as SQL text. */
  function ToSql(ctx: Ctx, e: Expr): (r: Result<string>)
    ensures e.Call? && Classify(e.name).None? ==> r.Fail?
    ensures !e.Call? ==> r.Ok?
    ensures e.Str? || e.Num? ==> r == Ok("'" + e.text + "'")
    ensures e.Keyword? ==> r == Ok(e.word)
    ensures e.Attr? && '.' !in e.path && !ctx.lookup ==> r == Ok(ctx.alias + "." + ToDb(e.path))
    ensures e.Attr? && '.' !in e.path && ReadsOwnColumn(ctx, e.path) ==> r == Ok(ctx.alias + "." + ToDb(e.path))
    decreases e
  {
    match e
    case Attr(p) => Ok(AttributeRef(ctx, p))
    case Str(s) => Ok(Quote(s))
    case Num(t) => Ok(Quote(t))
    case Keyword(w) => Ok(w)
    case Match(m, cols, q) => Ok(MatchSql(ctx, cols, q, m))
    case Call(n, args) =>
      var parts :- ArgsToSql(ctx, args);
      Apply(n, args, parts)
  }

  function ArgsToSql(ctx: Ctx, args: seq<Expr>): (r: Result<seq<string>>)
    ensures r.Ok? ==> |r.value| == |args|
    ensures r.Ok? ==> forall i :: 0 <= i < |args| ==> ToSql(ctx, args[i]) == Ok(r.value[i])
    ensures r.Fail? ==> exists i :: 0 <= i < |args| && ToSql(ctx, args[i]).Fail?
    decreases args
  {
    if args == [] then Ok([])
    else
      var head :- ToSql(ctx, args[0]);
      var tail :- ArgsToSql(ctx, args[1..]);
      Ok([head] + tail)
  }

  /** Applies a function to its already-lowered arguments; `raw` are the argument trees. */
  function Apply(name: string, raw: seq<Expr>, a: seq<string>): (r: Result<string>)
    requires |raw| == |a|
    ensures Classify(name).None? ==> r == Fail(UnknownFunction(name))
    ensures Classify(name).Some? && !Accepts(ArityOf(Classify(name).value), |a|) ==> r == Fail(WrongArgumentCount(name))
  {
    match Classify(name)
    case None => Fail(UnknownFunction(name))
    case Some(k) =>
      if !Accepts(ArityOf(k), |a|) then Fail(WrongArgumentCount(name))
      else RenderCall(name, k, raw, a)
  }

  function RenderCall(name: string, k: FunctionKind, raw: seq<Expr>, a: seq<string>): (r: Result<string>)
    requires |raw| == |a| && Accepts(ArityOf(k), |a|)
  {
    match k
    case Plain(n) => Ok(n + "(" + Join(a, ", ") + ")")
    case DateFormat(f) => Ok("DATE_FORMAT(" + a[0] + ", " + Quote(f) + ")")
    case YearQuarter => Ok("CONCAT(YEAR(" + a[0] + "), '_', QUARTER(" + a[0] + "))")
    case FiscalYear(s) => Ok(FiscalYearSql(a[0], s))
    case FiscalQuarter(s) => Ok(FiscalQuarterSqlAsWritten(a[0], s))
    case Week(m) => Ok("WEEK(" + a[0] + ", " + NatToString(m) + ")")
    case Arithmetic(op) => Ok("(" + Join(a, " " + op + " ") + ")")
    case Comparison(op) => Ok(a[0] + " " + op + " " + a[1])
    case Junction(op) => Ok(Join(a, op))
    case Negation => Ok("NOT " + a[0])
    case NullTest(neg) => Ok(a[0] + (if neg then " IS NOT NULL" else " IS NULL"))
    case Membership(neg) => Ok(a[0] + (if neg then " NOT IN (" else " IN (") + Join(a[1..], ", ") + ")")
    case TimestampDiff(u) => Ok("TIMESTAMPDIFF(" + u + ", " + a[0] + ", " + a[1] + ")")
    case ConvertTz => TzSql(a[0], raw[1])
  }

  /** `TZ:(x,h)` with x already lowered: the offset argument must be a number literal. */
  function TzSql(x: string, offset: Expr): (r: Result<string>)
    ensures r.Ok? <==> offset.Num? && IsNumber(offset.text)
    ensures r.Fail? ==> r.error == SyntaxError(Print(offset))
  {
    if offset.Num? && IsNumber(offset.text)
    then Ok("CONVERT_TZ(" + x + ", '+00:00', " + Quote(OffsetText(ParseOffset(offset.text))) + ")")
    else Fail(SyntaxError(Print(offset)))
  }

  /** Parses and lowers expression text. */
  function LowerText(ctx: Ctx, text: string): (r: Result<string>)
    ensures Parse(text).Fail? ==> r.Fail?
    ensures Parse(text).Ok? ==> r == ToSql(ctx, Parse(text).value)
  {
    var e :- Parse(text);
    ToSql(ctx, e)
  }
}
