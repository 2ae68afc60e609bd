/**
 * What complex expressions lower to: the SQL text of each family of functions in terms
 * of the lowered text of its arguments, the time-zone offset text, and the lowering of
 * expression text through the parser.
 */
module SqlFunctionsProps {
  import opened Outcomes
  import opened Strings
  import opened Expression
  import opened ExpressionRoundTrip
  import opened SqlFunctions

  // ---------------------------------------------------------------------------
  // Lowering text

  /** Lowering the written-out form of a well-formed tree lowers the tree itself. */
  lemma LowerPrinted(ctx: Ctx, e: Expr)
    requires WF(e)
    ensures LowerText(ctx, Print(e)) == ToSql(ctx, e)
  {
    ParsePrint(e);
  }

  /** `NAME:args` and `NAME:(args)` compile to the same SQL, and one fails exactly when the other does. */
  lemma LowerParenthesesOptional(ctx: Ctx, n: string, a: string)
    requires IsFunctionName(n) && !IsMatchName(n)
    requires a != [] && Trimmed(a) && Unwrap(a) == a
    ensures LowerText(ctx, n + ":" + a).Ok? <==> LowerText(ctx, n + ":(" + a + ")").Ok?
    ensures LowerText(ctx, n + ":" + a).Ok? ==> LowerText(ctx, n + ":" + a) == LowerText(ctx, n + ":(" + a + ")")
  {
    var t1 := n + ":" + a;
    var t2 := n + ":(" + a + ")";
    ParenthesesOptional(n, a);
    if Parse(t1).Ok? {
      assert LowerText(ctx, t1) == ToSql(ctx, Parse(t1).value);
      assert LowerText(ctx, t2) == ToSql(ctx, Parse(t2).value);
    }
  }

  /** Text whose upper-case form is a keyword is made of letters. */
  lemma KeywordTextFacts(t: string)
    requires Upper(t) in Keywords
    ensures t != [] && Trimmed(t) && ':' !in t && t[0] != '\'' && t[0] != '"' && !IsNumber(t)
  {
    var w := Upper(t);
    assert forall k :: 0 <= k < |w| ==> IsUpper(w[k]) by {
      assert w == "TRUE" || w == "FALSE" || w == "NULL";
    }
    assert forall k :: 0 <= k < |t| ==> IsLetter(t[k]) by {
      forall k | 0 <= k < |t| ensures IsLetter(t[k]) {
        assert IsUpper(UpperChar(t[k]));
      }
    }
    assert ':' !in t by {
      forall k | 0 <= k < |t| ensures t[k] != ':' {
        assert IsLetter(t[k]);
      }
    }
    assert IsLetter(t[0]) && IsLetter(t[|t| - 1]);
    assert t[0] != '-' && !IsDigit(t[0]);
  }

  /** TRUE, FALSE and NULL, written in any case, lower to the upper-case keyword. */
  lemma LowerKeywordText(ctx: Ctx, t: string)
    requires Upper(t) in Keywords
    ensures LowerText(ctx, t) == Ok(Upper(t))
  {
    KeywordTextFacts(t);
    ParseOfPlainText(t);
    assert Parse(t) == Ok(Keyword(Upper(t)));
  }

  // ---------------------------------------------------------------------------
  // Function families

  const ArithmeticOperators: map<string, string> := map[
    "ADD" := "+", "SUB" := "-", "MUL" := "*", "DIV" := "/", "MOD" := "%"]

  lemma ArgsOne(ctx: Ctx, x: Expr, s: string)
    requires ToSql(ctx, x) == Ok(s)
    ensures ArgsToSql(ctx, [x]) == Ok([s])
  {
    var a := [x];
    assert a[0] == x;
    assert a[1..] == [];
    assert ArgsToSql(ctx, a[1..]) == Ok([]);
    assert [s] + [] == [s];
  }

  lemma ArgsTwo(ctx: Ctx, x: Expr, y: Expr, s: string, t: string)
    requires ToSql(ctx, x) == Ok(s) && ToSql(ctx, y) == Ok(t)
    ensures ArgsToSql(ctx, [x, y]) == Ok([s, t])
  {
    var a := [x, y];
    assert a[0] == x;
    assert a[1..] == [y];
    ArgsOne(ctx, y, t);
    assert [s] + [t] == [s, t];
  }

  /** A call of a name in the function table renders its lowered arguments by the name's kind. */
  lemma CallLowers(ctx: Ctx, name: string, args: seq<Expr>, parts: seq<string>, k: FunctionKind)
    requires ArgsToSql(ctx, args) == Ok(parts) && Classify(name) == Some(k) && Accepts(ArityOf(k), |parts|)
    ensures ToSql(ctx, Call(name, args)) == RenderCall(name, k, args, parts)
  {
  }

  /** The fixed names are looked up first. */
  lemma ClassifyFixed(name: string)
    requires name in FixedKinds
    ensures Classify(name) == Some(FixedKinds[name])
  {
  }

  lemma ClassifyArithmetic(name: string)
    requires name in ArithmeticOperators
    ensures Classify(name) == Some(Arithmetic(ArithmeticOperators[name]))
  {
    assert name in FixedKinds && FixedKinds[name] == Arithmetic(ArithmeticOperators[name]);
  }

  lemma ClassifyPlain(name: string)
    requires name in PlainNames
    ensures Classify(name) == Some(Plain(name))
  {
    var i :| 0 <= i < |PlainNames| && PlainNames[i] == name;
    if i < 8 {
      PlainNotFixedA(i);
    } else if i < 15 {
      PlainNotFixedB(i);
    } else {
      PlainNotFixedC(i);
    }
  }

  lemma PlainNotFixedA(i: nat)
    requires i < 8
    ensures PlainNames[i] !in FixedKinds
  {
  }

  lemma PlainNotFixedB(i: nat)
    requires 8 <= i < 15
    ensures PlainNames[i] !in FixedKinds
  {
  }

  lemma PlainNotFixedC(i: nat)
    requires 15 <= i < |PlainNames|
    ensures PlainNames[i] !in FixedKinds
  {
  }

  /** A function of the plain table lowers to itself applied to the lowered arguments. */
  lemma PlainLowers(ctx: Ctx, name: string, args: seq<Expr>, parts: seq<string>)
    requires name in PlainNames && ArgsToSql(ctx, args) == Ok(parts)
    ensures ToSql(ctx, Call(name, args)) == Ok(name + "(" + Join(parts, ", ") + ")")
  {
    ClassifyPlain(name);
    CallLowers(ctx, name, args, parts, Plain(name));
  }

  /** `MONTH_NUMBER` and the other fixed names of a MySQL function lower to that function applied to the lowered arguments. */
  lemma RenamedLowers(ctx: Ctx, name: string, args: seq<Expr>, parts: seq<string>)
    requires name in FixedKinds && FixedKinds[name].Plain? && ArgsToSql(ctx, args) == Ok(parts)
    ensures ToSql(ctx, Call(name, args)) == Ok(FixedKinds[name].sqlName + "(" + Join(parts, ", ") + ")")
  {
    ClassifyFixed(name);
    CallLowers(ctx, name, args, parts, FixedKinds[name]);
  }

  lemma ClassifyQuarter()
    ensures Classify("QUARTER") == Some(YearQuarter)
  {
  }

  /** `QUARTER:x` is the calendar year and quarter joined by an underscore. */
  lemma QuarterLowers(ctx: Ctx, x: Expr, s: string)
    requires ToSql(ctx, x) == Ok(s)
    ensures ToSql(ctx, Call("QUARTER", [x])) == Ok("CONCAT(YEAR(" + s + "), '_', QUARTER(" + s + "))")
  {
    ArgsOne(ctx, x, s);
    ClassifyQuarter();
    CallLowers(ctx, "QUARTER", [x], [s], YearQuarter);
  }

  /** The shift read off `PREFIX_n` is n. */
  lemma ShiftSuffixOfNat(prefix: string, n: nat)
    ensures ShiftSuffix(prefix + NatToString(n), prefix) == Some(n)
  {
    var name := prefix + NatToString(n);
    assert name[..|prefix|] == prefix;
    assert name[|prefix|..] == NatToString(n);
    NatToStringValue(n);
  }

  /** `YEAR_n:x` is the fiscal year starting in month n + 1: the calendar year, less one before that month. */
  lemma FiscalYearLowers(ctx: Ctx, n: nat, x: Expr, s: string)
    requires ToSql(ctx, x) == Ok(s)
    ensures ToSql(ctx, Call("YEAR_" + NatToString(n), [x]))
            == Ok("CASE WHEN MONTH(" + s + ") >= " + NatToString(n + 1)
                  + " THEN YEAR(" + s + ") ELSE YEAR(" + s + ") - 1 END")
  {
    var name := "YEAR_" + NatToString(n);
    ArgsOne(ctx, x, s);
    ClassifyFiscalYear(n);
    CallLowers(ctx, name, [x], [s], FiscalYear(n));
  }

  lemma ClassifyFiscalYear(n: nat)
    ensures Classify("YEAR_" + NatToString(n)) == Some(FiscalYear(n))
  {
    ShiftSuffixOfNat("YEAR_", n);
    ShiftedNameIsNew("YEAR_" + NatToString(n), 5);
  }

  lemma ClassifyFiscalQuarter(n: nat)
    ensures Classify("QUARTER_" + NatToString(n)) == Some(FiscalQuarter(n))
  {
    var name := "QUARTER_" + NatToString(n);
    ShiftSuffixOfNat("QUARTER_", n);
    ShiftedNameIsNew(name, 8);
    assert ShiftSuffix(name, "YEAR_").None? by {
      assert name[0] == 'Q';
    }
  }

  /** A digit right after `YEAR_` or `QUARTER_` is in no fixed or plain name. */
  lemma ShiftedNameIsNew(name: string, k: nat)
    requires k == 5 || k == 8
    requires |name| > k && IsDigit(name[k])
    ensures name !in FixedKinds && name !in PlainNames
  {
    ShiftedNameNotFixed(name, k);
  }

  lemma ShiftedNameNotFixed(name: string, k: nat)
    requires k == 5 || k == 8
    requires |name| > k && IsDigit(name[k])
    ensures name !in FixedKinds
  {
  }

  /**
   * `QUARTER_n:x` is the fiscal year and quarter for a fiscal year starting in month
   * n + 1, as the compiler emits it: whole quarters from the start in the THEN branch,
   * (month + 11 - n) / 3 rounded up in the ELSE branch.
   */
  lemma FiscalQuarterLowers(ctx: Ctx, name: string, n: nat, x: Expr, s: string)
    requires name == "QUARTER_" + NatToString(n) && ToSql(ctx, x) == Ok(s)
    ensures ToSql(ctx, Call(name, [x]))
            == Ok("CASE WHEN MONTH(" + s + ") >= " + NatToString(n + 1)
                  + " THEN CONCAT(YEAR(" + s + "), '_', FLOOR((MONTH(" + s + ") - " + NatToString(n + 1) + ") / 3) + 1)"
                  + " ELSE CONCAT(YEAR(" + s + ") - 1, '_', CEIL((MONTH(" + s + ") + " + IntToString(11 - n) + ") / 3)) END")
  {
    ClassifyFiscalQuarter(n);
    FiscalQuarterCall(ctx, name, n, x, s);
    FiscalQuarterText(s, n);
  }

  lemma FiscalQuarterText(s: string, n: nat)
    ensures FiscalQuarterSqlAsWritten(s, n)
            == "CASE WHEN MONTH(" + s + ") >= " + NatToString(n + 1)
               + " THEN CONCAT(YEAR(" + s + "), '_', FLOOR((MONTH(" + s + ") - " + NatToString(n + 1) + ") / 3) + 1)"
               + " ELSE CONCAT(YEAR(" + s + ") - 1, '_', CEIL((MONTH(" + s + ") + " + IntToString(11 - n) + ") / 3)) END"
  {
    assert 12 - FirstMonth(n) == 11 - n;
  }

  lemma FiscalQuarterCall(ctx: Ctx, name: string, n: nat, x: Expr, s: string)
    requires Classify(name) == Some(FiscalQuarter(n)) && ToSql(ctx, x) == Ok(s)
    ensures ToSql(ctx, Call(name, [x])) == Ok(FiscalQuarterSqlAsWritten(s, n))
  {
    ArgsOne(ctx, x, s);
    CallLowers(ctx, name, [x], [s], FiscalQuarter(n));
  }

  /** ADD, SUB, MUL, DIV and MOD put every argument, in order, between their operator, in one pair of parentheses. */
  lemma ArithmeticLowers(ctx: Ctx, name: string, args: seq<Expr>, parts: seq<string>)
    requires name in ArithmeticOperators && |args| >= 1 && ArgsToSql(ctx, args) == Ok(parts)
    ensures ToSql(ctx, Call(name, args)) == Ok("(" + Join(parts, " " + ArithmeticOperators[name] + " ") + ")")
  {
    ClassifyArithmetic(name);
    CallLowers(ctx, name, args, parts, Arithmetic(ArithmeticOperators[name]));
  }

  // ---------------------------------------------------------------------------
  // Time-zone conversion

  lemma ClassifyTz()
    ensures Classify("TZ") == Some(ConvertTz)
  {
    assert "TZ" in FixedKinds && FixedKinds["TZ"] == ConvertTz;
  }

  /** `TZ:(x,h)` converts x from UTC to the offset h hours written as `±HH:MM`. */
  lemma TzLowers(ctx: Ctx, x: Expr, s: string, h: string)
    requires IsNumber(h) && ToSql(ctx, x) == Ok(s)
    ensures ToSql(ctx, Call("TZ", [x, Num(h)])) == Ok("CONVERT_TZ(" + s + ", '+00:00', " + Quote(OffsetText(ParseOffset(h))) + ")")
  {
    ClassifyTz();
    ConvertTzLowers(ctx, "TZ", [x, Num(h)], x, s, Num(h), "'" + h + "'");
    TzOfNumber(s, h);
  }

  lemma ConvertTzLowers(ctx: Ctx, name: string, args: seq<Expr>, x: Expr, s: string, y: Expr, t: string)
    requires args == [x, y] && Classify(name) == Some(ConvertTz) && ToSql(ctx, x) == Ok(s) && ToSql(ctx, y) == Ok(t)
    ensures ToSql(ctx, Call(name, args)) == TzSql(s, y)
  {
    TzArity();
    CallOfTwo(ctx, name, x, y, s, t, ConvertTz);
    RenderTz(name, args, [s, t]);
  }

  lemma TzArity()
    ensures Accepts(ArityOf(ConvertTz), 2)
  {
  }

  /** A call with two arguments renders their lowered texts by the name's kind. */
  lemma CallOfTwo(ctx: Ctx, name: string, x: Expr, y: Expr, s: string, t: string, k: FunctionKind)
    requires ToSql(ctx, x) == Ok(s) && ToSql(ctx, y) == Ok(t)
    requires Classify(name) == Some(k) && Accepts(ArityOf(k), 2)
    ensures ToSql(ctx, Call(name, [x, y])) == RenderCall(name, k, [x, y], [s, t])
  {
    ArgsTwo(ctx, x, y, s, t);
    CallLowers(ctx, name, [x, y], [s, t], k);
  }

  lemma RenderTz(name: string, raw: seq<Expr>, a: seq<string>)
    requires |raw| == 2 && |a| == 2
    ensures RenderCall(name, ConvertTz, raw, a) == TzSql(a[0], raw[1])
  {
  }

  lemma TzOfNumber(s: string, h: string)
    requires IsNumber(h)
    ensures TzSql(s, Num(h)) == Ok("CONVERT_TZ(" + s + ", '+00:00', " + Quote(OffsetText(ParseOffset(h))) + ")")
  {
  }

  /**
   * The offset written for a decimal number of hours below 100 reads back as the parsed
   * offset: its sign and, with ParseOffsetFraction, the hours truncated to whole minutes.
   */
  lemma TzOffsetValue(t: string, sign: string, i: string, f: string)
    requires sign == "" || sign == "-"
    requires |i| >= 1 && AllDigits(i) && DigitsValue(i) < 100 && |f| >= 1 && AllDigits(f)
    requires t == sign + i + "." + f
    ensures IsNumber(t)
    ensures DecodeOffsetText(OffsetText(ParseOffset(t))) == Some(ParseOffset(t))
  {
    FractionTextParts(t, sign, i, f);
    var o := ParseOffset(t);
    assert o.hours < 100 && o.minutes < 60;
    OffsetTextRoundTrip(o);
  }

  /** The two offsets the compiler's tests use: -3.5 hours and 0 hours. */
  lemma TzExampleNegative()
    ensures IsNumber("-3.5") && OffsetText(ParseOffset("-3.5")) == "-03:30"
  {
    NegativeExampleParsed();
    NegativeExampleWritten();
  }

  lemma NegativeExampleParsed()
    ensures IsNumber("-3.5") && ParseOffset("-3.5") == Offset(true, 3, 30)
  {
    FractionTextParts("-3.5", "-", "3", "5");
    assert FractionMinutes("5") == 30;
  }

  lemma NegativeExampleWritten()
    ensures OffsetText(Offset(true, 3, 30)) == "-03:30"
  {
    assert Pad2(3) == "03";
    assert NatToString(30) == NatToString(3) + [DigitChar(0)];
    assert Pad2(30) == "30";
  }

  lemma TzExampleZero()
    ensures IsNumber("0") && OffsetText(ParseOffset("0")) == "+00:00"
  {
    ParseOffsetWhole("", "0");
    assert Pad2(0) == "00";
  }
}
