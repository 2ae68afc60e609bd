/**
 * Properties of the formula evaluator: the shape of padded text, the null result of
 * an empty formula, and the round trip from a term written out as text (operations
 * parenthesised, tokens separated by spaces) back through the tokenizer and the parser
 * to the same term, so that the text evaluates as the term does. Grouping and left
 * association are shown on the parser directly.
 */
module FormulaProps {
  import opened Outcomes
  import opened Strings
  import opened Formula

  // ---------------------------------------------------------------------------
  // Padding

  /**
   * str_pad keeps the input whole at its offset, reaches exactly the target length
   * when the input is shorter, and fills every other position from the fill string
   * repeated outward from the input's nearer end.
   */
  lemma {:induction false} PadShape(s: string, length: int, pad: string, side: Side)
    requires |pad| > 0
    ensures var r := Pad(s, length, pad, side);
            var off := PadOffset(s, length, side);
            |r| == (if length <= |s| then |s| else length)
            && off + |s| <= |r| && r[off..off + |s|] == s
            && (forall i :: 0 <= i < off ==> r[i] == pad[i % |pad|])
            && (forall i :: off + |s| <= i < |r| ==> r[i] == pad[(i - off - |s|) % |pad|])
  {
    var r := Pad(s, length, pad, side);
    var off := PadOffset(s, length, side);
    if length > |s| {
      var n := length - |s|;
      match side
      case Right =>
        assert r == s + Fill(pad, n);
      case Left =>
        assert r == Fill(pad, n) + s;
      case Both =>
        assert r == Fill(pad, n / 2) + s + Fill(pad, n - n / 2);
    }
  }

  /** Without a fill string and a side, `string\pad` pads with spaces on the right. */
  lemma {:induction false} PadDefaults(s: string, length: int)
    ensures PadCall([VStr(s), VInt(length)]) == Ok(VStr(Pad(s, length, " ", Right)))
    ensures PadCall([VStr(s), VInt(length), VStr(" ")]) == PadCall([VStr(s), VInt(length)])
    ensures PadCall([VStr(s), VInt(length), VStr(" "), VStr("right")]) == PadCall([VStr(s), VInt(length)])
  {
  }

  /** The four `string\pad` calls of the evaluator test: right by default, left, and both. */
  lemma {:induction false} PadExamples()
    ensures PadCall([VStr("1"), VInt(3), VStr("0")]) == Ok(VStr("100"))
    ensures PadCall([VStr("1"), VInt(3)]) == Ok(VStr("1  "))
    ensures PadCall([VStr("11"), VInt(4), VStr("0"), VStr("left")]) == Ok(VStr("0011"))
    ensures PadCall([VStr("11"), VInt(4), VStr("0"), VStr("both")]) == Ok(VStr("0110"))
  {
    PadRightExamples();
    PadLeftExample();
    PadBothExample();
  }

  lemma PadRightExamples()
    ensures PadCall([VStr("1"), VInt(3), VStr("0")]) == Ok(VStr("100"))
    ensures PadCall([VStr("1"), VInt(3)]) == Ok(VStr("1  "))
  {
    assert Fill("0", 2) == "00";
    assert Pad("1", 3, "0", Right) == "100";
    assert Fill(" ", 2) == "  ";
    assert Pad("1", 3, " ", Right) == "1  ";
  }

  lemma PadLeftExample()
    ensures PadCall([VStr("11"), VInt(4), VStr("0"), VStr("left")]) == Ok(VStr("0011"))
  {
    assert Fill("0", 2) == "00";
    assert Pad("11", 4, "0", Left) == "0011";
    assert SideOf("left") == Left;
  }

  lemma PadBothExample()
    ensures PadCall([VStr("11"), VInt(4), VStr("0"), VStr("both")]) == Ok(VStr("0110"))
  {
    var half := Fill("0", 1);
    assert half == "0";
    assert Pad("11", 4, "0", Both) == half + "11" + half;
    assert half + "11" + half == "0110";
    assert "both"[0] != "left"[0];
    assert SideOf("both") == Both;
  }

  /** An empty fill string is refused rather than looping. */
  lemma {:induction false} EmptyFillRefused(s: string, length: int, side: string)
    ensures PadCall([VStr(s), VInt(length), VStr(""), VStr(side)]) == Fail(EmptyPadString)
  {
  }

  // ---------------------------------------------------------------------------
  // Evaluation

  /** A formula of whitespace only, the empty one included, evaluates to null. */
  lemma {:induction false} BlankIsNull(text: string)
    requires forall i :: 0 <= i < |text| ==> IsSpace(text[i])
    ensures Lex(text) == Ok([]) && Process(text) == Ok(VNull)
  {
    if text != [] {
      BlankIsNull(text[1..]);
    }
  }

  /** `x != null` holds for every value other than null, and `==` is its negation. */
  lemma {:induction false} NotEqualNull(t: Term)
    requires Eval(t).Ok?
    ensures Eval(Bin(NotEqual, t, NullTerm)) == Ok(VBool(!Eval(t).value.VNull?))
    ensures Eval(Bin(Equal, t, NullTerm)) == Ok(VBool(Eval(t).value.VNull?))
  {
  }

  /** `list(...)` is the list of its arguments' values, in order; `list()` is empty. */
  lemma {:induction false} ListOfArguments(args: seq<Term>)
    ensures Eval(Call("list", args)).Ok? <==> forall i :: 0 <= i < |args| ==> Eval(args[i]).Ok?
    ensures Eval(Call("list", args)).Ok? ==>
              Eval(Call("list", args)).value.VList?
              && |Eval(Call("list", args)).value.items| == |args|
              && forall i :: 0 <= i < |args| ==> Eval(Call("list", args)).value.items[i] == Eval(args[i]).value
    ensures Eval(Call("list", [])) == Ok(VList([]))
  {
    assert Call("list", args).name != "ifThenElse";
  }

  // ---------------------------------------------------------------------------
  // Writing a term out

  function TokenText(t: Token): string
  {
    match t
    case TNum(n) => NatToString(n)
    case TStr(s) => "'" + s + "'"
    case TName(x) => x
    case TPunct(c) => [c]
    case TEq => "=="
    case TNotEq => "!="
  }

  /** Tokens written out, each followed by a space. */
  function Unlex(ts: seq<Token>): string
  {
    if ts == [] then "" else TokenText(ts[0]) + " " + Unlex(ts[1..])
  }

  predicate IsName(x: string)
  {
    |x| >= 1 && NameStart(x[0]) && forall i :: 0 <= i < |x| ==> NameChar(x[i])
  }

  /** Tokens that can be written out and read back. */
  predicate TokenOk(t: Token)
  {
    match t
    case TStr(s) => '\'' !in s
    case TName(x) => IsName(x)
    case TPunct(c) => PunctChar(c)
    case _ => true
  }

  predicate TokensOk(ts: seq<Token>)
  {
    forall i :: 0 <= i < |ts| ==> TokenOk(ts[i])
  }

  function OpToken(op: BinOp): Token
  {
    match op
    case Plus => TPunct('+')
    case Minus => TPunct('-')
    case Times => TPunct('*')
    case Equal => TEq
    case NotEqual => TNotEq
  }

  /** A term as tokens, every operation in parentheses. */
  function Print(t: Term): (r: seq<Token>)
    ensures |r| >= 1
    decreases t, 1
  {
    match t
    case Num(n) => [TNum(n)]
    case Text(s) => [TStr(s)]
    case NullTerm => [TName("null")]
    case BoolTerm(b) => [TName(if b then "true" else "false")]
    case Bin(op, a, b) => [TPunct('(')] + Print(a) + [OpToken(op)] + Print(b) + [TPunct(')')]
    case Call(name, args) => [TName(name), TPunct('(')] + PrintArgs(args) + [TPunct(')')]
  }

  /** Arguments separated by commas. */
  function PrintArgs(args: seq<Term>): seq<Token>
    decreases args, 0
  {
    if args == [] then [] else Print(args[0]) + MoreArgs(args[1..])
  }

  /** Further arguments, each after a comma. */
  function MoreArgs(args: seq<Term>): seq<Token>
    decreases args, 1
  {
    if args == [] then [] else [TPunct(',')] + PrintArgs(args)
  }

  /** Terms that can be written out and read back: quote-free strings, proper function names. */
  predicate WellFormed(t: Term)
  {
    match t
    case Text(s) => '\'' !in s
    case Bin(_, a, b) => WellFormed(a) && WellFormed(b)
    case Call(name, args) =>
      IsName(name) && name != "null" && name != "true" && name != "false"
      && forall i :: 0 <= i < |args| ==> WellFormed(args[i])
    case _ => true
  }

  // ---------------------------------------------------------------------------
  // Tokenizer round trip

  lemma {:induction false} DigitRunOf(d: string, rest: string)
    requires AllDigits(d) && (rest == [] || !IsDigit(rest[0]))
    ensures DigitRun(d + rest) == |d|
  {
    if d != [] {
      assert (d + rest)[1..] == d[1..] + rest;
      DigitRunOf(d[1..], rest);
    } else {
      assert d + rest == rest;
    }
  }

  lemma {:induction false} NameRunOf(x: string, rest: string)
    requires (forall i :: 0 <= i < |x| ==> NameChar(x[i])) && (rest == [] || !NameChar(rest[0]))
    ensures NameRun(x + rest) == |x|
  {
    if x != [] {
      assert (x + rest)[1..] == x[1..] + rest;
      NameRunOf(x[1..], rest);
    } else {
      assert x + rest == rest;
    }
  }

  lemma {:induction false} LexSpace(rest: string)
    ensures Lex(" " + rest) == Lex(rest)
  {
    assert (" " + rest)[1..] == rest;
  }

  /** A token written out and followed by a space reads back as itself. */
  lemma {:induction false} LexToken(t: Token, rest: string)
    requires TokenOk(t) && Lex(rest).Ok?
    ensures Lex(TokenText(t) + " " + rest) == Ok([t] + Lex(rest).value)
  {
    LexSpace(rest);
    match t
    case TNum(n) => LexNum(n, rest);
    case TName(x) => LexName(x, rest);
    case TStr(x) => LexStr(x, rest);
    case TPunct(c) =>
      var s := [c] + " " + rest;
      assert s[1..] == " " + rest;
    case TEq =>
      var s := "==" + " " + rest;
      assert s[2..] == " " + rest;
    case TNotEq =>
      var s := "!=" + " " + rest;
      assert s[2..] == " " + rest;
  }

  lemma {:induction false} LexNum(n: nat, rest: string)
    requires Lex(rest).Ok?
    ensures Lex(NatToString(n) + " " + rest) == Ok([TNum(n)] + Lex(rest).value)
  {
    var d := NatToString(n);
    var s := d + " " + rest;
    assert s == d + (" " + rest);
    DigitRunOf(d, " " + rest);
    assert s[..|d|] == d && s[|d|..] == " " + rest;
    NatToStringValue(n);
    LexSpace(rest);
  }

  lemma {:induction false} LexName(x: string, rest: string)
    requires IsName(x) && Lex(rest).Ok?
    ensures Lex(x + " " + rest) == Ok([TName(x)] + Lex(rest).value)
  {
    var s := x + " " + rest;
    assert s == x + (" " + rest);
    NameRunOf(x, " " + rest);
    assert s[..|x|] == x && s[|x|..] == " " + rest;
    LexSpace(rest);
  }

  lemma {:induction false} LexStr(x: string, rest: string)
    requires '\'' !in x && Lex(rest).Ok?
    ensures Lex("'" + x + "'" + " " + rest) == Ok([TStr(x)] + Lex(rest).value)
  {
    var tail := " " + rest;
    var s := "'" + x + "'" + " " + rest;
    QuotedParts(x, tail);
    assert s == "'" + x + "'" + tail;
    IndexOfAfterPrefix(x, '\'', tail);
    LexSpace(rest);
    LexQuoted(s, |x|);
  }

  lemma QuotedParts(x: string, tail: string)
    ensures var s := "'" + x + "'" + tail;
            s[0] == '\'' && s[1..] == x + ['\''] + tail && s[1..|x| + 1] == x && s[|x| + 2..] == tail
  {
    var s := "'" + x + "'" + tail;
    assert s[1..] == x + ['\''] + tail;
  }

  /** How the tokenizer reads a quoted string whose closing quote is at offset `k`. */
  lemma LexQuoted(s: string, k: nat)
    requires s != [] && s[0] == '\'' && IndexOf(s[1..], s[0]) == Some(k)
    requires k + 2 <= |s| && Lex(s[k + 2..]).Ok?
    ensures Lex(s) == Ok([TStr(s[1..k + 1])] + Lex(s[k + 2..]).value)
  {
    assert !IsSpace(s[0]) && !IsDigit(s[0]) && !NameStart(s[0]);
  }


  /** Tokens written out read back unchanged. */
  lemma {:induction false} LexRoundTrip(ts: seq<Token>)
    requires TokensOk(ts)
    ensures Lex(Unlex(ts)) == Ok(ts)
  {
    if ts != [] {
      LexRoundTrip(ts[1..]);
      LexToken(ts[0], Unlex(ts[1..]));
      assert [ts[0]] + ts[1..] == ts;
    }
  }

  // ---------------------------------------------------------------------------
  // Parser round trip

  /** A written-out term is one atom, whatever follows it. */
  lemma {:induction false} AtomPrint(t: Term, rest: seq<Token>)
    requires WellFormed(t)
    ensures ParseAtom(Print(t) + rest) == Ok((t, rest))
    decreases t, 3
  {
    var ts := Print(t) + rest;
    match t
    case Num(n) => assert ts[1..] == rest;
    case Text(s) => assert ts[1..] == rest;
    case NullTerm => assert ts[1..] == rest;
    case BoolTerm(b) => assert ts[1..] == rest;
    case Bin(op, a, b) =>
      assert ts[1..] == Print(a) + [OpToken(op)] + Print(b) + [TPunct(')')] + rest;
      BinInside(op, a, b, rest);
    case Call(name, args) =>
      assert ts[1] == TPunct('(');
      assert ts[2..] == PrintArgs(args) + [TPunct(')')] + rest;
      ArgsPrint(args, rest);
  }

  /** Inside its parentheses an operation parses back to itself, up to the closing one. */
  lemma {:induction false} BinInside(op: BinOp, a: Term, b: Term, rest: seq<Token>)
    requires WellFormed(a) && WellFormed(b)
    ensures ParseCmp(Print(a) + [OpToken(op)] + Print(b) + [TPunct(')')] + rest)
            == Ok((Bin(op, a, b), [TPunct(')')] + rest))
    decreases Bin(op, a, b), 2
  {
    var close := [TPunct(')')] + rest;
    var afterA := [OpToken(op)] + Print(b) + close;
    assert Print(a) + [OpToken(op)] + Print(b) + [TPunct(')')] + rest == Print(a) + afterA;
    assert afterA[1..] == Print(b) + close;
    match op
    case Times => TimesInside(a, b, close);
    case Plus => SumInside(op, a, b, close);
    case Minus => SumInside(op, a, b, close);
    case Equal => CmpInside(op, a, b, close);
    case NotEqual => CmpInside(op, a, b, close);
  }

  lemma {:induction false} TimesInside(a: Term, b: Term, close: seq<Token>)
    requires WellFormed(a) && WellFormed(b) && close != [] && close[0] == TPunct(')')
    ensures ParseCmp(Print(a) + ([TPunct('*')] + Print(b) + close)) == Ok((Bin(Times, a, b), close))
    decreases Bin(Times, a, b), 1
  {
    var afterA := [TPunct('*')] + Print(b) + close;
    var x := Print(a) + afterA;
    assert afterA[1..] == Print(b) + close;
    AtomPrint(a, afterA);
    AtomPrint(b, close);
    var t := Bin(Times, a, b);
    assert ProductRest(t, close) == Ok((t, close));
    assert ProductRest(a, afterA) == Ok((t, close));
    assert ParseProduct(x) == Ok((t, close));
    assert SumRest(t, close) == Ok((t, close));
    assert ParseSum(x) == Ok((t, close));
  }

  lemma {:induction false} SumInside(op: BinOp, a: Term, b: Term, close: seq<Token>)
    requires op == Plus || op == Minus
    requires WellFormed(a) && WellFormed(b) && close != [] && close[0] == TPunct(')')
    ensures ParseCmp(Print(a) + ([OpToken(op)] + Print(b) + close)) == Ok((Bin(op, a, b), close))
    decreases Bin(op, a, b), 1
  {
    var afterA := [OpToken(op)] + Print(b) + close;
    var x := Print(a) + afterA;
    assert afterA[1..] == Print(b) + close;
    ProductPrint(a, afterA);
    ProductPrint(b, close);
    var t := Bin(op, a, b);
    assert SumRest(t, close) == Ok((t, close));
    assert SumRest(a, afterA) == Ok((t, close));
    assert ParseSum(x) == Ok((t, close));
  }

  lemma {:induction false} CmpInside(op: BinOp, a: Term, b: Term, close: seq<Token>)
    requires op == Equal || op == NotEqual
    requires WellFormed(a) && WellFormed(b) && close != [] && close[0] == TPunct(')')
    ensures ParseCmp(Print(a) + ([OpToken(op)] + Print(b) + close)) == Ok((Bin(op, a, b), close))
    decreases Bin(op, a, b), 1
  {
    var afterA := [OpToken(op)] + Print(b) + close;
    var x := Print(a) + afterA;
    assert afterA[1..] == Print(b) + close;
    SumPrintBefore(a, op, afterA);
    SumPrint(b, close);
  }

  /** A written-out term followed by a comparison operator parses as a sum up to it. */
  lemma {:induction false} SumPrintBefore(t: Term, op: BinOp, rest: seq<Token>)
    requires op == Equal || op == NotEqual
    requires WellFormed(t) && rest != [] && rest[0] == OpToken(op)
    ensures ParseSum(Print(t) + rest) == Ok((t, rest))
    decreases t, 5
  {
    ProductPrint(t, rest);
    assert SumRest(t, rest) == Ok((t, rest));
  }

  lemma {:induction false} ProductPrint(t: Term, rest: seq<Token>)
    requires WellFormed(t) && (rest == [] || rest[0] != TPunct('*'))
    ensures ParseProduct(Print(t) + rest) == Ok((t, rest))
    decreases t, 4
  {
    AtomPrint(t, rest);
  }

  lemma {:induction false} SumPrint(t: Term, rest: seq<Token>)
    requires WellFormed(t) && (rest == [] || rest[0] == TPunct(')') || rest[0] == TPunct(','))
    ensures ParseSum(Print(t) + rest) == Ok((t, rest))
    decreases t, 5
  {
    ProductPrint(t, rest);
    assert SumRest(t, rest) == Ok((t, rest));
  }

  /** A written-out term followed by a closing parenthesis, a comma or nothing parses back to itself. */
  lemma {:induction false} CmpPrint(t: Term, rest: seq<Token>)
    requires WellFormed(t) && (rest == [] || rest[0] == TPunct(')') || rest[0] == TPunct(','))
    ensures ParseCmp(Print(t) + rest) == Ok((t, rest))
    decreases t, 6
  {
    SumPrint(t, rest);
  }

  lemma {:induction false} ArgsPrint(args: seq<Term>, rest: seq<Token>)
    requires forall i :: 0 <= i < |args| ==> WellFormed(args[i])
    ensures ParseArgs(PrintArgs(args) + [TPunct(')')] + rest) == Ok((args, rest))
    decreases args, 7
  {
    var ts := PrintArgs(args) + [TPunct(')')] + rest;
    if args == [] {
      assert ts[1..] == rest;
    } else {
      var after := MoreArgs(args[1..]) + [TPunct(')')] + rest;
      assert ts == Print(args[0]) + after;
      assert after != [] && (after[0] == TPunct(')') || after[0] == TPunct(','));
      CmpPrint(args[0], after);
      MoreArgsPrint([args[0]], args[1..], rest);
      assert [args[0]] + args[1..] == args;
    }
  }

  lemma {:induction false} MoreArgsPrint(acc: seq<Term>, args: seq<Term>, rest: seq<Token>)
    requires forall i :: 0 <= i < |args| ==> WellFormed(args[i])
    ensures ArgsRest(acc, MoreArgs(args) + [TPunct(')')] + rest) == Ok((acc + args, rest))
    decreases args, 8
  {
    var ts := MoreArgs(args) + [TPunct(')')] + rest;
    if args == [] {
      assert ts[1..] == rest;
      assert acc + args == acc;
    } else {
      var after := MoreArgs(args[1..]) + [TPunct(')')] + rest;
      assert PrintArgs(args) == Print(args[0]) + MoreArgs(args[1..]);
      assert MoreArgs(args) == [TPunct(',')] + PrintArgs(args);
      assert ts[1..] == Print(args[0]) + after;
      assert after != [] && (after[0] == TPunct(')') || after[0] == TPunct(','));
      CmpPrint(args[0], after);
      MoreArgsPrint(acc + [args[0]], args[1..], rest);
      assert acc + [args[0]] + args[1..] == acc + args;
    }
  }

  /** Every token of a written-out well-formed term can itself be written out. */
  lemma TokensOkConcat(xs: seq<Token>, ys: seq<Token>)
    requires TokensOk(xs) && TokensOk(ys)
    ensures TokensOk(xs + ys)
  {
    forall i | 0 <= i < |xs + ys|
      ensures TokenOk((xs + ys)[i])
    {
      if i >= |xs| {
        assert (xs + ys)[i] == ys[i - |xs|];
      }
    }
  }

  lemma {:induction false} PrintTokensOk(t: Term)
    requires WellFormed(t)
    ensures TokensOk(Print(t))
    decreases t, 1
  {
    match t
    case Bin(op, a, b) =>
      PrintTokensOk(a);
      PrintTokensOk(b);
      TokensOkConcat([TPunct('(')], Print(a));
      TokensOkConcat([TPunct('(')] + Print(a), [OpToken(op)]);
      TokensOkConcat([TPunct('(')] + Print(a) + [OpToken(op)], Print(b));
      TokensOkConcat([TPunct('(')] + Print(a) + [OpToken(op)] + Print(b), [TPunct(')')]);
    case Call(name, args) =>
      ArgsTokensOk(args);
      TokensOkConcat([TName(name), TPunct('(')], PrintArgs(args));
      TokensOkConcat([TName(name), TPunct('(')] + PrintArgs(args), [TPunct(')')]);
    case _ =>
  }

  lemma {:induction false} ArgsTokensOk(args: seq<Term>)
    requires forall i :: 0 <= i < |args| ==> WellFormed(args[i])
    ensures TokensOk(PrintArgs(args))
    decreases args, 0
  {
    if args != [] {
      PrintTokensOk(args[0]);
      ArgsTokensOk(args[1..]);
      if args[1..] != [] {
        TokensOkConcat([TPunct(',')], PrintArgs(args[1..]));
      }
      TokensOkConcat(Print(args[0]), MoreArgs(args[1..]));
    }
  }


  /** A well-formed term written out as formula text evaluates exactly as the term. */
  lemma {:induction false} ProcessPrinted(t: Term)
    requires WellFormed(t)
    ensures Process(Unlex(Print(t))) == Eval(t)
  {
    PrintTokensOk(t);
    LexRoundTrip(Print(t));
    CmpPrint(t, []);
    assert Print(t) + [] == Print(t);
  }

  // ---------------------------------------------------------------------------
  // Grouping

  /** `a - b + c` associates to the left: `(a - b) + c`. */
  lemma {:induction false} SumsAssociateLeft(a: nat, b: nat, c: nat)
    ensures ParseCmp([TNum(a), TPunct('-'), TNum(b), TPunct('+'), TNum(c)])
            == Ok((Bin(Plus, Bin(Minus, Num(a), Num(b)), Num(c)), []))
  {
    var ts := [TNum(a), TPunct('-'), TNum(b), TPunct('+'), TNum(c)];
    assert ts[1..] == [TPunct('-'), TNum(b), TPunct('+'), TNum(c)];
    assert ParseAtom(ts) == Ok((Num(a), ts[1..]));
    assert ProductRest(Num(a), ts[1..]) == Ok((Num(a), ts[1..]));
    assert ParseProduct(ts) == Ok((Num(a), ts[1..]));
    var t2 := ts[2..];
    assert ParseAtom(t2) == Ok((Num(b), t2[1..]));
    assert t2[1..] == [TPunct('+'), TNum(c)];
    assert ProductRest(Num(b), t2[1..]) == Ok((Num(b), t2[1..]));
    var t4 := ts[4..];
    assert t4[1..] == [];
    assert ProductRest(Num(c), []) == Ok((Num(c), []));
    assert ParseProduct(t4) == Ok((Num(c), []));
    var ab := Bin(Minus, Num(a), Num(b));
    assert SumRest(Bin(Plus, ab, Num(c)), []) == Ok((Bin(Plus, ab, Num(c)), []));
    assert SumRest(ab, t2[1..]) == Ok((Bin(Plus, ab, Num(c)), []));
    assert ParseProduct(t2) == Ok((Num(b), t2[1..]));
    assert SumRest(Num(a), ts[1..]) == Ok((Bin(Plus, ab, Num(c)), []));
    assert ParseSum(ts) == Ok((Bin(Plus, ab, Num(c)), []));
  }

  /** In `a - (b + c)` the parenthesised sum is computed first. */
  lemma {:induction false} ParenthesesGroupFirst(a: nat, b: nat, c: nat)
    ensures ParseCmp([TNum(a), TPunct('-'), TPunct('('), TNum(b), TPunct('+'), TNum(c), TPunct(')')])
            == Ok((Bin(Minus, Num(a), Bin(Plus, Num(b), Num(c))), []))
    ensures Eval(Bin(Minus, Num(a), Bin(Plus, Num(b), Num(c)))) == Ok(VInt(a - (b + c)))
  {
    var group := Bin(Plus, Num(b), Num(c));
    var ts := [TNum(a), TPunct('-')] + Print(group);
    assert ts == [TNum(a), TPunct('-'), TPunct('('), TNum(b), TPunct('+'), TNum(c), TPunct(')')];
    assert ts[1..] == [TPunct('-')] + Print(group);
    assert ParseAtom(ts) == Ok((Num(a), ts[1..]));
    assert ProductRest(Num(a), ts[1..]) == Ok((Num(a), ts[1..]));
    assert ParseProduct(ts) == Ok((Num(a), ts[1..]));
    ProductPrint(group, []);
    assert ts[2..] == Print(group) + [];
    var whole := Bin(Minus, Num(a), group);
    assert SumRest(whole, []) == Ok((whole, []));
    assert SumRest(Num(a), ts[1..]) == Ok((whole, []));
    assert ParseSum(ts) == Ok((whole, []));
    assert Eval(group) == Ok(VInt(b + c));
  }
}
