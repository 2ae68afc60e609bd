/**
 * The formula evaluator: a formula text is split into tokens, parsed into a term
 * (comparison over sums over products over atoms, operators associating to the left,
 * parentheses grouping), and the term evaluated. The functions modelled are `list`,
 * `string\pad` and `ifThenElse`; an empty formula evaluates to null.
 */
module Formula {
  import opened Outcomes
  import opened Strings

  // ---------------------------------------------------------------------------
  // Values and string padding

  datatype Value = VInt(i: int) | VStr(s: string) | VBool(b: bool) | VNull | VList(items: seq<Value>)

  /** PHP truthiness, as `ifThenElse` tests its condition. */
  predicate Truthy(v: Value)
  {
    match v
    case VInt(i) => i != 0
    case VStr(s) => s != "" && s != "0"
    case VBool(b) => b
    case VNull => false
    case VList(items) => items != []
  }

  /** `n` characters of the fill string repeated from its start, cut off where needed. */
  function Fill(pad: string, n: nat): (r: string)
    requires |pad| > 0
    ensures |r| == n && forall i :: 0 <= i < n ==> r[i] == pad[i % |pad|]
  {
    if n == 0 then [] else Fill(pad, n - 1) + [pad[(n - 1) % |pad|]]
  }

  datatype Side = Left | Right | Both

  /** The side a `string\pad` argument names; anything but `left` and `both` pads on the right. */
  function SideOf(name: string): Side
  {
    if name == "left" then Left else if name == "both" then Both else Right
  }

  /** PHP's str_pad: fill up to `length` on the given side, half before and the rest after for both. */
  function Pad(s: string, length: int, pad: string, side: Side): (r: string)
    requires |pad| > 0
  {
    if length <= |s| then s
    else
      var n := length - |s|;
      match side
      case Right => s + Fill(pad, n)
      case Left => Fill(pad, n) + s
      case Both => Fill(pad, n / 2) + s + Fill(pad, n - n / 2)
  }

  /** Where the input starts inside the padded text. */
  function PadOffset(s: string, length: int, side: Side): nat
  {
    if length <= |s| then 0
    else
      match side
      case Right => 0
      case Left => length - |s|
      case Both => (length - |s|) / 2
  }

  // ---------------------------------------------------------------------------
  // Terms and evaluation

  datatype BinOp = Plus | Minus | Times | Equal | NotEqual

  datatype Term =
    | Num(n: nat)
    | Text(s: string)
    | NullTerm
    | BoolTerm(b: bool)
    | Bin(op: BinOp, left: Term, right: Term)
    | Call(name: string, args: seq<Term>)

  /** Integer arithmetic, text concatenation with `+`, and comparison of any two values. */
  function Arith(op: BinOp, x: Value, y: Value): (r: Result<Value>)
    ensures op.Equal? ==> r == Ok(VBool(x == y))
    ensures op.NotEqual? ==> r == Ok(VBool(x != y))
  {
    match op
    case Equal => Ok(VBool(x == y))
    case NotEqual => Ok(VBool(x != y))
    case Plus =>
      if x.VInt? && y.VInt? then Ok(VInt(x.i + y.i))
      else if x.VStr? && y.VStr? then Ok(VStr(x.s + y.s))
      else Fail(NotSupported("+"))
    case Minus => if x.VInt? && y.VInt? then Ok(VInt(x.i - y.i)) else Fail(NotSupported("-"))
    case Times => if x.VInt? && y.VInt? then Ok(VInt(x.i * y.i)) else Fail(NotSupported("*"))
  }

  /** The text `string\pad` reads from an argument: a string, or an integer written out. */
  function TextOf(v: Value): Option<string>
  {
    match v
    case VStr(s) => Some(s)
    case VInt(i) => Some(IntToString(i))
    case _ => None
  }

  function PadCall(vs: seq<Value>): (r: Result<Value>)
    ensures r.Ok? ==> 2 <= |vs| <= 4 && r.value.VStr?
  {
    if |vs| < 2 || |vs| > 4 then Fail(WrongArgumentCount("string\\pad"))
    else
      match (TextOf(vs[0]), vs[1])
      case (Some(s), VInt(length)) =>
        var pad := if |vs| >= 3 then TextOf(vs[2]) else Some(" ");
        var side := if |vs| == 4 && vs[3].VStr? then SideOf(vs[3].s) else Right;
        if pad.None? then Fail(NotSupported("string\\pad"))
        else if pad.value == "" then Fail(EmptyPadString)
        else Ok(VStr(Pad(s, length, pad.value, side)))
      case _ => Fail(NotSupported("string\\pad"))
  }

  /** The functions other than `ifThenElse`, applied to their evaluated arguments. */
  function Apply(name: string, vs: seq<Value>): (r: Result<Value>)
    ensures name == "list" ==> r == Ok(VList(vs))
  {
    if name == "list" then Ok(VList(vs))
    else if name == "string\\pad" then PadCall(vs)
    else if name == "ifThenElse" then Fail(WrongArgumentCount(name))
    else Fail(UnknownFunction(name))
  }

  /** Evaluation; `ifThenElse` evaluates only the branch its condition selects. */
  function Eval(t: Term): (r: Result<Value>)
    decreases t, 1
  {
    match t
    case Num(n) => Ok(VInt(n))
    case Text(s) => Ok(VStr(s))
    case NullTerm => Ok(VNull)
    case BoolTerm(b) => Ok(VBool(b))
    case Bin(op, a, b) =>
      var x :- Eval(a);
      var y :- Eval(b);
      Arith(op, x, y)
    case Call(name, args) =>
      if name == "ifThenElse" && |args| == 3 then
        var c :- Eval(args[0]);
        if Truthy(c) then Eval(args[1]) else Eval(args[2])
      else
        var vs :- EvalAll(args);
        Apply(name, vs)
  }

  function EvalAll(ts: seq<Term>): (r: Result<seq<Value>>)
    ensures r.Ok? <==> forall i :: 0 <= i < |ts| ==> Eval(ts[i]).Ok?
    ensures r.Ok? ==> |r.value| == |ts| && forall i :: 0 <= i < |ts| ==> r.value[i] == Eval(ts[i]).value
    decreases ts, 0
  {
    if ts == [] then Ok([])
    else
      var v :- Eval(ts[0]);
      var vs :- EvalAll(ts[1..]);
      Ok([v] + vs)
  }

  // ---------------------------------------------------------------------------
  // Tokens

  datatype Token = TNum(n: nat) | TStr(s: string) | TName(name: string) | TPunct(c: char) | TEq | TNotEq

  predicate NameStart(c: char) { IsLetter(c) || c == '\\' || c == '_' }
  predicate NameChar(c: char) { IsAlnum(c) || c == '\\' || c == '_' }
  predicate PunctChar(c: char) { c == '(' || c == ')' || c == ',' || c == '+' || c == '-' || c == '*' }

  /** The length of the run of digits that starts the text. */
  function DigitRun(s: string): (n: nat)
    ensures n <= |s| && AllDigits(s[..n]) && (n < |s| ==> !IsDigit(s[n]))
    ensures s != [] && IsDigit(s[0]) ==> n >= 1
  {
    if s == [] || !IsDigit(s[0]) then 0
    else
      var m := DigitRun(s[1..]);
      assert s[..1 + m] == [s[0]] + s[1..][..m];
      1 + m
  }

  /** The length of the run of name characters that starts the text. */
  function NameRun(s: string): (n: nat)
    ensures n <= |s| && (forall i :: 0 <= i < n ==> NameChar(s[i])) && (n < |s| ==> !NameChar(s[n]))
    ensures s != [] && NameChar(s[0]) ==> n >= 1
  {
    if s == [] || !NameChar(s[0]) then 0 else 1 + NameRun(s[1..])
  }

  /**
   * Splits a formula into tokens: whitespace separates, digits make a number, a name
   * runs over letters, digits, `\` and `_`, a string is quoted with ' or " up to the
   * next same quote, and `!=` and `==` are comparisons.
   */
  function Lex(s: string): (r: Result<seq<Token>>)
    decreases |s|
  {
    if s == [] then Ok([])
    else if IsSpace(s[0]) then Lex(s[1..])
    else if IsDigit(s[0]) then
      var n := DigitRun(s);
      var rest :- Lex(s[n..]);
      Ok([TNum(DigitsValue(s[..n]))] + rest)
    else if NameStart(s[0]) then
      var n := NameRun(s);
      var rest :- Lex(s[n..]);
      Ok([TName(s[..n])] + rest)
    else if s[0] == '\'' || s[0] == '"' then
      match IndexOf(s[1..], s[0])
      case None => Fail(SyntaxError(s))
      case Some(k) =>
        var rest :- Lex(s[k + 2..]);
        Ok([TStr(s[1..k + 1])] + rest)
    else if PunctChar(s[0]) then
      var rest :- Lex(s[1..]);
      Ok([TPunct(s[0])] + rest)
    else if |s| >= 2 && s[0] == '!' && s[1] == '=' then
      var rest :- Lex(s[2..]);
      Ok([TNotEq] + rest)
    else if |s| >= 2 && s[0] == '=' && s[1] == '=' then
      var rest :- Lex(s[2..]);
      Ok([TEq] + rest)
    else Fail(SyntaxError(s))
  }

  // ---------------------------------------------------------------------------
  // Parsing

  /** comparison := sum [(== | !=) sum] */
  function ParseCmp(ts: seq<Token>): (r: Result<(Term, seq<Token>)>)
    ensures r.Ok? ==> |r.value.1| < |ts|
    decreases |ts|, 3
  {
    var left :- ParseSum(ts);
    var rest := left.1;
    if rest != [] && (rest[0] == TEq || rest[0] == TNotEq) then
      var right :- ParseSum(rest[1..]);
      Ok((Bin(if rest[0] == TEq then Equal else NotEqual, left.0, right.0), right.1))
    else Ok(left)
  }

  /** sum := product ((+ | -) product)*, associating to the left */
  function ParseSum(ts: seq<Token>): (r: Result<(Term, seq<Token>)>)
    ensures r.Ok? ==> |r.value.1| < |ts|
    decreases |ts|, 2
  {
    var first :- ParseProduct(ts);
    SumRest(first.0, first.1)
  }

  function SumRest(acc: Term, ts: seq<Token>): (r: Result<(Term, seq<Token>)>)
    ensures r.Ok? ==> |r.value.1| <= |ts|
    decreases |ts|, 2
  {
    if ts != [] && (ts[0] == TPunct('+') || ts[0] == TPunct('-')) then
      var next :- ParseProduct(ts[1..]);
      SumRest(Bin(if ts[0] == TPunct('+') then Plus else Minus, acc, next.0), next.1)
    else Ok((acc, ts))
  }

  /** product := atom (* atom)*, associating to the left */
  function ParseProduct(ts: seq<Token>): (r: Result<(Term, seq<Token>)>)
    ensures r.Ok? ==> |r.value.1| < |ts|
    decreases |ts|, 1
  {
    var first :- ParseAtom(ts);
    ProductRest(first.0, first.1)
  }

  function ProductRest(acc: Term, ts: seq<Token>): (r: Result<(Term, seq<Token>)>)
    ensures r.Ok? ==> |r.value.1| <= |ts|
    decreases |ts|, 1
  {
    if ts != [] && ts[0] == TPunct('*') then
      var next :- ParseAtom(ts[1..]);
      ProductRest(Bin(Times, acc, next.0), next.1)
    else Ok((acc, ts))
  }

  /** atom := number | string | null | true | false | name ( args ) | ( comparison ) */
  function ParseAtom(ts: seq<Token>): (r: Result<(Term, seq<Token>)>)
    ensures r.Ok? ==> |r.value.1| < |ts|
    decreases |ts|, 0
  {
    if ts == [] then Fail(SyntaxError(""))
    else
      match ts[0]
      case TNum(n) => Ok((Num(n), ts[1..]))
      case TStr(s) => Ok((Text(s), ts[1..]))
      case TName(x) =>
        if x == "null" then Ok((NullTerm, ts[1..]))
        else if x == "true" then Ok((BoolTerm(true), ts[1..]))
        else if x == "false" then Ok((BoolTerm(false), ts[1..]))
        else if |ts| >= 2 && ts[1] == TPunct('(') then
          var args :- ParseArgs(ts[2..]);
          Ok((Call(x, args.0), args.1))
        else Fail(NotSupported(x))
      case TPunct(c) =>
        if c == '(' then
          var inner :- ParseCmp(ts[1..]);
          if inner.1 != [] && inner.1[0] == TPunct(')') then Ok((inner.0, inner.1[1..]))
          else Fail(SyntaxError("("))
        else Fail(SyntaxError([c]))
      case _ => Fail(SyntaxError("="))
  }

  /** args := ) | comparison (, comparison)* ) — the tokens after the opening parenthesis */
  function ParseArgs(ts: seq<Token>): (r: Result<(seq<Term>, seq<Token>)>)
    ensures r.Ok? ==> |r.value.1| < |ts|
    decreases |ts|, 4
  {
    if ts != [] && ts[0] == TPunct(')') then Ok(([], ts[1..]))
    else
      var first :- ParseCmp(ts);
      ArgsRest([first.0], first.1)
  }

  function ArgsRest(acc: seq<Term>, ts: seq<Token>): (r: Result<(seq<Term>, seq<Token>)>)
    ensures r.Ok? ==> |r.value.1| < |ts|
    decreases |ts|, 4
  {
    if ts != [] && ts[0] == TPunct(')') then Ok((acc, ts[1..]))
    else if ts != [] && ts[0] == TPunct(',') then
      var next :- ParseCmp(ts[1..]);
      ArgsRest(acc + [next.0], next.1)
    else Fail(SyntaxError(","))
  }

  /** Evaluates a formula text; the empty formula (or only whitespace) is null. */
  function Process(text: string): (r: Result<Value>)
  {
    var ts :- Lex(text);
    if ts == [] then Ok(VNull)
    else
      var p :- ParseCmp(ts);
      if p.1 != [] then Fail(SyntaxError(text)) else Eval(p.0)
  }
}
