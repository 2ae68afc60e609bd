/**
 * The complex-expression syntax of the ORM query builder: `NAME:args` or
 * `NAME:(arg, …)` function calls, quoted literals, numbers, TRUE/FALSE/NULL, attribute
 * paths, and the full-text `MATCH_BOOLEAN` / `MATCH_NATURAL_LANGUAGE` forms that take
 * a column list and a query. Parsing splits arguments at top-level commas, respecting
 * parentheses and quotes; printing produces the parenthesised form.
 */
module Expression {
  import opened Outcomes
  import opened Strings

  datatype MatchMode = Boolean | NaturalLanguage

  datatype Expr =
    /** An attribute, or `alias.attribute`. */
    | Attr(path: string)
    /** A quoted literal; the text between the quotes. */
    | Str(text: string)
    /** A numeric literal, kept as written. */
    | Num(text: string)
    /** TRUE, FALSE or NULL. */
    | Keyword(word: string)
    | Call(name: string, args: seq<Expr>)
    | Match(mode: MatchMode, columns: seq<string>, query: string)

  const Keywords: seq<string> := ["TRUE", "FALSE", "NULL"]

  predicate NameChar(c: char) { IsUpper(c) || IsDigit(c) || c == '_' }

  predicate IsFunctionName(s: string)
  {
    |s| >= 1 && IsUpper(s[0]) && forall i :: 0 <= i < |s| ==> NameChar(s[i])
  }

  predicate IsMatchName(s: string) { s == "MATCH_BOOLEAN" || s == "MATCH_NATURAL_LANGUAGE" }

  function MatchName(m: MatchMode): string
  {
    match m
    case Boolean => "MATCH_BOOLEAN"
    case NaturalLanguage => "MATCH_NATURAL_LANGUAGE"
  }

  predicate PathChar(c: char) { IsLetter(c) || IsDigit(c) || c == '_' || c == '.' }

  /** An attribute name or `alias.attribute`. */
  predicate IsPath(s: string)
  {
    |s| >= 1 && (IsLetter(s[0]) || s[0] == '_') && forall i :: 0 <= i < |s| ==> PathChar(s[i])
  }

  predicate AllPaths(ps: seq<string>) { forall i :: 0 <= i < |ps| ==> IsPath(ps[i]) }

  /** An optional minus sign, digits, and optionally a point followed by digits. */
  predicate IsNumber(s: string)
  {
    var body := if |s| >= 1 && s[0] == '-' then s[1..] else s;
    match IndexOf(body, '.')
    case None => |body| >= 1 && AllDigits(body)
    case Some(i) => i >= 1 && i + 1 < |body| && AllDigits(body[..i]) && AllDigits(body[i + 1..])
  }

  // ---------------------------------------------------------------------------
  // Argument scanner: depth of parentheses and the quote currently open.

  datatype Scan = Scan(depth: int, quote: Option<char>)

  const Top: Scan := Scan(0, None)

  function Step(st: Scan, c: char): Scan
  {
    if st.quote.Some? then (if c == st.quote.value then Scan(st.depth, None) else st)
    else if c == '\'' || c == '"' then Scan(st.depth, Some(c))
    else if c == '(' then Scan(st.depth + 1, None)
    else if c == ')' then Scan(st.depth - 1, None)
    else st
  }

  /** A comma separates arguments only outside every parenthesis and quote. */
  predicate Splits(st: Scan, c: char) { st == Top && c == ',' }

  function Run(st: Scan, s: string): Scan
    decreases |s|
  {
    if s == [] then st else Run(Step(st, s[0]), s[1..])
  }

  /** Scanning s from st never meets a separating comma nor closes an unopened parenthesis. */
  predicate Inside(st: Scan, s: string)
    decreases |s|
  {
    s == [] || (!Splits(st, s[0]) && Step(st, s[0]).depth >= 0 && Inside(Step(st, s[0]), s[1..]))
  }

  /** A text that forms exactly one argument: balanced, every quote closed. */
  predicate Clean(s: string) { Inside(Top, s) && Run(Top, s) == Top }

  /**
   * Splits s at separating commas. `cur` is the argument read so far and `acc` the
   * arguments already complete; every argument is trimmed. None on unbalanced text.
   */
  function SplitFrom(s: string, st: Scan, cur: string, acc: seq<string>): (r: Option<seq<string>>)
    ensures r.Some? ==> forall i :: 0 <= i < |r.value| ==> r.value[i] in acc || |r.value[i]| <= |cur| + |s|
    decreases |s|
  {
    if s == [] then (if st == Top then Some(acc + [Trim(cur)]) else None)
    else if Splits(st, s[0]) then SplitFrom(s[1..], st, "", acc + [Trim(cur)])
    else
      var next := Step(st, s[0]);
      if next.depth < 0 then None else SplitFrom(s[1..], next, cur + [s[0]], acc)
  }

  /** The arguments of a call: none for blank text, otherwise the comma-separated pieces. */
  function SplitArgs(s: string): (r: Option<seq<string>>)
    ensures r.Some? ==> forall i :: 0 <= i < |r.value| ==> |r.value[i]| <= |s|
  {
    if Trim(s) == "" then Some([]) else SplitFrom(s, Top, "", [])
  }

  /** Strips one pair of enclosing parentheses, if present. */
  function Unwrap(s: string): (r: string)
    ensures |r| <= |s|
  {
    if |s| >= 2 && s[0] == '(' && s[|s| - 1] == ')' then s[1..|s| - 1] else s
  }

  // ---------------------------------------------------------------------------
  // Parser

  predicate IsQuoted(t: string)
  {
    |t| >= 2 && (t[0] == '\'' || t[0] == '"') && t[|t| - 1] == t[0]
  }

  function Parse(text: string): (r: Result<Expr>)
    decreases |text|, 3, 0
  {
    var t := Trim(text);
    if IsQuoted(t) then Ok(Str(t[1..|t| - 1]))
    else
      match IndexOf(t, ':')
      case Some(i) => ParseColon(t, i, |text|)
      case None => ParseAtom(t)
  }

  /** Text without a colon: a number, a keyword or an attribute path. */
  function ParseAtom(t: string): (r: Result<Expr>)
    ensures r.Ok? ==> r.value.Num? || r.value.Keyword? || r.value.Attr?
  {
    if IsNumber(t) then Ok(Num(t))
    else if Upper(t) in Keywords then Ok(Keyword(Upper(t)))
    else if IsPath(t) then Ok(Attr(t))
    else Fail(SyntaxError(t))
  }

  /** Text whose first colon is at position i: the name before it selects the form. */
  function ParseColon(t: string, i: nat, bound: nat): (r: Result<Expr>)
    requires i < |t| <= bound
    decreases bound, 2, 0
  {
    var name := t[..i];
    var rest := t[i + 1..];
    if !IsFunctionName(name) then Fail(SyntaxError(t))
    else if name == "MATCH_BOOLEAN" then ParseMatch(Boolean, rest)
    else if name == "MATCH_NATURAL_LANGUAGE" then ParseMatch(NaturalLanguage, rest)
    else ParseCall(t, name, rest, bound)
  }

  /** The call `name:rest` read from the text t; bound exceeds the length of rest. */
  function ParseCall(t: string, name: string, rest: string, bound: nat): (r: Result<Expr>)
    requires |rest| < bound
    ensures r.Ok? ==> r.value.Call? && r.value.name == name
    decreases bound, 1, 0
  {
    match SplitArgs(Unwrap(rest))
    case None => Fail(SyntaxError(t))
    case Some(pieces) =>
      var args :- ParseArgs(pieces, bound);
      Ok(Call(name, args))
  }

  function ParseArgs(pieces: seq<string>, bound: nat): (r: Result<seq<Expr>>)
    requires forall i :: 0 <= i < |pieces| ==> |pieces[i]| < bound
    ensures r.Ok? ==> |r.value| == |pieces|
    decreases bound, 0, |pieces|
  {
    if pieces == [] then Ok([])
    else
      var head :- Parse(pieces[0]);
      var tail :- ParseArgs(pieces[1..], bound);
      Ok([head] + tail)
  }

  /** `cols:query` or `(col, …, query)`. */
  function ParseMatch(mode: MatchMode, rest: string): (r: Result<Expr>)
    ensures r.Ok? ==> r.value.Match? && r.value.mode == mode && |r.value.columns| >= 1 && AllPaths(r.value.columns)
  {
    if |rest| >= 2 && rest[0] == '(' && rest[|rest| - 1] == ')' then ParseMatchList(mode, rest[1..|rest| - 1])
    else ParseMatchColon(mode, rest)
  }

  /** `col, …, query`: every piece but the last is a column. */
  function ParseMatchList(mode: MatchMode, inner: string): (r: Result<Expr>)
    ensures r.Ok? ==> r.value.Match? && r.value.mode == mode && |r.value.columns| >= 1 && AllPaths(r.value.columns)
  {
    match SplitArgs(inner)
    case None => Fail(SyntaxError(inner))
    case Some(pieces) =>
      if |pieces| >= 2 && AllPaths(pieces[..|pieces| - 1])
      then Ok(Match(mode, pieces[..|pieces| - 1], pieces[|pieces| - 1]))
      else Fail(SyntaxError(inner))
  }

  /** `col,…:query`: the columns up to the first colon, the query after it. */
  function ParseMatchColon(mode: MatchMode, rest: string): (r: Result<Expr>)
    ensures r.Ok? ==> r.value.Match? && r.value.mode == mode && |r.value.columns| >= 1 && AllPaths(r.value.columns)
  {
    match IndexOf(rest, ':')
    case None => Fail(SyntaxError(rest))
    case Some(j) =>
      var cols := TrimAll(SplitOn(rest[..j], ','));
      if |cols| >= 1 && AllPaths(cols) then Ok(Match(mode, cols, rest[j + 1..])) else Fail(SyntaxError(rest))
  }

  function TrimAll(ps: seq<string>): (r: seq<string>)
    ensures |r| == |ps| && forall i :: 0 <= i < |ps| ==> r[i] == Trim(ps[i])
  {
    if ps == [] then [] else [Trim(ps[0])] + TrimAll(ps[1..])
  }

  // ---------------------------------------------------------------------------
  // Printer and well-formedness

  function Print(e: Expr): string
    decreases e
  {
    match e
    case Attr(p) => p
    case Str(s) => Quote(s)
    case Num(t) => t
    case Keyword(w) => w
    case Call(n, args) => n + ":(" + Join(PrintArgs(args), ",") + ")"
    case Match(m, cols, q) => MatchName(m) + ":(" + Join(cols + [q], ",") + ")"
  }

  function PrintArgs(args: seq<Expr>): (r: seq<string>)
    ensures |r| == |args| && forall i :: 0 <= i < |args| ==> r[i] == Print(args[i])
    decreases args
  {
    if args == [] then [] else [Print(args[0])] + PrintArgs(args[1..])
  }

  /** Trees the printer renders unambiguously. */
  predicate WF(e: Expr)
    decreases e
  {
    match e
    case Attr(p) => IsPath(p) && Upper(p) !in Keywords
    case Str(s) => '\'' !in s
    case Num(t) => IsNumber(t)
    case Keyword(w) => w in Keywords
    case Call(n, args) => IsFunctionName(n) && !IsMatchName(n) && forall i :: 0 <= i < |args| ==> WF(args[i])
    case Match(_, cols, q) => |cols| >= 1 && AllPaths(cols) && Trimmed(q) && Clean(q)
  }

  /** The attribute paths an expression refers to, in reading order. */
  function Attributes(e: Expr): (r: seq<string>)
    decreases e
  {
    match e
    case Attr(p) => [p]
    case Call(_, args) => AttributesOfArgs(args)
    case Match(_, cols, _) => cols
    case _ => []
  }

  function AttributesOfArgs(args: seq<Expr>): (r: seq<string>)
    decreases args
  {
    if args == [] then [] else Attributes(args[0]) + AttributesOfArgs(args[1..])
  }

  /**
   * The attribute list of an expression given as text (the ORM's
   * getAllAttributesFromComplexExpression); text that does not parse has none.
   */
  function AttributesOfText(text: string): (r: seq<string>)
    ensures Parse(text).Ok? ==> r == Attributes(Parse(text).value)
    ensures Parse(text).Fail? ==> r == []
  {
    match Parse(text)
    case Ok(e) => Attributes(e)
    case Fail(_) => []
  }
}
