/**
 * Properties of the complex-expression syntax: the argument scanner splits a printed
 * argument list back into its arguments, parsing a printed well-formed tree gives the
 * tree back, the parenthesised and the bare argument forms parse alike, and the
 * attribute list read off a printed expression is the tree's own.
 */
module ExpressionRoundTrip {
  import opened Outcomes
  import opened Strings
  import opened Expression

  /** Characters the scanner treats as ordinary text. */
  predicate SafeChar(c: char) { c != ',' && c != '(' && c != ')' && c != '\'' && c != '"' }
  predicate Safe(s: string) { forall i :: 0 <= i < |s| ==> SafeChar(s[i]) }

  lemma {:induction false} RunAppend(st: Scan, a: string, b: string)
    ensures Run(st, a + b) == Run(Run(st, a), b)
    decreases |a|
  {
    if a == [] {
      assert a + b == b;
    } else {
      assert (a + b)[0] == a[0];
      assert (a + b)[1..] == a[1..] + b;
      RunAppend(Step(st, a[0]), a[1..], b);
    }
  }

  lemma {:induction false} InsideAppend(st: Scan, a: string, b: string)
    ensures Inside(st, a + b) <==> Inside(st, a) && Inside(Run(st, a), b)
    decreases |a|
  {
    if a == [] {
      assert a + b == b;
    } else {
      assert (a + b)[0] == a[0];
      assert (a + b)[1..] == a[1..] + b;
      InsideAppend(Step(st, a[0]), a[1..], b);
    }
  }

  lemma {:induction false} SafeRun(st: Scan, s: string)
    requires Safe(s) && st.quote.None? && st.depth >= 0
    ensures Inside(st, s) && Run(st, s) == st
  {
    if s != [] {
      assert SafeChar(s[0]);
      assert Step(st, s[0]) == st;
      assert Safe(s[1..]);
      SafeRun(st, s[1..]);
    }
  }

  lemma {:induction false} QuotedRun(st: Scan, s: string)
    requires st.quote.Some? && st.quote.value !in s && st.depth >= 0
    ensures Inside(st, s) && Run(st, s) == st
  {
    if s != [] {
      assert s[0] != st.quote.value;
      assert st.quote.value !in s[1..];
      QuotedRun(st, s[1..]);
    }
  }

  /** Scanning inside k more parentheses behaves the same, k levels deeper. */
  lemma {:induction false} ShiftDepth(s: string, st: Scan, k: nat)
    requires Inside(st, s) && st.depth >= 0
    ensures Inside(Scan(st.depth + k, st.quote), s)
    ensures Run(Scan(st.depth + k, st.quote), s) == Scan(Run(st, s).depth + k, Run(st, s).quote)
  {
    if s != [] {
      var c := s[0];
      var deeper := Scan(st.depth + k, st.quote);
      assert Step(deeper, c) == Scan(Step(st, c).depth + k, Step(st, c).quote);
      if k > 0 {
        assert !Splits(deeper, c);
      }
      ShiftDepth(s[1..], Step(st, c), k);
    }
  }

  /** A comma-joined list of arguments stays within one open parenthesis. */
  lemma {:induction false} NestedJoin(ps: seq<string>)
    requires forall i :: 0 <= i < |ps| ==> Clean(ps[i])
    ensures Inside(Scan(1, None), Join(ps, ",")) && Run(Scan(1, None), Join(ps, ",")) == Scan(1, None)
  {
    var one := Scan(1, None);
    if |ps| == 1 {
      ShiftDepth(ps[0], Top, 1);
    } else if |ps| > 1 {
      ShiftDepth(ps[0], Top, 1);
      var rest := Join(ps[1..], ",");
      assert Join(ps, ",") == ps[0] + ("," + rest);
      NestedJoin(ps[1..]);
      assert ("," + rest)[0] == ',';
      assert ("," + rest)[1..] == rest;
      assert Inside(one, "," + rest) && Run(one, "," + rest) == one;
      InsideAppend(one, ps[0], "," + rest);
      RunAppend(one, ps[0], "," + rest);
    }
  }

  /** `name:(inner)` is one argument when inner is balanced inside the parentheses. */
  lemma Wrapped(n: string, inner: string)
    requires Safe(n) && Inside(Scan(1, None), inner) && Run(Scan(1, None), inner) == Scan(1, None)
    ensures Clean(n + ":(" + inner + ")")
  {
    var one := Scan(1, None);
    var tail := "(" + inner + ")";
    assert n + ":(" + inner + ")" == (n + ":") + tail;
    assert Safe(n + ":");
    SafeRun(Top, n + ":");
    InsideAppend(one, inner, ")");
    RunAppend(one, inner, ")");
    assert tail[0] == '(' && tail[1..] == inner + ")";
    assert Inside(Top, tail) && Run(Top, tail) == Top;
    InsideAppend(Top, n + ":", tail);
    RunAppend(Top, n + ":", tail);
  }

  lemma {:induction false} SkipArgument(p: string, rest: string, st: Scan, cur: string, acc: seq<string>)
    requires Inside(st, p)
    ensures SplitFrom(p + rest, st, cur, acc) == SplitFrom(rest, Run(st, p), cur + p, acc)
  {
    if p == [] {
      assert p + rest == rest;
      assert cur + p == cur;
    } else {
      var s := p + rest;
      assert s[0] == p[0] && s[1..] == p[1..] + rest;
      SkipArgument(p[1..], rest, Step(st, p[0]), cur + [p[0]], acc);
      assert cur + [p[0]] + p[1..] == cur + p;
    }
  }

  lemma SplitAtEnd(st: Scan, cur: string, acc: seq<string>)
    requires st == Top
    ensures SplitFrom([], st, cur, acc) == Some(acc + [Trim(cur)])
  {
  }

  lemma SplitAtComma(rest: string, cur: string, acc: seq<string>)
    ensures SplitFrom([','] + rest, Top, cur, acc) == SplitFrom(rest, Top, "", acc + [Trim(cur)])
  {
    assert ([','] + rest)[1..] == rest;
  }

  lemma SplitLastArgument(p: string, acc: seq<string>)
    requires Clean(p) && Trimmed(p)
    ensures SplitFrom(p, Top, "", acc) == Some(acc + [p])
  {
    assert p + [] == p;
    assert "" + p == p;
    SkipArgument(p, [], Top, "", acc);
    SplitAtEnd(Top, p, acc);
    TrimKeepsTrimmed(p);
  }

  lemma SplitFirstArgument(p: string, rest: string, acc: seq<string>)
    requires Clean(p) && Trimmed(p)
    ensures SplitFrom(p + ([','] + rest), Top, "", acc) == SplitFrom(rest, Top, "", acc + [p])
  {
    assert "" + p == p;
    SkipArgument(p, [','] + rest, Top, "", acc);
    SplitAtComma(rest, p, acc);
    TrimKeepsTrimmed(p);
  }

  /** The scanner splits a comma-joined list of trimmed single arguments back into the list. */
  lemma {:induction false} SplitJoined(ps: seq<string>, acc: seq<string>)
    requires |ps| >= 1
    requires forall i :: 0 <= i < |ps| ==> Clean(ps[i]) && Trimmed(ps[i])
    ensures SplitFrom(Join(ps, ","), Top, "", acc) == Some(acc + ps)
  {
    if |ps| == 1 {
      SplitLastArgument(ps[0], acc);
      assert acc + [ps[0]] == acc + ps;
    } else {
      var rest := Join(ps[1..], ",");
      assert Join(ps, ",") == ps[0] + ([','] + rest);
      SplitFirstArgument(ps[0], rest, acc);
      SplitJoined(ps[1..], acc + [ps[0]]);
      assert acc + [ps[0]] + ps[1..] == acc + ps;
    }
  }

  lemma {:induction false} JoinPartLength(ps: seq<string>, sep: string)
    ensures forall i :: 0 <= i < |ps| ==> |ps[i]| <= |Join(ps, sep)|
  {
    if |ps| > 1 {
      JoinPartLength(ps[1..], sep);
      assert forall i :: 1 <= i < |ps| ==> ps[i] == ps[1..][i - 1];
    }
  }

  lemma JoinStart(ps: seq<string>, sep: string)
    requires |ps| >= 1 && ps[0] != []
    ensures Join(ps, sep) != [] && Join(ps, sep)[0] == ps[0][0]
  {
  }

  lemma TrimOfNonBlank(s: string)
    requires s != [] && !IsSpace(s[0])
    ensures Trim(s) != []
  {
    assert LeadCount(s) == 0;
  }

  lemma PathFacts(p: string)
    requires IsPath(p)
    ensures Safe(p) && Trimmed(p) && ':' !in p && !IsNumber(p) && Clean(p)
  {
    assert forall i :: 0 <= i < |p| ==> PathChar(p[i]);
    assert ':' !in p by {
      forall i | 0 <= i < |p| ensures p[i] != ':' {
        assert PathChar(p[i]);
      }
    }
    match IndexOf(p, '.') {
      case None =>
        assert !IsDigit(p[0]);
      case Some(i) =>
        if i >= 1 {
          assert p[..i][0] == p[0];
        }
    }
    SafeRun(Top, p);
  }

  predicate NumberChar(c: char) { IsDigit(c) || c == '-' || c == '.' }

  lemma DigitsAreNumberChars(s: string)
    requires AllDigits(s)
    ensures forall k :: 0 <= k < |s| ==> NumberChar(s[k])
  {
  }

  lemma BodyChars(body: string)
    requires match IndexOf(body, '.')
             case None => AllDigits(body)
             case Some(i) => AllDigits(body[..i]) && AllDigits(body[i + 1..])
    ensures forall k :: 0 <= k < |body| ==> NumberChar(body[k])
  {
    match IndexOf(body, '.') {
      case None =>
      case Some(i) =>
        forall k | 0 <= k < |body| ensures NumberChar(body[k]) {
          if k < i {
            assert body[..i][k] == body[k];
          } else if k > i {
            assert body[i + 1..][k - i - 1] == body[k];
          }
        }
    }
  }

  lemma NumberCharsOnly(t: string)
    requires IsNumber(t)
    ensures t != [] && forall k :: 0 <= k < |t| ==> NumberChar(t[k])
    ensures IsDigit(t[|t| - 1])
  {
    var neg := |t| >= 1 && t[0] == '-';
    var body := if neg then t[1..] else t;
    BodyChars(body);
    match IndexOf(body, '.') {
      case None =>
        assert IsDigit(body[|body| - 1]);
      case Some(i) =>
        assert body[i + 1..][|body| - i - 2] == body[|body| - 1];
    }
    assert t[|t| - 1] == body[|body| - 1];
    forall k | 0 <= k < |t| ensures NumberChar(t[k]) {
      if neg && k > 0 {
        assert t[k] == body[k - 1];
      }
    }
  }

  lemma NumberFacts(t: string)
    requires IsNumber(t)
    ensures Safe(t) && Trimmed(t) && ':' !in t && t != [] && t[0] != '\'' && t[0] != '"' && Clean(t)
  {
    NumberCharsOnly(t);
    assert forall k :: 0 <= k < |t| ==> SafeChar(t[k]) && !IsSpace(t[k]) && t[k] != ':' by {
      forall k | 0 <= k < |t| ensures SafeChar(t[k]) && !IsSpace(t[k]) && t[k] != ':' {
        assert NumberChar(t[k]);
      }
    }
    SafeRun(Top, t);
  }

  lemma FunctionNameFacts(n: string)
    requires IsFunctionName(n)
    ensures Safe(n) && ':' !in n && !IsSpace(n[0]) && n[0] != '\'' && n[0] != '"'
  {
    assert forall i :: 0 <= i < |n| ==> NameChar(n[i]);
    assert ':' !in n by {
      forall i | 0 <= i < |n| ensures n[i] != ':' {
        assert NameChar(n[i]);
      }
    }
  }

  lemma MatchNameIsFunctionName(m: MatchMode)
    ensures IsFunctionName(MatchName(m)) && IsMatchName(MatchName(m))
  {
  }

  lemma QuoteFacts(s: string)
    requires '\'' !in s
    ensures Clean(Quote(s)) && Trimmed(Quote(s))
  {
    var open := Scan(0, Some('\''));
    QuotedRun(open, s);
    InsideAppend(open, s, "'");
    RunAppend(open, s, "'");
    assert Quote(s) == "'" + (s + "'");
    assert Quote(s)[1..] == s + "'";
    assert Step(Top, '\'') == open;
  }

  /** The bound ParseArgs carries only for termination does not change its result. */
  lemma {:induction false} ParseArgsAnyBound(pieces: seq<string>, b1: nat, b2: nat)
    requires forall i :: 0 <= i < |pieces| ==> |pieces[i]| < b1 && |pieces[i]| < b2
    ensures ParseArgs(pieces, b1) == ParseArgs(pieces, b2)
  {
    if pieces != [] {
      ParseArgsAnyBound(pieces[1..], b1, b2);
    }
  }

  /** How Parse reads `NAME:rest` for an ordinary function name. */
  lemma ParseOfCallText(n: string, rest: string)
    requires IsFunctionName(n) && !IsMatchName(n) && Trimmed(n + ":" + rest)
    ensures Parse(n + ":" + rest) == ParseCall(n + ":" + rest, n, rest, |n + ":" + rest|)
  {
    var text := n + ":" + rest;
    ParseOfColonText(n, rest);
    assert text[..|n|] == n;
    assert text[|n| + 1..] == rest;
  }

  /** Parse hands text of the form `NAME:rest` to ParseColon at the colon after the name. */
  lemma ParseOfColonText(n: string, rest: string)
    requires IsFunctionName(n) && Trimmed(n + ":" + rest)
    ensures Parse(n + ":" + rest) == ParseColon(n + ":" + rest, |n|, |n + ":" + rest|)
  {
    var text := n + ":" + rest;
    FunctionNameFacts(n);
    assert text == n + [':'] + rest;
    IndexOfAfterPrefix(n, ':', rest);
    TrimKeepsTrimmed(text);
    assert text[0] == n[0];
    assert !IsQuoted(text);
  }

  /** How Parse reads `MATCH_…:rest`. */
  lemma ParseOfMatchText(m: MatchMode, rest: string)
    requires Trimmed(MatchName(m) + ":" + rest)
    ensures Parse(MatchName(m) + ":" + rest) == ParseMatch(m, rest)
  {
    var n := MatchName(m);
    var text := n + ":" + rest;
    MatchNameIsFunctionName(m);
    ParseOfColonText(n, rest);
    assert text[..|n|] == n;
    assert text[|n| + 1..] == rest;
  }

  /** How ParseMatch reads the parenthesised form. */
  lemma ParseMatchParenthesised(m: MatchMode, j: string, pieces: seq<string>)
    requires SplitArgs(j) == Some(pieces) && |pieces| >= 2 && AllPaths(pieces[..|pieces| - 1])
    ensures ParseMatch(m, "(" + j + ")") == Ok(Match(m, pieces[..|pieces| - 1], pieces[|pieces| - 1]))
  {
    var rest := "(" + j + ")";
    assert rest[1..|rest| - 1] == j;
    assert ParseMatch(m, rest) == ParseMatchList(m, j);
  }

  /** Parsing a comma-joined list of printed arguments finds those arguments. */
  lemma SplitPrinted(pieces: seq<string>)
    requires forall i :: 0 <= i < |pieces| ==> Trimmed(pieces[i]) && Clean(pieces[i])
    requires |pieces| >= 1 ==> pieces[0] != []
    ensures SplitArgs(Join(pieces, ",")) == Some(pieces)
  {
    if |pieces| == 0 {
      assert Join(pieces, ",") == "";
    } else {
      JoinStart(pieces, ",");
      TrimOfNonBlank(Join(pieces, ","));
      SplitJoined(pieces, []);
      assert [] + pieces == pieces;
    }
  }

  lemma UnwrapParenthesised(j: string)
    ensures Unwrap("(" + j + ")") == j
  {
    var s := "(" + j + ")";
    assert s[1..|s| - 1] == j;
  }

  lemma UpperWordFacts(w: string)
    requires |w| >= 1 && forall i :: 0 <= i < |w| ==> IsUpper(w[i])
    ensures Safe(w) && Trimmed(w) && ':' !in w && !IsNumber(w) && Upper(w) == w && w[0] != '\'' && w[0] != '"'
  {
    assert ':' !in w by {
      forall i | 0 <= i < |w| ensures w[i] != ':' {
        assert IsUpper(w[i]);
      }
    }
    assert '.' !in w by {
      forall i | 0 <= i < |w| ensures w[i] != '.' {
        assert IsUpper(w[i]);
      }
    }
    assert !IsDigit(w[0]);
    assert Upper(w) == w;
  }

  lemma KeywordFacts(w: string)
    requires w in Keywords
    ensures Safe(w) && Trimmed(w) && ':' !in w && !IsNumber(w) && Upper(w) == w && w[0] != '\'' && w[0] != '"'
  {
    if w == "TRUE" {
      UpperWordFacts("TRUE");
    } else if w == "FALSE" {
      UpperWordFacts("FALSE");
    } else {
      UpperWordFacts("NULL");
    }
  }

  /** How Parse reads text without a colon that is not quoted. */
  lemma ParseOfPlainText(t: string)
    requires Trimmed(t) && t != [] && ':' !in t && t[0] != '\'' && t[0] != '"'
    ensures Parse(t) == ParseAtom(t)
  {
    TrimKeepsTrimmed(t);
    assert !IsQuoted(t);
  }

  lemma ParsePrintAtom(e: Expr)
    requires WF(e) && !e.Call? && !e.Match?
    ensures Print(e) != [] && Trimmed(Print(e)) && Clean(Print(e))
    ensures Parse(Print(e)) == Ok(e)
  {
    match e {
      case Attr(p) =>
        PathFacts(p);
        ParseOfPlainText(p);
      case Num(t) =>
        NumberFacts(t);
        ParseOfPlainText(t);
      case Keyword(w) =>
        KeywordFacts(w);
        SafeRun(Top, w);
        ParseOfPlainText(w);
      case Str(s) =>
        QuoteFacts(s);
        TrimKeepsTrimmed(Quote(s));
        assert IsQuoted(Quote(s));
    }
  }

  /** The printed call is a single trimmed argument. */
  lemma PrintCallShape(n: string, args: seq<Expr>)
    requires IsFunctionName(n)
    requires forall i :: 0 <= i < |args| ==> Clean(Print(args[i]))
    ensures Print(Call(n, args)) != [] && Trimmed(Print(Call(n, args))) && Clean(Print(Call(n, args)))
  {
    FunctionNameFacts(n);
    var prints := PrintArgs(args);
    var j := Join(prints, ",");
    NestedJoin(prints);
    Wrapped(n, j);
    assert Print(Call(n, args)) == n + ":(" + j + ")";
  }

  lemma ParsePrintCall(n: string, args: seq<Expr>)
    requires IsFunctionName(n) && !IsMatchName(n)
    requires forall i :: 0 <= i < |args| ==> Print(args[i]) != [] && Trimmed(Print(args[i])) && Clean(Print(args[i]))
    requires forall i :: 0 <= i < |args| ==> |Print(args[i])| < |Print(Call(n, args))|
    requires ParseArgs(PrintArgs(args), |Print(Call(n, args))|) == Ok(args)
    ensures Print(Call(n, args)) != [] && Trimmed(Print(Call(n, args))) && Clean(Print(Call(n, args)))
    ensures Parse(Print(Call(n, args))) == Ok(Call(n, args))
  {
    PrintCallShape(n, args);
    var prints := PrintArgs(args);
    SplitPrinted(prints);
    ParseCallText(n, prints, args, Print(Call(n, args)));
  }

  lemma ParseCallText(n: string, prints: seq<string>, args: seq<Expr>, text: string)
    requires IsFunctionName(n) && !IsMatchName(n)
    requires text == n + ":(" + Join(prints, ",") + ")" && Trimmed(text)
    requires SplitArgs(Join(prints, ",")) == Some(prints)
    requires ParseArgs(prints, |text|) == Ok(args)
    ensures Parse(text) == Ok(Call(n, args))
  {
    var j := Join(prints, ",");
    var rest := "(" + j + ")";
    assert text == n + ":" + rest;
    UnwrapParenthesised(j);
    ParseOfCallText(n, rest);
    CallOfPieces(text, n, rest, prints, args, |text|);
  }

  lemma CallOfPieces(t: string, n: string, rest: string, pieces: seq<string>, args: seq<Expr>, bound: nat)
    requires |rest| < bound
    requires SplitArgs(Unwrap(rest)) == Some(pieces)
    requires ParseArgs(pieces, bound) == Ok(args)
    ensures ParseCall(t, n, rest, bound) == Ok(Call(n, args))
  {
  }

  lemma ParsePrintMatch(m: MatchMode, cols: seq<string>, q: string)
    requires WF(Match(m, cols, q))
    ensures Print(Match(m, cols, q)) != [] && Trimmed(Print(Match(m, cols, q))) && Clean(Print(Match(m, cols, q)))
    ensures Parse(Print(Match(m, cols, q))) == Ok(Match(m, cols, q))
  {
    MatchNameIsFunctionName(m);
    FunctionNameFacts(MatchName(m));
    var pieces := cols + [q];
    forall i | 0 <= i < |pieces| ensures Clean(pieces[i]) && Trimmed(pieces[i]) {
      if i < |cols| {
        PathFacts(cols[i]);
      }
    }
    var j := Join(pieces, ",");
    NestedJoin(pieces);
    Wrapped(MatchName(m), j);
    SplitPrinted(pieces);
    ParseMatchText(m, cols, q, j, Print(Match(m, cols, q)));
  }

  lemma ParseMatchText(m: MatchMode, cols: seq<string>, q: string, j: string, text: string)
    requires |cols| >= 1 && AllPaths(cols)
    requires j == Join(cols + [q], ",") && SplitArgs(j) == Some(cols + [q])
    requires text == MatchName(m) + ":(" + j + ")" && Trimmed(text)
    ensures Parse(text) == Ok(Match(m, cols, q))
  {
    var pieces := cols + [q];
    assert text == MatchName(m) + ":" + ("(" + j + ")");
    assert pieces[..|pieces| - 1] == cols;
    ParseMatchParenthesised(m, j, pieces);
    ParseOfMatchText(m, "(" + j + ")");
  }

  /** Parsing the printed form of a well-formed tree gives the tree back. */
  lemma {:induction false} ParsePrint(e: Expr)
    requires WF(e)
    ensures Print(e) != [] && Trimmed(Print(e)) && Clean(Print(e))
    ensures Parse(Print(e)) == Ok(e)
    decreases e, 1
  {
    match e
    case Call(n, args) =>
      var text := Print(e);
      JoinPartLength(PrintArgs(args), ",");
      assert forall i :: 0 <= i < |args| ==> |Print(args[i])| < |text|;
      ParsePrintArgs(args, |text|);
      ParsePrintCall(n, args);
    case Match(m, cols, q) =>
      ParsePrintMatch(m, cols, q);
    case _ =>
      ParsePrintAtom(e);
  }

  lemma {:induction false} ParsePrintArgs(args: seq<Expr>, bound: nat)
    requires forall i :: 0 <= i < |args| ==> WF(args[i])
    requires forall i :: 0 <= i < |args| ==> |Print(args[i])| < bound
    ensures forall i :: 0 <= i < |args| ==> Print(args[i]) != [] && Trimmed(Print(args[i])) && Clean(Print(args[i]))
    ensures ParseArgs(PrintArgs(args), bound) == Ok(args)
    decreases args, 0
  {
    if args != [] {
      ParsePrint(args[0]);
      ParsePrintArgs(args[1..], bound);
      assert PrintArgs(args) == [Print(args[0])] + PrintArgs(args[1..]);
      assert PrintArgs(args)[1..] == PrintArgs(args[1..]);
      assert [args[0]] + args[1..] == args;
    }
  }

  /** The attribute list read off the printed form of a well-formed tree is the tree's own. */
  lemma AttributesOfPrint(e: Expr)
    requires WF(e)
    ensures AttributesOfText(Print(e)) == Attributes(e)
  {
    ParsePrint(e);
  }

  /**
   * `NAME:args` and `NAME:(args)` denote the same call when the argument text is
   * trimmed and not itself wrapped in one pair of parentheses.
   */
  lemma ParenthesesOptional(n: string, a: string)
    requires IsFunctionName(n) && !IsMatchName(n)
    requires a != [] && Trimmed(a) && Unwrap(a) == a
    ensures Parse(n + ":" + a).Ok? <==> Parse(n + ":(" + a + ")").Ok?
    ensures Parse(n + ":" + a).Ok? ==> Parse(n + ":" + a).value == Parse(n + ":(" + a + ")").value
  {
    FunctionNameFacts(n);
    var t1 := n + ":" + a;
    var t2 := n + ":" + ("(" + a + ")");
    assert t2 == n + ":(" + a + ")";
    ParseOfCallText(n, a);
    ParseOfCallText(n, "(" + a + ")");
    UnwrapParenthesised(a);
    match SplitArgs(a) {
      case None =>
      case Some(pieces) =>
        ParseArgsAnyBound(pieces, |t1|, |t2|);
    }
  }
}
