/**
 * Character and string helpers used across the model: ASCII case mapping, the
 * camelCase / snake_case conversion the ORM uses for column names, PHP-style
 * trim, explode, implode and str_replace, and decimal rendering.
 */
module Strings {
  import opened Outcomes

  predicate IsUpper(c: char) { 'A' <= c <= 'Z' }
  predicate IsLower(c: char) { 'a' <= c <= 'z' }
  predicate IsDigit(c: char) { '0' <= c <= '9' }
  predicate IsLetter(c: char) { IsUpper(c) || IsLower(c) }
  predicate IsAlnum(c: char) { IsLetter(c) || IsDigit(c) }

  /** The characters PHP's trim() removes by default. */
  predicate IsSpace(c: char)
  {
    c == ' ' || c == '\t' || c == '\n' || c == '\r' || c == '\0' || c == 11 as char
  }

  predicate AllAlnum(s: string) { forall i :: 0 <= i < |s| ==> IsAlnum(s[i]) }
  predicate NoUpper(s: string) { forall i :: 0 <= i < |s| ==> !IsUpper(s[i]) }

  function LowerChar(c: char): (r: char)
    ensures !IsUpper(r)
    ensures IsUpper(c) ==> IsLower(r)
    ensures !IsUpper(c) ==> r == c
  {
    if IsUpper(c) then (c as int + 32) as char else c
  }

  function UpperChar(c: char): (r: char)
    ensures !IsLower(r)
    ensures IsLower(c) ==> IsUpper(r) && LowerChar(r) == c
    ensures !IsLower(c) ==> r == c
  {
    if IsLower(c) then (c as int - 32) as char else c
  }

  /** ASCII lower-casing (strtolower): letters map, every other character is kept. */
  function Lower(s: string): (r: string)
    ensures |r| == |s|
    ensures forall i :: 0 <= i < |s| ==> r[i] == LowerChar(s[i])
    ensures NoUpper(r)
  {
    seq(|s|, i requires 0 <= i < |s| => LowerChar(s[i]))
  }

  /** ASCII upper-casing (strtoupper). */
  function Upper(s: string): (r: string)
    ensures |r| == |s|
    ensures forall i :: 0 <= i < |s| ==> r[i] == UpperChar(s[i])
  {
    seq(|s|, i requires 0 <= i < |s| => UpperChar(s[i]))
  }

  /** ucfirst: the first character upper-cased, the rest kept. */
  function Capitalize(s: string): (r: string)
    ensures |r| == |s|
    ensures |s| > 0 ==> r[0] == UpperChar(s[0]) && r[1..] == s[1..]
  {
    if s == [] then [] else [UpperChar(s[0])] + s[1..]
  }

  /** Every upper-case letter becomes '_' followed by its lower-case form. */
  function Snake(s: string): (r: string)
  {
    if s == [] then []
    else (if IsUpper(s[0]) then ['_', LowerChar(s[0])] else [s[0]]) + Snake(s[1..])
  }

  /** The ORM's attribute-to-column conversion: lcfirst, then camelCase to snake_case. */
  function ToDb(s: string): (r: string)
  {
    if s == [] then [] else Snake([LowerChar(s[0])] + s[1..])
  }

  /** The inverse direction: '_' followed by a lower-case letter becomes that letter upper-cased. */
  function Camel(s: string): (r: string)
  {
    if s == [] then []
    else if s[0] == '_' && |s| >= 2 && IsLower(s[1]) then [UpperChar(s[1])] + Camel(s[2..])
    else [s[0]] + Camel(s[1..])
  }

  lemma {:induction false} SnakeHasNoUpper(s: string)
    ensures NoUpper(Snake(s))
  {
    if s != [] {
      SnakeHasNoUpper(s[1..]);
    }
  }

  lemma {:induction false} SnakeKeepsPlainText(s: string)
    requires NoUpper(s)
    ensures Snake(s) == s
  {
    if s != [] {
      SnakeKeepsPlainText(s[1..]);
      assert s == [s[0]] + s[1..];
    }
  }

  lemma {:induction false} SnakeAppend(a: string, b: string)
    ensures Snake(a + b) == Snake(a) + Snake(b)
  {
    if a != [] {
      assert (a + b)[0] == a[0];
      assert (a + b)[1..] == a[1..] + b;
      SnakeAppend(a[1..], b);
    } else {
      assert a + b == b;
    }
  }

  /** Column names round-trip: for an identifier without '_', Camel undoes Snake. */
  lemma {:induction false} CamelUndoesSnake(s: string)
    requires '_' !in s
    ensures Camel(Snake(s)) == s
  {
    if s != [] {
      assert '_' !in s[1..];
      CamelUndoesSnake(s[1..]);
      if IsUpper(s[0]) {
        var t := Snake(s);
        assert t == ['_', LowerChar(s[0])] + Snake(s[1..]);
        assert t[2..] == Snake(s[1..]);
      } else {
        var t := Snake(s);
        assert t == [s[0]] + Snake(s[1..]);
        assert t[1..] == Snake(s[1..]);
      }
    }
  }

  /** An attribute name that starts with a lower-case letter and has no '_' is recovered from its column. */
  lemma ToDbRoundTrip(s: string)
    requires s != [] && !IsUpper(s[0]) && '_' !in s
    ensures Camel(ToDb(s)) == s
  {
    assert [LowerChar(s[0])] + s[1..] == s;
    CamelUndoesSnake(s);
  }

  /** implode: the parts with the separator between neighbours. */
  function Join(parts: seq<string>, sep: string): (r: string)
  {
    if |parts| == 0 then ""
    else if |parts| == 1 then parts[0]
    else parts[0] + sep + Join(parts[1..], sep)
  }

  lemma JoinSingle(p: string, sep: string)
    ensures Join([p], sep) == p
  {
  }

  lemma {:induction false} JoinAppend(parts: seq<string>, last: string, sep: string)
    requires |parts| >= 1
    ensures Join(parts + [last], sep) == Join(parts, sep) + sep + last
  {
    if |parts| == 1 {
      assert (parts + [last])[1..] == [last];
    } else {
      assert (parts + [last])[1..] == parts[1..] + [last];
      JoinAppend(parts[1..], last, sep);
    }
  }

  function LeadCount(s: string): (n: nat)
    ensures n <= |s|
    ensures forall i :: 0 <= i < n ==> IsSpace(s[i])
    ensures n < |s| ==> !IsSpace(s[n])
  {
    if s != [] && IsSpace(s[0]) then 1 + LeadCount(s[1..]) else 0
  }

  function TrailCount(s: string): (n: nat)
    ensures n <= |s|
    ensures forall i :: |s| - n <= i < |s| ==> IsSpace(s[i])
    ensures n < |s| ==> !IsSpace(s[|s| - 1 - n])
  {
    if s != [] && IsSpace(s[|s| - 1]) then 1 + TrailCount(s[..|s| - 1]) else 0
  }

  /** Neither end of the text is a trim character. */
  predicate Trimmed(s: string)
  {
    s == [] || (!IsSpace(s[0]) && !IsSpace(s[|s| - 1]))
  }

  predicate AllSpace(s: string) { forall i :: 0 <= i < |s| ==> IsSpace(s[i]) }

  /** PHP trim(): the text with leading and trailing trim characters removed. */
  function Trim(s: string): (r: string)
    ensures Trimmed(r)
    ensures |r| <= |s|
  {
    var t := s[LeadCount(s)..];
    t[..|t| - TrailCount(t)]
  }

  lemma TrimKeepsTrimmed(s: string)
    requires Trimmed(s)
    ensures Trim(s) == s
  {
  }

  /** Trimming removes exactly the padding around a trimmed core. */
  lemma TrimPadding(pre: string, core: string, post: string)
    requires AllSpace(pre) && AllSpace(post) && Trimmed(core) && core != []
    ensures Trim(pre + core + post) == core
  {
    var s := pre + core + post;
    LeadCountOfPadded(pre, core + post);
    assert s == pre + (core + post);
    var t := s[LeadCount(s)..];
    assert t == core + post;
    TrailCountOfPadded(core, post);
  }

  lemma {:induction false} LeadCountOfPadded(pre: string, rest: string)
    requires AllSpace(pre) && (rest == [] || !IsSpace(rest[0]))
    ensures LeadCount(pre + rest) == |pre|
  {
    if pre != [] {
      assert (pre + rest)[1..] == pre[1..] + rest;
      LeadCountOfPadded(pre[1..], rest);
    } else {
      assert pre + rest == rest;
    }
  }

  lemma {:induction false} TrailCountOfPadded(rest: string, post: string)
    requires AllSpace(post) && (rest == [] || !IsSpace(rest[|rest| - 1]))
    ensures TrailCount(rest + post) == |post|
  {
    if post != [] {
      var s := rest + post;
      assert s[..|s| - 1] == rest + post[..|post| - 1];
      TrailCountOfPadded(rest, post[..|post| - 1]);
    } else {
      assert rest + post == rest;
    }
  }

  /** Position of the first occurrence of c. */
  function IndexOf(s: string, c: char): (r: Option<nat>)
    ensures r.None? <==> c !in s
    ensures r.Some? ==> r.value < |s| && s[r.value] == c && c !in s[..r.value]
  {
    if s == [] then None
    else if s[0] == c then Some(0)
    else
      match IndexOf(s[1..], c)
      case None => None
      case Some(i) =>
        assert s[..i + 1] == [s[0]] + s[1..][..i];
        Some(i + 1)
  }

  /** Position of the last occurrence of c. */
  function LastIndexOf(s: string, c: char): (r: Option<nat>)
    ensures r.None? <==> c !in s
    ensures r.Some? ==> r.value < |s| && s[r.value] == c && c !in s[r.value + 1..]
  {
    if s == [] then None
    else if s[|s| - 1] == c then Some(|s| - 1)
    else
      match LastIndexOf(s[..|s| - 1], c)
      case None => None
      case Some(i) =>
        assert s[i + 1..] == s[..|s| - 1][i + 1..] + [s[|s| - 1]];
        Some(i)
  }

  lemma IndexOfAfterPrefix(a: string, c: char, b: string)
    requires c !in a
    ensures IndexOf(a + [c] + b, c) == Some(|a|)
  {
    var s := a + [c] + b;
    assert s[|a|] == c;
    assert s[..|a|] == a;
  }

  /** explode: the pieces between occurrences of the separator character. */
  function SplitOn(s: string, c: char): (r: seq<string>)
    ensures |r| >= 1
    ensures forall i :: 0 <= i < |r| ==> c !in r[i]
    ensures Join(r, [c]) == s
    decreases |s|
  {
    match IndexOf(s, c)
    case None => [s]
    case Some(i) =>
      var rest := SplitOn(s[i + 1..], c);
      assert s == s[..i] + [c] + s[i + 1..];
      [s[..i]] + rest
  }

  /** explode undoes implode when no piece contains the separator. */
  lemma {:induction false} SplitJoin(parts: seq<string>, c: char)
    requires |parts| >= 1
    requires forall i :: 0 <= i < |parts| ==> c !in parts[i]
    ensures SplitOn(Join(parts, [c]), c) == parts
  {
    if |parts| == 1 {
    } else {
      var s := Join(parts, [c]);
      assert s == parts[0] + [c] + Join(parts[1..], [c]);
      IndexOfAfterPrefix(parts[0], c, Join(parts[1..], [c]));
      assert s[|parts[0]| + 1..] == Join(parts[1..], [c]);
      assert s[..|parts[0]|] == parts[0];
      SplitJoin(parts[1..], c);
    }
  }

  predicate StartsWith(s: string, p: string) { |p| <= |s| && s[..|p|] == p }
  predicate EndsWith(s: string, p: string) { |p| <= |s| && s[|s| - |p|..] == p }

  /** PHP str_replace for one search string; an empty search string leaves the text as is. */
  function Replace(s: string, pat: string, rep: string): (r: string)
    decreases |s|
  {
    if |pat| == 0 || |s| < |pat| then s
    else if s[..|pat|] == pat then rep + Replace(s[|pat|..], pat, rep)
    else [s[0]] + Replace(s[1..], pat, rep)
  }

  lemma {:induction false} ReplaceSkipsPlainText(x: string, y: string, pat: string, rep: string)
    requires |pat| >= 1 && pat[0] !in x
    ensures Replace(x + y, pat, rep) == x + Replace(y, pat, rep)
  {
    if x != [] {
      var s := x + y;
      if |s| >= |pat| {
        assert s[..|pat|][0] == x[0];
      }
      assert s[1..] == x[1..] + y;
      ReplaceSkipsPlainText(x[1..], y, pat, rep);
    } else {
      assert x + y == y;
    }
  }

  /**
   * Substituting a placeholder in a template made of placeholder-free pieces puts the
   * replacement exactly where each placeholder stood.
   */
  lemma {:induction false} ReplaceInTemplate(pieces: seq<string>, pat: string, rep: string)
    requires |pieces| >= 1 && |pat| >= 1
    requires forall i :: 0 <= i < |pieces| ==> pat[0] !in pieces[i]
    ensures Replace(Join(pieces, pat), pat, rep) == Join(pieces, rep)
  {
    if |pieces| == 1 {
      ReplaceSkipsPlainText(pieces[0], [], pat, rep);
      assert pieces[0] + [] == pieces[0];
    } else {
      var tail := Join(pieces[1..], pat);
      assert Join(pieces, pat) == pieces[0] + (pat + tail);
      ReplaceSkipsPlainText(pieces[0], pat + tail, pat, rep);
      assert (pat + tail)[..|pat|] == pat;
      assert (pat + tail)[|pat|..] == tail;
      ReplaceInTemplate(pieces[1..], pat, rep);
    }
  }

  function DigitChar(d: nat): (c: char)
    requires d < 10
    ensures IsDigit(c)
  {
    ('0' as int + d) as char
  }

  function DigitValue(c: char): (d: nat)
    requires IsDigit(c)
    ensures d < 10
  {
    c as int - '0' as int
  }

  predicate AllDigits(s: string) { forall i :: 0 <= i < |s| ==> IsDigit(s[i]) }

  /** The value of a string of decimal digits. */
  function DigitsValue(s: string): (n: nat)
    requires AllDigits(s)
  {
    if s == [] then 0 else DigitsValue(s[..|s| - 1]) * 10 + DigitValue(s[|s| - 1])
  }

  /** Decimal rendering of a natural number, without leading zeros. */
  function NatToString(n: nat): (r: string)
    ensures |r| >= 1 && AllDigits(r)
    ensures |r| > 1 ==> r[0] != '0'
  {
    if n < 10 then [DigitChar(n)] else NatToString(n / 10) + [DigitChar(n % 10)]
  }

  /** Decimal rendering of an integer, with a minus sign when negative. */
  function IntToString(n: int): (r: string)
    ensures |r| >= 1
  {
    if n < 0 then "-" + NatToString(-n) else NatToString(n)
  }

  lemma {:induction false} NatToStringValue(n: nat)
    ensures DigitsValue(NatToString(n)) == n
  {
    if n >= 10 {
      var r := NatToString(n);
      assert r[..|r| - 1] == NatToString(n / 10);
      NatToStringValue(n / 10);
    }
  }

  /** SQL string literal as the ORM's quoting collaborator produces it: wrapped in single quotes. */
  function Quote(s: string): (r: string)
    ensures |r| == |s| + 2 && r[0] == '\'' && r[|r| - 1] == '\'' && r[1..|r| - 1] == s
  {
    "'" + s + "'"
  }

  function Reverse<T>(s: seq<T>): (r: seq<T>)
    ensures |r| == |s|
    ensures forall i :: 0 <= i < |s| ==> r[i] == s[|s| - 1 - i]
  {
    if s == [] then [] else Reverse(s[1..]) + [s[0]]
  }
}
