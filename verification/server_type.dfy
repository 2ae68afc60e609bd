/**
 * The web-server name the system reports from the server-software string, such as
 * `Apache/2.2.17 (Ubuntu)`: the text before the first `/` on the first line, or the
 * whole first line when that text is empty (PHP's empty(), which also counts "0"),
 * trimmed and lower-cased.
 */
module ServerType {
  import opened Outcomes
  import opened Strings

  /** The text up to the first line break: what a `.` in a regular expression can match. */
  function FirstLine(s: string): (r: string)
    ensures '\n' !in r && |r| <= |s| && r == s[..|r|]
    ensures '\n' !in s ==> r == s
  {
    match IndexOf(s, '\n')
    case None => s
    case Some(i) => s[..i]
  }

  /** The product part of a first line: the text before its first `/`, when there is such text. */
  function Product(line: string): (r: Option<string>)
    ensures r.Some? ==> '/' !in r.value && r.value != "" && r.value != "0"
  {
    match IndexOf(line, '/')
    case None => None
    case Some(i) => if line[..i] == "" || line[..i] == "0" then None else Some(line[..i])
  }

  /** getServerType. */
  function ServerType(software: string): (r: string)
    ensures NoUpper(r) && Trimmed(r) && '\n' !in r
  {
    var line := FirstLine(software);
    var name := Product(line).GetOr(line);
    LowerKeepsTrimmed(Trim(name));
    TrimKeepsOut(name, '\n');
    Lower(Trim(name))
  }

  // ---------------------------------------------------------------------------
  // Properties of the normalisation

  lemma LowerKeepsTrimmed(s: string)
    requires Trimmed(s)
    ensures Trimmed(Lower(s))
  {
  }

  /** Trimming removes characters and never adds one. */
  lemma TrimKeepsOut(s: string, c: char)
    requires c !in s
    ensures c !in Trim(s)
  {
  }

  lemma LowerTwice(s: string)
    ensures Lower(Lower(s)) == Lower(s)
  {
  }

  lemma LowerKeepsOut(s: string, c: char)
    requires c !in s && !IsUpper(c) && !IsLower(c)
    ensures c !in Lower(s)
  {
  }

  /** The version after the first `/` and everything after it are dropped. */
  lemma VersionDropped(name: string, rest: string)
    requires '/' !in name && '\n' !in name && name != "" && name != "0"
    ensures ServerType(name + "/" + rest) == Lower(Trim(name))
  {
    var s := name + "/" + rest;
    var line := FirstLine(s);
    IndexOfAfterPrefix(name, '/', rest);
    assert s[..|name|] == name;
    assert s[|name|] == '/';
    assert '\n' !in s[..|name| + 1];
    assert |line| > |name|;
    assert line[..|name| + 1] == name + "/";
    IndexOfAfterPrefix(name, '/', line[|name| + 1..]);
    assert line == name + "/" + line[|name| + 1..];
    assert line[..|name|] == name;
  }

  /** A value without `/` is kept whole, only trimmed and lower-cased. */
  lemma NoVersionKeptWhole(s: string)
    requires '/' !in s && '\n' !in s
    ensures ServerType(s) == Lower(Trim(s))
  {
  }

  /** Normalising a normalised name changes nothing. */
  lemma ServerTypeIdempotent(software: string)
    ensures ServerType(ServerType(software)) == ServerType(software)
  {
    var r := ServerType(software);
    var line := FirstLine(software);
    var name := Product(line).GetOr(line);
    assert r == Lower(Trim(name));
    TrimKeepsTrimmed(r);
    LowerTwice(Trim(name));
    match Product(line)
    case Some(p) =>
      TrimKeepsOut(p, '/');
      LowerKeepsOut(Trim(p), '/');
      NoVersionKeptWhole(r);
    case None =>
      ProductOfNormalised(line);
  }

  /**
   * When a first line has no product part, neither has its normalised form: it either
   * has no `/` or starts with `/` or `0/`, and trimming and lower-casing keep that.
   */
  lemma ProductOfNormalised(line: string)
    requires '\n' !in line && Product(line).None?
    ensures var r := Lower(Trim(line));
            FirstLine(r) == r && Product(r).None?
  {
    var r := Lower(Trim(line));
    TrimKeepsOut(line, '\n');
    LowerKeepsOut(Trim(line), '\n');
    match IndexOf(line, '/')
    case None =>
      TrimKeepsOut(line, '/');
      LowerKeepsOut(Trim(line), '/');
    case Some(i) =>
      assert line[..i] == "" || line[..i] == "0";
      assert LeadCount(line) == 0 by {
        assert !IsSpace(line[0]);
      }
      var t := line[..|line| - TrailCount(line)];
      assert Trim(line) == t;
      assert TrailCount(line) < |line| - i by {
        assert !IsSpace(line[i]);
      }
      assert t[..i + 1] == line[..i + 1];
      assert r[..i + 1] == line[..i + 1];
      assert '/' !in r[..i] && r[i] == '/';
      IndexOfAfterPrefix(r[..i], '/', r[i + 1..]);
      assert r == r[..i] + ['/'] + r[i + 1..];
  }

  /** A product name followed by a version normalises to the given lower-case name. */
  lemma NamedProduct(name: string, rest: string, expected: string)
    requires '/' !in name && '\n' !in name && name != "" && name != "0"
    requires Trimmed(name) && Lower(name) == expected
    ensures ServerType(name + "/" + rest) == expected
  {
    VersionDropped(name, rest);
    TrimKeepsTrimmed(name);
  }

  /** A name without a version normalises to the given lower-case name. */
  lemma WholeName(name: string, expected: string)
    requires '/' !in name && '\n' !in name && Trimmed(name) && Lower(name) == expected
    ensures ServerType(name) == expected
  {
    NoVersionKeptWhole(name);
    TrimKeepsTrimmed(name);
  }

  /** The values of the system test. */
  lemma ApacheWithPlatform()
    ensures ServerType("Apache" + "/" + "2.2.17 (Ubuntu)") == "apache"
  {
    ApacheLower();
    NamedProduct("Apache", "2.2.17 (Ubuntu)", "apache");
  }

  lemma ApacheLower()
    ensures Lower("Apache") == "apache"
  {
    assert Lower("Apache")[0] == 'a';
  }

  lemma ApacheAlone()
    ensures ServerType("Apache") == "apache"
  {
    ApacheLower();
    WholeName("Apache", "apache");
  }

  lemma Nginx()
    ensures ServerType("nginx" + "/" + "1.5.12") == "nginx"
  {
    assert Lower("nginx") == "nginx";
    NamedProduct("nginx", "1.5.12", "nginx");
  }

  lemma IisLower()
    ensures Lower("Microsoft-IIS") == "microsoft-iis"
  {
    var r := Lower("Microsoft-IIS");
    assert r[0] == 'm' && r[10] == 'i' && r[11] == 'i' && r[12] == 's';
  }

  lemma IisKeepsHyphen()
    ensures ServerType("Microsoft-IIS" + "/" + "8.0") == "microsoft-iis"
  {
    IisLower();
    NamedProduct("Microsoft-IIS", "8.0", "microsoft-iis");
  }

  lemma ApacheWithModules()
    ensures ServerType("apache" + "/" + "2.4.10 (win32) openssl/1.0.1i php") == "apache"
  {
    assert Lower("apache") == "apache";
    NamedProduct("apache", "2.4.10 (win32) openssl/1.0.1i php", "apache");
  }
}
