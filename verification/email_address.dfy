/**
 * Reading the address fields of an email from their display strings: `fromString`
 * such as `Test Hello <test@test.com>` gives `fromName` and `fromAddress`, and
 * `replyToString`, a `;`-separated list of such entries, gives `replyToName` and
 * `replyToAddress` from its first entry.
 */
module EmailAddress {
  import opened Outcomes
  import opened Strings

  datatype Mailbox = Mailbox(name: string, address: string)

  /**
   * One entry: the address is the trimmed text between the first `<` and the next `>`
   * (or the end), the name the trimmed text before the `<`. An entry without `<` is a
   * bare address with no name.
   */
  function ParseEntry(entry: string): (r: Mailbox)
    ensures '<' !in entry ==> r == Mailbox("", Trim(entry))
    ensures r.name != "" ==> '<' in entry
  {
    match IndexOf(entry, '<')
    case None => Mailbox("", Trim(entry))
    case Some(i) =>
      var after := entry[i + 1..];
      var inside := match IndexOf(after, '>') case None => after case Some(j) => after[..j];
      Mailbox(Trim(entry[..i]), Trim(inside))
  }

  /** fromName and fromAddress from fromString. */
  function From(fromString: string): (r: Mailbox)
  {
    ParseEntry(fromString)
  }

  /** replyToName and replyToAddress from replyToString: its first entry. */
  function ReplyTo(replyToString: string): (r: Mailbox)
    ensures ';' !in replyToString ==> r == ParseEntry(replyToString)
  {
    ParseEntry(SplitOn(replyToString, ';')[0])
  }

  /** How a mailbox is written out: `Name <address>`. */
  function Format(m: Mailbox): string
  {
    m.name + " <" + m.address + ">"
  }

  /** A name and address that survive writing out: trimmed, and no angle brackets or `;`. */
  predicate Plain(s: string)
  {
    Trimmed(s) && '<' !in s && '>' !in s && ';' !in s
  }

  /** Reading a written-out mailbox gives it back: the name before `<` with its space trimmed, the address inside. */
  lemma ParseFormatted(m: Mailbox)
    requires Plain(m.name) && Plain(m.address)
    ensures ParseEntry(Format(m)) == m
  {
    var s := Format(m);
    var pre := m.name + " ";
    assert s == pre + ['<'] + (m.address + ">");
    IndexOfAfterPrefix(pre, '<', m.address + ">");
    assert s[..|pre|] == pre;
    var after := s[|pre| + 1..];
    assert after == m.address + ">";
    IndexOfAfterPrefix(m.address, '>', []);
    assert m.address + [ '>' ] + [] == after;
    assert after[..|m.address|] == m.address;
    TrimKeepsTrimmed(m.address);
    NameBeforeSpace(m.name);
  }

  lemma NameBeforeSpace(name: string)
    requires Trimmed(name)
    ensures Trim(name + " ") == name
  {
    if name == [] {
      assert LeadCount(" ") == 1;
    } else {
      TrimPadding([], name, " ");
      assert [] + name + " " == name + " ";
    }
  }

  /** The reply-to fields come from the first entry of the list, whatever follows it. */
  lemma ReplyToFirstEntry(first: Mailbox, rest: string)
    requires Plain(first.name) && Plain(first.address)
    ensures ReplyTo(Format(first) + ";" + rest) == first
  {
    var f := Format(first);
    assert ';' !in f;
    IndexOfAfterPrefix(f, ';', rest);
    var s := f + ";" + rest;
    assert s[..|f|] == f;
    ParseFormatted(first);
  }

  /** The from and reply-to strings of the email test. */
  lemma TestExpectations()
    ensures From("Test Hello" + " <" + "test@test.com" + ">") == Mailbox("Test Hello", "test@test.com")
    ensures ReplyTo("Test Hello" + " <" + "test@test.com" + ">" + ";" + " Man Test <man@test.com>")
            == Mailbox("Test Hello", "test@test.com")
  {
    var m := Mailbox("Test Hello", "test@test.com");
    assert Plain(m.name) && Plain(m.address);
    ParseFormatted(m);
    ReplyToFirstEntry(m, " Man Test <man@test.com>");
  }
}
