/**
 * The decisions of the 5.8 upgrade script: which single-column indexes on the note
 * number to drop and whether to create the unique one, and which opportunity rows
 * receive a contact. The statements are returned rather than sent; the database, the
 * swallowed DDL errors and the config save are outside the model.
 */
module AfterUpgrade {
  import opened Outcomes
  import opened Strings

  // ---------------------------------------------------------------------------
  // Index reconciliation

  /** One row of `SHOW INDEX FROM note`: the index's name and one of its columns. */
  datatype IndexRow = IndexRow(keyName: string, columnName: string)

  const UniqueIndex := "UNIQ_NUMBER"
  const CreateUnique := "CREATE UNIQUE INDEX " + UniqueIndex + " ON `note` (`number`)"

  function DropIndex(key: string): string
  {
    "DROP INDEX " + key + " ON `note`"
  }

  /** How many rows belong to the index named `key`. */
  function RowsOf(rows: seq<IndexRow>, key: string): (n: nat)
    ensures n <= |rows|
    ensures n == 0 <==> forall i :: 0 <= i < |rows| ==> rows[i].keyName != key
  {
    if rows == [] then 0
    else (if rows[0].keyName == key then 1 else 0) + RowsOf(rows[1..], key)
  }

  /** A row describing an index on `number` alone. */
  predicate SingleNumberRow(all: seq<IndexRow>, row: IndexRow)
  {
    RowsOf(all, row.keyName) == 1 && row.columnName == "number"
  }

  /** The names of the candidate indexes among `part`, in row order, judged against all rows. */
  function CandidatesIn(all: seq<IndexRow>, part: seq<IndexRow>): (r: seq<string>)
    ensures forall k :: k in r <==> exists i :: 0 <= i < |part| && part[i].keyName == k && SingleNumberRow(all, part[i])
  {
    if part == [] then []
    else
      (if SingleNumberRow(all, part[0]) then [part[0].keyName] else [])
      + CandidatesIn(all, part[1..])
  }

  /** The indexes that are exactly one column, `number`. */
  function Candidates(rows: seq<IndexRow>): seq<string>
  {
    CandidatesIn(rows, rows)
  }

  /** The single-column number indexes, found with the script's nested scan of the rows. */
  method FindCandidates(rows: seq<IndexRow>) returns (indexes: seq<string>)
    ensures indexes == Candidates(rows)
  {
    indexes := [];
    var i := 0;
    while i < |rows|
      invariant 0 <= i <= |rows|
      invariant indexes + CandidatesIn(rows, rows[i..]) == Candidates(rows)
    {
      var k := CountRows(rows, rows[i].keyName);
      assert rows[i..][1..] == rows[i + 1..];
      if k == 1 && rows[i].columnName == "number" {
        indexes := indexes + [rows[i].keyName];
      }
      i := i + 1;
    }
  }

  /** The inner scan: how many rows carry `key`. */
  method CountRows(rows: seq<IndexRow>, key: string) returns (k: nat)
    ensures k == RowsOf(rows, key)
  {
    k := 0;
    var j := 0;
    while j < |rows|
      invariant 0 <= j <= |rows|
      invariant k == RowsOf(rows[..j], key)
    {
      RowsOfSnoc(rows[..j], rows[j], key);
      assert rows[..j + 1] == rows[..j] + [rows[j]];
      if key == rows[j].keyName {
        k := k + 1;
      }
      j := j + 1;
    }
    assert rows[..j] == rows;
  }

  lemma {:induction false} RowsOfSnoc(rows: seq<IndexRow>, row: IndexRow, key: string)
    ensures RowsOf(rows + [row], key) == RowsOf(rows, key) + (if row.keyName == key then 1 else 0)
  {
    if rows == [] {
      assert [row][1..] == [];
    } else {
      assert (rows + [row])[1..] == rows[1..] + [row];
      RowsOfSnoc(rows[1..], row, key);
    }
  }

  /** A key name is a candidate exactly when one row carries it and that row is on `number`. */
  lemma {:induction false} CandidateIff(rows: seq<IndexRow>, key: string)
    ensures key in Candidates(rows) <==> RowsOf(rows, key) == 1 && exists i :: 0 <= i < |rows| && rows[i] == IndexRow(key, "number")
  {
    if key in Candidates(rows) {
      var i :| 0 <= i < |rows| && rows[i].keyName == key && SingleNumberRow(rows, rows[i]);
      assert rows[i] == IndexRow(key, "number");
    }
  }

  /** A composite index (two rows or more) is never a candidate. */
  lemma {:induction false} CompositeNeverCandidate(rows: seq<IndexRow>, i: nat, j: nat)
    requires i < j < |rows| && rows[i].keyName == rows[j].keyName
    ensures rows[i].keyName !in Candidates(rows)
  {
    RowsOfTwo(rows, i, j, rows[i].keyName);
  }

  lemma {:induction false} RowsOfTwo(rows: seq<IndexRow>, i: nat, j: nat, key: string)
    requires i < j < |rows| && rows[i].keyName == key && rows[j].keyName == key
    ensures RowsOf(rows, key) >= 2
    decreases |rows|
  {
    if i == 0 {
      assert rows[1..][j - 1].keyName == key;
    } else {
      RowsOfTwo(rows[1..], i - 1, j - 1, key);
    }
  }

  /** No name is listed twice among the candidates. */
  lemma {:induction false} CandidatesDistinct(rows: seq<IndexRow>)
    ensures Distinct(Candidates(rows))
  {
    SameNameRows(rows);
    CandidatesInDistinct(rows, rows);
  }

  /** No two elements of a list are equal. */
  predicate Distinct<T(==)>(s: seq<T>)
  {
    forall i, j :: 0 <= i < j < |s| ==> s[i] != s[j]
  }

  lemma {:induction false} CandidatesInDistinct(all: seq<IndexRow>, part: seq<IndexRow>)
    requires forall i, j :: 0 <= i < j < |part| && part[i].keyName == part[j].keyName ==> RowsOf(all, part[i].keyName) >= 2
    ensures Distinct(CandidatesIn(all, part))
  {
    if part != [] {
      CandidatesInDistinct(all, part[1..]);
      var rest := CandidatesIn(all, part[1..]);
      if SingleNumberRow(all, part[0]) {
        assert part[0].keyName !in rest;
        var r := [part[0].keyName] + rest;
        forall i, j | 0 <= i < j < |r|
          ensures r[i] != r[j]
        {
          if i == 0 {
            assert r[j] == rest[j - 1];
          } else {
            assert r[i] == rest[i - 1] && r[j] == rest[j - 1];
          }
        }
      } else {
        assert CandidatesIn(all, part) == rest;
      }
    }
  }

  /** Every row's name counts itself, so distinct rows with one name give that name two rows. */
  lemma {:induction false} SameNameRows(all: seq<IndexRow>)
    ensures forall i, j :: 0 <= i < j < |all| && all[i].keyName == all[j].keyName ==> RowsOf(all, all[i].keyName) >= 2
  {
    forall i, j | 0 <= i < j < |all| && all[i].keyName == all[j].keyName
      ensures RowsOf(all, all[i].keyName) >= 2
    {
      RowsOfTwo(all, i, j, all[i].keyName);
    }
  }

  /** The candidates other than the unique index, in order. */
  function WithoutUnique(keys: seq<string>): (r: seq<string>)
    ensures forall k :: k in r <==> k in keys && k != UniqueIndex
    ensures |r| <= |keys|
  {
    if keys == [] then []
    else (if keys[0] == UniqueIndex then [] else [keys[0]]) + WithoutUnique(keys[1..])
  }

  function DropAll(keys: seq<string>): (r: seq<string>)
    ensures |r| == |keys| && forall i :: 0 <= i < |keys| ==> r[i] == DropIndex(keys[i])
  {
    if keys == [] then [] else [DropIndex(keys[0])] + DropAll(keys[1..])
  }

  /** The plan: whether to create the unique index, and the indexes to drop. */
  datatype IndexPlan = IndexPlan(create: bool, drops: seq<string>)

  function PlanIndexes(rows: seq<IndexRow>): (r: IndexPlan)
  {
    var indexes := Candidates(rows);
    IndexPlan(UniqueIndex !in indexes, WithoutUnique(indexes))
  }

  /** The statements sent: the create (when planned) before the drops. */
  function Statements(p: IndexPlan): (r: seq<string>)
    ensures |r| == (if p.create then 1 else 0) + |p.drops|
  {
    (if p.create then [CreateUnique] else []) + DropAll(p.drops)
  }

  /**
   * The unique index is created exactly when it is not already a single-column number
   * index; it is never dropped; every other candidate is dropped, once; and nothing
   * that is not a candidate is dropped.
   */
  lemma {:induction false} PlanIndexesSound(rows: seq<IndexRow>)
    ensures var p := PlanIndexes(rows);
            (p.create <==> UniqueIndex !in Candidates(rows))
            && UniqueIndex !in p.drops
            && (forall k :: k in p.drops <==> k in Candidates(rows) && k != UniqueIndex)
            && Distinct(p.drops)
  {
    CandidatesDistinct(rows);
    WithoutUniqueDistinct(Candidates(rows));
  }

  lemma {:induction false} WithoutUniqueDistinct(keys: seq<string>)
    requires Distinct(keys)
    ensures Distinct(WithoutUnique(keys))
  {
    if keys != [] {
      assert Distinct(keys[1..]);
      WithoutUniqueDistinct(keys[1..]);
      var rest := WithoutUnique(keys[1..]);
      if keys[0] != UniqueIndex {
        assert keys[0] !in keys[1..];
        var r := [keys[0]] + rest;
        forall i, j | 0 <= i < j < |r|
          ensures r[i] != r[j]
        {
          if i == 0 {
            assert r[j] == rest[j - 1];
          } else {
            assert r[i] == rest[i - 1] && r[j] == rest[j - 1];
          }
        }
      } else {
        assert WithoutUnique(keys) == rest;
      }
    }
  }

  /** Distinct drop names give distinct drop statements. */
  lemma {:induction false} DropIndexInjective(a: string, b: string)
    requires DropIndex(a) == DropIndex(b)
    ensures a == b
  {
    var p := "DROP INDEX ";
    assert |a| == |b|;
    assert a == DropIndex(a)[|p|..|p| + |a|];
  }

  /**
   * The statements sent name each planned drop once and the create only when planned;
   * a plan without repeated drops sends no statement twice.
   */
  lemma {:induction false} StatementsSound(p: IndexPlan)
    requires Distinct(p.drops)
    ensures CreateUnique in Statements(p) <==> p.create
    ensures forall k :: DropIndex(k) in Statements(p) <==> k in p.drops
    ensures Distinct(Statements(p))
  {
    var head := if p.create then [CreateUnique] else [];
    var drops := DropAll(p.drops);
    assert Statements(p) == head + drops;
    NoDropCreates(p.drops);
    DropsNameTheirKeys(p.drops);
    DropAllDistinct(p.drops);
  }

  lemma {:induction false} NoDropCreates(keys: seq<string>)
    ensures CreateUnique !in DropAll(keys)
    ensures forall k :: DropIndex(k) != CreateUnique
  {
    assert CreateUnique[0] == 'C';
    forall k
      ensures DropIndex(k) != CreateUnique
    {
      assert DropIndex(k)[0] == 'D';
    }
  }

  lemma {:induction false} DropsNameTheirKeys(keys: seq<string>)
    ensures forall k :: DropIndex(k) in DropAll(keys) <==> k in keys
  {
    var drops := DropAll(keys);
    forall k | DropIndex(k) in drops
      ensures k in keys
    {
      var i :| 0 <= i < |drops| && drops[i] == DropIndex(k);
      DropIndexInjective(keys[i], k);
    }
  }

  lemma {:induction false} DropAllDistinct(keys: seq<string>)
    requires Distinct(keys)
    ensures Distinct(DropAll(keys))
  {
    var drops := DropAll(keys);
    forall i, j | 0 <= i < j < |drops|
      ensures drops[i] != drops[j]
    {
      if drops[i] == drops[j] {
        DropIndexInjective(keys[i], keys[j]);
      }
    }
  }

  // ---------------------------------------------------------------------------
  // Opportunity contact

  /** One row of the opportunity/first-contact query; a column may be absent. */
  datatype ContactRow = ContactRow(contactId: Option<string>, opportunityId: Option<string>)

  /** PHP's falsy test on a fetched column: absent, empty or "0". */
  predicate Falsy(v: Option<string>)
  {
    v.None? || v.value == "" || v.value == "0"
  }

  predicate Usable(row: ContactRow)
  {
    !Falsy(row.contactId) && !Falsy(row.opportunityId)
  }

  function SetContact(row: ContactRow): string
    requires Usable(row)
  {
    "UPDATE `opportunity` SET contact_id = " + Quote(row.contactId.value) + " WHERE id = " + Quote(row.opportunityId.value)
  }

  /** The rows that get an UPDATE, in fetch order. */
  function UsableRows(rows: seq<ContactRow>): (r: seq<ContactRow>)
    ensures forall x :: x in r <==> x in rows && Usable(x)
    ensures |r| <= |rows|
  {
    if rows == [] then []
    else (if Usable(rows[0]) then [rows[0]] else []) + UsableRows(rows[1..])
  }

  /** One UPDATE per row that has both ids, skipping the others. */
  method PopulateContactIds(rows: seq<ContactRow>) returns (updates: seq<string>)
    ensures var kept := UsableRows(rows);
            |updates| == |kept| && forall i :: 0 <= i < |kept| ==> updates[i] == SetContact(kept[i])
  {
    updates := [];
    var i := 0;
    while i < |rows|
      invariant 0 <= i <= |rows|
      invariant var kept := UsableRows(rows[..i]);
                |updates| == |kept| && forall n :: 0 <= n < |kept| ==> updates[n] == SetContact(kept[n])
    {
      UsableRowsSnoc(rows[..i], rows[i]);
      assert rows[..i + 1] == rows[..i] + [rows[i]];
      var row := rows[i];
      if !Falsy(row.contactId) && !Falsy(row.opportunityId) {
        updates := updates + [SetContact(row)];
      }
      i := i + 1;
    }
    assert rows[..i] == rows;
  }

  lemma {:induction false} UsableRowsSnoc(rows: seq<ContactRow>, row: ContactRow)
    ensures UsableRows(rows + [row]) == UsableRows(rows) + (if Usable(row) then [row] else [])
  {
    if rows == [] {
      assert [row][1..] == [];
    } else {
      assert (rows + [row])[1..] == rows[1..] + [row];
      UsableRowsSnoc(rows[1..], row);
    }
  }

  /** A row with an id missing, empty or "0" gets no UPDATE. */
  lemma {:induction false} SkippedRowsAreFalsy(rows: seq<ContactRow>, row: ContactRow)
    requires row in rows
    ensures row !in UsableRows(rows) <==> Falsy(row.contactId) || Falsy(row.opportunityId)
  {
  }
}
