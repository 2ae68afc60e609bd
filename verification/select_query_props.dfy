/**
 * Properties of the select-query compiler: filter keys round-trip through their
 * operator suffixes, conjuncts compile entry by entry, the soft-delete conjunct comes
 * last, filters never add joins, implicit joins appear exactly once, NOT groups and
 * subqueries are nested selects, and LIST ordering follows the listed values.
 */
module SelectQueryProps {
  import opened Outcomes
  import opened Strings
  import opened Schema
  import opened Expression
  import opened SqlFunctions
  import opened SelectQuery
  import SqlFunctionsProps

  // ---------------------------------------------------------------------------
  // Filter keys

  function KeyText(lhs: string, op: Op, raw: bool): string
  {
    lhs + OpSuffix(op) + (if raw then ":" else "")
  }

  lemma {:induction false} PathIsTrimmed(lhs: string)
    requires IsPath(lhs)
    ensures Trim(lhs) == lhs
  {
    assert Trimmed(lhs) by {
      assert PathChar(lhs[0]) && PathChar(lhs[|lhs| - 1]);
    }
    TrimKeepsTrimmed(lhs);
  }

  /** The first operator of the list whose suffix ends the body is the one split off. */
  lemma {:induction false} SplitOperatorFirst(body: string, ops: seq<Op>, k: nat)
    requires k < |ops| && EndsWith(body, OpSuffix(ops[k]))
    requires forall j :: 0 <= j < k ==> !EndsWith(body, OpSuffix(ops[j]))
    ensures SplitOperatorFrom(body, ops) == (body[..|body| - |OpSuffix(ops[k])|], ops[k])
  {
    if k > 0 {
      assert !EndsWith(body, OpSuffix(ops[0]));
      SplitOperatorFirst(body, ops[1..], k - 1);
    }
  }

  function SuffixIndex(op: Op): (k: nat)
    ensures k < |SuffixOrder| && SuffixOrder[k] == op
  {
    match op
    case NotInSubquery => 0
    case InSubquery => 1
    case NotEq => 2
    case NotLike => 3
    case Like => 4
    case Ge => 5
    case Le => 6
    case Gt => 7
    case Lt => 8
    case Eq => 9
  }

  /** Whether a suffix ends a body is decided by its last three characters. */
  lemma {:induction false} EndsWithLastChars(body: string, suf: string)
    requires 1 <= |suf| <= 3
    ensures EndsWith(body, suf) ==> forall i :: 0 <= i < |suf| ==> body[|body| - |suf| + i] == suf[i]
  {
  }

  /**
   * A suffix starting with an operator character ends a path followed by `tail`
   * exactly when it ends `tail` itself.
   */
  lemma {:induction false} EndsWithAfterPath(lhs: string, tail: string, suf: string)
    requires IsPath(lhs) && suf != [] && !PathChar(suf[0])
    ensures EndsWith(lhs + tail, suf) <==> EndsWith(tail, suf)
  {
    var body := lhs + tail;
    if |suf| <= |tail| {
      assert body[|body| - |suf|..] == tail[|tail| - |suf|..];
    } else if |suf| <= |body| {
      var k := |body| - |suf|;
      assert body[k..][0] == lhs[k];
      assert PathChar(lhs[k]);
    }
  }

  /** No suffix tried before an operator's own suffix is an ending of it. */
  lemma {:induction false} EarlierSuffixesDiffer(op: Op, j: nat)
    requires j < SuffixIndex(op)
    ensures !EndsWith(OpSuffix(op), OpSuffix(SuffixOrder[j]))
  {
    var a := OpSuffix(op);
    var b := OpSuffix(SuffixOrder[j]);
    match op {
      case NotInSubquery =>
      case InSubquery =>
      case NotEq =>
      case NotLike =>
      case Like =>
      case Ge =>
      case Le =>
      case Gt =>
      case Lt =>
      case Eq =>
    }
    LastCharsDiffer(a, b);
  }

  /** A suffix longer than a text, or differing from it in one of the last two places, does not end it. */
  lemma LastCharsDiffer(a: string, b: string)
    requires |a| >= 1 && |b| >= 1
    requires |b| > |a| || a[|a| - 1] != b[|b| - 1] || (|a| >= 2 && |b| >= 2 && a[|a| - 2] != b[|b| - 2])
    ensures !EndsWith(a, b)
  {
    if |b| <= |a| {
      var t := a[|a| - |b|..];
      assert t[|b| - 1] == a[|a| - 1];
      if |b| >= 2 {
        assert t[|b| - 2] == a[|a| - 2];
      }
    }
  }

  /** The operator suffix that ends a key is found, and none tried before it matches. */
  lemma {:induction false} SplitOperatorOfSuffixed(lhs: string, op: Op)
    requires IsPath(lhs)
    ensures SplitOperatorFrom(lhs + OpSuffix(op), SuffixOrder) == (lhs, op)
  {
    var body := lhs + OpSuffix(op);
    forall j | 0 <= j < SuffixIndex(op)
      ensures !EndsWith(body, OpSuffix(SuffixOrder[j]))
    {
      EarlierSuffixesDiffer(op, j);
      EndsWithAfterPath(lhs, OpSuffix(op), OpSuffix(SuffixOrder[j]));
    }
    EndsWithAfterPath(lhs, OpSuffix(op), OpSuffix(op));
    assert body[..|lhs|] == lhs;
    SplitOperatorFirst(body, SuffixOrder, SuffixIndex(op));
  }

  /** Writing a key from a path, an operator and the raw marker, then parsing it, gives them back. */
  lemma {:induction false} ParseKeyRoundTrip(lhs: string, op: Op, raw: bool)
    requires IsPath(lhs)
    ensures ParseKey(KeyText(lhs, op, raw)) == Key(lhs, op, raw)
  {
    var key := KeyText(lhs, op, raw);
    var body := lhs + OpSuffix(op);
    assert key[|lhs|] == OpSuffix(op)[0];
    assert !AllAlnum(key) by {
      assert !IsAlnum(OpSuffix(op)[0]);
    }
    if raw {
      assert key[..|key| - 1] == body;
    } else {
      assert key == body;
      assert key[|key| - 1] == OpSuffix(op)[|OpSuffix(op)| - 1];
    }
    SplitOperatorOfSuffixed(lhs, op);
    PathIsTrimmed(lhs);
  }

  /** A bare path, possibly dotted, is compared with `=`. */
  lemma {:induction false} ParseKeyOfPath(lhs: string)
    requires IsPath(lhs)
    ensures ParseKey(lhs) == Key(lhs, Eq, false)
  {
    if !AllAlnum(lhs) {
      var last := lhs[|lhs| - 1];
      assert PathChar(last);
      assert !EndsWith(lhs, ":") by {
        assert lhs[|lhs| - |":"|..] == [last];
      }
      assert SplitOperatorFrom(lhs, SuffixOrder) == (lhs, Eq) by {
        forall o | o in SuffixOrder
          ensures !EndsWith(lhs, OpSuffix(o))
        {
          EndsWithAfterPath(lhs, "", OpSuffix(o));
          assert lhs + "" == lhs;
        }
        SplitOperatorNone(lhs, SuffixOrder);
      }
      PathIsTrimmed(lhs);
    }
  }

  lemma {:induction false} SplitOperatorNone(body: string, ops: seq<Op>)
    requires forall o :: o in ops ==> !EndsWith(body, OpSuffix(o))
    ensures SplitOperatorFrom(body, ops) == (body, Eq)
  {
    if ops != [] {
      assert ops[0] in ops;
      SplitOperatorNone(body, ops[1..]);
    }
  }

  // ---------------------------------------------------------------------------
  // Filters

  /** Sibling entries compile independently: the filter of a + b is that of a, then that of b. */
  lemma {:induction false} CompileWhereAppend(ctx: Ctx, a: seq<Entry>, b: seq<Entry>)
    ensures CompileWhere(ctx, a + b).Ok? <==> CompileWhere(ctx, a).Ok? && CompileWhere(ctx, b).Ok?
    ensures CompileWhere(ctx, a + b).Ok? ==>
              CompileWhere(ctx, a + b).value == CompileWhere(ctx, a).value + CompileWhere(ctx, b).value
  {
    if a == [] {
      assert a + b == b;
    } else {
      assert (a + b)[0] == a[0];
      assert (a + b)[1..] == a[1..] + b;
      CompileWhereAppend(ctx, a[1..], b);
    }
  }

  /** An empty list compiles to the constant 0 under `=` and 1 under `!=`, whatever the attribute. */
  lemma {:induction false} EmptyListIsConstant(ctx: Ctx, lhs: string, negated: bool)
    requires IsPath(lhs) && Operand(ctx, lhs).Ok?
    ensures CompileEntry(ctx, Pair(KeyText(lhs, if negated then NotEq else Eq, false), List([])))
            == Ok(if negated then "1" else "0")
  {
    ParseKeyRoundTrip(lhs, if negated then NotEq else Eq, false);
  }

  /** A list value compiles to IN (or NOT IN) over the quoted values, in order. */
  lemma {:induction false} ListIsMembership(ctx: Ctx, lhs: string, negated: bool, items: seq<Scalar>)
    requires IsPath(lhs) && Operand(ctx, lhs).Ok? && items != []
    ensures CompileEntry(ctx, Pair(KeyText(lhs, if negated then NotEq else Eq, false), List(items)))
            == Ok(Operand(ctx, lhs).value + (if negated then " NOT IN (" else " IN (")
                  + Join(ScalarsSql(items), ", ") + ")")
  {
    ParseKeyRoundTrip(lhs, if negated then NotEq else Eq, false);
  }

  /** `attr=s` / `attr!=s` with nested params compile to IN / NOT IN around that nested select. */
  lemma {:induction false} SubqueryIsNestedSelect(ctx: Ctx, lhs: string, op: Op, t: string, p: Params)
    requires IsPath(lhs) && Operand(ctx, lhs).Ok? && (op.InSubquery? || op.NotInSubquery?)
    ensures CompileEntry(ctx, Pair(KeyText(lhs, op, false), Subquery(t, p))).Ok? <==> CompileSelect(t, p).Ok?
    ensures CompileSelect(t, p).Ok? ==>
              CompileEntry(ctx, Pair(KeyText(lhs, op, false), Subquery(t, p)))
              == Ok(Operand(ctx, lhs).value + " " + OpSql(op) + " (" + CompileSelect(t, p).value + ")")
  {
    var key := KeyText(lhs, op, false);
    ParseKeyRoundTrip(lhs, op, false);
    assert CompileEntry(ctx, Pair(key, Subquery(t, p))) == CompilePair(ctx, key, Subquery(t, p));
  }

  // ---------------------------------------------------------------------------
  // The planned statement

  /** Unless deleted rows are wanted, the last conjunct is `table.deleted = '0'` and comes after every where entry. */
  lemma {:induction false} SoftDeleteLast(t: string, p: Params)
    requires Plan(t, p).Ok?
    ensures var w := Plan(t, p).value.where;
            if p.withDeleted then |w| == |p.whereClause|
            else |w| == |p.whereClause| + 1 && w[|w| - 1] == SoftDelete(Plan(t, p).value.table)
  {
  }

  /** Filters never add joins: plans differing only in their where entries join the same tables. */
  lemma {:induction false} FiltersAddNoJoins(t: string, p: Params, w: seq<Entry>)
    requires Plan(t, p).Ok? && Plan(t, p.(whereClause := w)).Ok?
    ensures Plan(t, p.(whereClause := w)).value.joins == Plan(t, p).value.joins
  {
    var q := p.(whereClause := w);
    var ctx := MainCtx(FindEntity(t).value);
    assert SelectedNames(ctx.entity, q) == SelectedNames(ctx.entity, p);
    assert JoinsOf(ctx, q) == JoinsOf(ctx, p);
  }

  /** A selected attribute projected through a belongs-to relation implies a join under the relation's name. */
  lemma {:induction false} ImplicitJoinOfForeign(e: Entity, main: string, names: seq<string>, k: nat, rel: string)
    requires k < |names|
    requires e.FindAttribute(names[k]).Some? && e.FindAttribute(names[k]).value.kind.Foreign?
    requires e.FindAttribute(names[k]).value.kind.relation == rel
    requires e.FindRelation(rel).Some? && e.FindRelation(rel).value.kind.BelongsTo?
    ensures rel in Aliases(ImplicitJoins(e, main, names))
  {
    var js := ImplicitJoins(e, main, names);
    if k == 0 {
      ImplicitJoinsHead(e, main, names, rel);
      AliasAt(js, 0);
    } else {
      var rest := ImplicitJoins(e, main, names[1..]);
      ImplicitJoinOfForeign(e, main, names[1..], k - 1, rel);
      var i :| 0 <= i < |rest| && Aliases(rest)[i] == rel;
      ImplicitJoinsTail(e, main, names, i);
      AliasAt(js, |js| - |rest| + i);
    }
  }

  /** A first name projected through a belongs-to relation puts that relation's join first. */
  lemma ImplicitJoinsHead(e: Entity, main: string, names: seq<string>, rel: string)
    requires names != []
    requires e.FindAttribute(names[0]).Some? && e.FindAttribute(names[0]).value.kind.Foreign?
    requires e.FindAttribute(names[0]).value.kind.relation == rel
    requires e.FindRelation(rel).Some? && e.FindRelation(rel).value.kind.BelongsTo?
    ensures |ImplicitJoins(e, main, names)| >= 1 && ImplicitJoins(e, main, names)[0].alias == rel
  {
    var a := e.FindAttribute(names[0]).value;
    assert a == Attribute(a.name, Foreign(rel, a.kind.parts));
    var r := e.FindRelation(rel).value;
    assert r == Relation(r.name, r.foreignEntity, BelongsTo(r.kind.key));
  }

  /** The joins implied by the later names end the joins implied by all of them. */
  lemma ImplicitJoinsTail(e: Entity, main: string, names: seq<string>, i: nat)
    requires names != [] && i < |ImplicitJoins(e, main, names[1..])|
    ensures |ImplicitJoins(e, main, names)| >= |ImplicitJoins(e, main, names[1..])|
    ensures var js := ImplicitJoins(e, main, names);
            var rest := ImplicitJoins(e, main, names[1..]);
            js[|js| - |rest| + i] == rest[i]
  {
  }

  lemma AliasAt(js: seq<CompiledJoin>, i: nat)
    requires i < |js|
    ensures js[i].alias in Aliases(js)
  {
    assert Aliases(js)[i] == js[i].alias;
  }

  /** Deduplication keeps some join under every alias not yet seen. */
  lemma {:induction false} DedupKeepsAlias(js: seq<CompiledJoin>, seen: seq<string>, a: string)
    requires a in Aliases(js) && a !in seen
    ensures a in Aliases(Dedup(js, seen))
  {
    var i :| 0 <= i < |js| && Aliases(js)[i] == a;
    assert js[i].alias == a;
  }

  /** Some join of a concatenation carries the alias when one of the implied or explicit joins does. */
  lemma {:induction false} AliasOfImpliedOrExplicit(implied: seq<CompiledJoin>, explicit: seq<CompiledJoin>, rel: string)
    requires rel in Aliases(implied)
    ensures rel in Aliases(Dedup(implied, Aliases(explicit)) + explicit)
  {
    var implicit := Dedup(implied, Aliases(explicit));
    if rel !in Aliases(explicit) {
      DedupKeepsAlias(implied, Aliases(explicit), rel);
    }
    AliasOfEither(implicit, explicit, rel);
  }

  /** An alias of either part is an alias of their concatenation. */
  lemma AliasOfEither(xs: seq<CompiledJoin>, ys: seq<CompiledJoin>, rel: string)
    requires rel in Aliases(xs) || rel in Aliases(ys)
    ensures rel in Aliases(xs + ys)
  {
    var all := xs + ys;
    if rel in Aliases(xs) {
      var i :| 0 <= i < |xs| && Aliases(xs)[i] == rel;
      assert all[i] == xs[i];
      AliasAt(all, i);
    } else {
      var i :| 0 <= i < |ys| && Aliases(ys)[i] == rel;
      assert all[|xs| + i] == ys[i];
      AliasAt(all, |xs| + i);
    }
  }

  /** An implied join survives deduplication against the explicit joins under exactly one alias. */
  lemma {:induction false} ImpliedJoinKept(implied: seq<CompiledJoin>, explicit: seq<CompiledJoin>, rel: string)
    requires rel in Aliases(implied)
    ensures var js := Dedup(Dedup(implied, Aliases(explicit)) + explicit, []);
            exists i :: 0 <= i < |js| && js[i].alias == rel
                        && forall j :: 0 <= j < |js| && j != i ==> js[j].alias != rel
  {
    var all := Dedup(implied, Aliases(explicit)) + explicit;
    AliasOfImpliedOrExplicit(implied, explicit, rel);
    DedupKeepsAlias(all, [], rel);
    var js := Dedup(all, []);
    var i :| 0 <= i < |js| && Aliases(js)[i] == rel;
    assert js[i].alias == rel;
  }

  /** A selected foreign attribute's relation is joined exactly once, whether implied or joined explicitly. */
  lemma {:induction false} ForeignColumnJoinedOnce(e: Entity, p: Params, k: nat, rel: string)
    requires JoinsOf(MainCtx(e), p).Ok?
    requires k < |SelectedNames(e, p)|
    requires e.FindAttribute(SelectedNames(e, p)[k]).Some? && e.FindAttribute(SelectedNames(e, p)[k]).value.kind.Foreign?
    requires e.FindAttribute(SelectedNames(e, p)[k]).value.kind.relation == rel
    requires e.FindRelation(rel).Some? && e.FindRelation(rel).value.kind.BelongsTo?
    ensures var js := JoinsOf(MainCtx(e), p).value;
            exists i :: 0 <= i < |js| && js[i].alias == rel
                        && forall j :: 0 <= j < |js| && j != i ==> js[j].alias != rel
  {
    var ctx := MainCtx(e);
    var inner := CompileJoins(ctx, Inner, p.joins).value;
    var outer := CompileJoins(ctx, Outer, p.leftJoins).value;
    var explicit := inner + outer;
    var implied := ImplicitJoins(e, ctx.alias, SelectedNames(e, p));
    var implicit := Dedup(implied, Aliases(explicit));
    var js := JoinsOf(ctx, p).value;
    assert js == Dedup(implicit + explicit, []);
    ImplicitJoinOfForeign(e, ctx.alias, SelectedNames(e, p), k, rel);
    ImpliedJoinKept(implied, explicit, rel);
  }

  // ---------------------------------------------------------------------------
  // NOT groups

  /** The parameters of the id subselect a NOT group stands for. */
  function IdSelect(es: seq<Entry>): Params
  {
    NoParams.(select := Some([Item("id")]), whereClause := es)
  }

  lemma {:induction false} ColumnOperand(e: Entity, name: string)
    requires ':' !in name && '.' !in name && e.FindAttribute(name) == Some(Col(name))
    ensures Operand(MainCtx(e), name) == Ok(Qualified(e.Table(), name))
  {
    assert IndexOf(name, '.') == None;
  }

  /** Selecting just `id` reads the id column under its own name. */
  lemma {:induction false} IdColumn(e: Entity, p: Params)
    requires e.FindAttribute("id") == Some(Col("id"))
    requires p.aggregate.None? && p.select == Some([Item("id")])
    ensures Columns(MainCtx(e), p) == Ok([ColumnAs(Qualified(e.Table(), "id"), "id")])
  {
    var ctx := MainCtx(e);
    ColumnOperand(e, "id");
    var items := [Item("id")];
    assert SelectColumns(ctx, items[1..]) == Ok([]);
    assert ItemExpr(items[0]) == "id" && ItemAlias(items[0]) == "id";
    var r := SelectColumns(ctx, items);
    assert r.Ok?;
    assert |r.value| == 1 && r.value[0] == ColumnAs(Qualified(e.Table(), "id"), "id");
    assert r.value == [ColumnAs(Qualified(e.Table(), "id"), "id")];
  }

  /** A plain `attribute => text` entry compiles to `table.column = 'text'`. */
  lemma {:induction false} KeyEquality(e: Entity, name: string, v: string)
    requires IsPath(name) && '.' !in name && e.FindAttribute(name) == Some(Col(name))
    ensures CompileWhere(MainCtx(e), [Pair(name, Single(Text(v)))]) == Ok([Qualified(e.Table(), name) + " = " + Quote(v)])
  {
    var ctx := MainCtx(e);
    ParseKeyOfPath(name);
    PathHasNoColon(name);
    ColumnOperand(e, name);
    KeyEqualityEntry(ctx, name, Qualified(e.Table(), name), v);
    WhereOfOne(ctx, Pair(name, Single(Text(v))));
  }

  /** A one-entry filter compiles to that entry's conjunct alone. */
  lemma {:induction false} WhereOfOne(ctx: Ctx, x: Entry)
    requires CompileEntry(ctx, x).Ok?
    ensures CompileWhere(ctx, [x]) == Ok([CompileEntry(ctx, x).value])
  {
    var h := CompileEntry(ctx, x).value;
    assert [x][0] == x;
    assert CompileWhere(ctx, [x][1..]) == Ok([]);
    assert [h] + [] == [h];
  }

  lemma {:induction false} KeyEqualityEntry(ctx: Ctx, name: string, left: string, v: string)
    requires ParseKey(name) == Key(name, Eq, false) && Operand(ctx, name) == Ok(left)
    requires PersonNameOf(ctx, name).None?
    ensures CompileEntry(ctx, Pair(name, Single(Text(v)))) == Ok(left + " = " + Quote(v))
  {
    SingleEntry(ctx, name, Text(v));
    EqualitySql(ctx, name, left, v);
  }

  lemma {:induction false} EqualitySql(ctx: Ctx, name: string, left: string, v: string)
    requires PersonNameOf(ctx, name).None?
    ensures SingleSql(ctx, name, Key(name, Eq, false), left, Text(v)) == Ok(left + " = " + Quote(v))
  {
    assert left + " " + OpSql(Eq) + " " + ScalarSql(Text(v)) == left + " = " + Quote(v);
  }

  lemma {:induction false} IdSelectJoinsNothing(e: Entity, es: seq<Entry>)
    requires e.FindAttribute("id") == Some(Attribute("id", Column))
    ensures JoinsOf(MainCtx(e), IdSelect(es)) == Ok([])
  {
    assert SelectedNames(e, IdSelect(es)) == ["id"];
    assert ImplicitJoins(e, e.Table(), ["id"]) == [];
  }

  /** The plan of the id subselect: the id column, no joins, the entries then the soft-delete conjunct. */
  lemma {:induction false} IdSelectPlan(e: Entity, es: seq<Entry>)
    requires FindEntity(e.name) == Ok(e) && e.FindAttribute("id") == Some(Attribute("id", Column))
    requires CompileWhere(MainCtx(e), es).Ok?
    ensures Plan(e.name, IdSelect(es))
            == Ok(Statement([ColumnAs(Qualified(e.Table(), "id"), "id")], e.Table(), [], [],
                            CompileWhere(MainCtx(e), es).value + [SoftDelete(e.Table())], [], [], [], None))
  {
    var ctx := MainCtx(e);
    var q := IdSelect(es);
    IdColumn(e, IdSelect(es));
    IdSelectJoinsNothing(e, es);
    assert Operands(ctx, q.groupBy) == Ok([]);
    assert CompileWhere(ctx, q.havingClause) == Ok([]);
    assert OrderSql(ctx, q) == Ok([]);
    assert LimitOf(q) == None;
  }

  /** A NOT group is `id NOT IN` the ids of the same entity that match all its entries. */
  lemma {:induction false} NotGroupIsSubselect(e: Entity, es: seq<Entry>)
    requires FindEntity(e.name) == Ok(e) && e.FindAttribute("id") == Some(Attribute("id", Column))
    ensures CompileEntry(MainCtx(e), NoneOf(es)).Ok? <==> CompileSelect(e.name, IdSelect(es)).Ok?
    ensures CompileEntry(MainCtx(e), NoneOf(es)).Ok? ==>
              CompileEntry(MainCtx(e), NoneOf(es)).value
              == e.Table() + ".id NOT IN (" + CompileSelect(e.name, IdSelect(es)).value + ")"
  {
    NotGroupOfParts(MainCtx(e), es);
    if CompileWhere(MainCtx(e), es).Ok? {
      IdSelectPlan(e, es);
    }
  }

  lemma {:induction false} NotGroupOfParts(ctx: Ctx, es: seq<Entry>)
    ensures CompileEntry(ctx, NoneOf(es)).Ok? <==> CompileWhere(ctx, es).Ok?
    ensures CompileEntry(ctx, NoneOf(es)).Ok? ==>
              CompileEntry(ctx, NoneOf(es)).value == NotInSql(ctx, CompileWhere(ctx, es).value)
  {
  }

  // ---------------------------------------------------------------------------
  // LIST ordering

  /** MySQL's FIELD(x, l1, …, ln): the 1-based position of the first li equal to x, or 0 when none is. */
  function FieldPosition(x: string, list: seq<string>): (n: nat)
    ensures n <= |list|
    ensures n == 0 <==> x !in list
    ensures n > 0 ==> list[n - 1] == x && x !in list[..n - 1]
  {
    if list == [] then 0
    else if list[0] == x then 1
    else
      var n := FieldPosition(x, list[1..]);
      if n == 0 then 0
      else
        assert list[..n] == [list[0]] + list[1..][..n - 1];
        n + 1
  }

  predicate Distinct(s: seq<string>)
  {
    forall a, b :: 0 <= a < b < |s| ==> s[a] != s[b]
  }

  lemma {:induction false} FieldPositionOfDistinct(list: seq<string>, k: nat)
    requires Distinct(list) && k < |list|
    ensures FieldPosition(list[k], list) == k + 1
  {
  }

  /**
   * Sorting by FIELD over the reversed list, descending, puts the listed values first,
   * in the order listed, and everything unlisted after them.
   */
  lemma {:induction false} ListOrderRanks(vs: seq<string>, i: nat, j: nat)
    requires Distinct(vs) && i < j < |vs|
    ensures FieldPosition(vs[i], Reverse(vs)) > FieldPosition(vs[j], Reverse(vs)) > 0
    ensures forall x :: x !in vs ==> FieldPosition(x, Reverse(vs)) == 0
  {
    var r := Reverse(vs);
    assert Distinct(r) by {
      forall a, b | 0 <= a < b < |r|
        ensures r[a] != r[b]
      {
        assert r[a] == vs[|vs| - 1 - a] && r[b] == vs[|vs| - 1 - b];
      }
    }
    assert r[|vs| - 1 - i] == vs[i] && r[|vs| - 1 - j] == vs[j];
    FieldPositionOfDistinct(r, |vs| - 1 - i);
    FieldPositionOfDistinct(r, |vs| - 1 - j);
  }

  /** `LIST:path:a,b,…` compiles to FIELD over the path and the quoted values in reverse, descending. */
  lemma {:induction false} ListOrderText(ctx: Ctx, path: string, vs: seq<string>)
    requires ':' !in path && Operand(ctx, path).Ok?
    requires |vs| >= 1 && forall i :: 0 <= i < |vs| ==> ',' !in vs[i]
    ensures ListOrder(ctx, path + ":" + Join(vs, ",")) ==
            Ok("FIELD(" + Operand(ctx, path).value + ", " + Join(QuoteAll(Reverse(vs)), ", ") + ") DESC")
  {
    var rest := path + ":" + Join(vs, ",");
    ListTextSplits(path, vs);
    var i := |path|;
    assert IndexOf(rest, ':') == Some(i) && rest[..i] == path;
    assert SplitOn(rest[i + 1..], ',') == vs;
    ListOrderAt(ctx, rest, i);
  }

  lemma {:induction false} ListOrderAt(ctx: Ctx, rest: string, i: nat)
    requires IndexOf(rest, ':') == Some(i) && Operand(ctx, rest[..i]).Ok?
    ensures ListOrder(ctx, rest) ==
            Ok("FIELD(" + Operand(ctx, rest[..i]).value + ", "
               + Join(QuoteAll(Reverse(SplitOn(rest[i + 1..], ','))), ", ") + ") DESC")
  {
  }

  lemma {:induction false} ListTextSplits(path: string, vs: seq<string>)
    requires ':' !in path
    requires |vs| >= 1 && forall i :: 0 <= i < |vs| ==> ',' !in vs[i]
    ensures var rest := path + ":" + Join(vs, ",");
            IndexOf(rest, ':') == Some(|path|) && rest[..|path|] == path && SplitOn(rest[|path| + 1..], ',') == vs
  {
    var rest := path + ":" + Join(vs, ",");
    IndexOfAfterPrefix(path, ':', Join(vs, ","));
    assert rest[..|path|] == path;
    assert rest[|path| + 1..] == Join(vs, [',']);
    SplitJoin(vs, ',');
  }

  // ---------------------------------------------------------------------------
  // Full-name attributes

  /** LIKE on a full-name attribute tests the first name, the last name and both joined by a space. */
  lemma {:induction false} PersonNameLikeFansOut(e: Entity, name: string, f: string, l: string, v: string)
    requires IsPath(name) && '.' !in name
    requires e.FindAttribute(name) == Some(Attribute(name, PersonName(f, l)))
    ensures CompileEntry(MainCtx(e), Pair(KeyText(name, Like, false), Single(Text(v))))
            == Ok(PersonNameLike(e.Table(), f, l, Quote(v)))
  {
    var ctx := MainCtx(e);
    var key := KeyText(name, Like, false);
    ParseKeyRoundTrip(name, Like, false);
    PathHasNoColon(name);
    assert Operand(ctx, name) == Ok(AttributeRef(ctx, name));
    SingleEntry(ctx, key, Text(v));
    assert PersonNameOf(ctx, name) == Some((f, l));
    SingleLike(ctx, key, Key(name, Like, false), AttributeRef(ctx, name), f, l, v);
  }

  lemma SingleLike(ctx: Ctx, key: string, k: Key, left: string, f: string, l: string, v: string)
    requires !k.raw && k.op == Like && PersonNameOf(ctx, k.lhs) == Some((f, l))
    ensures SingleSql(ctx, key, k, left, Text(v)) == Ok(PersonNameLike(ctx.alias, f, l, Quote(v)))
  {
  }

  lemma PathHasNoColon(s: string)
    requires IsPath(s)
    ensures ':' !in s
  {
  }

  /** A single value compiles against the operand its key names. */
  lemma {:induction false} SingleEntry(ctx: Ctx, key: string, x: Scalar)
    requires Operand(ctx, ParseKey(key).lhs).Ok?
    ensures CompileEntry(ctx, Pair(key, Single(x)))
            == SingleSql(ctx, key, ParseKey(key), Operand(ctx, ParseKey(key).lhs).value, x)
  {
    assert CompileEntry(ctx, Pair(key, Single(x))) == CompilePair(ctx, key, Single(x));
  }

  /** Ordering by a full-name attribute orders by the first name, then the last name, in the same direction. */
  lemma {:induction false} PersonNameOrder(e: Entity, name: string, f: string, l: string, d: Direction)
    requires ':' !in name && '.' !in name
    requires e.FindAttribute(name) == Some(Attribute(name, PersonName(f, l)))
    ensures OrderTargetSql(MainCtx(e), OrderTarget.Field(name), d)
            == Ok([Qualified(e.Table(), f) + " " + DirectionSql(d), Qualified(e.Table(), l) + " " + DirectionSql(d)])
  {
    assert |name| >= 5 ==> name[..5][4] == name[4] != ':';
    assert PersonNameOf(MainCtx(e), name) == Some((f, l));
  }

  // ---------------------------------------------------------------------------
  // Relation joins

  /** A belongs-to join matches the main entity's key attribute with the foreign row's id. */
  lemma BelongsToLines(k: JoinKind, owner: Entity, main: string, r: Relation, alias: string, onlyMiddle: bool, conds: seq<string>)
    requires r.kind.BelongsTo?
    ensures RelationJoin(k, owner, main, r, alias, onlyMiddle, conds)
            == [KindSql(k) + " `" + ToDb(r.foreignEntity) + "` AS `" + alias + "` ON "
                + main + "." + ToDb(r.kind.key) + " = " + alias + ".id" + Extra(conds)]
  {
    var p := KindSql(k) + " `" + ToDb(r.foreignEntity) + "` AS `" + alias + "` ON ";
    assert BelongsToJoin(k, main, r.foreignEntity, r.kind.key, alias) == p + main + "." + ToDb(r.kind.key) + " = " + alias + ".id";
  }

  /** A has-many join matches the main id with the foreign key and skips deleted foreign rows. */
  lemma HasManyLines(k: JoinKind, owner: Entity, main: string, r: Relation, alias: string, onlyMiddle: bool, conds: seq<string>)
    requires r.kind.HasMany?
    ensures RelationJoin(k, owner, main, r, alias, onlyMiddle, conds)
            == [KindSql(k) + " `" + ToDb(r.foreignEntity) + "` AS `" + alias + "` ON "
                + main + ".id = " + alias + "." + ToDb(r.kind.foreignKey)
                + " AND " + alias + ".deleted = '0'" + Extra(conds)]
  {
    var p := KindSql(k) + " `" + ToDb(r.foreignEntity) + "` AS `" + alias + "` ON " + main + ".id = ";
    assert p + Qualified(alias, r.kind.foreignKey) == p + alias + "." + ToDb(r.kind.foreignKey);
    var q := p + alias + "." + ToDb(r.kind.foreignKey) + " AND ";
    assert q + SoftDelete(alias) == q + alias + ".deleted = '0'";
  }

  /**
   * A has-children join matches the main id with the parent id, the owner entity's name
   * with the parent type, and skips deleted children.
   */
  lemma HasChildrenLines(k: JoinKind, owner: Entity, main: string, r: Relation, alias: string, onlyMiddle: bool, conds: seq<string>)
    requires r.kind.HasChildren?
    ensures RelationJoin(k, owner, main, r, alias, onlyMiddle, conds)
            == [KindSql(k) + " `" + ToDb(r.foreignEntity) + "` AS `" + alias + "` ON "
                + main + ".id = " + alias + "." + ToDb(r.kind.foreignKey)
                + " AND " + alias + "." + ToDb(r.kind.foreignType) + " = " + Quote(owner.name)
                + " AND " + alias + ".deleted = '0'" + Extra(conds)]
  {
    var p := KindSql(k) + " `" + ToDb(r.foreignEntity) + "` AS `" + alias + "` ON " + main + ".id = ";
    assert p + Qualified(alias, r.kind.foreignKey) == p + alias + "." + ToDb(r.kind.foreignKey);
    var q := p + alias + "." + ToDb(r.kind.foreignKey) + " AND ";
    assert q + Qualified(alias, r.kind.foreignType) == q + alias + "." + ToDb(r.kind.foreignType);
    var u := q + alias + "." + ToDb(r.kind.foreignType) + " = " + Quote(owner.name) + " AND ";
    assert u + SoftDelete(alias) == u + alias + ".deleted = '0'";
  }

  /** The junction table of a many-to-many relation joins under the relation alias with `Middle` appended. */
  function MiddleLine(k: JoinKind, main: string, r: Relation, alias: string): string
    requires r.kind.ManyMany?
  {
    var middle := alias + "Middle";
    KindSql(k) + " `" + ToDb(r.kind.junction) + "` AS `" + middle + "` ON "
    + main + ".id = " + middle + "." + ToDb(r.kind.key)
    + " AND " + middle + ".deleted = '0'" + Extra(ConditionsSql(middle, r.kind.conditions))
  }

  /**
   * A many-to-many join is two lines, the junction first and then the foreign table
   * matched through the junction's foreign key; the join conditions go on the last line.
   */
  lemma ManyManyLines(k: JoinKind, owner: Entity, main: string, r: Relation, alias: string, conds: seq<string>)
    requires r.kind.ManyMany?
    ensures RelationJoin(k, owner, main, r, alias, false, conds)
            == [MiddleLine(k, main, r, alias),
                KindSql(k) + " `" + ToDb(r.foreignEntity) + "` AS `" + alias + "` ON "
                + alias + ".id = " + alias + "Middle" + "." + ToDb(r.kind.foreignKey)
                + " AND " + alias + ".deleted = '0'" + Extra(conds)]
  {
    var middle := alias + "Middle";
    var m := KindSql(k) + " `" + ToDb(r.kind.junction) + "` AS `" + middle + "` ON ";
    var p := m + main + ".id = ";
    assert p + Qualified(middle, r.kind.key) == p + middle + "." + ToDb(r.kind.key);
    var q := p + middle + "." + ToDb(r.kind.key) + " AND ";
    assert q + SoftDelete(middle) == q + middle + ".deleted = '0'";
    var t := KindSql(k) + " `" + ToDb(r.foreignEntity) + "` AS `" + alias + "` ON " + alias + ".id = ";
    assert t + Qualified(middle, r.kind.foreignKey) == t + middle + "." + ToDb(r.kind.foreignKey);
    assert t + middle == t + alias + "Middle";
    var v := t + middle + "." + ToDb(r.kind.foreignKey) + " AND ";
    assert v + SoftDelete(alias) == v + alias + ".deleted = '0'";
  }

  /** With only the middle requested, a many-to-many join is the junction line alone, carrying the join conditions. */
  lemma OnlyMiddleLines(k: JoinKind, owner: Entity, main: string, r: Relation, alias: string, conds: seq<string>)
    requires r.kind.ManyMany?
    ensures RelationJoin(k, owner, main, r, alias, true, conds) == [MiddleLine(k, main, r, alias) + Extra(conds)]
  {
    var middle := alias + "Middle";
    var p := KindSql(k) + " `" + ToDb(r.kind.junction) + "` AS `" + middle + "` ON " + main + ".id = ";
    assert p + Qualified(middle, r.kind.key) == p + middle + "." + ToDb(r.kind.key);
    var q := p + middle + "." + ToDb(r.kind.key) + " AND ";
    assert q + SoftDelete(middle) == q + middle + ".deleted = '0'";
  }

  /** `onlyMiddle` matters only to many-to-many relations. */
  lemma OnlyMiddleIgnoredElsewhere(k: JoinKind, owner: Entity, main: string, r: Relation, alias: string, conds: seq<string>)
    requires !r.kind.ManyMany?
    ensures RelationJoin(k, owner, main, r, alias, true, conds) == RelationJoin(k, owner, main, r, alias, false, conds)
  {
  }

  // ---------------------------------------------------------------------------
  // Columns of the main table inside functions

  /** A bare column of the selected entity reads as `table.column` in the main context. */
  lemma MainColumnRef(e: Entity, path: string)
    requires '.' !in path && e.FindAttribute(path) == Some(Col(path))
    ensures ToSql(MainCtx(e), Attr(path)) == Ok(e.Table() + "." + ToDb(path))
  {
    assert ReadsOwnColumn(MainCtx(e), path);
  }

  /** `MONTH_NUMBER:createdAt` and the like wrap the main table's column in the MySQL function. */
  lemma MainColumnInFunction(e: Entity, name: string, path: string)
    requires name in FixedKinds && FixedKinds[name].Plain?
    requires '.' !in path && e.FindAttribute(path) == Some(Col(path))
    ensures ToSql(MainCtx(e), Call(name, [Attr(path)]))
            == Ok(FixedKinds[name].sqlName + "(" + e.Table() + "." + ToDb(path) + ")")
  {
    var s := e.Table() + "." + ToDb(path);
    MainColumnRef(e, path);
    SqlFunctionsProps.ArgsOne(MainCtx(e), Attr(path), s);
    SqlFunctionsProps.RenamedLowers(MainCtx(e), name, [Attr(path)], [s]);
    JoinSingle(s, ", ");
    var head := FixedKinds[name].sqlName + "(";
    assert head + s == head + e.Table() + "." + ToDb(path);
  }

  /** `COUNT:id` and the other plain functions apply to the main table's column, as `COUNT(comment.id)`. */
  lemma MainColumnInPlainFunction(e: Entity, name: string, path: string)
    requires name in PlainNames
    requires '.' !in path && e.FindAttribute(path) == Some(Col(path))
    ensures ToSql(MainCtx(e), Call(name, [Attr(path)])) == Ok(name + "(" + e.Table() + "." + ToDb(path) + ")")
  {
    var s := e.Table() + "." + ToDb(path);
    MainColumnRef(e, path);
    SqlFunctionsProps.ArgsOne(MainCtx(e), Attr(path), s);
    SqlFunctionsProps.PlainLowers(MainCtx(e), name, [Attr(path)], [s]);
    JoinSingle(s, ", ");
    var head := name + "(";
    assert head + s == head + e.Table() + "." + ToDb(path);
  }
}
