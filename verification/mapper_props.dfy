/**
 * What the mapper's statements mean in terms of the select compiler: the filter a
 * select by id or a relation select adds, the limit of a belongs-to select, the
 * junction join shared by a many-to-many select and its count, the row source of
 * massRelate, and which attributes an insert writes.
 */
module MapperProps {
  import opened Outcomes
  import opened Strings
  import opened Schema
  import opened Expression
  import opened SqlFunctions
  import opened SelectQuery
  import opened SelectQueryProps
  import opened Mapper

  /** The conjunct a key filter on a plain column compiles to. */
  function Equals(table: string, column: string, v: string): string
  {
    Qualified(table, column) + " = " + Quote(v)
  }

  /** A plain, column-backed attribute name of an entity. */
  predicate PlainColumn(e: Entity, name: string)
  {
    IsPath(name) && '.' !in name && e.FindAttribute(name) == Some(Col(name))
  }

  lemma {:induction false} IdIsPlainColumn(e: Entity)
    requires e in Entities
    ensures PlainColumn(e, "id")
  {
    EveryEntityHasId(e);
    assert PathChar('i') && PathChar('d');
  }

  /**
   * Filters appended to the caller's filters compile to their conjuncts after the
   * caller's conjuncts and before the soft-delete conjunct.
   */
  lemma {:induction false} WhereAppended(t: string, q: Params, pre: seq<Entry>, extra: seq<Entry>, conjuncts: seq<string>)
    requires Plan(t, q).Ok? && q.whereClause == pre + extra
    requires FindEntity(t).Ok? && CompileWhere(MainCtx(FindEntity(t).value), extra) == Ok(conjuncts)
    ensures var e := FindEntity(t).value;
            CompileWhere(MainCtx(e), pre).Ok?
            && Plan(t, q).value.where == CompileWhere(MainCtx(e), pre).value + conjuncts
                                         + (if q.withDeleted then [] else [SoftDelete(e.Table())])
  {
    CompileWhereAppend(MainCtx(FindEntity(t).value), pre, extra);
  }

  /** Appending a key filter on a plain column appends its equality. */
  lemma {:induction false} FilterAppended(t: string, q: Params, pre: seq<Entry>, name: string, v: string)
    requires Plan(t, q).Ok? && q.whereClause == pre + [Pair(name, Single(Text(v)))]
    requires FindEntity(t).Ok? && PlainColumn(FindEntity(t).value, name)
    ensures var e := FindEntity(t).value;
            CompileWhere(MainCtx(e), pre).Ok?
            && Plan(t, q).value.where == CompileWhere(MainCtx(e), pre).value + [Equals(e.Table(), name, v)]
                                         + (if q.withDeleted then [] else [SoftDelete(e.Table())])
  {
    var e := FindEntity(t).value;
    KeyEquality(e, name, v);
    WhereAppended(t, q, pre, [Pair(name, Single(Text(v)))], [Equals(e.Table(), name, v)]);
  }

  /** Two key filters on plain columns, appended in order. */
  lemma {:induction false} FiltersAppended(t: string, q: Params, pre: seq<Entry>, n1: string, v1: string, n2: string, v2: string)
    requires Plan(t, q).Ok?
    requires q.whereClause == pre + [Pair(n1, Single(Text(v1))), Pair(n2, Single(Text(v2)))]
    requires FindEntity(t).Ok? && PlainColumn(FindEntity(t).value, n1) && PlainColumn(FindEntity(t).value, n2)
    ensures var e := FindEntity(t).value;
            CompileWhere(MainCtx(e), pre).Ok?
            && Plan(t, q).value.where == CompileWhere(MainCtx(e), pre).value
                                         + [Equals(e.Table(), n1, v1), Equals(e.Table(), n2, v2)]
                                         + (if q.withDeleted then [] else [SoftDelete(e.Table())])
  {
    var e := FindEntity(t).value;
    TwoEqualities(e, n1, v1, n2, v2);
    WhereAppended(t, q, pre, [Pair(n1, Single(Text(v1))), Pair(n2, Single(Text(v2)))],
                  [Equals(e.Table(), n1, v1), Equals(e.Table(), n2, v2)]);
  }

  lemma {:induction false} TwoEqualities(e: Entity, n1: string, v1: string, n2: string, v2: string)
    requires PlainColumn(e, n1) && PlainColumn(e, n2)
    ensures CompileWhere(MainCtx(e), [Pair(n1, Single(Text(v1))), Pair(n2, Single(Text(v2)))])
            == Ok([Equals(e.Table(), n1, v1), Equals(e.Table(), n2, v2)])
  {
    var a := Pair(n1, Single(Text(v1)));
    var b := Pair(n2, Single(Text(v2)));
    KeyEquality(e, n1, v1);
    KeyEquality(e, n2, v2);
    assert [a, b] == [a] + [b];
    CompileWhereAppend(MainCtx(e), [a], [b]);
    assert [Equals(e.Table(), n1, v1)] + [Equals(e.Table(), n2, v2)] == [Equals(e.Table(), n1, v1), Equals(e.Table(), n2, v2)];
  }

  /** selectById: the caller's conjuncts, then `table.id = '<id>'`, then the soft-delete conjunct. */
  lemma {:induction false} SelectByIdFilter(t: string, id: string, p: Params)
    requires Plan(t, ByIdParams(id, p)).Ok?
    ensures var e := FindEntity(t).value;
            CompileWhere(MainCtx(e), p.whereClause).Ok?
            && Plan(t, ByIdParams(id, p)).value.where
               == CompileWhere(MainCtx(e), p.whereClause).value + [Equals(e.Table(), "id", id)]
                  + (if p.withDeleted then [] else [SoftDelete(e.Table())])
  {
    IdIsPlainColumn(FindEntity(t).value);
    FilterAppended(t, ByIdParams(id, p), p.whereClause, "id", id);
  }

  /**
   * A belongs-to relation selects the foreign record whose id is the owner's key
   * value, at most one row from the first.
   */
  lemma {:induction false} BelongsToRelated(e: Entity, rel: Relation, rec: Record, p: Params)
    requires rel.kind.BelongsTo? && RelatedOf(e, rel, rec, p).Ok?
    ensures rel.kind.key in rec.current && rec.current[rel.kind.key].Str?
            && RelatedOf(e, rel, rec, p).value.1
               == ByIdParams(rec.current[rel.kind.key].s, p.(offset := Some(0), limit := Some(1)))
  {
  }

  lemma {:induction false} BelongsToRelatedLimitsOne(e: Entity, rel: Relation, rec: Record, p: Params)
    requires rel.kind.BelongsTo? && RelatedOf(e, rel, rec, p).Ok?
    requires Plan(rel.foreignEntity, RelatedOf(e, rel, rec, p).value.1).Ok?
    ensures var s := Plan(rel.foreignEntity, RelatedOf(e, rel, rec, p).value.1).value;
            var f := FindEntity(rel.foreignEntity).value;
            s.limit == Some((0, 1))
            && CompileWhere(MainCtx(f), p.whereClause).Ok?
            && s.where == CompileWhere(MainCtx(f), p.whereClause).value + [Equals(f.Table(), "id", rec.current[rel.kind.key].s)]
                          + (if p.withDeleted then [] else [SoftDelete(f.Table())])
  {
    BelongsToRelated(e, rel, rec, p);
    SelectByIdFilter(rel.foreignEntity, rec.current[rel.kind.key].s, p.(offset := Some(0), limit := Some(1)));
  }

  /** A has-many relation selects the foreign rows whose key holds the owner's id. */
  lemma {:induction false} HasManyRelated(e: Entity, rel: Relation, rec: Record, p: Params)
    requires rel.kind.HasMany? && RelatedOf(e, rel, rec, p).Ok?
    requires Plan(rel.foreignEntity, RelatedOf(e, rel, rec, p).value.1).Ok?
    requires PlainColumn(FindEntity(rel.foreignEntity).value, rel.kind.foreignKey)
    ensures var f := FindEntity(rel.foreignEntity).value;
            IdOf(rec).Ok?
            && CompileWhere(MainCtx(f), p.whereClause).Ok?
            && Plan(rel.foreignEntity, RelatedOf(e, rel, rec, p).value.1).value.where
               == CompileWhere(MainCtx(f), p.whereClause).value + [Equals(f.Table(), rel.kind.foreignKey, IdOf(rec).value)]
                  + (if p.withDeleted then [] else [SoftDelete(f.Table())])
  {
    FilterAppended(rel.foreignEntity, RelatedOf(e, rel, rec, p).value.1, p.whereClause, rel.kind.foreignKey, IdOf(rec).value);
  }

  /**
   * A has-children relation selects the foreign rows whose parent id is the owner's id
   * and whose parent type is the owner's entity type.
   */
  lemma {:induction false} HasChildrenRelated(e: Entity, rel: Relation, rec: Record, p: Params)
    requires rel.kind.HasChildren? && RelatedOf(e, rel, rec, p).Ok?
    requires Plan(rel.foreignEntity, RelatedOf(e, rel, rec, p).value.1).Ok?
    requires PlainColumn(FindEntity(rel.foreignEntity).value, rel.kind.foreignKey)
    requires PlainColumn(FindEntity(rel.foreignEntity).value, rel.kind.foreignType)
    ensures var f := FindEntity(rel.foreignEntity).value;
            IdOf(rec).Ok?
            && CompileWhere(MainCtx(f), p.whereClause).Ok?
            && Plan(rel.foreignEntity, RelatedOf(e, rel, rec, p).value.1).value.where
               == CompileWhere(MainCtx(f), p.whereClause).value
                  + [Equals(f.Table(), rel.kind.foreignKey, IdOf(rec).value), Equals(f.Table(), rel.kind.foreignType, e.name)]
                  + (if p.withDeleted then [] else [SoftDelete(f.Table())])
  {
    FiltersAppended(rel.foreignEntity, RelatedOf(e, rel, rec, p).value.1, p.whereClause,
                    rel.kind.foreignKey, IdOf(rec).value, rel.kind.foreignType, e.name);
  }

  /**
   * A many-to-many relation leaves the caller's filters alone and joins the junction
   * table first, ahead of the caller's own custom joins.
   */
  lemma {:induction false} ManyManyRelated(e: Entity, rel: Relation, rec: Record, p: Params)
    requires rel.kind.ManyMany? && RelatedOf(e, rel, rec, p).Ok?
    ensures IdOf(rec).Ok?
            && RelatedOf(e, rel, rec, p).value.1.whereClause == p.whereClause
            && RelatedOf(e, rel, rec, p).value.1.customJoins
               == [JunctionJoin(rel.foreignEntity, rel.kind.junction, rel.kind.key, rel.kind.foreignKey,
                                rel.kind.conditions, IdOf(rec).value)] + p.customJoins
  {
  }

  /**
   * An aggregate over a select keeps its filters, custom joins and limit, and reads
   * one column `FN(operand) AS AggregateValue` (max and countRelated).
   */
  lemma {:induction false} AggregateKeepsSelect(t: string, p: Params, fn: string, attribute: string)
    requires Plan(t, p).Ok? && Plan(t, p.(aggregate := Some(Aggregate(fn, attribute)))).Ok?
    ensures var e := FindEntity(t).value;
            var a := Plan(t, p.(aggregate := Some(Aggregate(fn, attribute)))).value;
            Operand(MainCtx(e), attribute).Ok?
            && a.columns == [fn + "(" + Operand(MainCtx(e), attribute).value + ") AS AggregateValue"]
            && a.where == Plan(t, p).value.where
            && a.customJoins == Plan(t, p).value.customJoins
            && a.limit == Plan(t, p).value.limit
  {
  }

  /** COUNT of the id reads `COUNT(table.id)`. */
  lemma {:induction false} CountColumn(t: string, p: Params)
    requires Plan(t, CountParams(p)).Ok?
    ensures Plan(t, CountParams(p)).value.columns == ["COUNT(" + Qualified(ToDb(t), "id") + ") AS AggregateValue"]
  {
    var e := FindEntity(t).value;
    EveryEntityHasId(e);
    CountIdColumn(e, p);
  }

  lemma {:induction false} CountIdColumn(e: Entity, p: Params)
    requires e.FindAttribute("id") == Some(Col("id"))
    ensures Columns(MainCtx(e), CountParams(p)) == Ok(["COUNT(" + Qualified(e.Table(), "id") + ") AS AggregateValue"])
  {
    ColumnOperand(e, "id");
    var o := Qualified(e.Table(), "id");
    assert "COUNT" + "(" + o + ") AS AggregateValue" == "COUNT(" + o + ") AS AggregateValue";
    var r := Columns(MainCtx(e), CountParams(p));
    assert r.Ok? && |r.value| == 1 && r.value[0] == "COUNT(" + o + ") AS AggregateValue";
  }

  /** countRelated counts the related records' ids under the same junction join and filters as selectRelated. */
  lemma {:induction false} CountRelatedSharesSelect(t: string, q: Params)
    requires Plan(t, q).Ok? && Plan(t, CountParams(q)).Ok?
    ensures var c := Plan(t, CountParams(q)).value;
            var s := Plan(t, q).value;
            c.columns == ["COUNT(" + Qualified(ToDb(t), "id") + ") AS AggregateValue"]
            && c.where == s.where && c.customJoins == s.customJoins && c.limit == s.limit
  {
    AggregateKeepsSelect(t, q, "COUNT", "id");
    CountColumn(t, q);
  }

  /**
   * massRelate inserts one junction row per foreign record the params select: each
   * row is the owner's id as a literal, then the foreign record's id.
   */
  lemma {:induction false} MassRelateRowSource(rel: Relation, id: string, p: Params)
    requires MassRelateOf(rel, id, p).Ok? && p.aggregate.None?
    ensures var rows := p.(select := Some([Item("id")]));
            Plan(rel.foreignEntity, rows).Ok?
            && MassRelateOf(rel, id, p).value
               == "INSERT INTO `" + ToDb(rel.kind.junction) + "` (" + ToDb(rel.kind.key) + ", "
                  + ToDb(rel.kind.foreignKey) + ") ("
                  + Render(Plan(rel.foreignEntity, rows).value.(columns := [ColumnAs(Quote(id), id),
                                                                           ColumnAs(Qualified(ToDb(rel.foreignEntity), "id"), "id")]))
                  + ") ON DUPLICATE KEY UPDATE deleted = '0'"
  {
    var rows := p.(select := Some([Item("id")]));
    var s := Plan(rel.foreignEntity, rows).value;
    IdSelectColumn(rel.foreignEntity, rows);
    assert [ColumnAs(Quote(id), id)] + s.columns
           == [ColumnAs(Quote(id), id), ColumnAs(Qualified(ToDb(rel.foreignEntity), "id"), "id")];
  }

  lemma {:induction false} IdSelectColumn(t: string, rows: Params)
    requires Plan(t, rows).Ok? && rows.aggregate.None? && rows.select == Some([Item("id")])
    ensures Plan(t, rows).value.columns == [ColumnAs(Qualified(ToDb(t), "id"), "id")]
  {
    var e := FindEntity(t).value;
    EveryEntityHasId(e);
    IdColumn(e, rows);
  }

  /** No two attributes of the list share a name. */
  predicate NamesUnique(attrs: seq<Attribute>)
  {
    forall i, j :: 0 <= i < j < |attrs| ==> attrs[i].name != attrs[j].name
  }

  /** An insert writes an attribute exactly when it is storable and set (privateField is never written). */
  lemma {:induction false} InsertWritesStoredSet(attrs: seq<Attribute>, values: map<string, Data>, a: Attribute)
    requires NamesUnique(attrs) && a in attrs
    ensures a.name in StoredNames(attrs, values) <==> IsStorable(a) && a.name in values
  {
    if a.name in StoredNames(attrs, values) {
      var b :| b in attrs && IsStorable(b) && b.name == a.name && a.name in values;
      var i :| 0 <= i < |attrs| && attrs[i] == a;
      var j :| 0 <= j < |attrs| && attrs[j] == b;
      assert i == j;
    }
  }
}
