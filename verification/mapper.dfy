/**
 * The statement builder of the ORM mapper: the SELECT, INSERT and UPDATE texts the
 * mapper sends for an entity, its relations and its aggregates. Every select goes
 * through the select-query compiler; the mapper only chooses the parameters (an id
 * filter, a relation's key filter or junction join, an aggregate) and writes the
 * data-changing statements itself. Execution and hydration of rows are not modelled.
 */
module Mapper {
  import opened Outcomes
  import opened Strings
  import opened Schema
  import opened SqlFunctions
  import opened SelectQuery
  import opened SelectQueryProps

  /** A value held by an attribute: a text, a list (stored JSON-encoded) or null. */
  datatype Data = Str(s: string) | Arr(items: seq<string>) | Nil

  /** An entity as the mapper sees it: its type, the values last fetched and the values now set. */
  datatype Record = Record(entityType: string, fetched: map<string, Data>, current: map<string, Data>)

  /** The record's id, which every statement about an existing record needs. */
  function IdOf(rec: Record): (r: Result<string>)
    ensures r.Ok? <==> "id" in rec.current && rec.current["id"].Str?
    ensures r.Ok? ==> rec.current["id"] == Str(r.value)
  {
    if "id" in rec.current && rec.current["id"].Str? then Ok(rec.current["id"].s) else Fail(MissingId)
  }

  // ---------------------------------------------------------------------------
  // JSON lists

  function JsonString(s: string): string
  {
    "\"" + s + "\""
  }

  function JsonStrings(items: seq<string>): (r: seq<string>)
    ensures |r| == |items| && forall i :: 0 <= i < |items| ==> r[i] == JsonString(items[i])
  {
    if items == [] then [] else [JsonString(items[0])] + JsonStrings(items[1..])
  }

  /** A list of strings JSON-encoded in json_encode's layout: quoted, comma-separated, in brackets; no character is escaped. */
  function JsonList(items: seq<string>): (r: string)
    ensures |r| >= 2 && r[0] == '[' && r[|r| - 1] == ']'
  {
    "[" + Join(JsonStrings(items), ",") + "]"
  }

  function Unquote(pieces: seq<string>): (r: Option<seq<string>>)
    ensures r.Some? ==> |r.value| == |pieces|
  {
    if pieces == [] then Some([])
    else
      var p := pieces[0];
      if |p| < 2 || p[0] != '"' || p[|p| - 1] != '"' then None
      else
        match Unquote(pieces[1..])
        case None => None
        case Some(rest) => Some([p[1..|p| - 1]] + rest)
  }

  /** Reads back a JSON list of strings none of which contains a comma. */
  function ParseJsonList(t: string): (r: Option<seq<string>>)
  {
    if |t| < 2 || t[0] != '[' || t[|t| - 1] != ']' then None
    else
      var inner := t[1..|t| - 1];
      if inner == "" then Some([]) else Unquote(SplitOn(inner, ','))
  }

  lemma {:induction false} UnquoteJsonStrings(items: seq<string>)
    ensures Unquote(JsonStrings(items)) == Some(items)
  {
    if items != [] {
      var j := JsonStrings(items);
      var p := j[0];
      assert p == "\"" + items[0] + "\"";
      assert |p| >= 2 && p[0] == '"' && p[|p| - 1] == '"';
      assert p[1..|p| - 1] == items[0];
      assert j[1..] == JsonStrings(items[1..]);
      UnquoteJsonStrings(items[1..]);
      assert [items[0]] + items[1..] == items;
    }
  }

  /** Stored lists read back unchanged, in order, when no element contains a comma. */
  lemma {:induction false} JsonListRoundTrip(items: seq<string>)
    requires forall i :: 0 <= i < |items| ==> ',' !in items[i]
    ensures ParseJsonList(JsonList(items)) == Some(items)
  {
    var t := JsonList(items);
    var j := JsonStrings(items);
    assert t[1..|t| - 1] == Join(j, ",");
    UnquoteJsonStrings(items);
    if items != [] {
      forall i | 0 <= i < |j|
        ensures ',' !in j[i]
      {
        assert j[i] == "\"" + items[i] + "\"";
      }
      SplitJoin(j, ',');
      assert Join(j, ",") != "" by {
        assert |Join(j, ",")| >= |j[0]| by { JoinHead(j, ","); }
      }
    }
  }

  lemma JoinHead(parts: seq<string>, sep: string)
    requires parts != []
    ensures |Join(parts, sep)| >= |parts[0]|
  {
  }

  /** An attribute value as written into a statement: quoted text, a quoted JSON list, or NULL. */
  function ValueSql(d: Data): string
  {
    match d
    case Str(s) => Quote(s)
    case Arr(items) => Quote(JsonList(items))
    case Nil => "NULL"
  }

  function Backticked(name: string): string
  {
    "`" + ToDb(name) + "`"
  }

  // ---------------------------------------------------------------------------
  // INSERT

  /** The attributes an insert writes: the storable ones that are set, in definition order. */
  function StoredNames(attrs: seq<Attribute>, values: map<string, Data>): (r: seq<string>)
    ensures forall x :: x in r <==> exists a :: a in attrs && IsStorable(a) && a.name == x && x in values
    ensures forall i :: 0 <= i < |r| ==> r[i] in values
  {
    if attrs == [] then []
    else
      (if IsStorable(attrs[0]) && attrs[0].name in values then [attrs[0].name] else [])
      + StoredNames(attrs[1..], values)
  }

  function ColumnList(names: seq<string>): (r: seq<string>)
    ensures |r| == |names| && forall i :: 0 <= i < |names| ==> r[i] == Backticked(names[i])
  {
    if names == [] then [] else [Backticked(names[0])] + ColumnList(names[1..])
  }

  function ValueList(names: seq<string>, values: map<string, Data>): (r: seq<string>)
    requires forall i :: 0 <= i < |names| ==> names[i] in values
    ensures |r| == |names| && forall i :: 0 <= i < |names| ==> r[i] == ValueSql(values[names[i]])
  {
    if names == [] then [] else [ValueSql(values[names[0]])] + ValueList(names[1..], values)
  }

  /** INSERT of the storable attributes that are set; attributes not stored (privateField) are dropped. */
  function Insert(rec: Record): (r: Result<string>)
    ensures r.Ok? <==> FindEntity(rec.entityType).Ok?
  {
    var e :- FindEntity(rec.entityType);
    var names := StoredNames(e.attributes, rec.current);
    Ok("INSERT INTO `" + e.Table() + "` (" + Join(ColumnList(names), ", ") + ") VALUES ("
       + Join(ValueList(names, rec.current), ", ") + ")")
  }

  // ---------------------------------------------------------------------------
  // UPDATE

  /** An attribute to write on update: set, other than the id, and different from what was fetched. */
  predicate Changed(x: string, fetched: map<string, Data>, current: map<string, Data>)
  {
    x != "id" && x in current && (x !in fetched || fetched[x] != current[x])
  }

  function ChangedNames(attrs: seq<Attribute>, fetched: map<string, Data>, current: map<string, Data>): (r: seq<string>)
    ensures forall x :: x in r <==> exists a :: a in attrs && IsStorable(a) && a.name == x && Changed(x, fetched, current)
    ensures forall i :: 0 <= i < |r| ==> r[i] in current
  {
    if attrs == [] then []
    else
      (if IsStorable(attrs[0]) && Changed(attrs[0].name, fetched, current) then [attrs[0].name] else [])
      + ChangedNames(attrs[1..], fetched, current)
  }

  /** `column = value` for each column and its value. */
  function Assignments(columns: seq<string>, values: seq<string>): (r: seq<string>)
    requires |columns| == |values|
    ensures |r| == |columns| && forall i :: 0 <= i < |columns| ==> r[i] == columns[i] + " = " + values[i]
  {
    if columns == [] then [] else [columns[0] + " = " + values[0]] + Assignments(columns[1..], values[1..])
  }

  /**
   * UPDATE of the changed attributes of an existing record, by id and not deleted; no
   * statement when nothing changed.
   */
  function Update(rec: Record): (r: Result<Option<string>>)
    ensures r.Ok? <==> FindEntity(rec.entityType).Ok? && IdOf(rec).Ok?
  {
    var e :- FindEntity(rec.entityType);
    var id :- IdOf(rec);
    var names := ChangedNames(e.attributes, rec.fetched, rec.current);
    if names == [] then Ok(None)
    else
      Ok(Some("UPDATE `" + e.Table() + "` SET " + Join(Assignments(ColumnList(names), ValueList(names, rec.current)), ", ")
              + " WHERE " + Qualified(e.Table(), "id") + " = " + Quote(id) + " AND " + SoftDelete(e.Table())))
  }

  /** Right after a fetch (or a save) nothing has changed, so no UPDATE is sent. */
  lemma {:induction false} UpdateAfterFetchIsEmpty(rec: Record)
    requires rec.fetched == rec.current
    ensures Update(rec).Ok? ==> Update(rec).value.None?
  {
    if FindEntity(rec.entityType).Ok? {
      NothingChanged(FindEntity(rec.entityType).value.attributes, rec.current);
    }
  }

  lemma {:induction false} NothingChanged(attrs: seq<Attribute>, values: map<string, Data>)
    ensures ChangedNames(attrs, values, values) == []
  {
    if attrs != [] {
      NothingChanged(attrs[1..], values);
    }
  }

  /** A set attribute other than the id that differs from the fetched value is written, lists compared in order. */
  lemma {:induction false} UpdateWritesChanged(rec: Record, a: Attribute)
    requires FindEntity(rec.entityType).Ok? && IdOf(rec).Ok?
    requires a in FindEntity(rec.entityType).value.attributes && IsStorable(a)
    requires Changed(a.name, rec.fetched, rec.current)
    ensures Update(rec).Ok? && Update(rec).value.Some?
  {
    var e := FindEntity(rec.entityType).value;
    assert a.name in ChangedNames(e.attributes, rec.fetched, rec.current);
  }

  // ---------------------------------------------------------------------------
  // Selects

  function IdFilter(id: string): Entry
  {
    Pair("id", Single(Text(id)))
  }

  /** selectById: the caller's filter with `id = <id>` appended. */
  function ByIdParams(id: string, p: Params): Params
  {
    p.(whereClause := p.whereClause + [IdFilter(id)])
  }

  function SelectById(entityType: string, id: string, p: Params): (r: Result<string>)
    ensures r.Ok? <==> Plan(entityType, ByIdParams(id, p)).Ok?
  {
    CompileSelect(entityType, ByIdParams(id, p))
  }

  /** max: the select with its columns replaced by MAX of the attribute. */
  function Max(entityType: string, p: Params, attribute: string): (r: Result<string>)
    ensures r.Ok? <==> Plan(entityType, p.(aggregate := Some(Aggregate("MAX", attribute)))).Ok?
  {
    CompileSelect(entityType, p.(aggregate := Some(Aggregate("MAX", attribute))))
  }

  /** The junction join that restricts a many-to-many select to one owner's rows. */
  function JunctionJoin(foreignEntity: string, junction: string, key: string, foreignKey: string,
                        conds: seq<Condition>, ownerId: string): string
  {
    var j := ToDb(junction);
    "JOIN `" + j + "` ON " + Qualified(ToDb(foreignEntity), "id") + " = " + Qualified(j, foreignKey)
    + " AND " + Qualified(j, key) + " = " + Quote(ownerId) + " AND " + SoftDelete(j)
    + Extra(ConditionsSql(j, conds))
  }

  /** The entity type and select parameters of a relation's related records. */
  function RelatedQuery(rec: Record, relation: string, p: Params): (r: Result<(string, Params)>)
    ensures r.Ok? ==> FindEntity(rec.entityType).Ok?
                      && FindEntity(rec.entityType).value.FindRelation(relation).Some?
                      && r == RelatedOf(FindEntity(rec.entityType).value,
                                        FindEntity(rec.entityType).value.FindRelation(relation).value, rec, p)
  {
    var e :- FindEntity(rec.entityType);
    match e.FindRelation(relation)
    case None => Fail(UnknownRelation(relation))
    case Some(rel) => RelatedOf(e, rel, rec, p)
  }

  /**
   * The related select of one relation of an owner of entity `e`: a belongs-to relation
   * selects one record by the owner's key value, a has-many or has-children relation
   * filters by the owner's id (and type), a many-to-many relation joins the junction.
   */
  function RelatedOf(e: Entity, rel: Relation, rec: Record, p: Params): (r: Result<(string, Params)>)
    ensures r.Ok? ==> r.value.0 == rel.foreignEntity
  {
    match rel.kind
    case BelongsTo(key) =>
      if key in rec.current && rec.current[key].Str? then
        Ok((rel.foreignEntity, p.(whereClause := p.whereClause + [IdFilter(rec.current[key].s)],
                                  offset := Some(0), limit := Some(1))))
      else Fail(MissingId)
    case HasMany(foreignKey) =>
      var id :- IdOf(rec);
      Ok((rel.foreignEntity, p.(whereClause := p.whereClause + [Pair(foreignKey, Single(Text(id)))])))
    case HasChildren(foreignKey, foreignType) =>
      var id :- IdOf(rec);
      Ok((rel.foreignEntity, p.(whereClause := p.whereClause + [Pair(foreignKey, Single(Text(id))),
                                                               Pair(foreignType, Single(Text(e.name)))])))
    case ManyMany(junction, key, foreignKey, conds) =>
      var id :- IdOf(rec);
      Ok((rel.foreignEntity,
          p.(customJoins := [JunctionJoin(rel.foreignEntity, junction, key, foreignKey, conds, id)] + p.customJoins)))
  }

  function SelectRelated(rec: Record, relation: string, p: Params): (r: Result<string>)
    ensures r.Ok? <==> RelatedQuery(rec, relation, p).Ok?
                       && Plan(RelatedQuery(rec, relation, p).value.0, RelatedQuery(rec, relation, p).value.1).Ok?
  {
    var q :- RelatedQuery(rec, relation, p);
    CompileSelect(q.0, q.1)
  }

  function CountParams(p: Params): Params
  {
    p.(aggregate := Some(Aggregate("COUNT", "id")))
  }

  /** countRelated: the related select with its columns replaced by COUNT of the id. */
  function CountRelated(rec: Record, relation: string, p: Params): (r: Result<string>)
    ensures r.Ok? <==> RelatedQuery(rec, relation, p).Ok?
                       && Plan(RelatedQuery(rec, relation, p).value.0, CountParams(RelatedQuery(rec, relation, p).value.1)).Ok?
  {
    var q :- RelatedQuery(rec, relation, p);
    CompileSelect(q.0, CountParams(q.1))
  }

  // ---------------------------------------------------------------------------
  // Relation removal

  function ConditionEquals(cs: seq<Condition>): (r: seq<string>)
    ensures |r| == |cs| && forall i :: 0 <= i < |cs| ==> r[i] == ToDb(cs[i].attribute) + " = " + Quote(cs[i].value)
  {
    if cs == [] then [] else [ToDb(cs[0].attribute) + " = " + Quote(cs[0].value)] + ConditionEquals(cs[1..])
  }

  /** The removal statement for one relation of an owner with the given id. */
  function RemovalSql(rel: Relation, id: string, foreignId: Option<string>): (r: Result<string>)
  {
    match rel.kind
    case HasMany(foreignKey) =>
      var t := ToDb(rel.foreignEntity);
      Ok("UPDATE `" + t + "` SET " + ToDb(foreignKey) + " = NULL WHERE " + SoftDelete(t) + " AND "
         + (match foreignId
            case Some(f) => Qualified(t, "id") + " = " + Quote(f)
            case None => Qualified(t, foreignKey) + " = " + Quote(id)))
    case ManyMany(junction, key, foreignKey, conds) =>
      Ok("UPDATE `" + ToDb(junction) + "` SET deleted = 1 WHERE "
         + Join(JunctionConjuncts(key, foreignKey, conds, id, foreignId), " AND "))
    case _ => Fail(NotSupported("removeRelation " + rel.name))
  }

  /** The junction rows to mark deleted: the owner's, with the foreign record's, under the relation's conditions. */
  function JunctionConjuncts(key: string, foreignKey: string, conds: seq<Condition>, id: string,
                             foreignId: Option<string>): (r: seq<string>)
    ensures |r| == 1 + (if foreignId.Some? then 1 else 0) + |conds|
    ensures r[0] == ToDb(key) + " = " + Quote(id)
    ensures foreignId.Some? ==> r[1] == ToDb(foreignKey) + " = " + Quote(foreignId.value)
    ensures r[|r| - |conds|..] == ConditionEquals(conds)
  {
    [ToDb(key) + " = " + Quote(id)]
    + (match foreignId
       case Some(f) => [ToDb(foreignKey) + " = " + Quote(f)]
       case None => [])
    + ConditionEquals(conds)
  }

  /**
   * removeRelation (a foreign id given) and removeAllRelations (none given): a has-many
   * relation clears the foreign key of the foreign rows; a many-to-many relation marks
   * the owner's junction rows deleted, narrowed by the foreign id and the relation's
   * conditions.
   */
  function RemoveRelation(rec: Record, relation: string, foreignId: Option<string>): (r: Result<string>)
    ensures r.Ok? ==> IdOf(rec).Ok? && FindEntity(rec.entityType).Ok?
                      && FindEntity(rec.entityType).value.FindRelation(relation).Some?
                      && r == RemovalSql(FindEntity(rec.entityType).value.FindRelation(relation).value, IdOf(rec).value, foreignId)
  {
    var e :- FindEntity(rec.entityType);
    match e.FindRelation(relation)
    case None => Fail(UnknownRelation(relation))
    case Some(rel) =>
      var id :- IdOf(rec);
      RemovalSql(rel, id, foreignId)
  }

  /** unrelate: removeRelation by the foreign record's id. */
  function Unrelate(rec: Record, relation: string, foreign: Record): (r: Result<string>)
    ensures IdOf(foreign).Ok? ==> r == RemoveRelation(rec, relation, Some(IdOf(foreign).value))
  {
    var f :- IdOf(foreign);
    RemoveRelation(rec, relation, Some(f))
  }

  /**
   * Removing one many-to-many link marks deleted the rows that removing them all would,
   * narrowed by exactly one conjunct on the foreign key, right after the owner conjunct.
   */
  lemma {:induction false} RemoveOneNarrowsRemoveAll(key: string, foreignKey: string, conds: seq<Condition>, id: string, f: string)
    ensures var all := JunctionConjuncts(key, foreignKey, conds, id, None);
            JunctionConjuncts(key, foreignKey, conds, id, Some(f))
            == all[..1] + [ToDb(foreignKey) + " = " + Quote(f)] + all[1..]
  {
    var all := JunctionConjuncts(key, foreignKey, conds, id, None);
    assert all[1..] == ConditionEquals(conds);
  }

  /** Removing one has-many link and removing them all differ only in the last conjunct. */
  lemma {:induction false} HasManyRemovalClearsKey(rel: Relation, id: string, f: string)
    requires rel.kind.HasMany?
    ensures var t := ToDb(rel.foreignEntity);
            var head := "UPDATE `" + t + "` SET " + ToDb(rel.kind.foreignKey) + " = NULL WHERE " + SoftDelete(t) + " AND ";
            RemovalSql(rel, id, Some(f)) == Ok(head + (Qualified(t, "id") + " = " + Quote(f)))
            && RemovalSql(rel, id, None) == Ok(head + (Qualified(t, rel.kind.foreignKey) + " = " + Quote(id)))
  {
  }

  // ---------------------------------------------------------------------------
  // massRelate

  /**
   * massRelate: inserts a junction row for every foreign record the params select, as
   * `INSERT … (SELECT '<owner id>', foreign.id …) ON DUPLICATE KEY UPDATE deleted = '0'`.
   */
  function MassRelate(rec: Record, relation: string, p: Params): (r: Result<string>)
    ensures r.Ok? ==> IdOf(rec).Ok? && FindEntity(rec.entityType).Ok?
                      && FindEntity(rec.entityType).value.FindRelation(relation).Some?
                      && r == MassRelateOf(FindEntity(rec.entityType).value.FindRelation(relation).value, IdOf(rec).value, p)
  {
    var e :- FindEntity(rec.entityType);
    match e.FindRelation(relation)
    case None => Fail(UnknownRelation(relation))
    case Some(rel) =>
      var id :- IdOf(rec);
      MassRelateOf(rel, id, p)
  }

  /** The massRelate statement of one relation for the owner id `id`; only plain many-to-many relations. */
  function MassRelateOf(rel: Relation, id: string, p: Params): (r: Result<string>)
    ensures r.Ok? ==> rel.kind.ManyMany? && rel.kind.conditions == []
  {
    match rel.kind
    case ManyMany(junction, key, foreignKey, conds) =>
      if conds != [] then Fail(NotSupported("massRelate " + rel.name))
      else
        var s :- Plan(rel.foreignEntity, p.(select := Some([Item("id")])));
        Ok("INSERT INTO `" + ToDb(junction) + "` (" + ToDb(key) + ", " + ToDb(foreignKey) + ") ("
           + Render(s.(columns := [ColumnAs(Quote(id), id)] + s.columns))
           + ") ON DUPLICATE KEY UPDATE deleted = '0'")
    case _ => Fail(NotSupported("massRelate " + rel.name))
  }
}
