/**
 * The ORM's select-query compiler: a select-params record over an entity type
 * becomes one MySQL SELECT statement. The statement is first planned as a record of
 * clauses (columns, joins, WHERE conjuncts, GROUP BY, HAVING, ORDER BY, LIMIT) and then
 * rendered; the properties in SelectQueryProps are stated over the plan.
 */
module SelectQuery {
  import opened Outcomes
  import opened Strings
  import opened Schema
  import opened Expression
  import opened SqlFunctions

  // ---------------------------------------------------------------------------
  // Select parameters

  /** A filter value: NULL, a text, or an integer (the quoting turns numbers into text). */
  datatype Scalar = Null | Text(text: string) | Number(n: int)

  datatype Value =
    | Single(scalar: Scalar)
    | List(items: seq<Scalar>)
    /** A nested select over another entity type, for the `=s` / `!=s` suffixes. */
    | Subquery(entityType: string, params: Params)

  /** One entry of a filter: a keyed comparison, an OR / AND / NOT group, or a bare MATCH. */
  datatype Entry =
    | Pair(key: string, value: Value)
    | AnyOf(entries: seq<Entry>)
    | AllOf(entries: seq<Entry>)
    | NoneOf(entries: seq<Entry>)
    | Bare(text: string)

  datatype Direction = Asc | Desc

  datatype OrderTarget = Position(n: nat) | Field(text: string)

  datatype OrderItem = OrderItem(target: OrderTarget, direction: Option<Direction>)

  datatype Ordering =
    | Unordered
    /** One target; its direction is the separate `order` parameter. */
    | OrderByOne(target: OrderTarget)
    | OrderByList(items: seq<OrderItem>)

  /** A selected expression, output under its own text or under an explicit alias. */
  datatype SelectItem = Item(expr: string) | Aliased(expr: string, alias: string)

  /** A join request: relation (or table) name, alias, extra ON conditions, onlyMiddle. */
  datatype JoinItem = JoinItem(target: string, alias: Option<string>, conditions: seq<Entry>, onlyMiddle: bool)

  /** A single aggregate column `FN(attribute) AS AggregateValue` replacing the column list. */
  datatype Aggregate = Aggregate(fn: string, attribute: string)

  datatype Params = Params(
    select: Option<seq<SelectItem>>,
    whereClause: seq<Entry>,
    joins: seq<JoinItem>,
    leftJoins: seq<JoinItem>,
    customJoins: seq<string>,
    groupBy: seq<string>,
    havingClause: seq<Entry>,
    orderBy: Ordering,
    order: Option<Direction>,
    offset: Option<nat>,
    limit: Option<nat>,
    withDeleted: bool,
    skipTextColumns: bool,
    aggregate: Option<Aggregate>)

  const NoParams := Params(None, [], [], [], [], [], [], Unordered, None, None, None, false, false, None)

  // ---------------------------------------------------------------------------
  // Filter keys

  datatype Op = Eq | NotEq | Like | NotLike | Gt | Lt | Ge | Le | InSubquery | NotInSubquery

  function OpSql(op: Op): string
  {
    match op
    case Eq => "="
    case NotEq => "<>"
    case Like => "LIKE"
    case NotLike => "NOT LIKE"
    case Gt => ">"
    case Lt => "<"
    case Ge => ">="
    case Le => "<="
    case InSubquery => "IN"
    case NotInSubquery => "NOT IN"
  }

  /** The suffix that selects an operator in a filter key. */
  function OpSuffix(op: Op): string
  {
    match op
    case Eq => "="
    case NotEq => "!="
    case Like => "*"
    case NotLike => "!*"
    case Gt => ">"
    case Lt => "<"
    case Ge => ">="
    case Le => "<="
    case InSubquery => "=s"
    case NotInSubquery => "!=s"
  }

  /** Suffixes in the order they are tried: longer ones before their own endings. */
  const SuffixOrder: seq<Op> := [NotInSubquery, InSubquery, NotEq, NotLike, Like, Ge, Le, Gt, Lt, Eq]

  /** A parsed key: the left-hand side, the operator, and whether the value is raw SQL (`:`). */
  datatype Key = Key(lhs: string, op: Op, raw: bool)

  function SplitOperatorFrom(body: string, ops: seq<Op>): (r: (string, Op))
  {
    if ops == [] then (body, Eq)
    else if EndsWith(body, OpSuffix(ops[0])) then (body[..|body| - |OpSuffix(ops[0])|], ops[0])
    else SplitOperatorFrom(body, ops[1..])
  }

  /**
   * A plain alphanumeric key is an attribute compared with `=`; any other key may end
   * with `:` (raw right-hand side) preceded by an operator suffix.
   */
  function ParseKey(key: string): (k: Key)
  {
    if AllAlnum(key) then Key(key, Eq, false)
    else
      var raw := EndsWith(key, ":");
      var body := if raw then key[..|key| - 1] else key;
      var (lhs, op) := SplitOperatorFrom(body, SuffixOrder);
      Key(Trim(lhs), op, raw)
  }

  // ---------------------------------------------------------------------------
  // Operands and values

  /**
   * A left-hand side, select item, group-by or order-by text: a complex expression when
   * it contains `:`, `alias.attribute` when dotted, otherwise an attribute of the entity.
   */
  function Operand(ctx: Ctx, text: string): (r: Result<string>)
    ensures ':' !in text && '.' in text ==> r == Ok(AttributeRef(ctx, text))
    ensures ':' !in text && ctx.lookup && ctx.entity.FindAttribute(text).None? && '.' !in text ==>
              r == Fail(UnknownAttribute(text))
  {
    if ':' in text then LowerText(ctx, text)
    else if '.' in text || !ctx.lookup then Ok(AttributeRef(ctx, text))
    else if ctx.entity.FindAttribute(text).None? then Fail(UnknownAttribute(text))
    else Ok(AttributeRef(ctx, text))
  }

  function Operands(ctx: Ctx, texts: seq<string>): (r: Result<seq<string>>)
    ensures r.Ok? ==> |r.value| == |texts|
  {
    if texts == [] then Ok([])
    else
      var head :- Operand(ctx, texts[0]);
      var tail :- Operands(ctx, texts[1..]);
      Ok([head] + tail)
  }

  function ScalarSql(x: Scalar): string
  {
    match x
    case Null => "NULL"
    case Text(t) => Quote(t)
    case Number(n) => Quote(IntToString(n))
  }

  function ScalarsSql(xs: seq<Scalar>): (r: seq<string>)
    ensures |r| == |xs| && forall i :: 0 <= i < |xs| ==> r[i] == ScalarSql(xs[i])
  {
    if xs == [] then [] else [ScalarSql(xs[0])] + ScalarsSql(xs[1..])
  }

  /** The first and last name attributes when `text` names a full-name attribute. */
  function PersonNameOf(ctx: Ctx, text: string): (r: Option<(string, string)>)
    ensures r.Some? ==> ctx.entity.FindAttribute(text) == Some(Attribute(text, PersonName(r.value.0, r.value.1)))
  {
    if ':' in text || '.' in text || !ctx.lookup then None
    else
      match ctx.entity.FindAttribute(text)
      case Some(Attribute(_, PersonName(f, l))) => Some((f, l))
      case _ => None
  }

  /** LIKE on a full name matches the first name, the last name, or both joined by a space. */
  function PersonNameLike(alias: string, first: string, last: string, v: string): string
  {
    var f := Qualified(alias, first);
    var l := Qualified(alias, last);
    "(" + f + " LIKE " + v + " OR " + l + " LIKE " + v + " OR CONCAT(" + f + ", ' ', " + l + ") LIKE " + v + ")"
  }

  /** Conjuncts joined by the operator, parenthesised when there are two or more. */
  function Group(parts: seq<string>, op: string): string
  {
    if |parts| >= 2 then "(" + Join(parts, op) + ")" else Join(parts, op)
  }

  function SoftDelete(alias: string): string
  {
    alias + ".deleted = '0'"
  }

  // ---------------------------------------------------------------------------
  // The planned statement

  /** One join as emitted: the alias it binds and its JOIN lines (two for many-to-many). */
  datatype CompiledJoin = CompiledJoin(alias: string, lines: seq<string>)

  datatype Statement = Statement(
    columns: seq<string>,
    table: string,
    joins: seq<CompiledJoin>,
    customJoins: seq<string>,
    where: seq<string>,
    groupBy: seq<string>,
    having: seq<string>,
    orderBy: seq<string>,
    limit: Option<(nat, nat)>)

  function JoinLines(js: seq<CompiledJoin>): (r: seq<string>)
  {
    if js == [] then [] else js[0].lines + JoinLines(js[1..])
  }

  /** Each line preceded by a space. */
  function Spaced(lines: seq<string>): string
  {
    if lines == [] then "" else " " + lines[0] + Spaced(lines[1..])
  }

  /** A clause keyword followed by its items, or nothing when there are none. */
  function Clause(keyword: string, items: seq<string>, sep: string): string
  {
    if items == [] then "" else keyword + Join(items, sep)
  }

  function LimitSql(limit: Option<(nat, nat)>): (r: string)
  {
    match limit
    case None => ""
    case Some((offset, count)) => " LIMIT " + NatToString(offset) + ", " + NatToString(count)
  }

  function Render(s: Statement): string
  {
    "SELECT " + Join(s.columns, ", ") + " FROM `" + s.table + "`"
    + Spaced(JoinLines(s.joins) + s.customJoins)
    + Clause(" WHERE ", s.where, " AND ")
    + Clause(" GROUP BY ", s.groupBy, ", ")
    + Clause(" HAVING ", s.having, " AND ")
    + Clause(" ORDER BY ", s.orderBy, ", ")
    + LimitSql(s.limit)
  }

  // ---------------------------------------------------------------------------
  // Columns

  /** Attributes in the default column list: storable ones, text columns unless skipped. */
  predicate Selectable(a: Attribute, skipText: bool)
  {
    !a.kind.NotStorable? && !(skipText && a.kind.TextColumn?)
  }

  function ColumnAs(sql: string, alias: string): string
  {
    sql + " AS `" + alias + "`"
  }

  function DefaultColumns(alias: string, attrs: seq<Attribute>, skipText: bool): (r: seq<string>)
  {
    if attrs == [] then []
    else
      (if Selectable(attrs[0], skipText) then [ColumnAs(AttributeSql(alias, attrs[0]), attrs[0].name)] else [])
      + DefaultColumns(alias, attrs[1..], skipText)
  }

  function DefaultNames(attrs: seq<Attribute>, skipText: bool): (r: seq<string>)
  {
    if attrs == [] then []
    else
      (if Selectable(attrs[0], skipText) then [attrs[0].name] else [])
      + DefaultNames(attrs[1..], skipText)
  }

  function ItemExpr(item: SelectItem): string
  {
    match item
    case Item(e) => e
    case Aliased(e, _) => e
  }

  function ItemAlias(item: SelectItem): string
  {
    match item
    case Item(e) => e
    case Aliased(_, a) => a
  }

  function SelectColumns(ctx: Ctx, items: seq<SelectItem>): (r: Result<seq<string>>)
    ensures r.Ok? ==> |r.value| == |items|
    ensures r.Ok? ==> forall i :: 0 <= i < |items| ==>
              Operand(ctx, ItemExpr(items[i])).Ok? && r.value[i] == ColumnAs(Operand(ctx, ItemExpr(items[i])).value, ItemAlias(items[i]))
  {
    if items == [] then Ok([])
    else
      var head :- Operand(ctx, ItemExpr(items[0]));
      var tail :- SelectColumns(ctx, items[1..]);
      Ok([ColumnAs(head, ItemAlias(items[0]))] + tail)
  }

  function Columns(ctx: Ctx, p: Params): (r: Result<seq<string>>)
  {
    match p.aggregate
    case Some(Aggregate(fn, attr)) =>
      var o :- Operand(ctx, attr);
      Ok([fn + "(" + o + ") AS AggregateValue"])
    case None =>
      match p.select
      case None => Ok(DefaultColumns(ctx.alias, ctx.entity.attributes, p.skipTextColumns))
      case Some(items) => SelectColumns(ctx, items)
  }

  /** The attribute names the column list reads: the selected texts or the default attributes. */
  function SelectedNames(e: Entity, p: Params): seq<string>
  {
    if p.aggregate.Some? then []
    else
      match p.select
      case None => DefaultNames(e.attributes, p.skipTextColumns)
      case Some(items) => seq(|items|, i requires 0 <= i < |items| => ItemExpr(items[i]))
  }

  // ---------------------------------------------------------------------------
  // Joins

  datatype JoinKind = Inner | Outer

  function KindSql(k: JoinKind): string
  {
    match k
    case Inner => "JOIN"
    case Outer => "LEFT JOIN"
  }

  /** Extra ON conditions, each appended with AND. */
  function Extra(conds: seq<string>): string
  {
    if conds == [] then "" else " AND " + conds[0] + Extra(conds[1..])
  }

  function Head(k: JoinKind, table: string, alias: string): string
  {
    KindSql(k) + " `" + table + "` AS `" + alias + "` ON "
  }

  function BelongsToJoin(k: JoinKind, main: string, foreignEntity: string, key: string, alias: string): string
  {
    Head(k, ToDb(foreignEntity), alias) + main + "." + ToDb(key) + " = " + alias + ".id"
  }

  function ConditionsSql(alias: string, cs: seq<Condition>): (r: seq<string>)
    ensures |r| == |cs|
  {
    if cs == [] then [] else [Qualified(alias, cs[0].attribute) + " = " + Quote(cs[0].value)] + ConditionsSql(alias, cs[1..])
  }

  /** The JOIN lines of a relation of the entity aliased `main`. */
  function RelationJoin(k: JoinKind, owner: Entity, main: string, r: Relation, alias: string, onlyMiddle: bool, conds: seq<string>): (lines: seq<string>)
    ensures |lines| >= 1
  {
    match r.kind
    case BelongsTo(key) => [BelongsToJoin(k, main, r.foreignEntity, key, alias) + Extra(conds)]
    case HasMany(fk) =>
      [Head(k, ToDb(r.foreignEntity), alias) + main + ".id = " + Qualified(alias, fk)
       + " AND " + SoftDelete(alias) + Extra(conds)]
    case HasChildren(fk, ft) =>
      [Head(k, ToDb(r.foreignEntity), alias) + main + ".id = " + Qualified(alias, fk)
       + " AND " + Qualified(alias, ft) + " = " + Quote(owner.name) + " AND " + SoftDelete(alias) + Extra(conds)]
    case ManyMany(junction, key, fkey, rc) =>
      var middle := alias + "Middle";
      var middleOn := Head(k, ToDb(junction), middle) + main + ".id = " + Qualified(middle, key)
                      + " AND " + SoftDelete(middle) + Extra(ConditionsSql(middle, rc));
      if onlyMiddle then [middleOn + Extra(conds)]
      else [middleOn, Head(k, ToDb(r.foreignEntity), alias) + alias + ".id = " + Qualified(middle, fkey)
                      + " AND " + SoftDelete(alias) + Extra(conds)]
  }

  function JoinAlias(item: JoinItem): string
  {
    item.alias.GetOr(item.target)
  }

  /** Joins implied by selected foreign attributes, one per attribute, in column order. */
  function ImplicitJoins(e: Entity, main: string, names: seq<string>): (r: seq<CompiledJoin>)
    ensures forall i :: 0 <= i < |r| ==> |r[i].lines| == 1
  {
    if names == [] then []
    else
      (match e.FindAttribute(names[0])
       case Some(Attribute(_, Foreign(rel, _))) =>
         (match e.FindRelation(rel)
          case Some(Relation(_, fe, BelongsTo(key))) => [CompiledJoin(rel, [BelongsToJoin(Outer, main, fe, key, rel)])]
          case _ => [])
       case _ => [])
      + ImplicitJoins(e, main, names[1..])
  }

  function Aliases(js: seq<CompiledJoin>): (r: seq<string>)
    ensures |r| == |js| && forall i :: 0 <= i < |js| ==> r[i] == js[i].alias
  {
    if js == [] then [] else [js[0].alias] + Aliases(js[1..])
  }

  /** Keeps the first join per alias, skipping aliases already seen. */
  function Dedup(js: seq<CompiledJoin>, seen: seq<string>): (r: seq<CompiledJoin>)
    ensures forall i :: 0 <= i < |r| ==> r[i] in js && r[i].alias !in seen
    ensures forall i, j :: 0 <= i < j < |r| ==> r[i].alias != r[j].alias
    ensures forall i :: 0 <= i < |js| && js[i].alias !in seen ==> js[i].alias in Aliases(r)
  {
    if js == [] then []
    else if js[0].alias in seen then Dedup(js[1..], seen)
    else
      var rest := Dedup(js[1..], seen + [js[0].alias]);
      [js[0]] + rest
  }

  // ---------------------------------------------------------------------------
  // ORDER BY

  function DirectionSql(d: Direction): string
  {
    match d
    case Asc => "ASC"
    case Desc => "DESC"
  }

  function QuoteAll(vs: seq<string>): (r: seq<string>)
    ensures |r| == |vs| && forall i :: 0 <= i < |vs| ==> r[i] == Quote(vs[i])
  {
    if vs == [] then [] else [Quote(vs[0])] + QuoteAll(vs[1..])
  }

  /** `LIST:path:a,b,…` orders by position in the list: FIELD over the reversed list, descending. */
  function ListOrder(ctx: Ctx, rest: string): (r: Result<string>)
  {
    match IndexOf(rest, ':')
    case None => Fail(SyntaxError("LIST:" + rest))
    case Some(i) =>
      var path :- Operand(ctx, rest[..i]);
      Ok("FIELD(" + path + ", " + Join(QuoteAll(Reverse(SplitOn(rest[i + 1..], ','))), ", ") + ") DESC")
  }

  function OrderTargetSql(ctx: Ctx, t: OrderTarget, d: Direction): (r: Result<seq<string>>)
  {
    match t
    case Position(n) => Ok([NatToString(n) + " " + DirectionSql(d)])
    case Field(text) =>
      if StartsWith(text, "LIST:") then
        var f :- ListOrder(ctx, text[5..]);
        Ok([f])
      else
        match PersonNameOf(ctx, text)
        case Some((f, l)) =>
          Ok([Qualified(ctx.alias, f) + " " + DirectionSql(d), Qualified(ctx.alias, l) + " " + DirectionSql(d)])
        case None =>
          var o :- Operand(ctx, text);
          Ok([o + " " + DirectionSql(d)])
  }

  function OrderItemsSql(ctx: Ctx, items: seq<OrderItem>): (r: Result<seq<string>>)
  {
    if items == [] then Ok([])
    else
      var head :- OrderTargetSql(ctx, items[0].target, items[0].direction.GetOr(Asc));
      var tail :- OrderItemsSql(ctx, items[1..]);
      Ok(head + tail)
  }

  function OrderSql(ctx: Ctx, p: Params): (r: Result<seq<string>>)
  {
    match p.orderBy
    case Unordered => Ok([])
    case OrderByOne(t) => OrderTargetSql(ctx, t, p.order.GetOr(Asc))
    case OrderByList(items) => OrderItemsSql(ctx, items)
  }

  function LimitOf(p: Params): (r: Option<(nat, nat)>)
  {
    match p.limit
    case None => None
    case Some(l) => Some((p.offset.GetOr(0), l))
  }

  // ---------------------------------------------------------------------------
  // Compilation

  /** The context of the main table: the entity's own table name as alias, schema lookup on. */
  function MainCtx(e: Entity): Ctx { Ctx(e, e.Table(), true) }

  /** The full statement plan for a select over an entity type. */
  function Plan(entityType: string, p: Params): (r: Result<Statement>)
    ensures r.Ok? ==> FindEntity(entityType).Ok? && r.value.table == FindEntity(entityType).value.Table()
    ensures r.Ok? ==> var ctx := MainCtx(FindEntity(entityType).value);
              CompileWhere(ctx, p.whereClause).Ok?
              && r.value.where == CompileWhere(ctx, p.whereClause).value
                                  + (if p.withDeleted then [] else [SoftDelete(ctx.alias)])
    ensures r.Ok? ==> (Columns(MainCtx(FindEntity(entityType).value), p).Ok?
                       && r.value.columns == Columns(MainCtx(FindEntity(entityType).value), p).value
                       && r.value.customJoins == p.customJoins && r.value.limit == LimitOf(p))
    ensures r.Ok? ==> (JoinsOf(MainCtx(FindEntity(entityType).value), p).Ok?
                       && r.value.joins == JoinsOf(MainCtx(FindEntity(entityType).value), p).value)
    decreases p, 3
  {
    var e :- FindEntity(entityType);
    var ctx := MainCtx(e);
    var columns :- Columns(ctx, p);
    var joins :- JoinsOf(ctx, p);
    var filters :- CompileWhere(ctx, p.whereClause);
    var groupBy :- Operands(ctx, p.groupBy);
    var having :- CompileWhere(ctx, p.havingClause);
    var orderBy :- OrderSql(ctx, p);
    Ok(Statement(columns, e.Table(), joins, p.customJoins,
                 filters + (if p.withDeleted then [] else [SoftDelete(ctx.alias)]),
                 groupBy, having, orderBy, LimitOf(p)))
  }

  /**
   * The joins of a select: those implied by selected foreign attributes first (unless
   * that alias is joined explicitly), then the inner joins, then the left joins, one
   * per alias.
   */
  function JoinsOf(ctx: Ctx, p: Params): (r: Result<seq<CompiledJoin>>)
    ensures r.Ok? ==> forall i, j :: 0 <= i < j < |r.value| ==> r.value[i].alias != r.value[j].alias
    decreases p, 2
  {
    var inner :- CompileJoins(ctx, Inner, p.joins);
    var outer :- CompileJoins(ctx, Outer, p.leftJoins);
    var explicit := inner + outer;
    var implicit := Dedup(ImplicitJoins(ctx.entity, ctx.alias, SelectedNames(ctx.entity, p)), Aliases(explicit));
    Ok(Dedup(implicit + explicit, []))
  }

  /** The select statement's SQL text. */
  function CompileSelect(entityType: string, p: Params): (r: Result<string>)
    ensures r.Ok? <==> Plan(entityType, p).Ok?
    ensures r.Ok? ==> r.value == Render(Plan(entityType, p).value)
  {
    var s :- Plan(entityType, p);
    Ok(Render(s))
  }

  function CompileJoins(ctx: Ctx, k: JoinKind, items: seq<JoinItem>): (r: Result<seq<CompiledJoin>>)
    ensures r.Ok? ==> |r.value| == |items|
    ensures r.Ok? ==> forall i :: 0 <= i < |items| ==> r.value[i].alias == JoinAlias(items[i])
    decreases items, 2
  {
    if items == [] then Ok([])
    else
      var head :- CompileJoin(ctx, k, items[0]);
      var tail :- CompileJoins(ctx, k, items[1..]);
      Ok([head] + tail)
  }

  /**
   * One join: a relation of the entity joins by its kind; any other name joins the
   * table of that name on the given conditions alone. Unqualified attributes in the
   * conditions belong to the joined alias.
   */
  function CompileJoin(ctx: Ctx, k: JoinKind, item: JoinItem): (r: Result<CompiledJoin>)
    ensures r.Ok? ==> r.value.alias == JoinAlias(item) && |r.value.lines| >= 1
    decreases item, 1
  {
    var a := JoinAlias(item);
    var conds :- CompileWhere(Ctx(ctx.entity, a, false), item.conditions);
    match ctx.entity.FindRelation(item.target)
    case Some(rel) => Ok(CompiledJoin(a, RelationJoin(k, ctx.entity, ctx.alias, rel, a, item.onlyMiddle, conds)))
    case None =>
      Ok(CompiledJoin(a, [KindSql(k) + " `" + ToDb(item.target) + "` AS `" + a + "`"
                          + (if conds == [] then "" else " ON " + Join(conds, " AND "))]))
  }

  /** The conjuncts of a filter, one per entry, in order. */
  function CompileWhere(ctx: Ctx, entries: seq<Entry>): (r: Result<seq<string>>)
    ensures r.Ok? ==> |r.value| == |entries|
    decreases entries, 2
  {
    if entries == [] then Ok([])
    else
      var head :- CompileEntry(ctx, entries[0]);
      var tail :- CompileWhere(ctx, entries[1..]);
      Ok([head] + tail)
  }

  /** `alias.id NOT IN (…)` over the same entity filtered by the inner conjuncts. */
  function NotInSql(ctx: Ctx, parts: seq<string>): string
  {
    var table := ctx.entity.Table();
    ctx.alias + ".id NOT IN (" + Render(Statement([ColumnAs(Qualified(table, "id"), "id")], table, [], [],
                                                  parts + [SoftDelete(table)], [], [], [], None)) + ")"
  }

  function CompileEntry(ctx: Ctx, e: Entry): (r: Result<string>)
    decreases e, 1
  {
    match e
    case Pair(key, v) => CompilePair(ctx, key, v)
    case AnyOf(es) =>
      var parts :- CompileWhere(ctx, es);
      Ok(Group(parts, " OR "))
    case AllOf(es) =>
      var parts :- CompileWhere(ctx, es);
      Ok(Group(parts, " AND "))
    case NoneOf(es) =>
      var parts :- CompileWhere(ctx, es);
      Ok(NotInSql(ctx, parts))
    case Bare(text) =>
      var x :- Parse(text);
      if x.Match? then ToSql(ctx, x) else Fail(MalformedFilter(text))
  }

  function CompilePair(ctx: Ctx, key: string, v: Value): (r: Result<string>)
    ensures v.Subquery? && !ParseKey(key).raw && (ParseKey(key).op.InSubquery? || ParseKey(key).op.NotInSubquery?)
            && Operand(ctx, ParseKey(key).lhs).Ok? ==>
              (r.Ok? <==> Plan(v.entityType, v.params).Ok?)
              && (r.Ok? ==> r.value == Operand(ctx, ParseKey(key).lhs).value + " " + OpSql(ParseKey(key).op)
                                       + " (" + Render(Plan(v.entityType, v.params).value) + ")")
    decreases v, 0
  {
    var k := ParseKey(key);
    var left :- Operand(ctx, k.lhs);
    match v
    case Subquery(t, p) =>
      if k.raw || !(k.op.InSubquery? || k.op.NotInSubquery?) then Fail(MalformedFilter(key))
      else
        var s :- Plan(t, p);
        Ok(left + " " + OpSql(k.op) + " (" + Render(s) + ")")
    case List(items) => ListSql(key, k, left, items)
    case Single(x) => SingleSql(ctx, key, k, left, x)
  }

  /** A list compiles to IN / NOT IN, and an empty list to the constant 0 / 1. */
  function ListSql(key: string, k: Key, left: string, items: seq<Scalar>): (r: Result<string>)
    ensures r.Ok? ==> !k.raw && (k.op.Eq? || k.op.NotEq?)
    ensures !k.raw && k.op.Eq? && items == [] ==> r == Ok("0")
    ensures !k.raw && k.op.NotEq? && items == [] ==> r == Ok("1")
  {
    if k.raw || !(k.op.Eq? || k.op.NotEq?) then Fail(MalformedFilter(key))
    else if items == [] then Ok(if k.op.Eq? then "0" else "1")
    else Ok(left + (if k.op.Eq? then " IN (" else " NOT IN (") + Join(ScalarsSql(items), ", ") + ")")
  }

  function SingleSql(ctx: Ctx, key: string, k: Key, left: string, x: Scalar): (r: Result<string>)
    ensures k.op.InSubquery? || k.op.NotInSubquery? ==> r.Fail?
  {
    if k.op.InSubquery? || k.op.NotInSubquery? then Fail(MalformedFilter(key))
    else if k.raw then
      match x
      case Null => if k.op.Eq? then Ok(left) else Fail(MalformedFilter(key))
      case Text(t) =>
        var right :- Operand(ctx, t);
        Ok(left + " " + OpSql(k.op) + " " + right)
      case Number(n) => Ok(left + " " + OpSql(k.op) + " " + IntToString(n))
    else if x.Null? then
      if k.op.Eq? then Ok(left + " IS NULL")
      else if k.op.NotEq? then Ok(left + " IS NOT NULL")
      else Fail(MalformedFilter(key))
    else
      match PersonNameOf(ctx, k.lhs)
      case Some((f, l)) =>
        if k.op.Like? then Ok(PersonNameLike(ctx.alias, f, l, ScalarSql(x)))
        else Ok(left + " " + OpSql(k.op) + " " + ScalarSql(x))
      case None => Ok(left + " " + OpSql(k.op) + " " + ScalarSql(x))
  }
}
