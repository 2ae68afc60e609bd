# EspoCRM core behaviours in Dafny

This project models, as pure functions over immutable data, the parts of EspoCRM whose
behaviour its test suite pins down literally:

- **ORM select compiler** (`Query\Mysql::createSelectQuery`). An entity type and a
  select-params record compile to MySQL text. It covers:
  - the column list, with full-name and foreign attributes;
  - implicit belongs-to joins and explicit inner and left joins, including has-children,
    many-to-many, `onlyMiddle` and table joins;
  - the where filter: operator suffixes `= != > >= < <= * !* =s !=s`, lists, OR and
    NOT groups, and MATCH;
  - HAVING, GROUP BY and ORDER BY, including `LIST:` ordering and person names;
  - LIMIT, and the soft-delete conjunct;
  - the `FUNC:(arg,…)` expression language lowered to SQL functions: fiscal years and
    quarters, time-zone offsets, arithmetic, comparisons and `IN`.
  - Modules: `Strings`, `Schema`, `Expression`, `ExpressionRoundTrip`, `SqlFunctions`,
    `SqlFunctionsProps` (the SQL text each family of functions lowers to), `SelectQuery`,
    `SelectQueryProps`.
- **Mapper** (`MysqlMapper`). The statements for `selectById`, `select`, `selectRelated`,
  `countRelated`, `max`, `insert`, `update`, `removeRelation`, `removeAllRelations`,
  `unrelate` and `massRelate`. Change tracking is a fetched-versus-current value map.
  Modules: `Mapper`, `MapperProps`.
- **Upgrade to 5.8**. The index plan for the `note` table: which single-column indexes on
  `number` exist, whether `UNIQ_NUMBER` is created, and which indexes are dropped. Also the
  row filter of the opportunity contact back-fill. Module: `AfterUpgrade`.
- **Formula evaluator**. A tokenizer, a parser (comparison over sums over products over
  atoms) and an evaluator with `list`, `string\pad` and `ifThenElse`; an empty formula
  evaluates to null. Modules: `Formula`, `FormulaProps`.
- **Front-end field manager**. `getActualAttributeList` and `isMergeable` over a
  field-type definition table. Module: `FieldManager`.
- **Language**. Label overrides recorded by `set` and `delete` and forgotten by
  `clearChanges`; `get` by dotted key; `translate` with the Global fallback, lists and
  required options; the cache-file name. Module: `Language`.
- **ACL**. The level rules `no`/`own`/`team`/`all`/`yes` per scope and action, strict
  mode, and assignment permission. They are applied by the create, read, update and find
  services. Module: `Acl`.
- **Email address fields**. `fromString` and `replyToString` split into name and address.
  Module: `EmailAddress`.
- **System**. `getServerType`, the web-server name read from the server-software string.
  Module: `ServerType`.

Some rules are inherited by the model, not derived:

- SQL string literals are quoted as the ORM's quoting collaborator does in the tests:
  wrapped in `'`, with no escaping (`Strings.Quote`).
- The entity definitions are a small fixed schema (`Schema.Entities`). They are inferred
  from the SQL the tests expect.

## Model

| member | source | states |
|---|---|---|
| Strings.CamelUndoesSnake | tests/unit/Espo/ORM/DB/QueryTest.php:564-590 | column names round-trip: for an identifier without `_`, turning the snake_case column back into camelCase gives the attribute name |
| Strings.ToDbRoundTrip | tests/unit/Espo/ORM/DB/QueryTest.php:564-590 | an attribute name starting lower-case and free of `_` is recovered from its column name (`createdAt` ↔ `created_at`) |
| Strings.SnakeHasNoUpper | tests/unit/Espo/ORM/DB/QueryTest.php:564-590 | column names never contain an upper-case letter |
| Strings.SplitJoin | tests/unit/Espo/Core/Utils/LanguageTest.php:141-155 | splitting a joined key at its separator gives back the pieces when no piece contains the separator |
| Strings.ReplaceInTemplate | tests/unit/Espo/Core/Utils/LanguageTest.php:89-102 | substituting a placeholder in a template puts the replacement exactly where each placeholder stood |
| Strings.TrimPadding | tests/integration/Espo/Email/EmailEntityTest.php:34-54 | PHP trim removes exactly the whitespace around a trimmed core |
| Schema.FindEntity | tests/unit/Espo/ORM/DB/QueryTest.php:95-126 | the definition found carries the requested entity type; an unknown type is the UnknownEntity error |
| Schema.EveryEntityHasId | tests/unit/Espo/ORM/DB/QueryTest.php:95-126 | every entity keys its rows by an `id` column |
| ExpressionRoundTrip.ParsePrint | tests/unit/Espo/ORM/DB/QueryTest.php:592-677 | parsing the written-out form of a well-formed expression tree gives the tree back |
| ExpressionRoundTrip.SplitJoined | tests/unit/Espo/ORM/DB/QueryTest.php:606-618 | the argument scanner splits a comma-joined list of single arguments back into that list, whatever the nesting |
| ExpressionRoundTrip.AttributesOfPrint | tests/unit/Espo/ORM/DB/QueryTest.php:936-958 | the attribute list read off the text of an expression is the expression's own attribute list |
| ExpressionRoundTrip.ParenthesesOptional | tests/unit/Espo/ORM/DB/QueryTest.php:592-604 | `NAME:args` and `NAME:(args)` parse to the same call |
| SqlFunctions.ForeignPieces | tests/unit/Espo/ORM/DB/QueryTest.php:128-140 | a concatenated foreign attribute guards each attribute piece against NULL and quotes each literal piece, one SQL piece per definition piece |
| SqlFunctions.ShiftSuffix | tests/unit/Espo/ORM/DB/QueryTest.php:425-447 | a name is shifted only when it starts with the prefix and continues with something; a name without the prefix, or whose rest is not all digits, is not shifted |
| SqlFunctionsProps.ShiftSuffixOfNat | tests/unit/Espo/ORM/DB/QueryTest.php:425-447 | the shift read back from `PREFIX_` followed by the decimal digits of n is n |
| SqlFunctions.FiscalYearContainsDate | tests/unit/Espo/ORM/DB/QueryTest.php:413-447 | the fiscal-year label is the calendar year in which the fiscal year holding the date starts: the date is 0 to 11 months into it |
| SqlFunctions.QuarterValueCountsQuarters | tests/unit/Espo/ORM/DB/QueryTest.php:436-447 | the corrected fiscal quarter lies in 1..4 and quarter q holds exactly months 3(q-1) to 3q-1 of the fiscal year |
| SqlFunctions.QuarterValueAsWrittenInRange | tests/unit/Espo/ORM/DB/QueryTest.php:436-447 | the quarter number the emitted `QUARTER_n` expression computes lies in 1..4 for every month and every shift 0 to 11 |
| SqlFunctions.QuarterValueAsWrittenVersusCount | tests/unit/Espo/ORM/DB/QueryTest.php:436-447 | the emitted quarter equals the whole-quarter count except before the fiscal year's first month when month + 12 - first is a multiple of 3, where it is one less |
| SqlFunctions.QuarterValueAsWrittenMisplacesFebruary | tests/unit/Espo/ORM/DB/QueryTest.php:436-447 | with the fiscal year starting in May, the quarter expression as emitted gives February quarter 3, although February is month 9 of the fiscal year and in quarter 4 |
| SqlFunctions.OffsetTextRoundTrip | tests/unit/Espo/ORM/DB/QueryTest.php:767-789 | the `±HH:MM` text of a time-zone offset decodes back to the same sign, hours and minutes |
| SqlFunctions.ParseOffset | tests/unit/Espo/ORM/DB/QueryTest.php:767-789 | a decimal hour offset yields minutes below 60, and is negative exactly when the text starts with `-` |
| SqlFunctions.ParseOffsetWhole | tests/unit/Espo/ORM/DB/QueryTest.php:779-789 | a whole number of hours, signed or not, is that many hours and no minutes |
| SqlFunctions.ParseOffsetFraction | tests/unit/Espo/ORM/DB/QueryTest.php:767-777 | for `[-]i.f`, hours × 60 + minutes is the number i.f times 60 rounded down, and the sign is that of the text |
| SqlFunctions.Pad2Value | tests/unit/Espo/ORM/DB/QueryTest.php:767-789 | two-digit zero padding keeps the value of a number below 100 |
| SqlFunctions.ArgsToSql | tests/unit/Espo/ORM/DB/QueryTest.php:734-743 | arguments lower one by one, in order, and the call fails exactly when some argument fails |
| SqlFunctions.Apply | tests/unit/Espo/ORM/DB/QueryTest.php:564-765 | an unknown function name and a wrong argument count are errors, never SQL |
| SqlFunctions.ToSql | tests/unit/Espo/ORM/DB/QueryTest.php:620-677 | string and number literals lower to their quoted text and keywords to themselves; a bare attribute lowers to `alias.column` whenever the schema does not make it a foreign or full-name attribute, so in join conditions and for plain columns of the main entity; a call to a function outside the function table fails |
| SqlFunctionsProps.LowerPrinted | tests/unit/Espo/ORM/DB/QueryTest.php:592-677 | lowering the written-out text of a well-formed expression gives the SQL of the expression itself |
| SqlFunctionsProps.LowerParenthesesOptional | tests/unit/Espo/ORM/DB/QueryTest.php:564-604 | `NAME:args` and `NAME:(args)` lower to the same SQL, and one fails exactly when the other does |
| SqlFunctionsProps.LowerKeywordText | tests/unit/Espo/ORM/DB/QueryTest.php:668-677 | `true`, `false` and `null`, in any case, lower to `TRUE`, `FALSE` and `NULL` |
| SqlFunctionsProps.CallLowers | tests/unit/Espo/ORM/DB/QueryTest.php:564-765 | a call of a name in the function table, with an accepted number of arguments that all lower, renders the lowered arguments by the name's kind |
| SqlFunctionsProps.PlainLowers | tests/unit/Espo/ORM/DB/QueryTest.php:606-677 | a function of the plain table, such as CONCAT or COALESCE, lowers to `NAME(a, b, …)` over its lowered arguments in order |
| SqlFunctionsProps.RenamedLowers | tests/unit/Espo/ORM/DB/QueryTest.php:564-604 | a name such as `MONTH_NUMBER` lowers to its MySQL function, here MONTH, over its lowered arguments |
| SqlFunctionsProps.QuarterLowers | tests/unit/Espo/ORM/DB/QueryTest.php:413-423 | `QUARTER:x` lowers to `CONCAT(YEAR(x), '_', QUARTER(x))` |
| SqlFunctionsProps.FiscalYearLowers | tests/unit/Espo/ORM/DB/QueryTest.php:425-434 | `YEAR_n:x` lowers to a CASE on `MONTH(x) >= n + 1` choosing `YEAR(x)` or `YEAR(x) - 1` |
| SqlFunctionsProps.FiscalQuarterLowers | tests/unit/Espo/ORM/DB/QueryTest.php:436-447 | `QUARTER_n:x` lowers to a CASE on `MONTH(x) >= n + 1`: `FLOOR((MONTH(x) - (n + 1)) / 3) + 1` in the fiscal year's first calendar year, `CEIL((MONTH(x) + 11 - n) / 3)` with the year before otherwise |
| SqlFunctionsProps.ArithmeticLowers | tests/unit/Espo/ORM/DB/QueryTest.php:734-743 | ADD, SUB, MUL, DIV and MOD lower to all their lowered arguments, in order, joined by `+ - * / %`, inside one pair of parentheses |
| SqlFunctionsProps.TzLowers | tests/unit/Espo/ORM/DB/QueryTest.php:767-789 | `TZ:(x,h)` with a number h lowers to `CONVERT_TZ(x, '+00:00', '±HH:MM')` with the offset parsed from h |
| SqlFunctionsProps.TzOffsetValue | tests/unit/Espo/ORM/DB/QueryTest.php:767-777 | the `±HH:MM` text written for `[-]i.f` hours, i below 100, reads back as the parsed sign, hours and minutes |
| SqlFunctionsProps.TzExampleNegative | tests/unit/Espo/ORM/DB/QueryTest.php:767-777 | `-3.5` hours is written `-03:30` |
| SqlFunctionsProps.TzExampleZero | tests/unit/Espo/ORM/DB/QueryTest.php:779-789 | `0` hours is written `+00:00` |
| SelectQuery.Operand | tests/unit/Espo/ORM/DB/QueryTest.php:498-514 | `alias.attribute` names that alias's column; a bare name is an attribute of the entity, and one missing from the schema is refused as a modelling choice (see Left out) |
| SelectQuery.Dedup | tests/unit/Espo/ORM/DB/QueryTest.php:142-184 | at most one join per alias survives, the first, and every alias not seen before keeps one |
| SelectQuery.JoinsOf | tests/unit/Espo/ORM/DB/QueryTest.php:142-184 | the joins of a select carry pairwise distinct aliases |
| SelectQuery.CompileJoins | tests/unit/Espo/ORM/DB/QueryTest.php:214-325 | each requested join compiles under its own alias, in the order requested |
| SelectQuery.ListSql | tests/unit/Espo/ORM/DB/QueryTest.php:516-562 | a list value is accepted only under `=` and `!=`; the empty list compiles to the constant 0 under `=` and 1 under `!=` |
| SelectQuery.SingleSql | tests/unit/Espo/ORM/DB/QueryTest.php:360-411 | the subquery operators `=s` and `!=s` refuse a plain value |
| SelectQueryProps.BelongsToLines | tests/unit/Espo/ORM/DB/MapperTest.php:120-127 | a belongs-to join is one line: the foreign table under the alias, ON the main entity's key column equal to `alias.id`, then the extra conditions |
| SelectQueryProps.HasManyLines | tests/unit/Espo/ORM/DB/MapperTest.php:140-150 | a has-many join is one line, ON `main.id = alias.key` and `alias.deleted = '0'`, then the extra conditions |
| SelectQueryProps.HasChildrenLines | tests/unit/Espo/ORM/DB/QueryTest.php:214-260 | a has-children join is one line, ON `main.id = alias.parent_id`, `alias.parent_type` equal to the quoted owner entity type and `alias.deleted = '0'`, then the extra conditions |
| SelectQueryProps.ManyManyLines | tests/unit/Espo/ORM/DB/MapperTest.php:140-150 | a many-to-many join is two lines: the junction table under `<alias>Middle` first, then the foreign table ON `alias.id = <alias>Middle.foreign_key` and `alias.deleted = '0'`, with the extra conditions on the second line |
| SelectQueryProps.OnlyMiddleLines | tests/unit/Espo/ORM/DB/QueryTest.php:312-325 | with only the middle requested, a many-to-many join is the junction line alone, carrying the extra conditions |
| SelectQueryProps.OnlyMiddleIgnoredElsewhere | tests/unit/Espo/ORM/DB/QueryTest.php:312-325 | the only-middle option changes nothing for a relation that is not many-to-many |
| SelectQueryProps.ParseKeyRoundTrip | tests/unit/Espo/ORM/DB/QueryTest.php:327-358 | a where key written from a path, an operator suffix and the raw marker parses back to the same three |
| SelectQueryProps.ParseKeyOfPath | tests/unit/Espo/ORM/DB/QueryTest.php:814-829 | a key without an operator suffix, dotted or not, compares with `=` |
| SelectQueryProps.SplitOperatorOfSuffixed | tests/unit/Espo/ORM/DB/QueryTest.php:814-829 | the operator suffix ending a key is found, and no suffix tried earlier matches it |
| SelectQueryProps.CompileWhereAppend | tests/unit/Espo/ORM/DB/QueryTest.php:516-562 | sibling entries compile independently: the filter of a + b is that of a followed by that of b, failing when either fails |
| SelectQueryProps.EmptyListIsConstant | tests/unit/Espo/ORM/DB/QueryTest.php:538-562 | an empty list compiles to 0 under `=` and to 1 under `!=`, whatever the attribute |
| SelectQueryProps.ListIsMembership | tests/unit/Espo/ORM/DB/QueryTest.php:516-537 | a non-empty list compiles to IN (NOT IN under `!=`) over the quoted values in order |
| SelectQueryProps.SubqueryIsNestedSelect | tests/unit/Espo/ORM/DB/QueryTest.php:360-396 | `=s` / `!=s` compile to IN / NOT IN around the nested select, and fail exactly when the nested select fails |
| SelectQueryProps.SoftDeleteLast | tests/unit/Espo/ORM/DB/QueryTest.php:95-109 | unless deleted rows are wanted, the last conjunct is `table.deleted = '0'`, after every filter conjunct |
| SelectQueryProps.FiltersAddNoJoins | tests/unit/Espo/ORM/DB/QueryTest.php:814-829 | filters never add joins: two selects differing only in their filters join the same tables |
| SelectQueryProps.ImplicitJoinOfForeign | tests/unit/Espo/ORM/DB/QueryTest.php:128-140 | selecting an attribute projected through a belongs-to relation implies a join under that relation's name |
| SelectQueryProps.ForeignColumnJoinedOnce | tests/unit/Espo/ORM/DB/QueryTest.php:142-184 | a selected foreign attribute's relation is joined exactly once, whether implied or also listed among the left joins |
| SelectQueryProps.MainColumnRef | tests/unit/Espo/ORM/DB/QueryTest.php:186-200 | a bare column attribute of the selected entity reads as `table.column` when the schema is consulted |
| SelectQueryProps.MainColumnInPlainFunction | tests/unit/Espo/ORM/DB/QueryTest.php:186-200 | a plain function of a bare column of the selected entity, `COUNT:id`, lowers to `COUNT(comment.id)` |
| SelectQueryProps.MainColumnInFunction | tests/unit/Espo/ORM/DB/QueryTest.php:564-575 | `MONTH_NUMBER` and the other renamed functions of a bare column of the selected entity wrap `table.column` in the MySQL function |
| SelectQueryProps.IdColumn | tests/unit/Espo/ORM/DB/QueryTest.php:312-325 | selecting only `id` reads the id column under its own name |
| SelectQueryProps.KeyEquality | tests/unit/Espo/ORM/DB/QueryTest.php:564-576 | a plain `attribute => text` entry compiles to `table.column = 'text'` |
| SelectQueryProps.NotGroupIsSubselect | tests/unit/Espo/ORM/DB/QueryTest.php:397-411 | a NOT group is `id NOT IN` the ids of the same entity matching all its entries, and fails exactly when that select fails |
| SelectQueryProps.IdSelectPlan | tests/unit/Espo/ORM/DB/QueryTest.php:397-411 | the id subselect reads only the id column, joins nothing, and filters by the group's entries then the soft-delete conjunct |
| SelectQueryProps.FieldPosition | tests/unit/Espo/ORM/DB/QueryTest.php:449-496 | MySQL FIELD gives the 1-based position of the first equal list element, 0 exactly when absent |
| SelectQueryProps.ListOrderRanks | tests/unit/Espo/ORM/DB/QueryTest.php:449-496 | ordering by FIELD over the reversed list, descending, puts the listed values first in the order listed and unlisted values after them |
| SelectQueryProps.ListOrderText | tests/unit/Espo/ORM/DB/QueryTest.php:449-496 | `LIST:path:a,b,…` compiles to FIELD over the path and the quoted values in reverse, descending |
| SelectQueryProps.PersonNameLikeFansOut | tests/unit/Espo/ORM/DB/MapperTest.php:191-218 | LIKE on a full-name attribute tests the first name, the last name and both joined by a space |
| SelectQueryProps.PersonNameOrder | tests/unit/Espo/ORM/DB/MapperTest.php:191-218 | ordering by a full-name attribute orders by first then last name, both in the requested direction |
| Mapper.IdOf | tests/unit/Espo/ORM/DB/MapperTest.php:351-362 | a statement about an existing record can be formed exactly when the record has a string id |
| Mapper.JsonListRoundTrip | tests/unit/Espo/ORM/DB/MapperTest.php:364-376 | a list attribute stored as a JSON array reads back unchanged and in order, when no element contains a comma |
| Mapper.StoredNames | tests/unit/Espo/ORM/DB/MapperTest.php:337-349 | an insert writes exactly the storable attributes that are set |
| Mapper.ChangedNames | tests/unit/Espo/ORM/DB/MapperTest.php:351-390 | an update writes exactly the storable attributes whose current value differs from the fetched one |
| Mapper.UpdateAfterFetchIsEmpty | tests/unit/Espo/ORM/DB/MapperTest.php:351-390 | right after a fetch nothing has changed, so no UPDATE is sent |
| Mapper.UpdateWritesChanged | tests/unit/Espo/ORM/DB/MapperTest.php:364-390 | a storable attribute that differs from its fetched value, a reordered list or a null included, produces an UPDATE |
| Mapper.RelatedOf | tests/unit/Espo/ORM/DB/MapperTest.php:245-315 | the related select of a relation selects from the relation's foreign entity |
| Mapper.JunctionConjuncts | tests/unit/Espo/ORM/DB/MapperTest.php:412-450 | the junction rows to mark deleted are keyed first by `key = 'id'`, then by `foreignKey = 'foreignId'` when a foreign id is given, then by one `column = 'value'` per relation condition, in order |
| Mapper.Unrelate | tests/unit/Espo/ORM/DB/MapperTest.php:452-461 | unrelate is removeRelation by the foreign record's id |
| Mapper.RemoveOneNarrowsRemoveAll | tests/unit/Espo/ORM/DB/MapperTest.php:412-450 | removing one many-to-many link touches the rows removing all would, narrowed by one conjunct on the foreign key right after the owner's |
| Mapper.HasManyRemovalClearsKey | tests/unit/Espo/ORM/DB/MapperTest.php:392-410 | one has-many removal and removing all differ only in the last conjunct: the foreign row's id versus the owner key |
| Mapper.MassRelateOf | tests/unit/Espo/ORM/DB/MapperTest.php:478-491 | massRelate of a many-to-many relation builds the insert; relations with conditions are refused as a modelling choice (see Left out) |
| MapperProps.WhereAppended | tests/unit/Espo/ORM/DB/MapperTest.php:120-138 | filters added by the mapper compile after the caller's conjuncts and before the soft-delete conjunct |
| MapperProps.SelectByIdFilter | tests/unit/Espo/ORM/DB/MapperTest.php:120-138 | selectById filters by the caller's conjuncts, then `table.id = '<id>'`, then the soft-delete conjunct |
| MapperProps.BelongsToRelated | tests/unit/Espo/ORM/DB/MapperTest.php:290-315 | a belongs-to relation selects the record whose id is the owner's key value |
| MapperProps.BelongsToRelatedLimitsOne | tests/unit/Espo/ORM/DB/MapperTest.php:290-315 | a belongs-to related select reads at most one row, from the first |
| MapperProps.HasManyRelated | tests/unit/Espo/ORM/DB/MapperTest.php:392-410 | a has-many relation selects the foreign rows whose key holds the owner's id |
| MapperProps.HasChildrenRelated | tests/unit/Espo/ORM/DB/MapperTest.php:268-288 | a has-children relation selects the rows whose parent id is the owner's id and parent type the owner's entity type, before the soft-delete conjunct |
| MapperProps.ManyManyRelated | tests/unit/Espo/ORM/DB/MapperTest.php:245-266 | a many-to-many relation leaves the caller's filters alone and joins the junction table first |
| MapperProps.AggregateKeepsSelect | tests/unit/Espo/ORM/DB/MapperTest.php:463-476 | an aggregate keeps its select's filters, joins and limit and reads one column `FN(operand) AS AggregateValue` |
| MapperProps.CountRelatedSharesSelect | tests/unit/Espo/ORM/DB/MapperTest.php:317-335 | countRelated counts ids under the same junction join and filters as selectRelated |
| MapperProps.MassRelateRowSource | tests/unit/Espo/ORM/DB/MapperTest.php:478-491 | massRelate inserts one junction row per selected foreign record: the owner's id as a literal, then the foreign id |
| MapperProps.InsertWritesStoredSet | tests/unit/Espo/ORM/DB/MapperTest.php:337-349 | an attribute is inserted exactly when it is storable and set, so `privateField` is never written |
| AfterUpgrade.FindCandidates | upgrades/5.8/scripts/AfterUpgrade.php:84-96 | the nested scan of the index rows computes the single-column `number` index names, in row order |
| AfterUpgrade.CountRows | upgrades/5.8/scripts/AfterUpgrade.php:87-92 | the inner loop counts the rows carrying the key name |
| AfterUpgrade.CandidateIff | upgrades/5.8/scripts/AfterUpgrade.php:86-96 | a key name is a candidate exactly when one row carries it and that row is on column `number` |
| AfterUpgrade.CompositeNeverCandidate | upgrades/5.8/scripts/AfterUpgrade.php:86-96 | an index with two rows or more is never a candidate |
| AfterUpgrade.CandidatesDistinct | upgrades/5.8/scripts/AfterUpgrade.php:86-96 | no key name is listed twice among the candidates |
| AfterUpgrade.PlanIndexesSound | upgrades/5.8/scripts/AfterUpgrade.php:98-121 | `UNIQ_NUMBER` is created exactly when it is not a candidate and is never dropped; every other candidate is dropped once, and nothing else is |
| AfterUpgrade.StatementsSound | upgrades/5.8/scripts/AfterUpgrade.php:108-121 | the statements sent hold the create exactly when planned and a drop exactly for each planned drop, none twice |
| AfterUpgrade.DropIndexInjective | upgrades/5.8/scripts/AfterUpgrade.php:118 | distinct index names give distinct DROP statements |
| AfterUpgrade.PopulateContactIds | upgrades/5.8/scripts/AfterUpgrade.php:61-70 | one UPDATE per fetched row with both ids, in fetch order, setting that contact on that opportunity |
| AfterUpgrade.UsableRows | upgrades/5.8/scripts/AfterUpgrade.php:61-64 | the rows updated are exactly the fetched rows with both ids usable |
| AfterUpgrade.SkippedRowsAreFalsy | upgrades/5.8/scripts/AfterUpgrade.php:62-64 | a row is skipped exactly when its contact id or opportunity id is missing, empty or "0" |
| Formula.Fill | tests/unit/Espo/Core/Formula/EvaluatorTest.php:106-123 | fill text has the requested length, each position taken from the fill string repeated from its start |
| Formula.PadCall | tests/unit/Espo/Core/Formula/EvaluatorTest.php:106-123 | `string\pad` takes two to four arguments and yields a string |
| Formula.Arith | tests/unit/Espo/Core/Formula/EvaluatorTest.php:74-79 | `==` and `!=` compare any two values, null included, strictly (see Left out) |
| Formula.Apply | tests/unit/Espo/Core/Formula/EvaluatorTest.php:53-65 | `list` returns its argument values as a list |
| FormulaProps.PadShape | tests/unit/Espo/Core/Formula/EvaluatorTest.php:106-123 | padding keeps the input whole at its offset, reaches exactly the target length when the input is shorter, and fills every other position from the fill string repeated outward |
| FormulaProps.PadDefaults | tests/unit/Espo/Core/Formula/EvaluatorTest.php:112-114 | without a fill and a side, the input is padded with spaces on the right |
| FormulaProps.PadExamples | tests/unit/Espo/Core/Formula/EvaluatorTest.php:106-123 | `pad('1',3,'0')` is `100`, `pad('1',3)` is `1  `, side left gives `0011` and side both `0110` |
| FormulaProps.EmptyFillRefused | tests/unit/Espo/Core/Formula/EvaluatorTest.php:106-123 | an empty fill string is an error rather than an endless fill |
| FormulaProps.BlankIsNull | tests/unit/Espo/Core/Formula/EvaluatorTest.php:67-72 | a formula of whitespace only, the empty one included, evaluates to null |
| FormulaProps.NotEqualNull | tests/unit/Espo/Core/Formula/EvaluatorTest.php:74-79 | under strict comparison, `x != null` is true for every non-null value and `x == null` is its negation; `5 != null` is the pinned case |
| FormulaProps.ListOfArguments | tests/unit/Espo/Core/Formula/EvaluatorTest.php:53-65 | `list(...)` is the list of its arguments' values in order, succeeding exactly when they all do; `list()` is empty |
| FormulaProps.LexRoundTrip | tests/unit/Espo/Core/Formula/EvaluatorTest.php:46-51 | tokens written out as text read back unchanged |
| FormulaProps.CmpPrint | tests/unit/Espo/Core/Formula/EvaluatorTest.php:46-51 | the tokens of a term, followed by a closing parenthesis, a comma or nothing, parse back to the term |
| FormulaProps.ProcessPrinted | tests/unit/Espo/Core/Formula/EvaluatorTest.php:46-79 | a well-formed term written out as formula text evaluates exactly as the term |
| FormulaProps.SumsAssociateLeft | tests/unit/Espo/Core/Formula/EvaluatorTest.php:46-51 | `a - b + c` parses as `(a - b) + c` |
| FormulaProps.ParenthesesGroupFirst | tests/unit/Espo/Core/Formula/EvaluatorTest.php:46-51 | `a - (b + c)` parses with the parenthesised sum as the right operand and evaluates to a - (b + c) |
| FieldManager.ActualAttributeList | frontend/test/spec/test.field-manager.js:195-207 | a field with actual fields gives one attribute per actual field, same length and order, each named by the type's naming; a type without them gives the field name; an unknown type gives nothing |
| FieldManager.IsMergeable | frontend/test/spec/test.field-manager.js:190-193 | a known type is mergeable exactly when not marked notMergeable |
| FieldManager.SuffixNameRecoversSub | frontend/test/spec/test.field-manager.js:160-180 | under suffix naming the attribute starts with the field name, and the rest with its first letter lowered is the sub-field |
| FieldManager.PrefixNameRecoversSub | frontend/test/spec/test.field-manager.js:144-159 | under prefix naming the attribute starts with the sub-field and ends with the field name capitalised |
| FieldManager.AttributeNamesDistinct | frontend/test/spec/test.field-manager.js:144-180 | different sub-fields of one field give different attribute names under either naming |
| FieldManager.ActualAttributesDistinct | frontend/test/spec/test.field-manager.js:195-207 | sub-fields listed without repetition give attributes without repetition |
| FieldManager.TestMergeable | frontend/test/spec/test.field-manager.js:190-193 | `address` is not mergeable and `link` is |
| FieldManager.TestSuffixNaming | frontend/test/spec/test.field-manager.js:196-203 | `address`/`billingAddress` starts with `billingAddressStreet`; `link`/`account` gives `accountId` |
| FieldManager.TestPrefixNaming | frontend/test/spec/test.field-manager.js:199-200 | `personName`/`name` gives `lastName` third |
| FieldManager.TestSingleAttribute | frontend/test/spec/test.field-manager.js:205-206 | `varchar`/`name` gives `name` alone |
| Language.Without | tests/unit/Espo/Core/Utils/LanguageTest.php:310-341 | removing a name from the deleted names keeps every other entry and drops exactly that name's |
| Language.Translate | tests/unit/Espo/Core/Utils/LanguageTest.php:157-200 | a label present in the scope is returned; one in neither the scope nor Global is returned as its own name |
| Language.ClearChanges | tests/unit/Espo/Core/Utils/LanguageTest.php:269-272 | the changed and deleted data are emptied and the labels in use are the loaded ones |
| Language.KeyPath | tests/unit/Espo/Core/Utils/LanguageTest.php:141-155 | a dotted key made of dot-free names splits back into those names |
| Language.LookupStoreOther | tests/unit/Espo/Core/Utils/LanguageTest.php:221-272 | assigning at one path leaves every other path of the same depth as it was |
| Language.LookupEraseOther | tests/unit/Espo/Core/Utils/LanguageTest.php:275-307 | unsetting one path leaves every other path of the same depth as it was |
| Language.SetTranslates | tests/unit/Espo/Core/Utils/LanguageTest.php:221-267 | after `set` the label translates to the new text and is recorded as changed |
| Language.SetKeepsOthers | tests/unit/Espo/Core/Utils/LanguageTest.php:221-267 | `set` accumulates: every other label, changed or in use, stays as it was |
| Language.SetUndeletes | tests/unit/Espo/Core/Utils/LanguageTest.php:310-341 | `set` drops the name from the deleted names of its scope and category, keeping every other entry's key and order |
| Language.DeleteRemoves | tests/unit/Espo/Core/Utils/LanguageTest.php:275-300 | after `delete` the label is gone and its name is appended to the deleted names |
| Language.DeleteKeepsOthers | tests/unit/Espo/Core/Utils/LanguageTest.php:275-300 | `delete` leaves every other label and the deleted names of other categories alone |
| Language.ClearChangesForgets | tests/unit/Espo/Core/Utils/LanguageTest.php:269-272 | clearChanges forgets a `set` and a `delete` entirely, and every key reads as right after loading |
| Language.TranslateFallsBackToGlobal | tests/unit/Espo/Core/Utils/LanguageTest.php:172-178 | a label missing from the scope comes from Global |
| Language.TranslateRequiredOptions | tests/unit/Espo/Core/Utils/LanguageTest.php:188-200 | with required options, an option map comes back with exactly those options, missing ones labelled with their own names |
| Language.TranslateListPointwise | tests/unit/Espo/Core/Utils/LanguageTest.php:202-213 | a list of labels translates to a map from each of them to its translation |
| Language.TranslateSubLabel | tests/unit/Espo/Core/Utils/LanguageTest.php:215-219 | a dotted label name such as `language.en_US` reaches into the nested map |
| Language.CacheFileFollowsLanguage | tests/unit/Espo/Core/Utils/LanguageTest.php:78-102 | the cache file is the template with each `{language}` replaced by the current language, following setLanguage |
| Language.SetsAccumulate | tests/unit/Espo/Core/Utils/LanguageTest.php:221-267 | three `set` calls across two scopes leave all three labels recorded as changed |
| Language.UndeleteKeepsKeys | tests/unit/Espo/Core/Utils/LanguageTest.php:310-341 | deleting two labels and setting the first again leaves the second under its key 1 |
| Acl.LevelOf | tests/integration/Espo/User/AclTest.php:293-334 | a scope the role mentions gets the level the role sets for the action |
| Acl.CreateEntity | tests/integration/Espo/User/AclTest.php:267-291 | creation succeeds exactly when the role allows creating in the scope, and returns the record unchanged |
| Acl.GetEntity | tests/integration/Espo/User/AclTest.php:401-490 | reading succeeds exactly when the read level allows the record |
| Acl.UpdateEntity | tests/integration/Espo/User/AclTest.php:127-223 | updating succeeds exactly when the edit level allows the record; the attributes applied are the input's, minus the admin-only ones for a non-administrator, values unchanged |
| Acl.Find | tests/integration/Espo/User/AclTest.php:513-532 | a search succeeds exactly when the user is an administrator or may read the scope, and it filters on no internal attribute of the scope; it then returns the filter unchanged, and a refusal is Forbidden |
| Acl.CreateDeniedByRole | tests/integration/Espo/User/AclTest.php:48-86 | a scope set to `false`, or with create `no`, cannot be created in by a non-administrator |
| Acl.StrictModeClosesUnlisted | tests/integration/Espo/User/AclTest.php:293-334 | strict mode closes exactly the scopes the role does not mention |
| Acl.OwnLevelIsOwnership | tests/integration/Espo/User/AclTest.php:401-421 | level `own` allows exactly the records the user owns |
| Acl.TeamLevelIsSharedTeam | tests/integration/Espo/User/AclTest.php:423-490 | level `team` allows exactly the records the user owns or shares a team with |
| Acl.PermitsMonotone | tests/integration/Espo/User/AclTest.php:401-490 | a higher level never allows less |
| Acl.EditOwnDespiteTeamRead | tests/integration/Espo/User/AclTest.php:492-511 | with read `team` and edit `own`, a record shown through a shared team cannot be updated by a user who does not own it |
| Acl.TeamAssignment | tests/integration/Espo/User/AclTest.php:361-399 | with team assignment permission, creation succeeds exactly when every assigned team is one of the user's |
| Acl.UserSelfEdit | tests/integration/Espo/User/AclTest.php:127-223 | with user edit `own` a user may update their own record, without `type` and `teamsIds` applied, but not another's; with edit `no` not even their own |
| Acl.InternalAttributeSearchRefused | tests/integration/Espo/User/AclTest.php:513-532 | a search filtering on an internal attribute, such as a user's password, is refused |
| Acl.TestCreate | tests/integration/Espo/User/AclTest.php:225-399 | for the test role, accounts and leads cannot be created, cases not in strict mode, and meetings with the user's own team or with no team at all, but not with another team |
| Acl.TestRead | tests/integration/Espo/User/AclTest.php:401-511 | for the test role, leads are readable only when assigned to the user, meetings only in the user's team, and such meetings are not editable |
| EmailAddress.ParseEntry | tests/integration/Espo/Email/EmailEntityTest.php:34-43 | an entry without `<` is a bare address with no name; a name is only ever read from before a `<` |
| EmailAddress.ReplyTo | tests/integration/Espo/Email/EmailEntityTest.php:45-54 | a reply-to string with a single entry reads as that entry |
| EmailAddress.ParseFormatted | tests/integration/Espo/Email/EmailEntityTest.php:34-43 | reading `Name <address>` gives back the name and the address, for trimmed values free of `<`, `>` and `;` |
| EmailAddress.ReplyToFirstEntry | tests/integration/Espo/Email/EmailEntityTest.php:45-54 | the reply-to name and address come from the first entry, whatever follows the `;` |
| EmailAddress.TestExpectations | tests/integration/Espo/Email/EmailEntityTest.php:34-54 | `Test Hello <test@test.com>` gives name `Test Hello` and address `test@test.com`, alone or first in a reply-to list |
| ServerType.ServerType | tests/unit/Espo/Core/Utils/SystemTest.php:52-68 | the server type is lower-case, trimmed and a single line |
| ServerType.VersionDropped | tests/unit/Espo/Core/Utils/SystemTest.php:52-68 | everything from the first `/` on is dropped, and the product name is trimmed and lower-cased |
| ServerType.NoVersionKeptWhole | tests/unit/Espo/Core/Utils/SystemTest.php:57-58 | a value without `/` is kept whole, only trimmed and lower-cased |
| ServerType.ServerTypeIdempotent | tests/unit/Espo/Core/Utils/SystemTest.php:52-68 | normalising a server type again changes nothing |
| ServerType.ApacheWithPlatform | tests/unit/Espo/Core/Utils/SystemTest.php:54-55 | `Apache/2.2.17 (Ubuntu)` gives `apache` |
| ServerType.ApacheAlone | tests/unit/Espo/Core/Utils/SystemTest.php:57-58 | `Apache` gives `apache` |
| ServerType.Nginx | tests/unit/Espo/Core/Utils/SystemTest.php:60-61 | `nginx/1.5.12` gives `nginx` |
| ServerType.IisKeepsHyphen | tests/unit/Espo/Core/Utils/SystemTest.php:63-64 | `Microsoft-IIS/8.0` gives `microsoft-iis`, hyphen kept |
| ServerType.ApacheWithModules | tests/unit/Espo/Core/Utils/SystemTest.php:66-67 | `apache/2.4.10 (win32) openssl/1.0.1i php` gives `apache` |

## Left out

- Query execution and hydration are not modelled: reading result rows into entities, and the database itself. Only the SQL text sent is modelled.
- Literal escaping is left out. Quoting is the tests' stand-in (`'` around the text, no escaping), so no escaping round trip is claimed.
- The entity definitions file is not part of this model. Its relevant part is a fixed synthetic schema inferred from the expected SQL.
- Expression lowering covers only the functions the tests name. It does not model floating-point values, which stay text, as the tests quote them.
- SqlFunctions.ShiftSuffix: the shift of `YEAR_n` and `QUARTER_n` is read only from decimal digits, and any number of them. A shift above 11 is not rejected; the emitted SQL then compares the month with a number above 12.
- Function-table lookups are stated for the function families and for the test inputs; the model does not list every name's SQL separately.
- Nested AND/OR groups are parenthesised when they produce two parts or more. The tests never show a group with a single part, so that case is a modelling choice.
- Formula floating-point arithmetic is left out. The `ifThenElse` sum with 0.5 depends on it.
- Formula variables and attribute access, unary minus, and functions other than `list`, `string\pad` and `ifThenElse` are not modelled. They evaluate to a NotSupported or UnknownFunction error.
- Formula `+` on two strings concatenates. Other mixed operands are errors, not PHP's coercions.
- Formula.Arith: `==` and `!=` compare values strictly, as structural equality. PHP's loose comparison, under which `0`, `''`, `false` and an empty list equal null and `'1'` equals `1`, is not modelled: the formula comparison functions are not part of this model, and only `5 != null` is pinned.
- FormulaProps.NotEqualNull: holds under that strict comparison; under PHP's loose `!=` it would fail for `0`, `''`, `false` and `list()`.
- Mapper.JsonList: strings are written between double quotes without json_encode's escapes. A `"`, `\`, `/` or non-ASCII character is not escaped as PHP writes it (`\"`, `\\`, `\/`, `\uXXXX`).
- Mapper.JsonListRoundTrip: the read-back splits at commas, so the round trip is promised only for elements without a comma; PHP's encode and decode round-trip any list of strings.
- SelectQuery.Operand: a bare name missing from the entity's attributes fails with UnknownAttribute. No test shows an unknown attribute, so the refusal is a modelling choice.
- Mapper.MassRelateOf: a many-to-many relation with extra conditions is refused. The test shows only a plain relation, so the refusal is a modelling choice.
- Formula.Pad: lengths are counted in characters, whereas PHP's str_pad counts bytes. The two differ for multi-byte UTF-8 text.
- Formula `string\pad` treats any side other than `left` and `both` as right. It refuses an empty fill string with an error; PHP's str_pad raises an error there as well.
- FieldManager.ActualAttributeList: an unknown field type gives an empty list. The front-end implementation is not part of this model and the test never asks.
- FieldManager.IsMergeable: an unknown field type is not mergeable, a choice for the same reason.
- Language file loading and merging are left out. The labels of each language are a given map (`files`).
- `set` with a list value is not modelled; labels and maps of labels are.
- Language.ClearChanges reloads only the current language. The other languages' labels are not reloaded.
- Language.TranslateRequiredOptions: the result is a map, so the order of the required options is not modelled.
- Language.Store: a label standing where a map of labels is needed is replaced by a map. This is a modelling choice: PHP's nested assignment into a string fails with an error instead.
- ACL: creating a record that has no assigned user is not modelled. The tests do not pin down a rule for it, so `Acl.CreateEntity` requires an assigned user.
- ACL: multiple roles, field-level access, portal users, and the created-by and assigned-users ownership fallbacks are left out.
- ACL: HTTP, controller dispatch and authentication are left out.
- Acl.UpdateEntity: the admin-only attributes are only `type` and `teamsIds` of `User`, the two the tests show.
- Acl.Find: the internal attributes of each scope are a parameter standing for the entity definitions.
- Acl.TeamAssignment: assignment permission is checked on creation only, the case the tests show.
- EmailAddress.ParseEntry: the parser is reconstructed from the test expectations. Quoted names and escaped angle brackets are not modelled.
- EmailAddress.ReplyTo: only the first entry of a reply-to list is read.
- System: `getOS`, `getRootDir`, `getPhpBin` and `getPhpVersion` read the environment and are left out.
- Upgrade 5.8: the database calls, the `try`/`catch` around each DDL statement, and the config save are left out. The model plans the statements and the row filter only.
- The Htmlizer is left out: it needs floats, time zones and a foreign template engine.
- The remaining integration tests are left out: metadata persistence, upgrade packages and the integration-test scaffolding.

## Findings

| source | as written | input that shows it | evidently intended | confidence | as-written member | corrected member |
|---|---|---|---|---|---|---|
| tests/unit/Espo/ORM/DB/QueryTest.php:436-447 | `QUARTER_n` numbers the months before the fiscal year's first month with `CEIL((MONTH(x) + 12 - first) / 3)` | `QUARTER_4` on a February date. The fiscal year starts in May, so February is month 9 of it, but `CEIL((2 + 7) / 3)` is 3 | quarter q holds months 3(q-1) to 3q-1 of the fiscal year, giving `FLOOR((MONTH(x) + 12 - first) / 3) + 1`, which is 4 | medium, not executed | SqlFunctions.QuarterValueAsWrittenMisplacesFebruary | SqlFunctions.QuarterValueCountsQuarters |

The compiler's SQL keeps the emitted form, because the tests expect that text:
`SqlFunctions.RenderCall` lowers `QUARTER_n` through `FiscalQuarterSqlAsWritten`, and
`SqlFunctionsProps.FiscalQuarterLowers` states the resulting text. The intended form is
`SqlFunctions.FiscalQuarterSql`, whose quarter numbers `SqlFunctions.QuarterValue` counts.
