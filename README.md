# mysql-generator-x, modelled in Dafny

mysql-generator-x turns JavaScript option objects into MySQL text and a
parallel list of bind values. The compiler in `src/helper.js` walks nested
arrays and objects that describe columns, joins, WHERE predicates, ordering
and paging. It pushes SQL fragments onto a caller-owned `sql` array and bind
values onto a `values` array. The statement builders in `src/index.js`
(`select`, `total`, `create`, `update`, `delete`) join those fragments with
single spaces and return `{sql, values}`. The three shape tests of
`src/utils.js` drive every dispatch.

The model has these modules:

- `Js` (js.dfy): a datatype of the JavaScript values the compiler reads.
  - An object is its entries in `Object.keys` order.
  - It also defines truthiness, property and index reads, `||`, ASCII
    `toUpperCase`, template-literal string conversion (arrays included) and
    `Array.join`.
- `Utils` (utils.dfy): `isObject`, `isArray` and `isString` as constructor
  tests.
- `Fragments` (fragments.dfy): what one call appends, as an `Out` holding the
  fragments, the values and the conditions (sites) handed to genWhere.
  - It counts `?` placeholders.
  - It defines the `Builder` class, whose `sql` and `values` fields stand for
    the caller-owned arrays, with the two push methods.
- `Helper` (helper.dfy): each emitter twice over.
  - A function says what one call appends.
  - A method appends it to a `Builder` branch for branch, as the source does,
    with its `forEach` loops written as `while` loops.
  - Each method is proved to append exactly what its function says, at the
    end of both arrays.
- Proved properties:
  - `HelperProps` (helper_props.dfy): columns, joins, orders, limits and isExp.
  - `WhereProps` (where_props.dfy): the WHERE invariant. The fragments are
    the rendered conditions in visit order with keywords between them. The
    values are those conditions' values in the same order. With identifiers
    free of `?`, the number of `?` equals the number of values.
  - `WhereQuirks` (where_quirks.dfy): the literal shapes and the surprising
    behaviours of the WHERE walkers.
- `Mysql` (mysql.dfy): the statement builders as methods, each proved against
  a function of its inputs, and lemmas on those functions.

## Model

| member | source | states |
|---|---|---|
| Utils.ShapeTests | src/utils.js:2-10 | isObject holds exactly for objects, isArray exactly for arrays and isString exactly for strings; no two hold at once, so every dispatch takes at most one branch |
| Utils.ScalarsPassNoTest | src/utils.js:2-10 | undefined, null, booleans and numbers pass none of the three tests |
| Helper.FillColumns | src/helper.js:26-39 | fillColumns appends exactly the column fragment (`*`, one rendered list, or nothing) to sql and leaves values unchanged |
| HelperProps.StarColumns | src/helper.js:27-28 | the fragment is the single `*` if and only if columns is falsy, the string `*` or an empty array |
| HelperProps.NamedColumnIsDropped | src/helper.js:27-38 | a non-empty string other than `*` takes no branch, so nothing is appended |
| HelperProps.ColumnHead | src/helper.js:44-48 | every rendered column starts with a backquote |
| HelperProps.GenColumnsHead | src/helper.js:41-51 | genColumns of no columns is the empty text; otherwise it starts with a backquote |
| HelperProps.GenColumnsAppend | src/helper.js:41-51 | genColumns of a concatenation is the two renderings joined by `, `, so elements keep their input order |
| HelperProps.AliasedColumn | src/helper.js:44-45 | an array of two or more elements renders `` `t`.`c0` AS `c1` `` |
| HelperProps.MappingColumns | src/helper.js:31-37 | a mapping renders each key's list qualified by that key, joined by `, ` in key order, as one fragment |
| HelperProps.EmptyTableListLeavesComma | src/helper.js:31-37 | an empty per-table list still takes a place in the join: `{t1: [], t2: [f]}` renders `` , `t2`.`f` `` with a stray leading `, ` |
| Helper.KindFrom | src/helper.js:88-105 | the chosen kind holds a truthy value and every kind tried before it does not |
| Helper.FillJoins | src/helper.js:75-112 | fillJoins appends exactly the join fragments and no values |
| Helper.FillListJoin | src/helper.js:84-109 | one element of a join list appends what its shape renders: a descriptor, a triple or nothing |
| HelperProps.MappingJoinsAll | src/helper.js:76-81 | a mapping emits one `LEFT JOIN` per key, the i-th for the i-th key |
| HelperProps.MappingJoinsEach | src/helper.js:77-81 | the same from any entry on, by position |
| HelperProps.ListJoinAtMostOne | src/helper.js:84-109 | one list element appends at most one fragment |
| HelperProps.ListJoinsAtMost | src/helper.js:83-110 | a join list appends at most one fragment per element |
| HelperProps.SkippedDescriptor | src/helper.js:85-105 | a descriptor appends nothing if and only if none of `inner`, `left`, `right`, `join`, `cross` is truthy |
| HelperProps.MappingNotation | src/helper.js:76-81 | `{tb: [f1, f2]}` renders `` LEFT JOIN `tb` ON `t`.`f1` = `tb`.`f2` `` |
| HelperProps.TripleNotation | src/helper.js:107-108 | `[[tb, f1, f2]]` renders the same LEFT JOIN against the outer table |
| HelperProps.DescriptorNotation | src/helper.js:91-106 | `[{left: [t, tb], on: [f1, f2]}]` renders the same LEFT JOIN |
| Helper.GenWhere | src/helper.js:297-351 | genWhere appends exactly one condition fragment and that condition's values |
| Helper.FillWheres | src/helper.js:213-228 | fillWheres appends exactly the WHERE clause's fragments and values |
| Helper.FillEqualities | src/helper.js:216-223 | the loop over a mapping's keys appends the equalities of all entries |
| Helper.FillEquality | src/helper.js:218-222 | one key appends `AND` after the first, then its equality |
| Helper.GenWheres | src/helper.js:230-295 | genWheres appends exactly what the walker function says for the value |
| Helper.GenScopes | src/helper.js:238-259 | the loop over a multi-table mapping appends every table scope in key order |
| Helper.GenScope | src/helper.js:240-258 | one table scope appends its `OR` group, or its `AND` and its walk |
| Helper.GenItems | src/helper.js:265-292 | the loop over a list of children appends every child in order |
| Helper.GenItem | src/helper.js:266-291 | one child appends its `OR` group, its table scopes, or its `AND` and its walk |
| Helper.GenTables | src/helper.js:277-284 | the inner loop over a child mapping appends every table in key order |
| Helper.GenTableEntry | src/helper.js:279-283 | one table appends `AND` after the first, then its walk |
| Helper.FillWhere | src/helper.js:137-176 | the older walker appends exactly what its walker function says |
| Helper.FillWhereItems | src/helper.js:163-173 | its loop over a list appends every child in order |
| Helper.FillWhereItem | src/helper.js:164-172 | one child appends `AND` (after the first) and a condition, or its own walk |
| WhereProps.TracedCondition | src/helper.js:297-351 | one condition is traced: its fragment is its rendering and its values its own |
| WhereProps.WheresTraced | src/helper.js:230-295 | what genWheres appends is keywords plus the conditions it visits, in visit order; the values are exactly those conditions' values in the same order |
| WhereProps.ScopeTraced | src/helper.js:240-258 | the same for one table scope |
| WhereProps.ScopesTraced | src/helper.js:238-259 | the same for a multi-table mapping |
| WhereProps.ItemTraced | src/helper.js:266-291 | the same for one child of a list |
| WhereProps.ItemsTraced | src/helper.js:265-292 | the same for a list of children |
| WhereProps.TablesTraced | src/helper.js:277-284 | the same for a child mapping's tables |
| WhereProps.EqualitiesTraced | src/helper.js:216-223 | the same for a mapping's equalities |
| WhereProps.WhereClauseTraced | src/helper.js:213-228 | the same for all of fillWheres |
| WhereProps.LegacyTraced | src/helper.js:137-176 | the same for the older walker fillWhere |
| WhereProps.LegacyItemsTraced | src/helper.js:163-173 | the same for fillWhere's list loop |
| WhereProps.SuffixBalanced | src/helper.js:298-349 | in every branch of the operator switch, the number of `?` written equals the number of values pushed |
| WhereProps.CompareBalanced | src/helper.js:299-308 | the comparison branch writes one `?` and pushes one value |
| WhereProps.FixedBalanced | src/helper.js:309-349 | every other branch writes as many `?` as it pushes values |
| WhereProps.ConditionBalanced | src/helper.js:297-350 | with table and field free of `?`, a condition holds one `?` per value |
| WhereProps.GenWhereInvariant | src/helper.js:297-351 | genWhere appends exactly one fragment, and it is balanced |
| WhereProps.GenWheresInvariant | src/helper.js:230-295 | genWheres is traced, and balanced when no visited identifier holds `?` |
| WhereProps.FillWheresInvariant | src/helper.js:213-228 | fillWheres is traced, and balanced when no visited identifier holds `?` |
| WhereProps.FillWhereInvariant | src/helper.js:137-176 | fillWhere is traced, and balanced when no visited identifier holds `?` |
| WhereQuirks.FalsyEmitsNothing | src/helper.js:213-228 | a falsy condition makes every walker append nothing |
| WhereQuirks.WhereClauseShape | src/helper.js:213-228 | fillWheres appends nothing if and only if it gets neither a non-empty mapping nor a non-empty list; otherwise its first fragment is `WHERE` |
| WhereQuirks.MappingParts | src/helper.js:214-223 | a non-empty mapping gives `WHERE`, the first equality, then `AND` and an equality per further key; its values are the mapping's values in key order |
| WhereQuirks.MappingClause | src/helper.js:214-223 | by position: fragment 2i+1 is `` `t`.`k_i` = ? ``, fragment 2i (i > 0) is `AND`, and the values are the values in key order |
| WhereQuirks.OrIsAlwaysGrouped | src/helper.js:231-236 | a mapping with a truthy `or` is `OR ( … )` around that value, whatever else it holds |
| WhereQuirks.SingleItem | src/helper.js:262-292 | a one-child list that is not a condition is that child's walk |
| WhereQuirks.OrItem | src/helper.js:267-272 | a child with a truthy `or` is `OR ( … )`, with no `AND` before it |
| WhereQuirks.LeadingOr | src/helper.js:267-272 | so `[{or: x}]` opens the clause with `WHERE OR (` |
| WhereQuirks.AndIsATableName | src/helper.js:273-284 | to genWheres, `[{and: x}]` is `x` scoped to a table named `and` |
| WhereQuirks.LegacyAndGroups | src/helper.js:144-148 | fillWhere reads a truthy `and` as `AND ( … )` |
| WhereQuirks.LegacyMissingAnd | src/helper.js:163-173 | fillWhere puts `AND` only before a condition child: a condition followed by any other child renders the two with nothing between them, so `[['a', '=', 1], {b: 2}]` gives `` `t`.`a` = ? `` then `` `t`.`b` = ? `` |
| WhereQuirks.ScopeWithoutOrOnlyAnds | src/helper.js:247-251 | a table scope whose value is a mapping without a truthy `or` adds only its `AND` |
| WhereQuirks.KnownOperators | src/helper.js:298-350 | exactly the listed spellings select a case; every other one takes the default branch |
| WhereQuirks.UnknownOperatorBindsItself | src/helper.js:347-349 | the default branch renders `` `t`.`f` = ? `` and binds the operator itself |
| WhereQuirks.SpacedNegationsFallBack | src/helper.js:313-349 | `NOT LIKE`, `NOT IN` and `NOT BETWEEN` fall back to the default branch |
| WhereQuirks.BetweenBindsTwo | src/helper.js:325-334 | BETWEEN and NOTBETWEEN bind `value[0]` then `value[1]` |
| WhereQuirks.EqualityText | src/helper.js:222 | the condition built for a mapping entry renders `` `t`.`k` = ? `` and binds the entry's value |
| WhereQuirks.EqualityShape | src/helper.js:218-222 | one entry appends `AND` (after the first) and its equality, and binds its value |
| Helper.FillOrders | src/helper.js:369-382 | fillOrders appends exactly the ORDER BY fragments and no values |
| HelperProps.OrdersShape | src/helper.js:369-382 | nothing is appended if and only if orders is neither a non-empty array nor a mapping; otherwise two fragments starting with `ORDER BY` |
| HelperProps.EmptyMappingOrders | src/helper.js:373-380 | an empty mapping still appends `ORDER BY` and an empty list |
| HelperProps.PlainOrder | src/helper.js:390 | a name renders `` `t`.`f` ASC `` |
| HelperProps.DescendingPair | src/helper.js:387-388 | a pair whose direction upper-cases to `DESC` renders `` `t`.`f` DESC `` |
| HelperProps.MappingOrders | src/helper.js:373-380 | a mapping renders each key's list qualified by that key, joined by `, ` in key order |
| HelperProps.EmptyTableOrdersLeaveComma | src/helper.js:373-380 | an empty per-table order list still takes a place in the join: `{t1: [], t2: [f]}` orders by `` , `t2`.`f` ASC `` with a stray leading `, ` |
| Helper.FillLimits | src/helper.js:396-400 | fillLimits appends `LIMIT ?, ?` and the values `(page - 1) * size` then `size` |
| HelperProps.LimitBalanced | src/helper.js:396-400 | the LIMIT fragment holds two `?` for its two values |
| HelperProps.PagesTile | src/helper.js:396-400 | page 1 starts at row 0, each next page starts `size` rows later, and the second value is the size |
| HelperProps.IsExpMeans | src/helper.js:353-355 | isExp holds if and only if the value is a non-empty array whose first element is a string |
| Mysql.AssembledBalanced | src/index.js:75-78 | joining balanced fragments with spaces gives a text with one `?` per value |
| Mysql.Select | src/index.js:46-79 | select returns the fragments it pushes, joined by single spaces, with their values |
| Mysql.FillOpening | src/index.js:49-60 | pushes `SELECT`, the column fragment (or the count), `FROM` and the table, and no values |
| Mysql.FillTarget | src/index.js:56-60 | pushes `` `a` AS `t` `` when `alias[t]` is truthy, else `` `t` `` |
| Mysql.FillTail | src/index.js:64-74 | pushes the WHERE, ORDER BY and LIMIT parts in that order, each only when its options are present, with the WHERE then the LIMIT values |
| Mysql.FillSelectLimits | src/index.js:70-74 | an explicit `limit` (with `offset`, 0 by default) wins over `page` and `size`; a count has no LIMIT |
| Mysql.Total | src/index.js:111-113 | total is select with counting on |
| Mysql.SelectOpening | src/index.js:49-60 | the fragments begin `SELECT`, the column fragment (or `` COUNT(*) AS `total` ``), `FROM` and the table |
| Mysql.CountDropsLimit | src/index.js:49-74 | a count is the select with the column fragment replaced by the count and with no LIMIT fragment or values |
| Mysql.CountIgnoresPaging | src/index.js:70-74 | a count reads no paging option: `total(t, {page: '1', size: '10'})` is accepted and is `` SELECT COUNT(*) AS `total` FROM `t` `` with no values |
| Mysql.LimitOverridesPaging | src/index.js:70-72 | with a limit given, `page` and `size` are never read: `{limit: 10, page: '2', size: '5'}` is accepted and binds what fillLimits(0, 10) binds, `-10, 10` |
| Mysql.LimitLast | src/index.js:70-74 | a LIMIT fragment is written if and only if a limit, or a page and a size, is given and the query does not count; it comes last, with two values |
| Mysql.SelectValues | src/index.js:64-74 | the values are those of the WHERE conditions in visit order, then the LIMIT values |
| Mysql.BareSelect | src/index.js:46-79 | without options, select returns `` SELECT * FROM `t` `` and no values |
| Mysql.JoinsIgnored | src/index.js:61-63 | a join option on its own leaves the statement `` SELECT * FROM `t` ``: no JOIN reaches it |
| Mysql.JoinsAloneAccepted | src/index.js:61-63 | select handles such options without raising |
| Mysql.AliasedTarget | src/index.js:56-57 | with `alias: {t: a}`, the table is read as `` `a` AS `t` `` |
| Mysql.UnaliasedTarget | src/index.js:58-59 | without an alias for the table, it is read as `` `t` `` |
| Mysql.SelectBalanced | src/index.js:46-78 | with identifiers free of `?`, the select text has one `?` per value |
| Mysql.Create | src/index.js:121-136 | create builds fields, places and values in one loop over the keys and returns the INSERT statement |
| Mysql.CreateBalanced | src/index.js:121-136 | one value per key, the i-th value is the i-th key's value, and the text has one `?` per value |
| Mysql.EmptyCreate | src/index.js:121-135 | without columns, create lists no field and no value |
| Mysql.Update | src/index.js:147-164 | update pushes the SET head, the SET terms joined by `, ` and the WHERE clause, and returns them joined by spaces |
| Mysql.UpdateValues | src/index.js:151-159 | the values are the SET values in key order, then the WHERE values in visit order |
| Mysql.UpdateWithoutWheres | src/index.js:147-163 | without a non-empty WHERE, the statement has no `WHERE`, so it applies to every row |
| Mysql.UpdateBalanced | src/index.js:147-163 | with names free of `?`, the text has one `?` per value |
| Mysql.Delete | src/index.js:171-180 | delete pushes `` DELETE FROM `t` `` and the WHERE clause, and returns them joined by spaces |
| Mysql.DeleteShape | src/index.js:171-179 | with no WHERE clause, the statement is `` DELETE FROM `t` `` with no values; otherwise a space and the clause follow; the values are the WHERE values |
| Mysql.DeleteBalanced | src/index.js:171-179 | with names free of `?`, the text has one `?` per value |

## Left out

- The join step of select is not modelled as a call.
  - src/index.js:62 passes `options.alias` where fillJoins (src/helper.js:75) expects the joins, and the join option where it expects `sql`.
  - So fillJoins renders the alias and pushes what it renders onto the caller's join option, not onto the statement's fragments.
  - The model states when this returns (`Mysql.JoinsInert`).
  - It does not model the entries pushed onto the caller's join list.
- Mysql.Select: a join option that is the same array as the `where`/`wheres` or `orders` option is mutated by the join step before that option is read, so its JOIN text then reaches the WHERE or ORDER BY part. Options are modelled as values without sharing, so the model does not capture this; its contracts describe the options as they were passed.
- Mysql.Select: requires the paging options that the branch taken reads to be integers: `limit` and `offset` when a limit is given, `page` and `size` when it is not, none for a count. The `* 1` coercion of strings and non-integer numbers is not modelled.
- Helper.FillLimits: takes an integer page and size. The defaults `page = 1, size = 10` apply only to an undefined argument, and select never passes undefined: on the limit branch both arguments are `* 1` products, and on the paging branch `size` is truthy and the page argument is a product. So the defaults never apply and are not modelled.
- Mysql.Select: the LIMIT values are modelled as written. select passes the offset where fillLimits expects a page, so `{offset: 0, limit: 10}` binds `-10, 10`. The contracts state the LIMIT fragment and its two values, not a row offset.
- Behaviour of later versions of the library is not in these sources and is not modelled:
  - fillJoins with an alias argument;
  - `or` without parentheses;
  - JOINs in select;
  - `distinct`;
  - `raw`, `subQuery` and `now` values;
  - `insert` as the name of create;
  - a `'*'` per-table column value.
- JavaScript runtime details that are not modelled:
  - Floating-point numbers, NaN and -0: numbers are integers.
  - `toUpperCase` beyond ASCII letters.
  - The ordering of integer-like keys in `Object.keys`: entries keep their list order.
  - Property reads on arrays and strings by name: they give undefined.
  - Duplicate keys: a read takes the first entry with the key.
  - Strings are sequences of Unicode scalar values, not of UTF-16 code units, so indexing a string (a string BETWEEN value read as `value[0]`, `value[1]`) and `Object.keys` of a string differ from JavaScript outside the Basic Multilingual Plane.
- Inputs on which the source raises a TypeError are excluded by preconditions of the methods and not modelled as errors:
  - a non-string operator;
  - a nullish BETWEEN value;
  - `.map` on a non-array column or order list;
  - a nullish join specification or missing `on`;
  - a non-string direction;
  - null options, columns or update columns.
- The `?` counting lemmas require identifiers free of `?`, since a `?` inside a backquoted name would count as a placeholder.
- Bind values are opaque. These files make no database connection and do no I/O.
