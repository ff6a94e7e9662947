# SQL SELECT builder: a Dafny model

This project models the two cooperating parts of a small Java SQL builder.

- **`BasicWhere`, the WHERE accumulator.** It keeps an ordered list of terms,
  one per call: `isNull`, `isNotNull`, `eq`, `ne`, `gt`, `ge`, `lt`, `le`, `in`,
  `notIn`, `beginWith`, `endsWith`, `contains`, and the `or…` and
  alias-qualified forms of each.
  - `build` renders the list in insertion order. The first term has no
    connector; each later term follows ` AND ` or ` OR `. The values bound to
    the `?` placeholders come out in placeholder order.
  - Terms are validated lazily, at `build` time, left to right. The build stops
    at the first bad term: a null scalar or LIKE operand fails with
    `value must not be NULL. query:[<fragment>]`, and a null or empty IN list
    fails with `value must not be EMPTY. query:[<col> IN ()]`.
  - The accumulator's own source file is not part of this model. Its behaviour
    is taken from `BasicWhereTest.java`, which pins it down term by term.
- **`SelectImpl`, the SELECT assembler.** Schema, alias and table are fixed at
  construction. Columns, WHERE, GROUP BY, ORDER BY, LIMIT and OFFSET are set by
  last-write-wins setters.
  - `generate` writes `SELECT cols FROM [schema.]table[ alias][ WHERE q][ GROUP BY g][ ORDER BY o][ LIMIT n][ OFFSET m]`
    and hands it on with the WHERE's parameters.
  - `generateCount` hands on `SELECT COUNT(*) FROM (<that>) _C` with the same
    parameters.

Layout:

| file | module | contents |
|---|---|---|
| `wrappers.dfy` | `Wrappers` | `Option` |
| `strings.dfy` | `Strings` | joining, alias qualification (`alias.column`), decimal rendering of integers as `Integer.toString` does it and reading it back, blankness as `StringUtils.isNotBlank` decides it |
| `where.dfy` | `Where` | see below |
| `where_examples.dfy` | `WhereExamples` | eleven of the test methods replayed step by step against the class |
| `select.dfy` | `Select` | see below |
| `select_examples.dfy` | `SelectExamples` | a full statement: `users u`, two WHERE terms, GROUP BY, ORDER BY, LIMIT and OFFSET, plain and counted |

`where.dfy` holds:
- the term datatypes;
- the pure fold `BuildTerms`, and the independent front-to-back definition
  `ConditionText`/`AllBound` that it is proved equal to;
- the `BasicWhere` class, whose add methods append to `terms` and whose
  `Build` loop is proved equal to `BuildTerms`.

`select.dfy` holds:
- the pure `Render`/`RenderCount` of a `Config`, the value of every field
  `generate` reads, with their properties;
- the `SelectImpl` class, with its fields, setters, the `StringBuilder`-style
  helpers (`CreateColumn` and `AddGroupBy` loop with the source's `index++`
  counter), and `Generate`/`GenerateCount`, proved equal to
  `Render(State())`/`RenderCount(State())`.

The Java `QueryGenerator` callbacks (`generate`'s generator and `build`'s
consumer) are replaced by returning their arguments: `Ok(sql, params)`, or
`Err(message)` where the Java code throws `WhereException`.

## Model

| member | source | states |
|---|---|---|
| Where.BuildFirst | sql/sql/src/test/java/com/yoidukigembu/sql/where/BasicWhereTest.java:23-29 | a single term builds to its bare fragment, with no connector, and its own bound values; an invalid single term fails with its own message |
| Where.BuildNext | sql/sql/src/test/java/com/yoidukigembu/sql/where/BasicWhereTest.java:32-36 | after a successful build, one more valid term appends exactly its connector text (` AND ` / ` OR `) and its fragment, and appends its values to the parameters; an invalid one fails the build with that term's message |
| Where.BuildOkIff | sql/sql/src/test/java/com/yoidukigembu/sql/where/BasicWhereTest.java:184-190 | a build succeeds if and only if every term is valid (non-null scalar and LIKE operands, present and non-empty IN lists) |
| Where.BuildCorrect | sql/sql/src/test/java/com/yoidukigembu/sql/where/BasicWhereTest.java:23-37 | a build of valid terms equals the independent definition: the first fragment bare, each later one after its own connector, and the concatenation of every term's values in term order |
| Where.BuildErrSticky | sql/sql/src/test/java/com/yoidukigembu/sql/where/BasicWhereTest.java:184-190 | terms added after a failing one leave the failure unchanged |
| Where.BuildFirstFailure | sql/sql/src/test/java/com/yoidukigembu/sql/where/BasicWhereTest.java:880-886 | when all terms before position i are valid and term i is not, the build fails with term i's message, citing that term's fragment alone, whatever follows |
| Where.BuildPrefix | sql/sql/src/test/java/com/yoidukigembu/sql/where/BasicWhereTest.java:23-37 | adding terms never rewrites what the earlier terms produced: the earlier build succeeds and its text and parameters are prefixes of the later ones |
| Where.PlaceholderCount | sql/sql/src/test/java/com/yoidukigembu/sql/where/BasicWhereTest.java:853-878 | when no column or alias contains `?`, a successful build has exactly as many `?` in its text as it has parameters |
| Where.PlaceholdersNext | sql/sql/src/test/java/com/yoidukigembu/sql/where/BasicWhereTest.java:857-858 | an IN list of n+1 elements renders the placeholders of n elements followed by `, ?` (just `?` for one element) |
| Where.ScalarParamsInOrder | sql/sql/src/test/java/com/yoidukigembu/sql/where/BasicWhereTest.java:166-182 | a list of comparisons with non-null values builds successfully, binding one value per term: the i-th parameter is the i-th call's value |
| Where.AliasTransparent | sql/sql/src/test/java/com/yoidukigembu/sql/where/BasicWhereTest.java:41-55 | alias-qualified terms build exactly as plain terms on the column `alias.column`: same text, same parameters, same failures |
| Where.FirstConnectorIgnored | sql/sql/src/test/java/com/yoidukigembu/sql/where/BasicWhereTest.java:59-64 | the connector recorded by the first call (`or…` or not) never appears: changing it changes no build |
| Where.BasicWhere.constructor | sql/sql/src/test/java/com/yoidukigembu/sql/where/BasicWhereTest.java:24 | a new accumulator holds no terms |
| Where.BasicWhere.Add | sql/sql/src/test/java/com/yoidukigembu/sql/where/BasicWhereTest.java:25-32 | a call appends its one term at the end and validates nothing |
| Where.BasicWhere.IsNotNull | sql/sql/src/test/java/com/yoidukigembu/sql/where/BasicWhereTest.java:23-37 | appends an AND-joined `IS NOT NULL` term |
| Where.BasicWhere.OrIsNotNull | sql/sql/src/test/java/com/yoidukigembu/sql/where/BasicWhereTest.java:59-73 | appends an OR-joined `IS NOT NULL` term |
| Where.BasicWhere.IsNull | sql/sql/src/test/java/com/yoidukigembu/sql/where/BasicWhereTest.java:96-110 | appends an AND-joined `IS NULL` term |
| Where.BasicWhere.OrIsNull | sql/sql/src/test/java/com/yoidukigembu/sql/where/BasicWhereTest.java:131-145 | appends an OR-joined `IS NULL` term |
| Where.BasicWhere.Eq | sql/sql/src/test/java/com/yoidukigembu/sql/where/BasicWhereTest.java:166-191 | appends an AND-joined `=` comparison with the value as given, null included |
| Where.BasicWhere.OrEq | sql/sql/src/test/java/com/yoidukigembu/sql/where/BasicWhereTest.java:223-248 | appends an OR-joined `=` comparison |
| Where.BasicWhere.Ne | sql/sql/src/test/java/com/yoidukigembu/sql/where/BasicWhereTest.java:280-305 | appends an AND-joined `!=` comparison |
| Where.BasicWhere.OrNe | sql/sql/src/test/java/com/yoidukigembu/sql/where/BasicWhereTest.java:338-363 | appends an OR-joined `!=` comparison |
| Where.BasicWhere.Gt | sql/sql/src/test/java/com/yoidukigembu/sql/where/BasicWhereTest.java:396-421 | appends an AND-joined `>` comparison |
| Where.BasicWhere.OrGt | sql/sql/src/test/java/com/yoidukigembu/sql/where/BasicWhereTest.java:453-478 | appends an OR-joined `>` comparison |
| Where.BasicWhere.Ge | sql/sql/src/test/java/com/yoidukigembu/sql/where/BasicWhereTest.java:510-535 | appends an AND-joined `>=` comparison |
| Where.BasicWhere.OrGe | sql/sql/src/test/java/com/yoidukigembu/sql/where/BasicWhereTest.java:567-592 | appends an OR-joined `>=` comparison |
| Where.BasicWhere.Lt | sql/sql/src/test/java/com/yoidukigembu/sql/where/BasicWhereTest.java:625-650 | appends an AND-joined `<` comparison |
| Where.BasicWhere.OrLt | sql/sql/src/test/java/com/yoidukigembu/sql/where/BasicWhereTest.java:682-707 | appends an OR-joined `<` comparison |
| Where.BasicWhere.Le | sql/sql/src/test/java/com/yoidukigembu/sql/where/BasicWhereTest.java:739-764 | appends an AND-joined `<=` comparison |
| Where.BasicWhere.OrLe | sql/sql/src/test/java/com/yoidukigembu/sql/where/BasicWhereTest.java:796-821 | appends an OR-joined `<=` comparison |
| Where.BasicWhere.In | sql/sql/src/test/java/com/yoidukigembu/sql/where/BasicWhereTest.java:853-887 | appends an AND-joined `IN` term with the list as given, null or empty included |
| Where.BasicWhere.OrIn | sql/sql/src/test/java/com/yoidukigembu/sql/where/BasicWhereTest.java:952-986 | appends an OR-joined `IN` term |
| Where.BasicWhere.NotIn | sql/sql/src/test/java/com/yoidukigembu/sql/where/BasicWhereTest.java:1053-1087 | appends an AND-joined `NOT IN` term |
| Where.BasicWhere.OrNotIn | sql/sql/src/test/java/com/yoidukigembu/sql/where/BasicWhereTest.java:1152-1186 | appends an OR-joined `NOT IN` term |
| Where.BasicWhere.BeginWith | sql/sql/src/test/java/com/yoidukigembu/sql/where/BasicWhereTest.java:1252-1277 | appends an AND-joined LIKE term that binds `v%` |
| Where.BasicWhere.OrBeginWith | sql/sql/src/test/java/com/yoidukigembu/sql/where/BasicWhereTest.java:1309-1334 | appends an OR-joined LIKE term that binds `v%` |
| Where.BasicWhere.EndsWith | sql/sql/src/test/java/com/yoidukigembu/sql/where/BasicWhereTest.java:1366-1391 | appends an AND-joined LIKE term that binds `%v` |
| Where.BasicWhere.OrEndsWith | sql/sql/src/test/java/com/yoidukigembu/sql/where/BasicWhereTest.java:1423-1448 | appends an OR-joined LIKE term that binds `%v` |
| Where.BasicWhere.Contains | sql/sql/src/test/java/com/yoidukigembu/sql/where/BasicWhereTest.java:1480-1505 | appends an AND-joined LIKE term that binds `%v%` |
| Where.BasicWhere.OrContains | sql/sql/src/test/java/com/yoidukigembu/sql/where/BasicWhereTest.java:1537-1562 | appends an OR-joined LIKE term that binds `%v%` |
| Where.BasicWhere.Build | sql/sql/src/test/java/com/yoidukigembu/sql/where/BasicWhereTest.java:23-37 | the left-to-right loop returns exactly the fold of the current terms and leaves them in place, so a second build sees the earlier terms |
| WhereExamples.AndIsNotNullScenario | sql/sql/src/test/java/com/yoidukigembu/sql/where/BasicWhereTest.java:23-37 | `id IS NOT NULL`, then `id IS NOT NULL AND name IS NOT NULL`, both with no parameters |
| WhereExamples.OrIsNullAliasScenario | sql/sql/src/test/java/com/yoidukigembu/sql/where/BasicWhereTest.java:149-163 | `ALIAS.id IS NULL`, then `ALIAS.id IS NULL OR ALIAS.name IS NULL`, no parameters |
| WhereExamples.AndEqScenario | sql/sql/src/test/java/com/yoidukigembu/sql/where/BasicWhereTest.java:166-191 | `id = ?` with `[1]`, then `id = ? AND name = ?` with `[1, "hilo"]`, then the NULL error citing `ex = ?` |
| WhereExamples.OrEqAliasScenario | sql/sql/src/test/java/com/yoidukigembu/sql/where/BasicWhereTest.java:251-276 | the same three builds with `ALIAS.` columns joined by ` OR `, the error citing `ALIAS.ex = ?` |
| WhereExamples.AndGtScenario | sql/sql/src/test/java/com/yoidukigembu/sql/where/BasicWhereTest.java:396-421 | `id > ?` with `[1]`, then `id > ? AND age > ?` with `[1, 10]`, then the NULL error citing `ex > ?` |
| WhereExamples.AndInScenario | sql/sql/src/test/java/com/yoidukigembu/sql/where/BasicWhereTest.java:853-887 | `id IN (?, ?, ?)` with `[5, 10, 2]`, then `... AND age IN (?, ?, ?, ?)` with all seven values in order, then the EMPTY error citing `ex IN ()` for a null list |
| WhereExamples.AndInEmptyScenario | sql/sql/src/test/java/com/yoidukigembu/sql/where/BasicWhereTest.java:890-899 | an empty IN list fails with the EMPTY error citing `ex IN ()` |
| WhereExamples.OrNotInAliasEmptyScenario | sql/sql/src/test/java/com/yoidukigembu/sql/where/BasicWhereTest.java:1239-1248 | an empty NOT IN list fails with the EMPTY error citing `ALIAS.ex NOT IN ()` |
| WhereExamples.AndBeginWithScenario | sql/sql/src/test/java/com/yoidukigembu/sql/where/BasicWhereTest.java:1252-1277 | `name LIKE ?` binding `h%`, then two LIKE terms binding `h%` and `i%`, then the NULL error citing `ex LIKE ?` |
| WhereExamples.AndEndsWithAliasScenario | sql/sql/src/test/java/com/yoidukigembu/sql/where/BasicWhereTest.java:1394-1419 | `ALIAS.name LIKE ?` binding `%h`, then `%h` and `%i`, then the NULL error citing `ALIAS.ex LIKE ?` |
| WhereExamples.OrContainsScenario | sql/sql/src/test/java/com/yoidukigembu/sql/where/BasicWhereTest.java:1537-1562 | `name LIKE ?` binding `%h%`, then ` OR `-joined with `%h%` and `%i%`, then the NULL error citing `ex LIKE ?` |
| Strings.JoinSnoc | sql/sql/src/main/java/com/yoidukigembu/sql/select/impl/SelectImpl.java:163-170 | appending one element at a time, with `", "` before every element but the first, yields the joined list |
| Strings.IntToStringRoundTrip | sql/sql/src/main/java/com/yoidukigembu/sql/select/impl/SelectImpl.java:202 | the decimal text of every integer, negative ones with a leading `-`, reads back as that integer |
| Select.QualifyAll | sql/sql/src/main/java/com/yoidukigembu/sql/select/impl/SelectImpl.java:165-170 | one entry per column, in list order, the i-th being `alias.column_i` (or the bare column without an alias) |
| Select.StarColumns | sql/sql/src/main/java/com/yoidukigembu/sql/select/impl/SelectImpl.java:159-161 | a null or empty column list selects `alias.*`, or `*` without an alias |
| Select.ColumnPartSnoc | sql/sql/src/main/java/com/yoidukigembu/sql/select/impl/SelectImpl.java:163-172 | one more column appends exactly `", "` and that qualified column; a single column is written alone |
| Select.SchemaShownIff | sql/sql/src/main/java/com/yoidukigembu/sql/select/impl/SelectImpl.java:122-124 | the schema prefix is written if and only if the schema is present and not blank, and it is then `schema.` |
| Select.AliasAlwaysShown | sql/sql/src/main/java/com/yoidukigembu/sql/select/impl/SelectImpl.java:127 | the alias suffix is written if and only if an alias is present, blank or not, and it is a space followed by the alias |
| Select.ClauseOrder | sql/sql/src/main/java/com/yoidukigembu/sql/select/impl/SelectImpl.java:119-137 | from the bare `SELECT ... FROM table[ alias]` with no parameters, adding WHERE, GROUP BY, ORDER BY, LIMIT and OFFSET in that order each appends exactly its own clause at the end |
| Select.ClausePresence | sql/sql/src/main/java/com/yoidukigembu/sql/select/impl/SelectImpl.java:184-207 | each of GROUP BY, ORDER BY, LIMIT and OFFSET is empty if and only if its field is absent, and otherwise starts with its keyword; an empty successful WHERE part means no WHERE is attached |
| Select.EmptyGroupBy | sql/sql/src/main/java/com/yoidukigembu/sql/select/impl/SelectImpl.java:98-100 | a group-by set to the empty list still writes ` GROUP BY ` |
| Select.LimitReadsBack | sql/sql/src/main/java/com/yoidukigembu/sql/select/impl/SelectImpl.java:201-207 | for every int, negative included, LIMIT and OFFSET write their keyword followed by a decimal that reads back as the value set |
| Select.WhereParams | sql/sql/src/main/java/com/yoidukigembu/sql/select/impl/SelectImpl.java:175-182 | without a WHERE the statement succeeds with no parameters; with one it succeeds if and only if the WHERE builds, binds exactly the WHERE's parameters, writes ` WHERE ` followed by its text, and otherwise fails with exactly its message |
| Select.OnlyWhereFails | sql/sql/src/main/java/com/yoidukigembu/sql/select/impl/SelectImpl.java:116-140 | two configurations with the same WHERE both succeed or both fail, with the same parameters: no other field can fail a statement or change its parameters |
| Select.CountWraps | sql/sql/src/main/java/com/yoidukigembu/sql/select/impl/SelectImpl.java:143-152 | the count statement succeeds exactly when the statement does, carries the same parameters, and unwraps back to the statement; a failure passes through unchanged |
| Select.CountInnerRoundTrip | sql/sql/src/main/java/com/yoidukigembu/sql/select/impl/SelectImpl.java:145-147 | `SELECT COUNT(*) FROM (` + sql + `) _C` unwraps back to sql |
| Select.SelectImpl.constructor | sql/sql/src/main/java/com/yoidukigembu/sql/select/impl/SelectImpl.java:45-49 | keeps schema, alias and table as given (null ones absent), with every optional clause absent |
| Select.SelectImpl.ColumnsOf | sql/sql/src/main/java/com/yoidukigembu/sql/select/impl/SelectImpl.java:64-66 | the varargs form sets the column list to exactly the given columns |
| Select.SelectImpl.Columns | sql/sql/src/main/java/com/yoidukigembu/sql/select/impl/SelectImpl.java:69-72 | replaces the column list, null included, and touches no other field |
| Select.SelectImpl.SetWhere | sql/sql/src/main/java/com/yoidukigembu/sql/select/impl/SelectImpl.java:75-78 | attaches the given accumulator itself (not a copy), replacing any earlier one |
| Select.SelectImpl.Limit | sql/sql/src/main/java/com/yoidukigembu/sql/select/impl/SelectImpl.java:81-84 | sets the limit to any int, unvalidated; last write wins |
| Select.SelectImpl.Offset | sql/sql/src/main/java/com/yoidukigembu/sql/select/impl/SelectImpl.java:87-90 | sets the offset to any int, unvalidated; last write wins |
| Select.SelectImpl.GroupByOf | sql/sql/src/main/java/com/yoidukigembu/sql/select/impl/SelectImpl.java:93-95 | the varargs form sets the group-by list to exactly the given columns |
| Select.SelectImpl.GroupBy | sql/sql/src/main/java/com/yoidukigembu/sql/select/impl/SelectImpl.java:98-101 | sets the group-by list, kept even when empty |
| Select.SelectImpl.OrderBy | sql/sql/src/main/java/com/yoidukigembu/sql/select/impl/SelectImpl.java:109-112 | sets the ORDER BY text; null clears it |
| Select.SelectImpl.CreateColumn | sql/sql/src/main/java/com/yoidukigembu/sql/select/impl/SelectImpl.java:158-173 | the counter loop yields exactly the select list the rendering specifies: `alias.*` for no columns, else the qualified columns joined by `", "` in order |
| Select.SelectImpl.AddWhere | sql/sql/src/main/java/com/yoidukigembu/sql/select/impl/SelectImpl.java:175-182 | with no WHERE, leaves the text and the parameters alone; with one that builds, appends ` WHERE ` and its text and takes over its parameters; otherwise fails with the WHERE's message |
| Select.SelectImpl.AddGroupBy | sql/sql/src/main/java/com/yoidukigembu/sql/select/impl/SelectImpl.java:184-195 | the counter loop appends exactly the GROUP BY clause, or nothing when it is unset |
| Select.SelectImpl.AddOrderBy | sql/sql/src/main/java/com/yoidukigembu/sql/select/impl/SelectImpl.java:197-199 | appends ` ORDER BY ` and the text, or nothing when unset |
| Select.SelectImpl.AddLimit | sql/sql/src/main/java/com/yoidukigembu/sql/select/impl/SelectImpl.java:201-203 | appends ` LIMIT ` and the value in decimal, or nothing when unset |
| Select.SelectImpl.AddOffset | sql/sql/src/main/java/com/yoidukigembu/sql/select/impl/SelectImpl.java:205-207 | appends ` OFFSET ` and the value in decimal, or nothing when unset |
| Select.SelectImpl.Generate | sql/sql/src/main/java/com/yoidukigembu/sql/select/impl/SelectImpl.java:116-140 | the step-by-step assembly yields exactly the rendering of the current fields, the WHERE's terms included, whose properties are the lemmas above; the parameter field ends as the statement's parameters (empty after a failure or without a WHERE) |
| Select.SelectImpl.GenerateCount | sql/sql/src/main/java/com/yoidukigembu/sql/select/impl/SelectImpl.java:143-152 | yields exactly the count rendering of the current fields, with the same parameter-field outcome as `Generate` |
| SelectExamples.UsersRender | sql/sql/src/main/java/com/yoidukigembu/sql/select/impl/SelectImpl.java:116-152 | the users/u configuration renders `SELECT u.id, u.name FROM users u WHERE id = ? AND age > ? GROUP BY dept ORDER BY name ASC LIMIT 10 OFFSET 5` with `[1, 18]`, and its count form wraps that text with the same parameters |
| SelectExamples.UsersSelect | sql/sql/src/main/java/com/yoidukigembu/sql/select/impl/SelectImpl.java:64-112 | two WHERE calls and one call to each setter leave the object in exactly the users/u configuration |
| SelectExamples.UsersScenario | sql/sql/src/main/java/com/yoidukigembu/sql/select/impl/SelectImpl.java:116-152 | through the objects, `Generate` yields that statement with `[1, 18]`, and `GenerateCount` yields it wrapped as `SELECT COUNT(*) FROM (...) _C` with the same parameters, which unwraps back to it |

## Left out

- The `QueryGenerator` callbacks are not modelled: `generate`'s generator and `build`'s consumer are external code. The model returns the pair they would receive. Nor are the generic result types.
- A thrown `WhereException` is modelled as `Err(message)`. The parameter field `Generate` leaves behind after a failure is the fresh empty list.
- `orderBy(OrderBy)` (SelectImpl.java:104-106) is not modelled: `OrderBy.getOrder()` is not part of this model. The `orderBy(CharSequence)` form it delegates to is modelled.
- The getters `getSchema`, `getAlias` and `getTableName` (SelectImpl.java:51-61) are not modelled. They only read the construction-time fields, which the model keeps as the class's constants. The `""` that `getAlias` returns for a missing alias has no member of its own.
- The `return this` chaining of the setters is not modelled: each setter is a method with no result.
- Java `NullPointerException` paths are not modelled: `where(null)` and a null varargs array.
- A null table name or GROUP BY element is not represented. Java appends it as the text `null` (`SelectImpl.java:125`, `:192`): `new SelectImpl(null, null, null)` writes `SELECT * FROM null`. The model's table name and list elements are non-null strings. A null column goes through the `alias` helper, which is not part of this model.
- `columns(List)`, `groupBy(List)` and `orderBy(CharSequence)` (`SelectImpl.java:70`, `:99`, `:110`) keep the caller's object in Java, so mutating that list or character sequence later changes the next `generate`. The model keeps a copy of its value at the time of the call. Only the attached WHERE is shared by reference, as in Java.
- The `alias(alias, column)` helper is not part of this model. It is modelled as `alias.column` when an alias is present and the bare column otherwise (`Strings.Qualify`).
- `StringUtils.isNotBlank` is a library call. It is modelled as "some character is not Java whitespace", with `Character.isWhitespace`'s character set written out.
- `BasicWhere`'s implementation file is not part of this model, so these behaviours are modelled choices:
  - The rendered WHERE text carries no leading or trailing padding. The tests only compare it after `trim()`.
  - A build of no terms yields empty text and no parameters. `Generate` with an empty attached WHERE therefore writes ` WHERE ` followed by nothing.
  - IN list elements are not checked for null.
- Bound values are Java `Object`s. They are modelled as an abstract `Value` (`Null`, `Int`, `Str`). The tests' `int` and `long` values (`30l`) are both `Int`.
- WhereExamples replays eleven of the test methods literally. The other alias and `or…` variants follow from the general lemmas instead: `BuildFirst`, `BuildNext`, `AliasTransparent` and `FirstConnectorIgnored`.
- Concurrent use of one builder is not modelled: the source makes no promise about it.
