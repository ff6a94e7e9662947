/** The SELECT assembler (SelectImpl): table identity fixed at construction,
    optional clauses set by last-write-wins setters, and `generate`, which
    renders `SELECT cols FROM [schema.]table[ alias][ WHERE ...][ GROUP BY ...]
    [ ORDER BY ...][ LIMIT n][ OFFSET n]` together with the WHERE's parameters. */
module Select {
  import opened Wrappers
  import opened Strings
  import opened Where

  /** Java's `int`, the type of `limit` and `offset`. */
  newtype int32 = x: int | -0x8000_0000 <= x < 0x8000_0000

  /** The fields `generate` reads, as one value; `where` holds the terms of the
      attached WHERE at the moment of rendering. */
  datatype Config = Config(
    schema: Option<string>,
    alias: Option<string>,
    tableName: string,
    columns: Option<seq<string>>,
    where: Option<seq<Term>>,
    groupBy: Option<seq<string>>,
    orderBy: Option<string>,
    limit: Option<int32>,
    offset: Option<int32>)

  /** Every column qualified by the alias, in list order. */
  function QualifyAll(alias: Option<string>, columns: seq<string>): (r: seq<string>)
    ensures |r| == |columns|
    ensures forall i :: 0 <= i < |columns| ==> r[i] == Qualify(alias, columns[i])
    decreases |columns|
  {
    if |columns| == 0 then []
    else QualifyAll(alias, columns[..|columns| - 1]) + [Qualify(alias, columns[|columns| - 1])]
  }

  /** The select list: `alias.*` (or `*`) for a missing or empty column list. */
  function ColumnPart(alias: Option<string>, columns: Option<seq<string>>): string
  {
    if columns.None? || |columns.value| == 0 then Qualify(alias, "*")
    else Join(", ", QualifyAll(alias, columns.value))
  }

  /** `schema.` for a schema that is present and not blank, otherwise nothing. */
  function SchemaPrefix(schema: Option<string>): string
  {
    if schema.Some? && IsNotBlank(schema.value) then schema.value + "." else ""
  }

  /** ` alias` whenever an alias is present, blank or not. */
  function AliasSuffix(alias: Option<string>): string
  {
    if alias.Some? then " " + alias.value else ""
  }

  function GroupByPart(groupBy: Option<seq<string>>): string
  {
    if groupBy.Some? then " GROUP BY " + Join(", ", groupBy.value) else ""
  }

  function OrderByPart(orderBy: Option<string>): string
  {
    if orderBy.Some? then " ORDER BY " + orderBy.value else ""
  }

  function LimitPart(limit: Option<int32>): string
  {
    if limit.Some? then " LIMIT " + IntToString(limit.value as int) else ""
  }

  function OffsetPart(offset: Option<int32>): string
  {
    if offset.Some? then " OFFSET " + IntToString(offset.value as int) else ""
  }

  /** The WHERE clause and the parameters it binds; a failing build fails the statement. */
  function WherePart(where: Option<seq<Term>>): Rendered
  {
    if where.None? then Ok("", [])
    else match BuildTerms(where.value)
      case Ok(query, ps) => Ok(" WHERE " + query, ps)
      case Err(m) => Err(m)
  }

  /** `SELECT cols FROM [schema.]table[ alias]`, the part every statement has. */
  function Head(c: Config): string
  {
    "SELECT " + ColumnPart(c.alias, c.columns)
    + " FROM " + SchemaPrefix(c.schema) + c.tableName + AliasSuffix(c.alias)
  }

  /** What `generate` hands to the generator: the clauses in their fixed order,
      each one empty when its field is absent, and the WHERE's parameters. */
  function Render(c: Config): Rendered
  {
    match WherePart(c.where)
    case Ok(w, ps) =>
      Ok(Head(c) + w + GroupByPart(c.groupBy) + OrderByPart(c.orderBy) + LimitPart(c.limit) + OffsetPart(c.offset), ps)
    case Err(m) => Err(m)
  }

  function CountSql(sql: string): string
  {
    "SELECT COUNT(*) FROM (" + sql + ") _C"
  }

  /** What `generateCount` hands to the generator. */
  function RenderCount(c: Config): Rendered
  {
    match Render(c)
    case Ok(sql, ps) => Ok(CountSql(sql), ps)
    case Err(m) => Err(m)
  }

  // ---------------------------------------------------------------------
  // Properties of the rendering.

  /** A missing or empty column list selects `alias.*`, or `*` without an alias. */
  lemma StarColumns(alias: Option<string>, columns: Option<seq<string>>)
    requires columns.None? || columns == Some([])
    ensures ColumnPart(alias, columns) == if alias.Some? then alias.value + ".*" else "*"
  {
  }

  /** The select list grows by one qualified column at a time, after exactly ", ". */
  lemma {:induction false} ColumnPartSnoc(alias: Option<string>, columns: seq<string>, column: string)
    ensures ColumnPart(alias, Some(columns + [column])) ==
      if |columns| == 0 then Qualify(alias, column)
      else ColumnPart(alias, Some(columns)) + ", " + Qualify(alias, column)
  {
    var all := columns + [column];
    assert all[..|all| - 1] == columns;
    assert QualifyAll(alias, all) == QualifyAll(alias, columns) + [Qualify(alias, column)];
    JoinSnoc(", ", QualifyAll(alias, columns), Qualify(alias, column));
  }

  /** A blank schema is dropped exactly as a missing one; any other schema is
      written before the table name. */
  lemma SchemaShownIff(schema: Option<string>)
    ensures SchemaPrefix(schema) != "" <==> schema.Some? && IsNotBlank(schema.value)
    ensures SchemaPrefix(schema) != "" ==> SchemaPrefix(schema) == schema.value + "."
  {
  }

  /** Unlike the schema, a present alias is written even when it is empty or blank. */
  lemma AliasAlwaysShown(alias: Option<string>)
    ensures AliasSuffix(alias) != "" <==> alias.Some?
    ensures alias.Some? ==> AliasSuffix(alias)[0] == ' ' && AliasSuffix(alias)[1..] == alias.value
  {
  }

  /** The clause order: starting from the bare `SELECT ... FROM ...`, setting
      WHERE, GROUP BY, ORDER BY, LIMIT and OFFSET in turn each appends exactly
      that clause's text at the end. */
  lemma ClauseOrder(c: Config)
    requires WherePart(c.where).Ok?
    ensures Render(c.(where := None, groupBy := None, orderBy := None, limit := None, offset := None))
      == Ok(Head(c), [])
    ensures Render(c.(groupBy := None, orderBy := None, limit := None, offset := None)).sql
      == Head(c) + WherePart(c.where).sql
    ensures Render(c.(orderBy := None, limit := None, offset := None)).sql
      == Render(c.(groupBy := None, orderBy := None, limit := None, offset := None)).sql + GroupByPart(c.groupBy)
    ensures Render(c.(limit := None, offset := None)).sql
      == Render(c.(orderBy := None, limit := None, offset := None)).sql + OrderByPart(c.orderBy)
    ensures Render(c.(offset := None)).sql
      == Render(c.(limit := None, offset := None)).sql + LimitPart(c.limit)
    ensures Render(c).sql == Render(c.(offset := None)).sql + OffsetPart(c.offset)
  {
  }

  /** Each optional clause is omitted exactly when its field is absent, and
      otherwise opens with its keyword. */
  lemma ClausePresence(c: Config)
    ensures GroupByPart(c.groupBy) == "" <==> c.groupBy.None?
    ensures OrderByPart(c.orderBy) == "" <==> c.orderBy.None?
    ensures LimitPart(c.limit) == "" <==> c.limit.None?
    ensures OffsetPart(c.offset) == "" <==> c.offset.None?
    ensures WherePart(c.where).Ok? && WherePart(c.where).sql == "" ==> c.where.None?
    ensures c.groupBy.Some? ==> " GROUP BY " <= GroupByPart(c.groupBy)
    ensures c.orderBy.Some? ==> " ORDER BY " <= OrderByPart(c.orderBy)
    ensures c.limit.Some? ==> " LIMIT " <= LimitPart(c.limit)
    ensures c.offset.Some? ==> " OFFSET " <= OffsetPart(c.offset)
  {
  }

  /** `groupBy` with an empty list still writes the keyword. */
  lemma EmptyGroupBy()
    ensures GroupByPart(Some([])) == " GROUP BY "
  {
  }

  /** LIMIT and OFFSET carry any int, negative ones included, in decimal that
      reads back as the value set. */
  lemma {:induction false} LimitReadsBack(n: int32)
    ensures LimitPart(Some(n))[..7] == " LIMIT "
    ensures ParseInt(LimitPart(Some(n))[7..]) == Some(n as int)
    ensures OffsetPart(Some(n))[..8] == " OFFSET "
    ensures ParseInt(OffsetPart(Some(n))[8..]) == Some(n as int)
  {
    var digits := IntToString(n as int);
    IntToStringRoundTrip(n as int);
    assert LimitPart(Some(n))[7..] == digits;
    assert OffsetPart(Some(n))[8..] == digits;
  }

  /** Without a WHERE the parameter list is empty; with one, the statement
      succeeds exactly when the WHERE builds, binds exactly its parameters, and
      fails with exactly its message. */
  lemma WhereParams(c: Config)
    ensures c.where.None? ==> Render(c).Ok? && Render(c).params == []
    ensures c.where.Some? ==> (Render(c).Ok? <==> BuildTerms(c.where.value).Ok?)
    ensures c.where.Some? && Render(c).Ok? ==>
      Render(c).params == BuildTerms(c.where.value).params
      && WherePart(c.where).sql == " WHERE " + BuildTerms(c.where.value).sql
    ensures c.where.Some? && Render(c).Err? ==> Render(c).message == BuildTerms(c.where.value).message
  {
  }

  /** Only the WHERE can fail a statement; the other fields never do. */
  lemma OnlyWhereFails(c: Config, d: Config)
    requires c.where == d.where
    ensures Render(c).Ok? <==> Render(d).Ok?
    ensures Render(c).Ok? ==> Render(c).params == Render(d).params
  {
  }

  /** The count statement wraps the statement, which can be read back out of it,
      and binds the same parameters. */
  lemma CountWraps(c: Config)
    ensures RenderCount(c).Ok? <==> Render(c).Ok?
    ensures Render(c).Ok? ==> RenderCount(c).params == Render(c).params
    ensures Render(c).Ok? ==> CountInner(RenderCount(c).sql) == Some(Render(c).sql)
    ensures Render(c).Err? ==> RenderCount(c) == Render(c)
  {
    if Render(c).Ok? {
      CountInnerRoundTrip(Render(c).sql);
    }
  }

  /** Recovers the statement wrapped by `CountSql`. */
  function CountInner(sql: string): Option<string>
  {
    var open, close := "SELECT COUNT(*) FROM (", ") _C";
    if |sql| >= |open| + |close| && sql[..|open|] == open && sql[|sql| - |close|..] == close
    then Some(sql[|open|..|sql| - |close|])
    else None
  }

  lemma CountInnerRoundTrip(sql: string)
    ensures CountInner(CountSql(sql)) == Some(sql)
  {
    var open, close := "SELECT COUNT(*) FROM (", ") _C";
    var s := CountSql(sql);
    assert s == open + sql + close;
    assert s[..|open|] == open;
    assert s[|s| - |close|..] == close;
    assert s[|open|..|s| - |close|] == sql;
  }

  // ---------------------------------------------------------------------
  // The statement builder object.

  class SelectImpl {
    const schema: Option<string>
    const alias: Option<string>
    const tableName: string
    var columnList: Option<seq<string>>
    /** The attached WHERE, shared with the caller: terms added to it later show up in later statements. */
    var where: Option<BasicWhere>
    var limit: Option<int32>
    var offset: Option<int32>
    var groupByList: Option<seq<string>>
    var orderBy: Option<string>
    /** The parameters of the last `generate`; `None` before the first one. */
    var params: Option<seq<Value>>

    /** A null schema or alias is absent. */
    constructor (schema: Option<string>, alias: Option<string>, tableName: string)
      ensures this.schema == schema && this.alias == alias && this.tableName == tableName
      ensures columnList == None && where == None && limit == None && offset == None
      ensures groupByList == None && orderBy == None && params == None
    {
      this.schema := schema;
      this.alias := alias;
      this.tableName := tableName;
      columnList := None;
      where := None;
      limit := None;
      offset := None;
      groupByList := None;
      orderBy := None;
      params := None;
    }

    /** The terms of the attached WHERE, read when the statement is rendered. */
    function WhereTerms(): Option<seq<Term>>
      reads this`where, if where.Some? then {where.value} else {}
    {
      if where.Some? then Some(where.value.terms) else None
    }

    function State(): Config
      reads this`columnList, this`where, this`limit, this`offset, this`groupByList, this`orderBy
      reads if where.Some? then {where.value} else {}
    {
      Config(schema, alias, tableName, columnList, WhereTerms(), groupByList, orderBy, limit, offset)
    }

    /** `columns(List)`: replaces the column list; a null list is `None`. */
    method Columns(columns: Option<seq<string>>)
      modifies this`columnList
      ensures columnList == columns
    {
      columnList := columns;
    }

    /** `columns(String...)`: the varargs form, never null. */
    method ColumnsOf(columns: seq<string>)
      modifies this`columnList
      ensures columnList == Some(columns)
    {
      Columns(Some(columns));
    }

    method SetWhere(w: BasicWhere)
      modifies this`where
      ensures where == Some(w)
    {
      where := Some(w);
    }

    method Limit(n: int32)
      modifies this`limit
      ensures limit == Some(n)
    {
      limit := Some(n);
    }

    method Offset(n: int32)
      modifies this`offset
      ensures offset == Some(n)
    {
      offset := Some(n);
    }

    /** `groupBy(List)`: an empty list is kept, and still renders the keyword. */
    method GroupBy(columns: seq<string>)
      modifies this`groupByList
      ensures groupByList == Some(columns)
    {
      groupByList := Some(columns);
    }

    method GroupByOf(columns: seq<string>)
      modifies this`groupByList
      ensures groupByList == Some(columns)
    {
      GroupBy(columns);
    }

    /** `orderBy(CharSequence)`: null clears the clause. */
    method OrderBy(order: Option<string>)
      modifies this`orderBy
      ensures orderBy == order
    {
      orderBy := order;
    }

    /** `createColumn`: the select list, built in a loop with a running index. */
    method CreateColumn() returns (s: string)
      ensures s == ColumnPart(alias, columnList)
    {
      if columnList.None? || |columnList.value| == 0 {
        return Qualify(alias, "*");
      }
      var columns := columnList.value;
      s := "";
      var index := 0;
      for k := 0 to |columns|
        invariant index == k
        invariant s == Join(", ", QualifyAll(alias, columns[..k]))
      {
        var before := index;
        index := index + 1;
        if before > 0 {
          s := s + ", ";
        }
        s := s + Qualify(alias, columns[k]);
        assert columns[..k + 1] == columns[..k] + [columns[k]];
        assert QualifyAll(alias, columns[..k + 1]) == QualifyAll(alias, columns[..k]) + [Qualify(alias, columns[k])];
        JoinSnoc(", ", QualifyAll(alias, columns[..k]), Qualify(alias, columns[k]));
      }
      assert columns[..|columns|] == columns;
    }

    /** `addGroupBy`: appends the GROUP BY clause, joining the list in a loop. */
    method AddGroupBy(sql: string) returns (out: string)
      ensures out == sql + GroupByPart(groupByList)
    {
      out := sql;
      if groupByList.Some? {
        var list := groupByList.value;
        out := out + " GROUP BY ";
        var index := 0;
        for k := 0 to |list|
          invariant index == k
          invariant out == sql + " GROUP BY " + Join(", ", list[..k])
        {
          var before := index;
          index := index + 1;
          if before > 0 {
            out := out + ", ";
          }
          out := out + list[k];
          assert list[..k + 1] == list[..k] + [list[k]];
          JoinSnoc(", ", list[..k], list[k]);
        }
        assert list[..|list|] == list;
      }
    }

    method AddOrderBy(sql: string) returns (out: string)
      ensures out == sql + OrderByPart(orderBy)
    {
      out := sql;
      if orderBy.Some? {
        out := out + " ORDER BY " + orderBy.value;
      }
    }

    method AddLimit(sql: string) returns (out: string)
      ensures out == sql + LimitPart(limit)
    {
      out := sql;
      if limit.Some? {
        out := out + " LIMIT " + IntToString(limit.value as int);
      }
    }

    method AddOffset(sql: string) returns (out: string)
      ensures out == sql + OffsetPart(offset)
    {
      out := sql;
      if offset.Some? {
        out := out + " OFFSET " + IntToString(offset.value as int);
      }
    }

    /** `addWhere`: builds the attached WHERE; on success appends its text and
        takes over its parameters, on failure leaves the parameters alone. */
    method AddWhere(sql: string) returns (r: Rendered)
      modifies this`params
      ensures WherePart(WhereTerms()).Ok? ==> r == Ok(sql + WherePart(WhereTerms()).sql, [])
      ensures WherePart(WhereTerms()).Err? ==> r == WherePart(WhereTerms())
      ensures params == if where.Some? && r.Ok? then Some(WherePart(WhereTerms()).params) else old(params)
    {
      if where.None? {
        return Ok(sql, []);
      }
      var built := where.value.Build();
      match built
      case Err(m) =>
        return Err(m);
      case Ok(query, ps) =>
        params := Some(ps);
        return Ok(sql + " WHERE " + query, []);
    }

    /** `generate`: resets the parameters, writes the clauses in their fixed
        order and returns what the generator receives. */
    method Generate() returns (r: Rendered)
      modifies this`params
      ensures r == Render(State())
      ensures params == Some(if r.Ok? then r.params else [])
    {
      params := Some([]);
      var sql := "SELECT ";
      var columns := CreateColumn();
      sql := sql + columns + " FROM ";
      if schema.Some? && IsNotBlank(schema.value) {
        var prefix := schema.value + ".";
        sql := sql + prefix;
      }
      assert sql == "SELECT " + ColumnPart(alias, columnList) + " FROM " + SchemaPrefix(schema);
      sql := sql + tableName;
      if alias.Some? {
        assert sql + " " + alias.value == sql + AliasSuffix(alias);
        sql := sql + " " + alias.value;
      }
      assert sql == Head(State());
      var withWhere := AddWhere(sql);
      if withWhere.Err? {
        return withWhere;
      }
      sql := AddGroupBy(withWhere.sql);
      sql := AddOrderBy(sql);
      sql := AddLimit(sql);
      sql := AddOffset(sql);
      r := Ok(sql, params.value);
    }

    /** `generateCount`: the same statement wrapped for counting, with the same parameters. */
    method GenerateCount() returns (r: Rendered)
      modifies this`params
      ensures r == RenderCount(State())
      ensures params == Some(if r.Ok? then r.params else [])
    {
      var inner := Generate();
      match inner
      case Err(m) =>
        return Err(m);
      case Ok(sql, ps) =>
        return Ok(CountSql(sql), ps);
    }
  }
}
