/** A full statement: table `users` with alias `u`, columns `id` and `name`, a
    WHERE of `id = 1` AND `age > 18`, GROUP BY `dept`, ORDER BY `name ASC`,
    LIMIT 10 and OFFSET 5, rendered plain and wrapped for counting
    (`SELECT COUNT(*) FROM (` ... `) _C`). */
module SelectExamples {
  import opened Wrappers
  import opened Strings
  import opened Where
  import opened Select
  import WhereExamples

  lemma AgeTerm(t: Term)
    requires t == Term(And, None, "age", Compare(Greater, Int(18)))
    ensures ValidTerm(t) && Fragment(t) == "age > ?" && Bound(t) == [Int(18)]
  {
    assert Qualify(t.alias, t.column) == "age";
    assert OperatorText(t.condition.op) == ">";
    assert Fragment(t) == "age" + " " + ">" + " ?";
    AgeText();
  }

  lemma AgeText()
    ensures "age" + " " + ">" + " ?" == "age > ?"
  {
  }

  lemma WhereText()
    ensures "id = ?" + " AND " + "age > ?" == "id = ? AND age > ?"
    ensures " WHERE " + "id = ? AND age > ?" == " WHERE id = ? AND age > ?"
  {
  }

  /** The WHERE of the example binds 1 and 18 in that order. */
  lemma UsersWhere(a: Term, b: Term)
    requires a == Term(And, None, "id", Compare(Equal, Int(1)))
    requires b == Term(And, None, "age", Compare(Greater, Int(18)))
    ensures WherePart(Some([a, b])) == Ok(" WHERE id = ? AND age > ?", [Int(1), Int(18)])
  {
    WhereExamples.AndEqTerm1(a);
    AgeTerm(b);
    BuildFirst(a);
    BuildNext([a], b);
    assert [a] + [b] == [a, b];
    WhereText();
  }

  lemma UsersColumns()
    ensures ColumnPart(Some("u"), Some(["id", "name"])) == "u.id, u.name"
  {
    ColumnPartSnoc(Some("u"), ["id"], "name");
    assert ["id"] + ["name"] == ["id", "name"];
    ColumnPartSnoc(Some("u"), [], "id");
    assert [] + ["id"] == ["id"];
    assert Qualify(Some("u"), "id") == "u" + "." + "id";
    assert Qualify(Some("u"), "name") == "u" + "." + "name";
    ColumnsText();
  }

  lemma ColumnsText()
    ensures "u" + "." + "id" == "u.id" && "u" + "." + "name" == "u.name"
    ensures "u.id" + ", " + "u.name" == "u.id, u.name"
  {
  }

  lemma Decimal(n: nat, text: string)
    requires (n == 10 && text == "10") || (n == 5 && text == "5")
    ensures IntToString(n) == text
  {
    if n == 10 {
      assert NatToString(1) == [DigitChar(1)];
      assert NatToString(10) == NatToString(1) + [DigitChar(0)];
    }
  }

  lemma TailText()
    ensures " GROUP BY " + "dept" == " GROUP BY dept"
    ensures " ORDER BY " + "name ASC" == " ORDER BY name ASC"
    ensures " LIMIT " + "10" == " LIMIT 10"
    ensures " OFFSET " + "5" == " OFFSET 5"
  {
  }

  lemma HeadText()
    ensures "SELECT " + "u.id, u.name" == "SELECT u.id, u.name"
    ensures "SELECT u.id, u.name" + " FROM " == "SELECT u.id, u.name FROM "
    ensures "SELECT u.id, u.name FROM " + "" == "SELECT u.id, u.name FROM "
    ensures "SELECT u.id, u.name FROM " + "users" == "SELECT u.id, u.name FROM users"
    ensures "SELECT u.id, u.name FROM users" + " u" == "SELECT u.id, u.name FROM users u"
  {
  }

  lemma WhereStep()
    ensures "SELECT u.id, u.name FROM users u" + " WHERE id = ? AND age > ?"
      == "SELECT u.id, u.name FROM users u WHERE id = ? AND age > ?"
  {
  }

  lemma GroupStep()
    ensures "SELECT u.id, u.name FROM users u WHERE id = ? AND age > ?" + " GROUP BY dept"
      == "SELECT u.id, u.name FROM users u WHERE id = ? AND age > ? GROUP BY dept"
  {
  }

  lemma OrderStep()
    ensures "SELECT u.id, u.name FROM users u WHERE id = ? AND age > ? GROUP BY dept" + " ORDER BY name ASC"
      == "SELECT u.id, u.name FROM users u WHERE id = ? AND age > ? GROUP BY dept ORDER BY name ASC"
  {
  }

  lemma LimitStep()
    ensures "SELECT u.id, u.name FROM users u WHERE id = ? AND age > ? GROUP BY dept ORDER BY name ASC" + " LIMIT 10"
      == "SELECT u.id, u.name FROM users u WHERE id = ? AND age > ? GROUP BY dept ORDER BY name ASC LIMIT 10"
  {
  }

  lemma OffsetStep()
    ensures "SELECT u.id, u.name FROM users u WHERE id = ? AND age > ? GROUP BY dept ORDER BY name ASC LIMIT 10" + " OFFSET 5"
      == UsersSql
  {
  }

  const UsersSql := "SELECT u.id, u.name FROM users u WHERE id = ? AND age > ? GROUP BY dept ORDER BY name ASC LIMIT 10 OFFSET 5"

  /** The example configuration renders the expected statement and its count form. */
  lemma UsersRender(c: Config, a: Term, b: Term)
    requires a == Term(And, None, "id", Compare(Equal, Int(1)))
    requires b == Term(And, None, "age", Compare(Greater, Int(18)))
    requires c == UsersConfig(a, b)
    ensures Render(c) == Ok(UsersSql, [Int(1), Int(18)])
    ensures RenderCount(c) == Ok(CountSql(UsersSql), [Int(1), Int(18)])
  {
    UsersWhere(a, b);
    UsersColumns();
    assert SchemaPrefix(c.schema) == "";
    assert AliasSuffix(c.alias) == " u";
    assert Join(", ", ["dept"]) == "dept";
    Decimal(10, "10");
    Decimal(5, "5");
    TailText();
    assert GroupByPart(c.groupBy) == " GROUP BY dept";
    assert OrderByPart(c.orderBy) == " ORDER BY name ASC";
    assert LimitPart(c.limit) == " LIMIT 10";
    assert OffsetPart(c.offset) == " OFFSET 5";
    HeadText();
    WhereStep();
    GroupStep();
    OrderStep();
    LimitStep();
    OffsetStep();
  }

  /** The example's configuration, with its WHERE as given. */
  function UsersConfig(a: Term, b: Term): Config
  {
    Config(None, Some("u"), "users", Some(["id", "name"]), Some([a, b]),
           Some(["dept"]), Some("name ASC"), Some(10), Some(5))
  }

  /** Builds the example's objects: a WHERE from two calls, attached to a
      SELECT whose every setter is called once. */
  method UsersSelect(a: Term, b: Term) returns (s: SelectImpl)
    requires a == Term(And, None, "id", Compare(Equal, Int(1)))
    requires b == Term(And, None, "age", Compare(Greater, Int(18)))
    ensures fresh(s) && s.where.Some? && fresh(s.where.value)
    ensures s.State() == UsersConfig(a, b)
  {
    var w := new BasicWhere();
    w.Eq(None, "id", Int(1));
    w.Gt(None, "age", Int(18));
    assert w.terms == [a, b];
    s := new SelectImpl(None, Some("u"), "users");
    s.ColumnsOf(["id", "name"]);
    s.SetWhere(w);
    s.GroupByOf(["dept"]);
    s.OrderBy(Some("name ASC"));
    s.Limit(10);
    s.Offset(5);
  }

  /** The example driven through the objects: both statements generated. */
  method UsersScenario() returns (plain: Rendered, count: Rendered)
    ensures plain == Ok(UsersSql, [Int(1), Int(18)])
    ensures count == Ok(CountSql(UsersSql), [Int(1), Int(18)])
    ensures CountInner(count.sql) == Some(plain.sql)
  {
    var a := Term(And, None, "id", Compare(Equal, Int(1)));
    var b := Term(And, None, "age", Compare(Greater, Int(18)));
    var s := UsersSelect(a, b);
    var c := s.State();
    UsersRender(c, a, b);
    plain := s.Generate();
    count := s.GenerateCount();
    CountInnerRoundTrip(UsersSql);
  }
}
