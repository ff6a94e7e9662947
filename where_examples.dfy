/** The scenarios of BasicWhereTest, replayed against the model. Each
    `...Scenario` method drives one accumulator through the calls of one test
    and returns the result of every `build`; the lemmas before it state what
    each of those builds produces and what each recorded term renders as. */
module WhereExamples {
  import opened Wrappers
  import opened Strings
  import opened Where

  /** Two valid terms: the second follows the first after its own connector. */
  lemma BuildTwo(a: Term, b: Term)
    requires ValidTerm(a) && ValidTerm(b)
    ensures BuildTerms([a, b]) == Ok(Fragment(a) + ConnectorText(b.connector) + Fragment(b), Bound(a) + Bound(b))
  {
    BuildFirst(a);
    BuildNext([a], b);
    assert [a] + [b] == [a, b];
  }

  /** A third, invalid term fails a build that succeeded on the first two. */
  lemma BuildThirdInvalid(a: Term, b: Term, c: Term)
    requires BuildTerms([a, b]).Ok? && !ValidTerm(c)
    ensures BuildTerms([a, b, c]) == Err(ErrorMessage(c))
  {
    BuildNext([a, b], c);
    assert [a, b] + [c] == [a, b, c];
  }

  lemma Placeholders2()
    ensures Placeholders(2) == "?, ?"
  {
    PlaceholdersNext(0);
    PlaceholdersNext(1);
  }

  lemma Placeholders3()
    ensures Placeholders(3) == "?, ?, ?"
  {
    Placeholders2();
    PlaceholdersNext(2);
  }

  lemma Placeholders4()
    ensures Placeholders(4) == "?, ?, ?, ?"
  {
    Placeholders3();
    PlaceholdersNext(3);
  }

  // AndIsNotNull: isNotNull twice, AND-joined, binding nothing.

  lemma AndIsNotNullText1()
    ensures "id" + " IS NOT NULL" == "id IS NOT NULL"
  {
  }

  lemma AndIsNotNullTerm1(t: Term)
    requires t == Term(And, None, "id", NullTest(true))
    ensures ValidTerm(t)
    ensures Fragment(t) == "id IS NOT NULL"
    ensures Bound(t) == []
  {
    var col := "id";
    assert Qualify(t.alias, t.column) == col;
    assert Fragment(t) == col + " IS NOT NULL";
    AndIsNotNullText1();
  }

  lemma AndIsNotNullText2()
    ensures "name" + " IS NOT NULL" == "name IS NOT NULL"
  {
  }

  lemma AndIsNotNullTerm2(t: Term)
    requires t == Term(And, None, "name", NullTest(true))
    ensures ValidTerm(t)
    ensures Fragment(t) == "name IS NOT NULL"
    ensures Bound(t) == []
  {
    var col := "name";
    assert Qualify(t.alias, t.column) == col;
    assert Fragment(t) == col + " IS NOT NULL";
    AndIsNotNullText2();
  }

  lemma AndIsNotNullBuild1(a: Term)
    requires a == Term(And, None, "id", NullTest(true))
    ensures BuildTerms([a]) == Ok("id IS NOT NULL", [])
  {
    BuildFirst(a);
    AndIsNotNullTerm1(a);
  }

  lemma AndIsNotNullJoin2()
    ensures "id IS NOT NULL" + " AND " + "name IS NOT NULL" == "id IS NOT NULL AND name IS NOT NULL"
  {
  }

  lemma AndIsNotNullBuild2(a: Term, b: Term)
    requires a == Term(And, None, "id", NullTest(true))
    requires b == Term(And, None, "name", NullTest(true))
    ensures BuildTerms([a, b]) == Ok("id IS NOT NULL AND name IS NOT NULL", [])
  {
    AndIsNotNullTerm1(a);
    AndIsNotNullTerm2(b);
    BuildTwo(a, b);
    AndIsNotNullJoin2();
  }

  method AndIsNotNullScenario() returns (first: Rendered, second: Rendered)
    ensures first == Ok("id IS NOT NULL", [])
    ensures second == Ok("id IS NOT NULL AND name IS NOT NULL", [])
  {
    var a := Term(And, None, "id", NullTest(true));
    var b := Term(And, None, "name", NullTest(true));
    var w := new BasicWhere();
    w.IsNotNull(None, "id");
    assert w.terms == [a];
    first := w.Build();
    AndIsNotNullBuild1(a);
    w.IsNotNull(None, "name");
    assert w.terms == [a, b];
    second := w.Build();
    AndIsNotNullBuild2(a, b);
  }

  // OrIsNullAlias: alias-qualified orIsNull twice, OR-joined.

  lemma OrIsNullAliasText1()
    ensures "ALIAS" + "." + "id" + " IS NULL" == "ALIAS.id IS NULL"
  {
  }

  lemma OrIsNullAliasTerm1(t: Term)
    requires t == Term(Or, Some("ALIAS"), "id", NullTest(false))
    ensures ValidTerm(t)
    ensures Fragment(t) == "ALIAS.id IS NULL"
    ensures Bound(t) == []
  {
    var col := "ALIAS" + "." + "id";
    assert Qualify(t.alias, t.column) == col;
    assert Fragment(t) == col + " IS NULL";
    OrIsNullAliasText1();
  }

  lemma OrIsNullAliasText2()
    ensures "ALIAS" + "." + "name" + " IS NULL" == "ALIAS.name IS NULL"
  {
  }

  lemma OrIsNullAliasTerm2(t: Term)
    requires t == Term(Or, Some("ALIAS"), "name", NullTest(false))
    ensures ValidTerm(t)
    ensures Fragment(t) == "ALIAS.name IS NULL"
    ensures Bound(t) == []
  {
    var col := "ALIAS" + "." + "name";
    assert Qualify(t.alias, t.column) == col;
    assert Fragment(t) == col + " IS NULL";
    OrIsNullAliasText2();
  }

  lemma OrIsNullAliasBuild1(a: Term)
    requires a == Term(Or, Some("ALIAS"), "id", NullTest(false))
    ensures BuildTerms([a]) == Ok("ALIAS.id IS NULL", [])
  {
    BuildFirst(a);
    OrIsNullAliasTerm1(a);
  }

  lemma OrIsNullAliasJoin2()
    ensures "ALIAS.id IS NULL" + " OR " + "ALIAS.name IS NULL" == "ALIAS.id IS NULL OR ALIAS.name IS NULL"
  {
  }

  lemma OrIsNullAliasBuild2(a: Term, b: Term)
    requires a == Term(Or, Some("ALIAS"), "id", NullTest(false))
    requires b == Term(Or, Some("ALIAS"), "name", NullTest(false))
    ensures BuildTerms([a, b]) == Ok("ALIAS.id IS NULL OR ALIAS.name IS NULL", [])
  {
    OrIsNullAliasTerm1(a);
    OrIsNullAliasTerm2(b);
    BuildTwo(a, b);
    OrIsNullAliasJoin2();
  }

  method OrIsNullAliasScenario() returns (first: Rendered, second: Rendered)
    ensures first == Ok("ALIAS.id IS NULL", [])
    ensures second == Ok("ALIAS.id IS NULL OR ALIAS.name IS NULL", [])
  {
    var a := Term(Or, Some("ALIAS"), "id", NullTest(false));
    var b := Term(Or, Some("ALIAS"), "name", NullTest(false));
    var w := new BasicWhere();
    w.OrIsNull(Some("ALIAS"), "id");
    assert w.terms == [a];
    first := w.Build();
    OrIsNullAliasBuild1(a);
    w.OrIsNull(Some("ALIAS"), "name");
    assert w.terms == [a, b];
    second := w.Build();
    OrIsNullAliasBuild2(a, b);
  }

  // AndEq: eq twice, then eq with a null value.

  lemma AndEqText1()
    ensures "id" + " " + "=" + " ?" == "id = ?"
  {
  }

  lemma AndEqTerm1(t: Term)
    requires t == Term(And, None, "id", Compare(Equal, Int(1)))
    ensures ValidTerm(t)
    ensures Fragment(t) == "id = ?"
    ensures Bound(t) == [Int(1)]
  {
    var col := "id";
    assert Qualify(t.alias, t.column) == col;
    assert OperatorText(t.condition.op) == "=";
    assert Fragment(t) == col + " " + "=" + " ?";
    AndEqText1();
  }

  lemma AndEqText2()
    ensures "name" + " " + "=" + " ?" == "name = ?"
  {
  }

  lemma AndEqTerm2(t: Term)
    requires t == Term(And, None, "name", Compare(Equal, Str("hilo")))
    ensures ValidTerm(t)
    ensures Fragment(t) == "name = ?"
    ensures Bound(t) == [Str("hilo")]
  {
    var col := "name";
    assert Qualify(t.alias, t.column) == col;
    assert OperatorText(t.condition.op) == "=";
    assert Fragment(t) == col + " " + "=" + " ?";
    AndEqText2();
  }

  lemma AndEqText3()
    ensures "ex" + " " + "=" + " ?" == "ex = ?"
  {
  }

  lemma AndEqTerm3(t: Term)
    requires t == Term(And, None, "ex", Compare(Equal, Null))
    ensures !ValidTerm(t)
    ensures Fragment(t) == "ex = ?"
  {
    var col := "ex";
    assert Qualify(t.alias, t.column) == col;
    assert OperatorText(t.condition.op) == "=";
    assert Fragment(t) == col + " " + "=" + " ?";
    AndEqText3();
  }

  lemma AndEqBuild1(a: Term)
    requires a == Term(And, None, "id", Compare(Equal, Int(1)))
    ensures BuildTerms([a]) == Ok("id = ?", [Int(1)])
  {
    BuildFirst(a);
    AndEqTerm1(a);
  }

  lemma AndEqJoin2()
    ensures "id = ?" + " AND " + "name = ?" == "id = ? AND name = ?"
    ensures [Int(1)] + [Str("hilo")] == [Int(1), Str("hilo")]
  {
  }

  lemma AndEqBuild2(a: Term, b: Term)
    requires a == Term(And, None, "id", Compare(Equal, Int(1)))
    requires b == Term(And, None, "name", Compare(Equal, Str("hilo")))
    ensures BuildTerms([a, b]) == Ok("id = ? AND name = ?", [Int(1), Str("hilo")])
  {
    AndEqTerm1(a);
    AndEqTerm2(b);
    BuildTwo(a, b);
    AndEqJoin2();
  }

  lemma AndEqBuild3(a: Term, b: Term, c: Term)
    requires a == Term(And, None, "id", Compare(Equal, Int(1)))
    requires b == Term(And, None, "name", Compare(Equal, Str("hilo")))
    requires c == Term(And, None, "ex", Compare(Equal, Null))
    ensures BuildTerms([a, b, c]) == Err(NullError("ex = ?"))
  {
    AndEqBuild2(a, b);
    AndEqTerm3(c);
    BuildThirdInvalid(a, b, c);
  }

  method AndEqScenario() returns (first: Rendered, second: Rendered, third: Rendered)
    ensures first == Ok("id = ?", [Int(1)])
    ensures second == Ok("id = ? AND name = ?", [Int(1), Str("hilo")])
    ensures third == Err(NullError("ex = ?"))
  {
    var a := Term(And, None, "id", Compare(Equal, Int(1)));
    var b := Term(And, None, "name", Compare(Equal, Str("hilo")));
    var c := Term(And, None, "ex", Compare(Equal, Null));
    var w := new BasicWhere();
    w.Eq(None, "id", Int(1));
    assert w.terms == [a];
    first := w.Build();
    AndEqBuild1(a);
    w.Eq(None, "name", Str("hilo"));
    assert w.terms == [a, b];
    second := w.Build();
    AndEqBuild2(a, b);
    w.Eq(None, "ex", Null);
    assert w.terms == [a, b, c];
    third := w.Build();
    AndEqBuild3(a, b, c);
  }

  // OrEqAlias: alias-qualified orEq twice, then with a null value.

  lemma OrEqAliasText1()
    ensures "ALIAS" + "." + "id" + " " + "=" + " ?" == "ALIAS.id = ?"
  {
  }

  lemma OrEqAliasTerm1(t: Term)
    requires t == Term(Or, Some("ALIAS"), "id", Compare(Equal, Int(1)))
    ensures ValidTerm(t)
    ensures Fragment(t) == "ALIAS.id = ?"
    ensures Bound(t) == [Int(1)]
  {
    var col := "ALIAS" + "." + "id";
    assert Qualify(t.alias, t.column) == col;
    assert OperatorText(t.condition.op) == "=";
    assert Fragment(t) == col + " " + "=" + " ?";
    OrEqAliasText1();
  }

  lemma OrEqAliasText2()
    ensures "ALIAS" + "." + "name" + " " + "=" + " ?" == "ALIAS.name = ?"
  {
  }

  lemma OrEqAliasTerm2(t: Term)
    requires t == Term(Or, Some("ALIAS"), "name", Compare(Equal, Str("hilo")))
    ensures ValidTerm(t)
    ensures Fragment(t) == "ALIAS.name = ?"
    ensures Bound(t) == [Str("hilo")]
  {
    var col := "ALIAS" + "." + "name";
    assert Qualify(t.alias, t.column) == col;
    assert OperatorText(t.condition.op) == "=";
    assert Fragment(t) == col + " " + "=" + " ?";
    OrEqAliasText2();
  }

  lemma OrEqAliasText3()
    ensures "ALIAS" + "." + "ex" + " " + "=" + " ?" == "ALIAS.ex = ?"
  {
  }

  lemma OrEqAliasTerm3(t: Term)
    requires t == Term(Or, Some("ALIAS"), "ex", Compare(Equal, Null))
    ensures !ValidTerm(t)
    ensures Fragment(t) == "ALIAS.ex = ?"
  {
    var col := "ALIAS" + "." + "ex";
    assert Qualify(t.alias, t.column) == col;
    assert OperatorText(t.condition.op) == "=";
    assert Fragment(t) == col + " " + "=" + " ?";
    OrEqAliasText3();
  }

  lemma OrEqAliasBuild1(a: Term)
    requires a == Term(Or, Some("ALIAS"), "id", Compare(Equal, Int(1)))
    ensures BuildTerms([a]) == Ok("ALIAS.id = ?", [Int(1)])
  {
    BuildFirst(a);
    OrEqAliasTerm1(a);
  }

  lemma OrEqAliasJoin2()
    ensures "ALIAS.id = ?" + " OR " + "ALIAS.name = ?" == "ALIAS.id = ? OR ALIAS.name = ?"
    ensures [Int(1)] + [Str("hilo")] == [Int(1), Str("hilo")]
  {
  }

  lemma OrEqAliasBuild2(a: Term, b: Term)
    requires a == Term(Or, Some("ALIAS"), "id", Compare(Equal, Int(1)))
    requires b == Term(Or, Some("ALIAS"), "name", Compare(Equal, Str("hilo")))
    ensures BuildTerms([a, b]) == Ok("ALIAS.id = ? OR ALIAS.name = ?", [Int(1), Str("hilo")])
  {
    OrEqAliasTerm1(a);
    OrEqAliasTerm2(b);
    BuildTwo(a, b);
    OrEqAliasJoin2();
  }

  lemma OrEqAliasBuild3(a: Term, b: Term, c: Term)
    requires a == Term(Or, Some("ALIAS"), "id", Compare(Equal, Int(1)))
    requires b == Term(Or, Some("ALIAS"), "name", Compare(Equal, Str("hilo")))
    requires c == Term(Or, Some("ALIAS"), "ex", Compare(Equal, Null))
    ensures BuildTerms([a, b, c]) == Err(NullError("ALIAS.ex = ?"))
  {
    OrEqAliasBuild2(a, b);
    OrEqAliasTerm3(c);
    BuildThirdInvalid(a, b, c);
  }

  method OrEqAliasScenario() returns (first: Rendered, second: Rendered, third: Rendered)
    ensures first == Ok("ALIAS.id = ?", [Int(1)])
    ensures second == Ok("ALIAS.id = ? OR ALIAS.name = ?", [Int(1), Str("hilo")])
    ensures third == Err(NullError("ALIAS.ex = ?"))
  {
    var a := Term(Or, Some("ALIAS"), "id", Compare(Equal, Int(1)));
    var b := Term(Or, Some("ALIAS"), "name", Compare(Equal, Str("hilo")));
    var c := Term(Or, Some("ALIAS"), "ex", Compare(Equal, Null));
    var w := new BasicWhere();
    w.OrEq(Some("ALIAS"), "id", Int(1));
    assert w.terms == [a];
    first := w.Build();
    OrEqAliasBuild1(a);
    w.OrEq(Some("ALIAS"), "name", Str("hilo"));
    assert w.terms == [a, b];
    second := w.Build();
    OrEqAliasBuild2(a, b);
    w.OrEq(Some("ALIAS"), "ex", Null);
    assert w.terms == [a, b, c];
    third := w.Build();
    OrEqAliasBuild3(a, b, c);
  }

  // AndGt: gt twice, then gt with a null value.

  lemma AndGtText1()
    ensures "id" + " " + ">" + " ?" == "id > ?"
  {
  }

  lemma AndGtTerm1(t: Term)
    requires t == Term(And, None, "id", Compare(Greater, Int(1)))
    ensures ValidTerm(t)
    ensures Fragment(t) == "id > ?"
    ensures Bound(t) == [Int(1)]
  {
    var col := "id";
    assert Qualify(t.alias, t.column) == col;
    assert OperatorText(t.condition.op) == ">";
    assert Fragment(t) == col + " " + ">" + " ?";
    AndGtText1();
  }

  lemma AndGtText2()
    ensures "age" + " " + ">" + " ?" == "age > ?"
  {
  }

  lemma AndGtTerm2(t: Term)
    requires t == Term(And, None, "age", Compare(Greater, Int(10)))
    ensures ValidTerm(t)
    ensures Fragment(t) == "age > ?"
    ensures Bound(t) == [Int(10)]
  {
    var col := "age";
    assert Qualify(t.alias, t.column) == col;
    assert OperatorText(t.condition.op) == ">";
    assert Fragment(t) == col + " " + ">" + " ?";
    AndGtText2();
  }

  lemma AndGtText3()
    ensures "ex" + " " + ">" + " ?" == "ex > ?"
  {
  }

  lemma AndGtTerm3(t: Term)
    requires t == Term(And, None, "ex", Compare(Greater, Null))
    ensures !ValidTerm(t)
    ensures Fragment(t) == "ex > ?"
  {
    var col := "ex";
    assert Qualify(t.alias, t.column) == col;
    assert OperatorText(t.condition.op) == ">";
    assert Fragment(t) == col + " " + ">" + " ?";
    AndGtText3();
  }

  lemma AndGtBuild1(a: Term)
    requires a == Term(And, None, "id", Compare(Greater, Int(1)))
    ensures BuildTerms([a]) == Ok("id > ?", [Int(1)])
  {
    BuildFirst(a);
    AndGtTerm1(a);
  }

  lemma AndGtJoin2()
    ensures "id > ?" + " AND " + "age > ?" == "id > ? AND age > ?"
    ensures [Int(1)] + [Int(10)] == [Int(1), Int(10)]
  {
  }

  lemma AndGtBuild2(a: Term, b: Term)
    requires a == Term(And, None, "id", Compare(Greater, Int(1)))
    requires b == Term(And, None, "age", Compare(Greater, Int(10)))
    ensures BuildTerms([a, b]) == Ok("id > ? AND age > ?", [Int(1), Int(10)])
  {
    AndGtTerm1(a);
    AndGtTerm2(b);
    BuildTwo(a, b);
    AndGtJoin2();
  }

  lemma AndGtBuild3(a: Term, b: Term, c: Term)
    requires a == Term(And, None, "id", Compare(Greater, Int(1)))
    requires b == Term(And, None, "age", Compare(Greater, Int(10)))
    requires c == Term(And, None, "ex", Compare(Greater, Null))
    ensures BuildTerms([a, b, c]) == Err(NullError("ex > ?"))
  {
    AndGtBuild2(a, b);
    AndGtTerm3(c);
    BuildThirdInvalid(a, b, c);
  }

  method AndGtScenario() returns (first: Rendered, second: Rendered, third: Rendered)
    ensures first == Ok("id > ?", [Int(1)])
    ensures second == Ok("id > ? AND age > ?", [Int(1), Int(10)])
    ensures third == Err(NullError("ex > ?"))
  {
    var a := Term(And, None, "id", Compare(Greater, Int(1)));
    var b := Term(And, None, "age", Compare(Greater, Int(10)));
    var c := Term(And, None, "ex", Compare(Greater, Null));
    var w := new BasicWhere();
    w.Gt(None, "id", Int(1));
    assert w.terms == [a];
    first := w.Build();
    AndGtBuild1(a);
    w.Gt(None, "age", Int(10));
    assert w.terms == [a, b];
    second := w.Build();
    AndGtBuild2(a, b);
    w.Gt(None, "ex", Null);
    assert w.terms == [a, b, c];
    third := w.Build();
    AndGtBuild3(a, b, c);
  }

  // AndIn: in with three and with four values, then with a null list.

  lemma AndInText1()
    ensures "id" + " IN (" + "?, ?, ?" + ")" == "id IN (?, ?, ?)"
  {
  }

  lemma AndInTerm1(t: Term)
    requires t == Term(And, None, "id", Membership(false, Some([Int(5), Int(10), Int(2)])))
    ensures ValidTerm(t)
    ensures Fragment(t) == "id IN (?, ?, ?)"
    ensures Bound(t) == [Int(5), Int(10), Int(2)]
  {
    var col := "id";
    assert Qualify(t.alias, t.column) == col;
    assert ListSize(t.condition.values) == 3;
    Placeholders3();
    assert Fragment(t) == col + " IN (" + "?, ?, ?" + ")";
    AndInText1();
  }

  lemma AndInText2()
    ensures "age" + " IN (" + "?, ?, ?, ?" + ")" == "age IN (?, ?, ?, ?)"
  {
  }

  lemma AndInTerm2(t: Term)
    requires t == Term(And, None, "age", Membership(false, Some([Int(30), Int(40), Int(20), Int(50)])))
    ensures ValidTerm(t)
    ensures Fragment(t) == "age IN (?, ?, ?, ?)"
    ensures Bound(t) == [Int(30), Int(40), Int(20), Int(50)]
  {
    var col := "age";
    assert Qualify(t.alias, t.column) == col;
    assert ListSize(t.condition.values) == 4;
    Placeholders4();
    assert Fragment(t) == col + " IN (" + "?, ?, ?, ?" + ")";
    AndInText2();
  }

  lemma AndInText3()
    ensures "ex" + " IN (" + "" + ")" == "ex IN ()"
  {
  }

  lemma AndInTerm3(t: Term)
    requires t == Term(And, None, "ex", Membership(false, None))
    ensures !ValidTerm(t)
    ensures Fragment(t) == "ex IN ()"
  {
    var col := "ex";
    assert Qualify(t.alias, t.column) == col;
    assert ListSize(t.condition.values) == 0;
    assert seq(0, _ => "?") == [];
    assert Fragment(t) == col + " IN (" + "" + ")";
    AndInText3();
  }

  lemma AndInBuild1(a: Term)
    requires a == Term(And, None, "id", Membership(false, Some([Int(5), Int(10), Int(2)])))
    ensures BuildTerms([a]) == Ok("id IN (?, ?, ?)", [Int(5), Int(10), Int(2)])
  {
    BuildFirst(a);
    AndInTerm1(a);
  }

  lemma AndInJoin2()
    ensures "id IN (?, ?, ?)" + " AND " + "age IN (?, ?, ?, ?)" == "id IN (?, ?, ?) AND age IN (?, ?, ?, ?)"
    ensures [Int(5), Int(10), Int(2)] + [Int(30), Int(40), Int(20), Int(50)] == [Int(5), Int(10), Int(2), Int(30), Int(40), Int(20), Int(50)]
  {
  }

  lemma AndInBuild2(a: Term, b: Term)
    requires a == Term(And, None, "id", Membership(false, Some([Int(5), Int(10), Int(2)])))
    requires b == Term(And, None, "age", Membership(false, Some([Int(30), Int(40), Int(20), Int(50)])))
    ensures BuildTerms([a, b]) == Ok("id IN (?, ?, ?) AND age IN (?, ?, ?, ?)", [Int(5), Int(10), Int(2), Int(30), Int(40), Int(20), Int(50)])
  {
    AndInTerm1(a);
    AndInTerm2(b);
    BuildTwo(a, b);
    AndInJoin2();
  }

  lemma AndInBuild3(a: Term, b: Term, c: Term)
    requires a == Term(And, None, "id", Membership(false, Some([Int(5), Int(10), Int(2)])))
    requires b == Term(And, None, "age", Membership(false, Some([Int(30), Int(40), Int(20), Int(50)])))
    requires c == Term(And, None, "ex", Membership(false, None))
    ensures BuildTerms([a, b, c]) == Err(EmptyError("ex IN ()"))
  {
    AndInBuild2(a, b);
    AndInTerm3(c);
    BuildThirdInvalid(a, b, c);
  }

  method AndInScenario() returns (first: Rendered, second: Rendered, third: Rendered)
    ensures first == Ok("id IN (?, ?, ?)", [Int(5), Int(10), Int(2)])
    ensures second == Ok("id IN (?, ?, ?) AND age IN (?, ?, ?, ?)", [Int(5), Int(10), Int(2), Int(30), Int(40), Int(20), Int(50)])
    ensures third == Err(EmptyError("ex IN ()"))
  {
    var a := Term(And, None, "id", Membership(false, Some([Int(5), Int(10), Int(2)])));
    var b := Term(And, None, "age", Membership(false, Some([Int(30), Int(40), Int(20), Int(50)])));
    var c := Term(And, None, "ex", Membership(false, None));
    var w := new BasicWhere();
    w.In(None, "id", Some([Int(5), Int(10), Int(2)]));
    assert w.terms == [a];
    first := w.Build();
    AndInBuild1(a);
    w.In(None, "age", Some([Int(30), Int(40), Int(20), Int(50)]));
    assert w.terms == [a, b];
    second := w.Build();
    AndInBuild2(a, b);
    w.In(None, "ex", None);
    assert w.terms == [a, b, c];
    third := w.Build();
    AndInBuild3(a, b, c);
  }

  // AndInEmpty: in with an empty list.

  lemma AndInEmptyText1()
    ensures "ex" + " IN (" + "" + ")" == "ex IN ()"
  {
  }

  lemma AndInEmptyTerm1(t: Term)
    requires t == Term(And, None, "ex", Membership(false, Some([])))
    ensures !ValidTerm(t)
    ensures Fragment(t) == "ex IN ()"
  {
    var col := "ex";
    assert Qualify(t.alias, t.column) == col;
    assert ListSize(t.condition.values) == 0;
    assert seq(0, _ => "?") == [];
    assert Fragment(t) == col + " IN (" + "" + ")";
    AndInEmptyText1();
  }

  lemma AndInEmptyBuild1(a: Term)
    requires a == Term(And, None, "ex", Membership(false, Some([])))
    ensures BuildTerms([a]) == Err(EmptyError("ex IN ()"))
  {
    BuildFirst(a);
    AndInEmptyTerm1(a);
  }

  method AndInEmptyScenario() returns (r: Rendered)
    ensures r == Err(EmptyError("ex IN ()"))
  {
    var a := Term(And, None, "ex", Membership(false, Some([])));
    var w := new BasicWhere();
    w.In(None, "ex", Some([]));
    assert w.terms == [a];
    r := w.Build();
    AndInEmptyBuild1(a);
  }

  // OrNotInAliasEmpty: alias-qualified orNotIn with an empty list.

  lemma OrNotInAliasEmptyText1()
    ensures "ALIAS" + "." + "ex" + " NOT IN (" + "" + ")" == "ALIAS.ex NOT IN ()"
  {
  }

  lemma OrNotInAliasEmptyTerm1(t: Term)
    requires t == Term(Or, Some("ALIAS"), "ex", Membership(true, Some([])))
    ensures !ValidTerm(t)
    ensures Fragment(t) == "ALIAS.ex NOT IN ()"
  {
    var col := "ALIAS" + "." + "ex";
    assert Qualify(t.alias, t.column) == col;
    assert ListSize(t.condition.values) == 0;
    assert seq(0, _ => "?") == [];
    assert Fragment(t) == col + " NOT IN (" + "" + ")";
    OrNotInAliasEmptyText1();
  }

  lemma OrNotInAliasEmptyBuild1(a: Term)
    requires a == Term(Or, Some("ALIAS"), "ex", Membership(true, Some([])))
    ensures BuildTerms([a]) == Err(EmptyError("ALIAS.ex NOT IN ()"))
  {
    BuildFirst(a);
    OrNotInAliasEmptyTerm1(a);
  }

  method OrNotInAliasEmptyScenario() returns (r: Rendered)
    ensures r == Err(EmptyError("ALIAS.ex NOT IN ()"))
  {
    var a := Term(Or, Some("ALIAS"), "ex", Membership(true, Some([])));
    var w := new BasicWhere();
    w.OrNotIn(Some("ALIAS"), "ex", Some([]));
    assert w.terms == [a];
    r := w.Build();
    OrNotInAliasEmptyBuild1(a);
  }

  // AndBeginWith: beginWith twice, then with a null operand.

  lemma AndBeginWithText1()
    ensures "name" + " LIKE ?" == "name LIKE ?"
    ensures "h" + "%" == "h%"
  {
  }

  lemma AndBeginWithTerm1(t: Term)
    requires t == Term(And, None, "name", Like(Prefix, Some("h")))
    ensures ValidTerm(t)
    ensures Fragment(t) == "name LIKE ?"
    ensures Bound(t) == [Str("h%")]
  {
    var col := "name";
    assert Qualify(t.alias, t.column) == col;
    assert PatternText(Prefix, "h") == "h" + "%";
    assert Fragment(t) == col + " LIKE ?";
    AndBeginWithText1();
  }

  lemma AndBeginWithText2()
    ensures "name" + " LIKE ?" == "name LIKE ?"
    ensures "i" + "%" == "i%"
  {
  }

  lemma AndBeginWithTerm2(t: Term)
    requires t == Term(And, None, "name", Like(Prefix, Some("i")))
    ensures ValidTerm(t)
    ensures Fragment(t) == "name LIKE ?"
    ensures Bound(t) == [Str("i%")]
  {
    var col := "name";
    assert Qualify(t.alias, t.column) == col;
    assert PatternText(Prefix, "i") == "i" + "%";
    assert Fragment(t) == col + " LIKE ?";
    AndBeginWithText2();
  }

  lemma AndBeginWithText3()
    ensures "ex" + " LIKE ?" == "ex LIKE ?"
  {
  }

  lemma AndBeginWithTerm3(t: Term)
    requires t == Term(And, None, "ex", Like(Prefix, None))
    ensures !ValidTerm(t)
    ensures Fragment(t) == "ex LIKE ?"
  {
    var col := "ex";
    assert Qualify(t.alias, t.column) == col;
    assert Fragment(t) == col + " LIKE ?";
    AndBeginWithText3();
  }

  lemma AndBeginWithBuild1(a: Term)
    requires a == Term(And, None, "name", Like(Prefix, Some("h")))
    ensures BuildTerms([a]) == Ok("name LIKE ?", [Str("h%")])
  {
    BuildFirst(a);
    AndBeginWithTerm1(a);
  }

  lemma AndBeginWithJoin2()
    ensures "name LIKE ?" + " AND " + "name LIKE ?" == "name LIKE ? AND name LIKE ?"
    ensures [Str("h%")] + [Str("i%")] == [Str("h%"), Str("i%")]
  {
  }

  lemma AndBeginWithBuild2(a: Term, b: Term)
    requires a == Term(And, None, "name", Like(Prefix, Some("h")))
    requires b == Term(And, None, "name", Like(Prefix, Some("i")))
    ensures BuildTerms([a, b]) == Ok("name LIKE ? AND name LIKE ?", [Str("h%"), Str("i%")])
  {
    AndBeginWithTerm1(a);
    AndBeginWithTerm2(b);
    BuildTwo(a, b);
    AndBeginWithJoin2();
  }

  lemma AndBeginWithBuild3(a: Term, b: Term, c: Term)
    requires a == Term(And, None, "name", Like(Prefix, Some("h")))
    requires b == Term(And, None, "name", Like(Prefix, Some("i")))
    requires c == Term(And, None, "ex", Like(Prefix, None))
    ensures BuildTerms([a, b, c]) == Err(NullError("ex LIKE ?"))
  {
    AndBeginWithBuild2(a, b);
    AndBeginWithTerm3(c);
    BuildThirdInvalid(a, b, c);
  }

  method AndBeginWithScenario() returns (first: Rendered, second: Rendered, third: Rendered)
    ensures first == Ok("name LIKE ?", [Str("h%")])
    ensures second == Ok("name LIKE ? AND name LIKE ?", [Str("h%"), Str("i%")])
    ensures third == Err(NullError("ex LIKE ?"))
  {
    var a := Term(And, None, "name", Like(Prefix, Some("h")));
    var b := Term(And, None, "name", Like(Prefix, Some("i")));
    var c := Term(And, None, "ex", Like(Prefix, None));
    var w := new BasicWhere();
    w.BeginWith(None, "name", Some("h"));
    assert w.terms == [a];
    first := w.Build();
    AndBeginWithBuild1(a);
    w.BeginWith(None, "name", Some("i"));
    assert w.terms == [a, b];
    second := w.Build();
    AndBeginWithBuild2(a, b);
    w.BeginWith(None, "ex", None);
    assert w.terms == [a, b, c];
    third := w.Build();
    AndBeginWithBuild3(a, b, c);
  }

  // AndEndsWithAlias: alias-qualified endsWith twice, then with a null operand.

  lemma AndEndsWithAliasText1()
    ensures "ALIAS" + "." + "name" + " LIKE ?" == "ALIAS.name LIKE ?"
    ensures "%" + "h" == "%h"
  {
  }

  lemma AndEndsWithAliasTerm1(t: Term)
    requires t == Term(And, Some("ALIAS"), "name", Like(Suffix, Some("h")))
    ensures ValidTerm(t)
    ensures Fragment(t) == "ALIAS.name LIKE ?"
    ensures Bound(t) == [Str("%h")]
  {
    var col := "ALIAS" + "." + "name";
    assert Qualify(t.alias, t.column) == col;
    assert PatternText(Suffix, "h") == "%" + "h";
    assert Fragment(t) == col + " LIKE ?";
    AndEndsWithAliasText1();
  }

  lemma AndEndsWithAliasText2()
    ensures "ALIAS" + "." + "name" + " LIKE ?" == "ALIAS.name LIKE ?"
    ensures "%" + "i" == "%i"
  {
  }

  lemma AndEndsWithAliasTerm2(t: Term)
    requires t == Term(And, Some("ALIAS"), "name", Like(Suffix, Some("i")))
    ensures ValidTerm(t)
    ensures Fragment(t) == "ALIAS.name LIKE ?"
    ensures Bound(t) == [Str("%i")]
  {
    var col := "ALIAS" + "." + "name";
    assert Qualify(t.alias, t.column) == col;
    assert PatternText(Suffix, "i") == "%" + "i";
    assert Fragment(t) == col + " LIKE ?";
    AndEndsWithAliasText2();
  }

  lemma AndEndsWithAliasText3()
    ensures "ALIAS" + "." + "ex" + " LIKE ?" == "ALIAS.ex LIKE ?"
  {
  }

  lemma AndEndsWithAliasTerm3(t: Term)
    requires t == Term(And, Some("ALIAS"), "ex", Like(Suffix, None))
    ensures !ValidTerm(t)
    ensures Fragment(t) == "ALIAS.ex LIKE ?"
  {
    var col := "ALIAS" + "." + "ex";
    assert Qualify(t.alias, t.column) == col;
    assert Fragment(t) == col + " LIKE ?";
    AndEndsWithAliasText3();
  }

  lemma AndEndsWithAliasBuild1(a: Term)
    requires a == Term(And, Some("ALIAS"), "name", Like(Suffix, Some("h")))
    ensures BuildTerms([a]) == Ok("ALIAS.name LIKE ?", [Str("%h")])
  {
    BuildFirst(a);
    AndEndsWithAliasTerm1(a);
  }

  lemma AndEndsWithAliasJoin2()
    ensures "ALIAS.name LIKE ?" + " AND " + "ALIAS.name LIKE ?" == "ALIAS.name LIKE ? AND ALIAS.name LIKE ?"
    ensures [Str("%h")] + [Str("%i")] == [Str("%h"), Str("%i")]
  {
  }

  lemma AndEndsWithAliasBuild2(a: Term, b: Term)
    requires a == Term(And, Some("ALIAS"), "name", Like(Suffix, Some("h")))
    requires b == Term(And, Some("ALIAS"), "name", Like(Suffix, Some("i")))
    ensures BuildTerms([a, b]) == Ok("ALIAS.name LIKE ? AND ALIAS.name LIKE ?", [Str("%h"), Str("%i")])
  {
    AndEndsWithAliasTerm1(a);
    AndEndsWithAliasTerm2(b);
    BuildTwo(a, b);
    AndEndsWithAliasJoin2();
  }

  lemma AndEndsWithAliasBuild3(a: Term, b: Term, c: Term)
    requires a == Term(And, Some("ALIAS"), "name", Like(Suffix, Some("h")))
    requires b == Term(And, Some("ALIAS"), "name", Like(Suffix, Some("i")))
    requires c == Term(And, Some("ALIAS"), "ex", Like(Suffix, None))
    ensures BuildTerms([a, b, c]) == Err(NullError("ALIAS.ex LIKE ?"))
  {
    AndEndsWithAliasBuild2(a, b);
    AndEndsWithAliasTerm3(c);
    BuildThirdInvalid(a, b, c);
  }

  method AndEndsWithAliasScenario() returns (first: Rendered, second: Rendered, third: Rendered)
    ensures first == Ok("ALIAS.name LIKE ?", [Str("%h")])
    ensures second == Ok("ALIAS.name LIKE ? AND ALIAS.name LIKE ?", [Str("%h"), Str("%i")])
    ensures third == Err(NullError("ALIAS.ex LIKE ?"))
  {
    var a := Term(And, Some("ALIAS"), "name", Like(Suffix, Some("h")));
    var b := Term(And, Some("ALIAS"), "name", Like(Suffix, Some("i")));
    var c := Term(And, Some("ALIAS"), "ex", Like(Suffix, None));
    var w := new BasicWhere();
    w.EndsWith(Some("ALIAS"), "name", Some("h"));
    assert w.terms == [a];
    first := w.Build();
    AndEndsWithAliasBuild1(a);
    w.EndsWith(Some("ALIAS"), "name", Some("i"));
    assert w.terms == [a, b];
    second := w.Build();
    AndEndsWithAliasBuild2(a, b);
    w.EndsWith(Some("ALIAS"), "ex", None);
    assert w.terms == [a, b, c];
    third := w.Build();
    AndEndsWithAliasBuild3(a, b, c);
  }

  // OrContains: orContains twice, then with a null operand.

  lemma OrContainsText1()
    ensures "name" + " LIKE ?" == "name LIKE ?"
    ensures "%" + "h" + "%" == "%h%"
  {
  }

  lemma OrContainsTerm1(t: Term)
    requires t == Term(Or, None, "name", Like(Infix, Some("h")))
    ensures ValidTerm(t)
    ensures Fragment(t) == "name LIKE ?"
    ensures Bound(t) == [Str("%h%")]
  {
    var col := "name";
    assert Qualify(t.alias, t.column) == col;
    assert PatternText(Infix, "h") == "%" + "h" + "%";
    assert Fragment(t) == col + " LIKE ?";
    OrContainsText1();
  }

  lemma OrContainsText2()
    ensures "name" + " LIKE ?" == "name LIKE ?"
    ensures "%" + "i" + "%" == "%i%"
  {
  }

  lemma OrContainsTerm2(t: Term)
    requires t == Term(Or, None, "name", Like(Infix, Some("i")))
    ensures ValidTerm(t)
    ensures Fragment(t) == "name LIKE ?"
    ensures Bound(t) == [Str("%i%")]
  {
    var col := "name";
    assert Qualify(t.alias, t.column) == col;
    assert PatternText(Infix, "i") == "%" + "i" + "%";
    assert Fragment(t) == col + " LIKE ?";
    OrContainsText2();
  }

  lemma OrContainsText3()
    ensures "ex" + " LIKE ?" == "ex LIKE ?"
  {
  }

  lemma OrContainsTerm3(t: Term)
    requires t == Term(Or, None, "ex", Like(Infix, None))
    ensures !ValidTerm(t)
    ensures Fragment(t) == "ex LIKE ?"
  {
    var col := "ex";
    assert Qualify(t.alias, t.column) == col;
    assert Fragment(t) == col + " LIKE ?";
    OrContainsText3();
  }

  lemma OrContainsBuild1(a: Term)
    requires a == Term(Or, None, "name", Like(Infix, Some("h")))
    ensures BuildTerms([a]) == Ok("name LIKE ?", [Str("%h%")])
  {
    BuildFirst(a);
    OrContainsTerm1(a);
  }

  lemma OrContainsJoin2()
    ensures "name LIKE ?" + " OR " + "name LIKE ?" == "name LIKE ? OR name LIKE ?"
    ensures [Str("%h%")] + [Str("%i%")] == [Str("%h%"), Str("%i%")]
  {
  }

  lemma OrContainsBuild2(a: Term, b: Term)
    requires a == Term(Or, None, "name", Like(Infix, Some("h")))
    requires b == Term(Or, None, "name", Like(Infix, Some("i")))
    ensures BuildTerms([a, b]) == Ok("name LIKE ? OR name LIKE ?", [Str("%h%"), Str("%i%")])
  {
    OrContainsTerm1(a);
    OrContainsTerm2(b);
    BuildTwo(a, b);
    OrContainsJoin2();
  }

  lemma OrContainsBuild3(a: Term, b: Term, c: Term)
    requires a == Term(Or, None, "name", Like(Infix, Some("h")))
    requires b == Term(Or, None, "name", Like(Infix, Some("i")))
    requires c == Term(Or, None, "ex", Like(Infix, None))
    ensures BuildTerms([a, b, c]) == Err(NullError("ex LIKE ?"))
  {
    OrContainsBuild2(a, b);
    OrContainsTerm3(c);
    BuildThirdInvalid(a, b, c);
  }

  method OrContainsScenario() returns (first: Rendered, second: Rendered, third: Rendered)
    ensures first == Ok("name LIKE ?", [Str("%h%")])
    ensures second == Ok("name LIKE ? OR name LIKE ?", [Str("%h%"), Str("%i%")])
    ensures third == Err(NullError("ex LIKE ?"))
  {
    var a := Term(Or, None, "name", Like(Infix, Some("h")));
    var b := Term(Or, None, "name", Like(Infix, Some("i")));
    var c := Term(Or, None, "ex", Like(Infix, None));
    var w := new BasicWhere();
    w.OrContains(None, "name", Some("h"));
    assert w.terms == [a];
    first := w.Build();
    OrContainsBuild1(a);
    w.OrContains(None, "name", Some("i"));
    assert w.terms == [a, b];
    second := w.Build();
    OrContainsBuild2(a, b);
    w.OrContains(None, "ex", None);
    assert w.terms == [a, b, c];
    third := w.Build();
    OrContainsBuild3(a, b, c);
  }

}
