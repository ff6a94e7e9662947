/** The WHERE predicate accumulator (BasicWhere): an ordered list of terms,
    rendered on demand into condition text with `?` placeholders and the list
    of values bound to them, validating the terms lazily and in order. */
module Where {
  import opened Wrappers
  import opened Strings

  /** A bound value: an opaque Java object, with `Null` for a Java null. */
  datatype Value = Null | Int(i: int) | Str(s: string)

  /** The boolean joiner written before every term but the first. */
  datatype Connector = And | Or

  datatype Comparison = Equal | NotEqual | Greater | GreaterOrEqual | Less | LessOrEqual

  /** Where the `%` wildcards go around a LIKE operand. */
  datatype Pattern = Prefix | Suffix | Infix

  /** What a term tests, with the value or list it was given (possibly null). */
  datatype Condition =
    | NullTest(negated: bool)
    | Compare(op: Comparison, value: Value)
    | Membership(negated: bool, values: Option<seq<Value>>)
    | Like(pattern: Pattern, text: Option<string>)

  /** One recorded call: connector, optional alias, column and condition. */
  datatype Term = Term(connector: Connector, alias: Option<string>, column: string, condition: Condition)

  /** What a build produces: the SQL text and its parameters, or the failure message. */
  datatype Rendered = Ok(sql: string, params: seq<Value>) | Err(message: string)

  function OperatorText(op: Comparison): string
  {
    match op
    case Equal => "="
    case NotEqual => "!="
    case Greater => ">"
    case GreaterOrEqual => ">="
    case Less => "<"
    case LessOrEqual => "<="
  }

  function ConnectorText(c: Connector): string
  {
    match c
    case And => " AND "
    case Or => " OR "
  }

  /** `n` placeholders separated by ", ". */
  function Placeholders(n: nat): string
  {
    Join(", ", seq(n, _ => "?"))
  }

  /** The number of elements of a possibly null list. */
  function ListSize(values: Option<seq<Value>>): nat
  {
    match values
    case Some(vs) => |vs|
    case None => 0
  }

  /** The text of one term; for a null or empty IN list this is the `col IN ()`
      text that the error message cites. */
  function Fragment(t: Term): string
  {
    var col := Qualify(t.alias, t.column);
    match t.condition
    case NullTest(negated) => col + (if negated then " IS NOT NULL" else " IS NULL")
    case Compare(op, _) => col + " " + OperatorText(op) + " ?"
    case Membership(negated, vs) =>
      col + (if negated then " NOT IN (" else " IN (") + Placeholders(ListSize(vs)) + ")"
    case Like(_, _) => col + " LIKE ?"
  }

  /** A term passes validation: scalars and LIKE operands are not null, IN lists are present and not empty. */
  predicate ValidTerm(t: Term)
  {
    match t.condition
    case NullTest(_) => true
    case Compare(_, v) => v != Null
    case Membership(_, vs) => vs.Some? && |vs.value| > 0
    case Like(_, text) => text.Some?
  }

  /** The LIKE operand with its wildcards. */
  function PatternText(p: Pattern, v: string): string
  {
    match p
    case Prefix => v + "%"
    case Suffix => "%" + v
    case Infix => "%" + v + "%"
  }

  /** The values a valid term binds, in placeholder order. */
  function Bound(t: Term): seq<Value>
    requires ValidTerm(t)
  {
    match t.condition
    case NullTest(_) => []
    case Compare(_, v) => [v]
    case Membership(_, vs) => vs.value
    case Like(p, text) => [Str(PatternText(p, text.value))]
  }

  /** The two failure messages, with the fragment of the offending term in place of `%s`. */
  function NullError(query: string): string
  {
    "value must not be NULL. query:[" + query + "]"
  }

  function EmptyError(query: string): string
  {
    "value must not be EMPTY. query:[" + query + "]"
  }

  /** The message of the failure an invalid term causes: IN lists fail as
      empty, everything else as null. */
  function ErrorMessage(t: Term): string
  {
    if t.condition.Membership? then EmptyError(Fragment(t)) else NullError(Fragment(t))
  }

  /** The text written before a term: nothing for the first, its connector otherwise. */
  function Joiner(t: Term, first: bool): string
  {
    if first then "" else ConnectorText(t.connector)
  }

  /** One step of `build`: a failure stays, an invalid term fails, a valid one is appended. */
  function Step(acc: Rendered, t: Term, first: bool): Rendered
  {
    match acc
    case Err(m) => Err(m)
    case Ok(sql, ps) =>
      if !ValidTerm(t) then Err(ErrorMessage(t)) else Ok(sql + Joiner(t, first) + Fragment(t), ps + Bound(t))
  }

  /** `build`: a left-to-right fold over the terms that stops at the first invalid one. */
  function BuildTerms(ts: seq<Term>): Rendered
    decreases |ts|
  {
    if |ts| == 0 then Ok("", []) else Step(BuildTerms(ts[..|ts| - 1]), ts[|ts| - 1], |ts| == 1)
  }

  /** The first term is rendered without a connector. */
  lemma BuildFirst(t: Term)
    ensures BuildTerms([t]) == if ValidTerm(t) then Ok(Fragment(t), Bound(t)) else Err(ErrorMessage(t))
  {
    assert [t][..0] == [];
  }

  /** A later term is joined by exactly its connector text and appends its values;
      an invalid later term fails the build with its own message. */
  lemma BuildNext(ts: seq<Term>, t: Term)
    requires |ts| > 0 && BuildTerms(ts).Ok?
    ensures BuildTerms(ts + [t]) ==
      if ValidTerm(t) then Ok(BuildTerms(ts).sql + ConnectorText(t.connector) + Fragment(t), BuildTerms(ts).params + Bound(t))
      else Err(ErrorMessage(t))
  {
    assert (ts + [t])[..|ts|] == ts;
  }

  // ---------------------------------------------------------------------
  // An independent, front-to-back statement of what a successful build yields.

  predicate AllValid(ts: seq<Term>)
  {
    forall i :: 0 <= i < |ts| ==> ValidTerm(ts[i])
  }

  /** Every term preceded by its own connector. */
  function Connected(ts: seq<Term>): string
    decreases |ts|
  {
    if |ts| == 0 then "" else ConnectorText(ts[0].connector) + Fragment(ts[0]) + Connected(ts[1..])
  }

  /** The condition text: the first term bare, each later one after its connector. */
  function ConditionText(ts: seq<Term>): string
  {
    if |ts| == 0 then "" else Fragment(ts[0]) + Connected(ts[1..])
  }

  /** The concatenation of every term's bound values, in term order. */
  function AllBound(ts: seq<Term>): seq<Value>
    requires AllValid(ts)
    decreases |ts|
  {
    if |ts| == 0 then [] else Bound(ts[0]) + AllBound(ts[1..])
  }

  lemma {:induction false} ConnectedSnoc(ts: seq<Term>, t: Term)
    ensures Connected(ts + [t]) == Connected(ts) + ConnectorText(t.connector) + Fragment(t)
    decreases |ts|
  {
    DropSnoc(ts, t);
    if |ts| > 0 {
      ConnectedSnoc(ts[1..], t);
    }
  }

  lemma {:induction false} AllBoundSnoc(ts: seq<Term>, t: Term)
    requires AllValid(ts) && ValidTerm(t)
    ensures AllValid(ts + [t])
    ensures AllBound(ts + [t]) == AllBound(ts) + Bound(t)
    decreases |ts|
  {
    assert forall i :: 0 <= i < |ts + [t]| ==> (ts + [t])[i] == if i < |ts| then ts[i] else t;
    if |ts| == 0 {
      assert (ts + [t])[1..] == [];
    } else {
      assert (ts + [t])[1..] == ts[1..] + [t];
      AllBoundSnoc(ts[1..], t);
    }
  }

  lemma AllValidInit(ts: seq<Term>)
    requires |ts| > 0
    ensures AllValid(ts) <==> AllValid(ts[..|ts| - 1]) && ValidTerm(ts[|ts| - 1])
  {
    var init := ts[..|ts| - 1];
    if AllValid(init) && ValidTerm(ts[|ts| - 1]) {
      forall i | 0 <= i < |ts| ensures ValidTerm(ts[i]) {
        if i < |init| { assert ts[i] == init[i]; }
      }
    }
    if AllValid(ts) {
      forall i | 0 <= i < |init| ensures ValidTerm(init[i]) { assert init[i] == ts[i]; }
    }
  }

  /** A build succeeds exactly when every term is valid. */
  lemma {:induction false} BuildOkIff(ts: seq<Term>)
    ensures BuildTerms(ts).Ok? <==> AllValid(ts)
    decreases |ts|
  {
    if |ts| > 0 {
      BuildOkIff(ts[..|ts| - 1]);
      AllValidInit(ts);
    }
  }

  /** A successful build yields the connector-joined condition text and the
      concatenated bound values. */
  lemma {:induction false} BuildCorrect(ts: seq<Term>)
    requires AllValid(ts)
    ensures BuildTerms(ts) == Ok(ConditionText(ts), AllBound(ts))
    decreases |ts|
  {
    if |ts| > 0 {
      var init, t := ts[..|ts| - 1], ts[|ts| - 1];
      AllValidInit(ts);
      BuildCorrect(init);
      var text := ConditionText(init) + Joiner(t, |ts| == 1) + Fragment(t);
      assert BuildTerms(ts) == Step(Ok(ConditionText(init), AllBound(init)), t, |ts| == 1);
      assert BuildTerms(ts) == Ok(text, AllBound(init) + Bound(t));
      SplitAfter(ts, |ts| - 1);
      assert ts[..|ts|] == ts;
      AllBoundSnoc(init, t);
      ConditionTextSnoc(init, t);
    }
  }

  lemma ConditionTextSnoc(init: seq<Term>, t: Term)
    ensures ConditionText(init + [t]) == ConditionText(init) + Joiner(t, |init| == 0) + Fragment(t)
  {
    DropSnoc(init, t);
    if |init| > 0 {
      ConnectedSnoc(init[1..], t);
    }
  }

  /** Terms added after a failing one do not change the failure. */
  lemma {:induction false} BuildErrSticky(ts: seq<Term>, us: seq<Term>)
    requires BuildTerms(ts).Err?
    ensures BuildTerms(ts + us) == BuildTerms(ts)
    decreases |us|
  {
    if |us| == 0 {
      assert ts + us == ts;
    } else {
      var init := us[..|us| - 1];
      BuildErrSticky(ts, init);
      assert (ts + us)[..|ts + us| - 1] == ts + init;
    }
  }

  /** Validation stops at the first invalid term, and the failure cites that term alone. */
  lemma BuildFirstFailure(ts: seq<Term>, i: nat)
    requires i < |ts| && !ValidTerm(ts[i])
    requires forall j :: 0 <= j < i ==> ValidTerm(ts[j])
    ensures BuildTerms(ts) == Err(ErrorMessage(ts[i]))
  {
    var init, t := ts[..i], ts[i];
    SplitAfter(ts, i);
    if i == 0 {
      BuildFirst(t);
    } else {
      assert AllValid(init) by {
        forall j | 0 <= j < i ensures ValidTerm(init[j]) { assert init[j] == ts[j]; }
      }
      BuildOkIff(init);
      BuildNext(init, t);
    }
    assert BuildTerms(ts[..i + 1]).Err?;
    BuildErrSticky(ts[..i + 1], ts[i + 1..]);
  }

  /** Dropping the head of a list extended at the back. */
  lemma DropSnoc<T>(s: seq<T>, x: T)
    ensures |s| == 0 ==> (s + [x])[0] == x && (s + [x])[1..] == []
    ensures |s| > 0 ==> (s + [x])[0] == s[0] && (s + [x])[1..] == s[1..] + [x]
  {
  }

  /** Cutting a list after its `i`-th element. */
  lemma SplitAfter<T>(s: seq<T>, i: nat)
    requires i < |s|
    ensures s[..i + 1] == s[..i] + [s[i]]
    ensures s[..i + 1][..i] == s[..i] && s[..i + 1][i] == s[i]
    ensures s[..i + 1] + s[i + 1..] == s
  {
  }

  /** Adding terms never changes what the earlier terms produce: a successful
      build of a longer list extends the text and the parameters of the shorter one. */
  lemma {:induction false} BuildPrefix(ts: seq<Term>, us: seq<Term>)
    requires BuildTerms(ts + us).Ok?
    ensures BuildTerms(ts).Ok?
    ensures BuildTerms(ts).sql <= BuildTerms(ts + us).sql
    ensures BuildTerms(ts).params <= BuildTerms(ts + us).params
    decreases |us|
  {
    if |us| == 0 {
      assert ts + us == ts;
    } else {
      var init := us[..|us| - 1];
      assert (ts + us)[..|ts + us| - 1] == ts + init;
      BuildPrefix(ts, init);
    }
  }

  // ---------------------------------------------------------------------
  // Placeholders and parameters.

  /** One more placeholder appends ", ?". */
  lemma PlaceholdersNext(n: nat)
    ensures Placeholders(n + 1) == if n == 0 then "?" else Placeholders(n) + ", ?"
  {
    assert seq(n + 1, _ => "?") == seq(n, _ => "?") + ["?"];
    JoinSnoc(", ", seq(n, _ => "?"), "?");
  }

  lemma PlaceholdersCount(n: nat)
    ensures Occurrences('?', Placeholders(n)) == n
  {
    OccurrencesJoin('?', ", ", seq(n, _ => "?"));
    TotalQuestionMarks(n);
  }

  lemma {:induction false} TotalQuestionMarks(n: nat)
    ensures TotalOccurrences('?', seq(n, _ => "?")) == n
    decreases n
  {
    if n > 0 {
      assert seq(n, _ => "?")[1..] == seq(n - 1, _ => "?");
      TotalQuestionMarks(n - 1);
    }
  }

  /** No `?` in a term's alias or column. */
  predicate MarkFree(t: Term)
  {
    Occurrences('?', t.column) == 0 && (t.alias.Some? ==> Occurrences('?', t.alias.value) == 0)
  }

  lemma ConnectorMarks(t: Term, first: bool)
    ensures Occurrences('?', Joiner(t, first)) == 0
  {
    OccurrencesNone('?', Joiner(t, first));
  }

  lemma FragmentMarks(t: Term)
    requires ValidTerm(t) && MarkFree(t)
    ensures Occurrences('?', Fragment(t)) == |Bound(t)|
  {
    var col := Qualify(t.alias, t.column);
    if t.alias.Some? {
      OccurrencesConcat('?', t.alias.value + ".", t.column);
      OccurrencesConcat('?', t.alias.value, ".");
    }
    match t.condition
    case NullTest(negated) => NullTestMarks(col, negated);
    case Compare(op, _) => CompareMarks(col, op);
    case Membership(negated, vs) => MembershipMarks(col, negated, ListSize(vs));
    case Like(_, _) => LikeMarks(col);
  }

  /** A text free of `?` keeps none after a literal suffix free of `?`. */
  lemma PlainSuffix(col: string, rest: string)
    requires Occurrences('?', col) == 0
    requires forall i :: 0 <= i < |rest| ==> rest[i] != '?'
    ensures Occurrences('?', col + rest) == 0
  {
    OccurrencesNone('?', rest);
    OccurrencesConcat('?', col, rest);
  }

  /** A text free of `?` followed by one literal `?`. */
  lemma OneMark(col: string)
    requires Occurrences('?', col) == 0
    ensures Occurrences('?', col + "?") == 1
  {
    OccurrencesConcat('?', col, "?");
    assert "?"[1..] == "";
  }

  lemma NullTestMarks(col: string, negated: bool)
    requires Occurrences('?', col) == 0
    ensures Occurrences('?', col + (if negated then " IS NOT NULL" else " IS NULL")) == 0
  {
    PlainSuffix(col, if negated then " IS NOT NULL" else " IS NULL");
  }

  lemma CompareMarks(col: string, op: Comparison)
    requires Occurrences('?', col) == 0
    ensures Occurrences('?', col + " " + OperatorText(op) + " ?") == 1
  {
    var head := col + " " + OperatorText(op) + " ";
    PlainSuffix(col, " " + OperatorText(op) + " ");
    assert col + (" " + OperatorText(op) + " ") == head;
    OneMark(head);
    assert head + "?" == col + " " + OperatorText(op) + " ?";
  }

  lemma MembershipMarks(col: string, negated: bool, n: nat)
    requires Occurrences('?', col) == 0
    ensures Occurrences('?', col + (if negated then " NOT IN (" else " IN (") + Placeholders(n) + ")") == n
  {
    var open := if negated then " NOT IN (" else " IN (";
    var head := col + open;
    var body := head + Placeholders(n);
    PlainSuffix(col, open);
    PlaceholdersCount(n);
    OccurrencesConcat('?', head, Placeholders(n));
    assert Occurrences('?', body) == n;
    OccurrencesNone('?', ")");
    OccurrencesConcat('?', body, ")");
  }

  lemma LikeMarks(col: string)
    requires Occurrences('?', col) == 0
    ensures Occurrences('?', col + " LIKE ?") == 1
  {
    PlainSuffix(col, " LIKE ");
    OneMark(col + " LIKE ");
    assert col + " LIKE " + "?" == col + " LIKE ?";
  }

  lemma {:induction false} PlaceholderCount(ts: seq<Term>)
    requires forall i :: 0 <= i < |ts| ==> MarkFree(ts[i])
    ensures BuildTerms(ts).Ok? ==> Occurrences('?', BuildTerms(ts).sql) == |BuildTerms(ts).params|
    decreases |ts|
  {
    if |ts| > 0 {
      var init, t := ts[..|ts| - 1], ts[|ts| - 1];
      PlaceholderCount(init);
      if BuildTerms(ts).Ok? {
        var prev := BuildTerms(init);
        assert prev.Ok?;
        var conn := Joiner(t, |ts| == 1);
        assert BuildTerms(ts) == Ok(prev.sql + conn + Fragment(t), prev.params + Bound(t));
        OccurrencesConcat('?', prev.sql + conn, Fragment(t));
        OccurrencesConcat('?', prev.sql, conn);
        ConnectorMarks(t, |ts| == 1);
        FragmentMarks(t);
      }
    }
  }

  /** A list of scalar comparisons with non-null values binds one value per
      term: the i-th parameter is the i-th term's value. */
  lemma {:induction false} ScalarParamsInOrder(ts: seq<Term>)
    requires forall i :: 0 <= i < |ts| ==> ts[i].condition.Compare? && ts[i].condition.value != Null
    ensures BuildTerms(ts).Ok?
    ensures |BuildTerms(ts).params| == |ts|
    ensures forall i :: 0 <= i < |ts| ==> BuildTerms(ts).params[i] == ts[i].condition.value
    decreases |ts|
  {
    if |ts| > 0 {
      var init := ts[..|ts| - 1];
      ScalarParamsInOrder(init);
    }
  }

  // ---------------------------------------------------------------------
  // Aliases and connectors.

  /** The same term with its alias folded into the column name. */
  function Unaliased(t: Term): Term
  {
    t.(alias := None, column := Qualify(t.alias, t.column))
  }

  /** An alias-qualified term renders and binds exactly as the plain term on
      the column `alias.column`. */
  lemma {:induction false} AliasTransparent(ts: seq<Term>, us: seq<Term>)
    requires |us| == |ts|
    requires forall i :: 0 <= i < |ts| ==> us[i] == Unaliased(ts[i])
    ensures BuildTerms(ts) == BuildTerms(us)
    decreases |ts|
  {
    if |ts| > 0 {
      var n := |ts| - 1;
      AliasTransparent(ts[..n], us[..n]);
      UnaliasedTerm(ts[n]);
      assert BuildTerms(ts) == Step(BuildTerms(ts[..n]), ts[n], n == 0);
      assert BuildTerms(us) == Step(BuildTerms(us[..n]), us[n], n == 0);
    }
  }

  lemma UnaliasedTerm(t: Term)
    ensures ValidTerm(Unaliased(t)) == ValidTerm(t)
    ensures Fragment(Unaliased(t)) == Fragment(t)
    ensures ErrorMessage(Unaliased(t)) == ErrorMessage(t)
    ensures Joiner(Unaliased(t), true) == Joiner(t, true) && Joiner(Unaliased(t), false) == Joiner(t, false)
    ensures ValidTerm(t) ==> Bound(Unaliased(t)) == Bound(t)
  {
  }

  /** The connector recorded on the first term is never rendered. */
  lemma FirstConnectorIgnored(ts: seq<Term>, c: Connector)
    requires |ts| > 0
    ensures BuildTerms(ts) == BuildTerms([ts[0].(connector := c)] + ts[1..])
  {
    var us := [ts[0].(connector := c)] + ts[1..];
    assert |us| == |ts|;
    FirstConnectorIgnoredFrom(ts, us, |ts|);
    assert ts[..|ts|] == ts && us[..|us|] == us;
  }

  lemma {:induction false} FirstConnectorIgnoredFrom(ts: seq<Term>, us: seq<Term>, n: nat)
    requires |ts| == |us| && 0 < |ts| && n <= |ts|
    requires us[0] == ts[0].(connector := us[0].connector) && us[1..] == ts[1..]
    ensures BuildTerms(ts[..n]) == BuildTerms(us[..n])
    decreases n
  {
    if n > 0 {
      FirstConnectorIgnoredFrom(ts, us, n - 1);
      SplitAfter(ts, n - 1);
      SplitAfter(us, n - 1);
      if n > 1 {
        assert ts[n - 1] == ts[1..][n - 2] == us[1..][n - 2] == us[n - 1];
      }
    }
  }

  // ---------------------------------------------------------------------
  // The accumulator object.

  class BasicWhere {
    /** The terms in the order they were added. */
    var terms: seq<Term>

    constructor ()
      ensures terms == []
    {
      terms := [];
    }

    method Add(t: Term)
      modifies this
      ensures terms == old(terms) + [t]
    {
      terms := terms + [t];
    }

    method IsNull(alias: Option<string>, column: string)
      modifies this
      ensures terms == old(terms) + [Term(And, alias, column, NullTest(false))]
    {
      Add(Term(And, alias, column, NullTest(false)));
    }

    method OrIsNull(alias: Option<string>, column: string)
      modifies this
      ensures terms == old(terms) + [Term(Or, alias, column, NullTest(false))]
    {
      Add(Term(Or, alias, column, NullTest(false)));
    }

    method IsNotNull(alias: Option<string>, column: string)
      modifies this
      ensures terms == old(terms) + [Term(And, alias, column, NullTest(true))]
    {
      Add(Term(And, alias, column, NullTest(true)));
    }

    method OrIsNotNull(alias: Option<string>, column: string)
      modifies this
      ensures terms == old(terms) + [Term(Or, alias, column, NullTest(true))]
    {
      Add(Term(Or, alias, column, NullTest(true)));
    }

    /** The six comparisons and their OR forms; `value` may be `Null`. */
    method Eq(alias: Option<string>, column: string, value: Value)
      modifies this
      ensures terms == old(terms) + [Term(And, alias, column, Compare(Equal, value))]
    {
      Add(Term(And, alias, column, Compare(Equal, value)));
    }

    method OrEq(alias: Option<string>, column: string, value: Value)
      modifies this
      ensures terms == old(terms) + [Term(Or, alias, column, Compare(Equal, value))]
    {
      Add(Term(Or, alias, column, Compare(Equal, value)));
    }

    method Ne(alias: Option<string>, column: string, value: Value)
      modifies this
      ensures terms == old(terms) + [Term(And, alias, column, Compare(NotEqual, value))]
    {
      Add(Term(And, alias, column, Compare(NotEqual, value)));
    }

    method OrNe(alias: Option<string>, column: string, value: Value)
      modifies this
      ensures terms == old(terms) + [Term(Or, alias, column, Compare(NotEqual, value))]
    {
      Add(Term(Or, alias, column, Compare(NotEqual, value)));
    }

    method Gt(alias: Option<string>, column: string, value: Value)
      modifies this
      ensures terms == old(terms) + [Term(And, alias, column, Compare(Greater, value))]
    {
      Add(Term(And, alias, column, Compare(Greater, value)));
    }

    method OrGt(alias: Option<string>, column: string, value: Value)
      modifies this
      ensures terms == old(terms) + [Term(Or, alias, column, Compare(Greater, value))]
    {
      Add(Term(Or, alias, column, Compare(Greater, value)));
    }

    method Ge(alias: Option<string>, column: string, value: Value)
      modifies this
      ensures terms == old(terms) + [Term(And, alias, column, Compare(GreaterOrEqual, value))]
    {
      Add(Term(And, alias, column, Compare(GreaterOrEqual, value)));
    }

    method OrGe(alias: Option<string>, column: string, value: Value)
      modifies this
      ensures terms == old(terms) + [Term(Or, alias, column, Compare(GreaterOrEqual, value))]
    {
      Add(Term(Or, alias, column, Compare(GreaterOrEqual, value)));
    }

    method Lt(alias: Option<string>, column: string, value: Value)
      modifies this
      ensures terms == old(terms) + [Term(And, alias, column, Compare(Less, value))]
    {
      Add(Term(And, alias, column, Compare(Less, value)));
    }

    method OrLt(alias: Option<string>, column: string, value: Value)
      modifies this
      ensures terms == old(terms) + [Term(Or, alias, column, Compare(Less, value))]
    {
      Add(Term(Or, alias, column, Compare(Less, value)));
    }

    method Le(alias: Option<string>, column: string, value: Value)
      modifies this
      ensures terms == old(terms) + [Term(And, alias, column, Compare(LessOrEqual, value))]
    {
      Add(Term(And, alias, column, Compare(LessOrEqual, value)));
    }

    method OrLe(alias: Option<string>, column: string, value: Value)
      modifies this
      ensures terms == old(terms) + [Term(Or, alias, column, Compare(LessOrEqual, value))]
    {
      Add(Term(Or, alias, column, Compare(LessOrEqual, value)));
    }

    /** IN and NOT IN; `values` may be null (`None`) or empty. */
    method In(alias: Option<string>, column: string, values: Option<seq<Value>>)
      modifies this
      ensures terms == old(terms) + [Term(And, alias, column, Membership(false, values))]
    {
      Add(Term(And, alias, column, Membership(false, values)));
    }

    method OrIn(alias: Option<string>, column: string, values: Option<seq<Value>>)
      modifies this
      ensures terms == old(terms) + [Term(Or, alias, column, Membership(false, values))]
    {
      Add(Term(Or, alias, column, Membership(false, values)));
    }

    method NotIn(alias: Option<string>, column: string, values: Option<seq<Value>>)
      modifies this
      ensures terms == old(terms) + [Term(And, alias, column, Membership(true, values))]
    {
      Add(Term(And, alias, column, Membership(true, values)));
    }

    method OrNotIn(alias: Option<string>, column: string, values: Option<seq<Value>>)
      modifies this
      ensures terms == old(terms) + [Term(Or, alias, column, Membership(true, values))]
    {
      Add(Term(Or, alias, column, Membership(true, values)));
    }

    /** The three LIKE forms; `text` may be null (`None`). */
    method BeginWith(alias: Option<string>, column: string, text: Option<string>)
      modifies this
      ensures terms == old(terms) + [Term(And, alias, column, Like(Prefix, text))]
    {
      Add(Term(And, alias, column, Like(Prefix, text)));
    }

    method OrBeginWith(alias: Option<string>, column: string, text: Option<string>)
      modifies this
      ensures terms == old(terms) + [Term(Or, alias, column, Like(Prefix, text))]
    {
      Add(Term(Or, alias, column, Like(Prefix, text)));
    }

    method EndsWith(alias: Option<string>, column: string, text: Option<string>)
      modifies this
      ensures terms == old(terms) + [Term(And, alias, column, Like(Suffix, text))]
    {
      Add(Term(And, alias, column, Like(Suffix, text)));
    }

    method OrEndsWith(alias: Option<string>, column: string, text: Option<string>)
      modifies this
      ensures terms == old(terms) + [Term(Or, alias, column, Like(Suffix, text))]
    {
      Add(Term(Or, alias, column, Like(Suffix, text)));
    }

    method Contains(alias: Option<string>, column: string, text: Option<string>)
      modifies this
      ensures terms == old(terms) + [Term(And, alias, column, Like(Infix, text))]
    {
      Add(Term(And, alias, column, Like(Infix, text)));
    }

    method OrContains(alias: Option<string>, column: string, text: Option<string>)
      modifies this
      ensures terms == old(terms) + [Term(Or, alias, column, Like(Infix, text))]
    {
      Add(Term(Or, alias, column, Like(Infix, text)));
    }

    /** `build`: renders the current terms without changing them, so repeated
        builds agree; stops at the first invalid term. */
    method Build() returns (r: Rendered)
      ensures r == BuildTerms(terms)
    {
      var sql, ps := "", [];
      var i := 0;
      while i < |terms|
        invariant 0 <= i <= |terms|
        invariant BuildTerms(terms[..i]) == Ok(sql, ps)
      {
        var t := terms[i];
        SplitAfter(terms, i);
        assert BuildTerms(terms[..i + 1]) == Step(Ok(sql, ps), t, i == 0);
        if !ValidTerm(t) {
          BuildErrSticky(terms[..i + 1], terms[i + 1..]);
          return Err(ErrorMessage(t));
        }
        if i > 0 {
          sql := sql + ConnectorText(t.connector);
        }
        sql := sql + Fragment(t);
        ps := ps + Bound(t);
        i := i + 1;
      }
      assert terms[..i] == terms;
      return Ok(sql, ps);
    }
  }
}
