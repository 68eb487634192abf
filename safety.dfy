/**
 * The SQL safety gate (`validate_and_rewrite_select`): reject empty text, parse
 * failures, several statements and anything but a read-only query, then give the
 * outermost query a LIMIT when it has none.
 *
 * The SQL parser and printer are a foreign library; they enter as the functions
 * `parse` and `render`, over the small statement tree below.
 */
module Safety {
  import opened Wrappers
  import opened Text

  /** The argument of a LIMIT clause: a number literal, or any other expression (kept as its text). */
  datatype LimitValue = Number(n: int) | Expression(text: string)

  datatype SetOperator = Union | Intersect | Except

  /**
   * The node kinds the gate tells apart. `clauses` and `ctes` stand for every
   * argument of the node other than its LIMIT (projections, FROM, WHERE, the CTE list ...).
   */
  datatype Stmt =
    | Select(clauses: string, limit: Option<LimitValue>)
    | SetOp(op: SetOperator, left: Stmt, right: Stmt, limit: Option<LimitValue>)
    | With(ctes: string, body: Stmt)
    | Other(kind: string)

  /** What the parser returns: the list of statements, or the message of the exception it raised. */
  datatype ParseOutcome = ParseFailed(message: string) | Parsed(statements: seq<Stmt>)

  /** `SafeSQLResult` */
  datatype SafeSqlResult = SafeSqlResult(sql: string, limitAdded: bool)

  /** The four ways the gate raises `SQLSafetyError`. */
  datatype SafetyError = EmptySql | ParseError(detail: string) | NotSingleStatement | NotSelect {
    /** The text of the raised exception. */
    function Message(): string {
      match this
      case EmptySql => "Empty SQL produced by provider."
      case ParseError(d) => "SQL parse error: " + d
      case NotSingleStatement => "Only a single SQL statement is allowed."
      case NotSelect => "Only SELECT queries are allowed."
    }
  }

  /** A query node that can carry a LIMIT: a SELECT or a UNION / INTERSECT / EXCEPT. */
  predicate IsQuery(t: Stmt) {
    t.Select? || t.SetOp?
  }

  /** `_is_select_statement`: the shapes the gate lets through. */
  predicate IsSelectStatement(t: Stmt) {
    match t
    case Select(_, _) => true
    case With(_, body) => IsQuery(body)
    case SetOp(_, _, _, _) => true
    case Other(_) => false
  }

  /** The query whose LIMIT is enforced: the body of a WITH, otherwise the tree itself. */
  function TopQuery(t: Stmt): Stmt {
    if t.With? then t.body else t
  }

  /** The tree with the top query's LIMIT argument replaced by `l`, every other part as it was. */
  function WithTopLimit(t: Stmt, l: Option<LimitValue>): (r: Stmt)
    requires IsSelectStatement(t)
    ensures IsSelectStatement(r) && TopQuery(r).limit == l
  {
    match t
    case Select(c, _) => Select(c, l)
    case SetOp(o, x, y, _) => SetOp(o, x, y, l)
    case With(c, b) => With(c, if b.Select? then Select(b.clauses, l) else SetOp(b.op, b.left, b.right, l))
  }

  /** The tree with its top LIMIT removed: what the rewrite must leave unchanged. */
  function EraseTopLimit(t: Stmt): Stmt
    requires IsSelectStatement(t)
  {
    WithTopLimit(t, None)
  }

  /**
   * The LIMIT rewrite: the new tree and `limit_added`. The top query ends up with a
   * LIMIT; it is the default exactly when there was none, the old one otherwise,
   * and nothing but the top LIMIT argument differs from the input tree.
   */
  function RewriteLimit(t: Stmt, defaultLimit: int): (r: (Stmt, bool))
    requires IsSelectStatement(t)
    ensures IsSelectStatement(r.0) && TopQuery(r.0).limit.Some?
    ensures r.1 <==> TopQuery(t).limit.None?
    ensures TopQuery(r.0).limit == if r.1 then Some(Number(defaultLimit)) else TopQuery(t).limit
    ensures EraseTopLimit(r.0) == EraseTopLimit(t)
  {
    if TopQuery(t).limit.Some? then (t, false) else (WithTopLimit(t, Some(Number(defaultLimit))), true)
  }

  /** The whole gate as a function of its input, the parser and the printer. */
  function Gate(sql: string, parse: string -> ParseOutcome, render: Stmt -> string, defaultLimit: int)
    : Result<SafeSqlResult, SafetyError>
  {
    if Strip(sql) == "" then Err(EmptySql)
    else match parse(sql)
      case ParseFailed(m) => Err(ParseError(m))
      case Parsed(statements) =>
        if |statements| != 1 then Err(NotSingleStatement)
        else if !IsSelectStatement(statements[0]) then Err(NotSelect)
        else
          var (tree, added) := RewriteLimit(statements[0], defaultLimit);
          Ok(SafeSqlResult(render(tree), added))
  }

  /**
   * `validate_and_rewrite_select`, step by step: the checks in order, then the top
   * query's LIMIT set through the alias `top_query` and the flag `limit_added` raised.
   */
  method ValidateAndRewriteSelect(sql: string, parse: string -> ParseOutcome, render: Stmt -> string, defaultLimit: int)
    returns (r: Result<SafeSqlResult, SafetyError>)
    ensures r == Gate(sql, parse, render, defaultLimit)
  {
    if sql == "" || Strip(sql) == "" {
      return Err(EmptySql);
    }
    var parsed := parse(sql);
    if parsed.ParseFailed? {
      return Err(ParseError(parsed.message));
    }
    var statements := parsed.statements;
    if |statements| != 1 {
      return Err(NotSingleStatement);
    }
    var tree := statements[0];
    if !IsSelectStatement(tree) {
      return Err(NotSelect);
    }
    var limitAdded := false;
    var topQuery := if tree.With? then tree.body else tree;
    var hasLimit := topQuery.limit.Some?;
    if !hasLimit {
      topQuery := topQuery.(limit := Some(Number(defaultLimit)));
      // `top_query` is part of `tree`, so the tree sees the new LIMIT
      tree := if tree.With? then tree.(body := topQuery) else topQuery;
      limitAdded := true;
    }
    var safeSql := render(tree);
    return Ok(SafeSqlResult(safeSql, limitAdded));
  }

  /** The gate accepts exactly one parsed statement of an accepted shape, and nothing else. */
  lemma GateAccepts(sql: string, parse: string -> ParseOutcome, render: Stmt -> string, defaultLimit: int)
    ensures Gate(sql, parse, render, defaultLimit).Ok? <==>
      && !AllSpace(sql)
      && parse(sql).Parsed?
      && |parse(sql).statements| == 1
      && (IsQuery(parse(sql).statements[0])
          || (parse(sql).statements[0].With? && IsQuery(parse(sql).statements[0].body)))
  {
  }

  /** Which error the gate raises, in the order the checks run. */
  lemma GateRejects(sql: string, parse: string -> ParseOutcome, render: Stmt -> string, defaultLimit: int)
    ensures AllSpace(sql) ==> Gate(sql, parse, render, defaultLimit) == Err(EmptySql)
    ensures !AllSpace(sql) && parse(sql).ParseFailed? ==>
      Gate(sql, parse, render, defaultLimit) == Err(ParseError(parse(sql).message))
    ensures !AllSpace(sql) && parse(sql).Parsed? && |parse(sql).statements| != 1 ==>
      Gate(sql, parse, render, defaultLimit) == Err(NotSingleStatement)
    ensures (!AllSpace(sql) && parse(sql).Parsed? && |parse(sql).statements| == 1
             && !IsSelectStatement(parse(sql).statements[0])) ==>
      Gate(sql, parse, render, defaultLimit) == Err(NotSelect)
  {
  }

  /** Empty or blank text is refused whatever the parser would do with it: the parser is never consulted. */
  lemma EmptyRejectedBeforeParsing(sql: string, parse1: string -> ParseOutcome, parse2: string -> ParseOutcome,
                                   render: Stmt -> string, defaultLimit: int)
    requires AllSpace(sql)
    ensures Gate(sql, parse1, render, defaultLimit) == Gate(sql, parse2, render, defaultLimit) == Err(EmptySql)
  {
  }

  /**
   * What an accepted query becomes: the printing of the parsed tree with only the
   * top LIMIT argument changed, that LIMIT always present, the default exactly when
   * `limit_added`, and the original LIMIT kept otherwise.
   */
  lemma AcceptedResult(sql: string, parse: string -> ParseOutcome, render: Stmt -> string, defaultLimit: int)
    requires Gate(sql, parse, render, defaultLimit).Ok?
    ensures parse(sql).Parsed? && |parse(sql).statements| == 1
    ensures var t := parse(sql).statements[0];
      var res := Gate(sql, parse, render, defaultLimit).value;
      && IsSelectStatement(t)
      && (res.limitAdded <==> TopQuery(t).limit.None?)
      && (res.limitAdded ==> res.sql == render(WithTopLimit(t, Some(Number(defaultLimit)))))
      && (!res.limitAdded ==> res.sql == render(t))
  {
  }

  /** A tree of an accepted shape is fixed by its top LIMIT and everything else: the rewrite changes one argument only. */
  lemma {:induction false} TopLimitAndRestDetermineTree(a: Stmt, b: Stmt)
    requires IsSelectStatement(a) && IsSelectStatement(b)
    requires EraseTopLimit(a) == EraseTopLimit(b)
    requires TopQuery(a).limit == TopQuery(b).limit
    ensures a == b
  {
    match a
    case With(ca, ba) =>
      assert EraseTopLimit(b).With?;
      assert b.With? && b.ctes == ca;
      assert ba.(limit := None) == b.body.(limit := None);
      assert ba == b.body;
    case Select(_, _) =>
      assert b.Select?;
    case SetOp(_, _, _, _) =>
      assert b.SetOp?;
  }

  /** Rewriting a rewritten tree again adds nothing: its top query already carries a LIMIT. */
  lemma RewriteIdempotent(t: Stmt, defaultLimit: int, nextLimit: int)
    requires IsSelectStatement(t)
    ensures RewriteLimit(RewriteLimit(t, defaultLimit).0, nextLimit) == (RewriteLimit(t, defaultLimit).0, false)
  {
  }

  /**
   * When the printer's output parses back to the same tree, a second pass of the gate
   * over its own output accepts it unchanged and reports `limit_added = false`.
   */
  lemma {:induction false} SecondPassAddsNoLimit(sql: string, parse: string -> ParseOutcome, render: Stmt -> string,
                                                 defaultLimit: int, nextLimit: int)
    requires forall t :: parse(render(t)) == Parsed([t])
    requires forall t :: !AllSpace(render(t))
    requires Gate(sql, parse, render, defaultLimit).Ok?
    ensures var res := Gate(sql, parse, render, defaultLimit).value;
      Gate(res.sql, parse, render, nextLimit) == Ok(SafeSqlResult(res.sql, false))
  {
    var t := parse(sql).statements[0];
    var (tree, added) := RewriteLimit(t, defaultLimit);
    var out := render(tree);
    assert Gate(sql, parse, render, defaultLimit).value.sql == out;
    assert !AllSpace(out);
    assert parse(out) == Parsed([tree]);
    RewriteIdempotent(t, defaultLimit, nextLimit);
  }

  /** A single parsed SELECT gains the default LIMIT exactly when it has none; a LIMIT it has is kept. */
  lemma SingleSelect(sql: string, parse: string -> ParseOutcome, render: Stmt -> string, defaultLimit: int,
                     clauses: string, limit: Option<LimitValue>)
    requires !AllSpace(sql)
    requires parse(sql) == Parsed([Select(clauses, limit)])
    ensures limit.None? ==>
      Gate(sql, parse, render, defaultLimit) == Ok(SafeSqlResult(render(Select(clauses, Some(Number(defaultLimit)))), true))
    ensures limit.Some? ==>
      Gate(sql, parse, render, defaultLimit) == Ok(SafeSqlResult(render(Select(clauses, limit)), false))
  {
  }

  /** `SELECT * FROM STUDENT` with default 50 gains `LIMIT 50` and reports it. */
  lemma ScenarioAddsLimit(parse: string -> ParseOutcome, render: Stmt -> string)
    requires parse("SELECT * FROM STUDENT") == Parsed([Select("* FROM STUDENT", None)])
    ensures Gate("SELECT * FROM STUDENT", parse, render, 50)
      == Ok(SafeSqlResult(render(Select("* FROM STUDENT", Some(Number(50)))), true))
  {
    assert !IsSpace("SELECT * FROM STUDENT"[0]);
    SingleSelect("SELECT * FROM STUDENT", parse, render, 50, "* FROM STUDENT", None);
  }

  /** `... LIMIT 10` with default 50 keeps `LIMIT 10` and reports no change. */
  lemma ScenarioKeepsLimit(parse: string -> ParseOutcome, render: Stmt -> string)
    requires parse("SELECT * FROM STUDENT LIMIT 10") == Parsed([Select("* FROM STUDENT", Some(Number(10)))])
    ensures Gate("SELECT * FROM STUDENT LIMIT 10", parse, render, 50)
      == Ok(SafeSqlResult(render(Select("* FROM STUDENT", Some(Number(10)))), false))
  {
    assert !IsSpace("SELECT * FROM STUDENT LIMIT 10"[0]);
    SingleSelect("SELECT * FROM STUDENT LIMIT 10", parse, render, 50, "* FROM STUDENT", Some(Number(10)));
  }

  /** More than one parsed statement is refused, whatever they are. */
  lemma SeveralStatements(sql: string, parse: string -> ParseOutcome, render: Stmt -> string, defaultLimit: int)
    requires !AllSpace(sql)
    requires parse(sql).Parsed? && |parse(sql).statements| > 1
    ensures Gate(sql, parse, render, defaultLimit) == Err(NotSingleStatement)
  {
  }

  /** `SELECT 1; DROP TABLE STUDENT` parses to two statements and is refused. */
  lemma ScenarioTwoStatements(parse: string -> ParseOutcome, render: Stmt -> string, defaultLimit: int)
    requires parse("SELECT 1; DROP TABLE STUDENT") == Parsed([Select("1", None), Other("Drop")])
    ensures Gate("SELECT 1; DROP TABLE STUDENT", parse, render, defaultLimit) == Err(NotSingleStatement)
  {
    assert !IsSpace("SELECT 1; DROP TABLE STUDENT"[0]);
    SeveralStatements("SELECT 1; DROP TABLE STUDENT", parse, render, defaultLimit);
  }

  /** `DELETE FROM STUDENT`, and a WITH whose body is not a query, are refused as not SELECT. */
  lemma ScenarioNotSelect(sql: string, parse: string -> ParseOutcome, render: Stmt -> string, defaultLimit: int, stmt: Stmt)
    requires !AllSpace(sql)
    requires stmt.Other? || (stmt.With? && !IsQuery(stmt.body))
    requires parse(sql) == Parsed([stmt])
    ensures Gate(sql, parse, render, defaultLimit) == Err(NotSelect)
    ensures Gate(sql, parse, render, defaultLimit).error.Message() == "Only SELECT queries are allowed."
  {
  }
}
