/** The main theorems about an accepted tenant query: what it scans to, which rows it keeps, what it binds. */
module SqlIsolation {
  import opened Prelude
  import opened SqlText
  import opened WhiteSpace
  import opened SqlScanner
  import opened SqlSplicing
  import opened SqlAnalysis
  import opened SqlRewrite
  import opened SqlMeaning

  // ----- the tenant condition -----

  /** Dot-separated names of letters, digits and underscores, none beginning with a digit. */
  predicate IsSafeFieldName(field: string) {
    field != "" && IsIdentifierStart(field[0]) && IsFieldText(field)
  }

  predicate IsFieldText(text: string) { forall i: nat :: i < |text| ==> IsFieldByte(text, i) }

  predicate IsFieldByte(text: string, i: nat)
    requires i < |text|
  {
    IsTagPart(text[i]) || (text[i] == '.' && i + 1 < |text| && IsIdentifierStart(text[i + 1]))
  }

  /** Words and dots outside parentheses. */
  predicate IsFieldMarks(marks: seq<Mark>) {
    forall i :: 0 <= i < |marks| ==> marks[i].depth == 0 && (marks[i].kind.Word? || IsMark(marks[i], ".", 0))
  }

  lemma FieldTextSuffix(text: string, n: nat)
    requires IsFieldText(text) && n <= |text|
    ensures IsFieldText(text[n..])
  {
    forall i: nat | i < |text| - n
      ensures IsFieldByte(text[n..], i)
    {
      assert IsFieldByte(text, n + i);
    }
  }

  lemma LexField(text: string)
    requires text != "" && IsFieldText(text) && (text[0] == '.' || IsIdentifierStart(text[0]))
    ensures Lex(text).Piece? &&
      (if text[0] == '.' then Lex(text) == Piece(Symbol, 1) else Lex(text) == Piece(Word, WordEnd(text, 1)))
  {
  }

  lemma AfterField(text: string, n: nat)
    requires text != "" && IsFieldText(text) && (text[0] == '.' || IsIdentifierStart(text[0]))
    requires n == if text[0] == '.' then 1 else WordEnd(text, 1)
    ensures n <= |text| && (text[n..] == "" || text[n] == '.' || IsIdentifierStart(text[n]))
  {
    hide WordEnd;
    if n < |text| {
      assert IsFieldByte(text, n) && IsFieldByte(text, 0);
    }
  }

  lemma {:induction false} RunField(text: string, at: nat)
    requires IsFieldText(text) && (text == "" || text[0] == '.' || IsIdentifierStart(text[0]))
    ensures Run(text, at, 0).Some? && Run(text, at, 0).value.depth == 0
    ensures IsFieldMarks(Marks(Run(text, at, 0).value.tokens, 0))
    decreases |text|
  {
    hide Lex, Run, Marks;
    if text == "" {
      RunEmpty(at, 0);
      assert IsFieldMarks(Marks([], 0));
    } else {
      LexField(text);
      var n := Lex(text).length;
      AfterField(text, n);
      FieldTextSuffix(text, n);
      RunToken(text, at, 0, Lex(text).kind, n);
      RunField(text[n..], at + n);
      assert text[0] == '.' ==> text[..1] == ".";
      MarksAppend([FirstToken(text, at, 0)], Run(text[n..], at + n, 0).value.tokens, 0);
    }
  }

  function FieldMarks(field: string): seq<Mark> {
    match Scan(field)
    case None => []
    case Some(tokens) => Marks(tokens, 0)
  }

  lemma ReadsField(field: string)
    requires IsSafeFieldName(field)
    ensures Reads(field, 0, FieldMarks(field), 0) && IsFieldMarks(FieldMarks(field))
  {
    RunField(field, 0);
  }

  lemma ReadsSymbol(symbol: string, depth: nat)
    requires symbol == "=" || symbol == "?"
    ensures Reads(symbol, depth, [Mark(Symbol, symbol, depth)], depth)
  {
    assert Lex(symbol) == Piece(Symbol, 1);
    hide Lex;
    RunToken(symbol, 0, depth, Symbol, 1);
    assert symbol[..1] == symbol && symbol[1..] == "";
  }

  function EqualsHole(): seq<Mark> { [Mark(Symbol, "=", 0)] + [Mark(Symbol, "?", 0)] }

  function IsNull(): seq<Mark> { [Mark(Word, "IS", 0)] + [Mark(Word, "NULL", 0)] }

  function HasSoftDelete(options: Options): bool { options.softDeleteField != "" && !options.includeSoftDeleted }

  function ConditionMarks(options: Options): seq<Mark> {
    FieldMarks(options.tenantField) + EqualsHole() +
    if HasSoftDelete(options) then [Mark(Word, "AND", 0)] + (FieldMarks(options.softDeleteField) + IsNull()) else []
  }

  predicate AreSafe(options: Options) {
    IsSafeFieldName(options.tenantField) && (options.softDeleteField == "" || IsSafeFieldName(options.softDeleteField))
  }

  lemma ReadsEqualsHole()
    ensures Reads(" = ?", 0, EqualsHole(), 0)
  {
    ReadsSymbol("=", 0);
    ReadsSymbol("?", 0);
    hide Reads;
    ReadsBlank("?", 0, [Mark(Symbol, "?", 0)], 0);
    ReadsAppend("=", " " + "?", 0, [Mark(Symbol, "=", 0)], 0, [Mark(Symbol, "?", 0)], 0);
    ReadsBlank("=" + (" " + "?"), 0, EqualsHole(), 0);
    assert " " + ("=" + (" " + "?")) == " = ?";
  }

  lemma ReadsIsNull()
    ensures Reads(" IS NULL", 0, IsNull(), 0)
  {
    ReadsKeyword("NULL", 0);
    hide Reads;
    ReadsKeywordThen("IS", "NULL", 0, [Mark(Word, "NULL", 0)], 0);
    assert " " + "IS" + " " + "NULL" == " IS NULL";
  }

  /** The condition built from safe field names scans, to the field, "=" and one placeholder. */
  lemma ConditionScans(options: Options)
    requires AreSafe(options)
    ensures Reads(Condition(options), 0, ConditionMarks(options), 0)
  {
    hide Reads, FieldMarks, IsSafeFieldName, EqualsHole, IsNull, Condition;
    ConditionText(options);
    ReadsField(options.tenantField);
    ReadsEqualsHole();
    var first := options.tenantField + " = ?";
    var firstMarks := FieldMarks(options.tenantField) + EqualsHole();
    ReadsAppend(options.tenantField, " = ?", 0, FieldMarks(options.tenantField), 0, EqualsHole(), 0);
    if HasSoftDelete(options) {
      var soft := options.softDeleteField;
      ReadsField(soft);
      ReadsIsNull();
      ReadsAppend(soft, " IS NULL", 0, FieldMarks(soft), 0, IsNull(), 0);
      ReadsKeywordThen("AND", soft + " IS NULL", 0, FieldMarks(soft) + IsNull(), 0);
      var text := " " + "AND" + " " + (soft + " IS NULL");
      ReadsAppend(first, text, 0, firstMarks, 0, [Mark(Word, "AND", 0)] + (FieldMarks(soft) + IsNull()), 0);
    } else {
      assert ConditionMarks(options) == firstMarks + [] == firstMarks;
      assert first + "" == first;
    }
  }

  lemma ConditionText(options: Options)
    ensures Condition(options) == options.tenantField + " = ?" +
      if HasSoftDelete(options) then " " + "AND" + " " + (options.softDeleteField + " IS NULL") else ""
  {
    assert " AND " == " " + "AND" + " ";
    assert " " + "AND" + " " + (options.softDeleteField + " IS NULL") == " AND " + options.softDeleteField + " IS NULL";
  }

  lemma {:induction false} NoHoles(marks: seq<Mark>)
    requires forall i :: 0 <= i < |marks| ==> !IsHole(marks[i])
    ensures Holes(marks) == 0
  {
    if marks != [] {
      NoHoles(marks[1..]);
    }
  }

  /** The condition has one placeholder, the tenant's. */
  lemma ConditionHoles(options: Options)
    requires AreSafe(options)
    ensures Holes(ConditionMarks(options)) == 1
  {
    ReadsField(options.tenantField);
    var field := FieldMarks(options.tenantField);
    assert "." != "?" by {
      assert "."[0] != "?"[0];
    }
    NoHoles(field);
    assert Holes(EqualsHole()) == 1 by {
      assert EqualsHole()[1..] == [Mark(Symbol, "?", 0)];
      assert "="[0] != "?"[0];
    }
    hide FieldMarks, EqualsHole;
    HolesAppend(field, EqualsHole());
    var rest :=
      if HasSoftDelete(options) then [Mark(Word, "AND", 0)] + (FieldMarks(options.softDeleteField) + IsNull()) else [];
    HolesAppend(field + EqualsHole(), rest);
    if HasSoftDelete(options) {
      ReadsField(options.softDeleteField);
      var soft := FieldMarks(options.softDeleteField);
      forall i | 0 <= i < |rest|
        ensures !IsHole(rest[i])
      {
        if 1 <= i <= |soft| {
          assert rest[i] == soft[i - 1];
        }
      }
      NoHoles(rest);
    }
  }

  // ----- which rows the condition keeps -----

  /** None of these words is a name of the field's path. */
  predicate HasNoConnective(field: string) {
    forall i :: 0 <= i < |FieldMarks(field)| ==> IsOrdinary(FieldMarks(field)[i])
  }

  predicate IsOrdinary(mark: Mark) {
    !MarkIs(mark, "OR") && !MarkIs(mark, "AND") && !MarkIs(mark, "CASE") && !MarkIs(mark, "END") &&
      !MarkIs(mark, "BETWEEN")
  }

  lemma OrdinaryPasses(mark: Mark, word: string)
    requires IsOrdinary(mark) && (word == "OR" || word == "AND")
    ensures Pass(mark, 0, word, START) == Some(START)
  {
    hide MarkIs;
  }

  lemma {:induction false} OrdinarySkips(marks: seq<Mark>, rest: seq<Mark>, word: string)
    requires word == "OR" || word == "AND"
    requires forall i :: 0 <= i < |marks| ==> IsOrdinary(marks[i])
    ensures First(marks + rest, 0, word) == |marks| + First(rest, 0, word)
  {
    hide Pass, IsOrdinary;
    if marks == [] {
      assert marks + rest == rest;
    } else {
      OrdinaryPasses(marks[0], word);
      assert (marks + rest)[1..] == marks[1..] + rest && (marks + rest)[0] == marks[0];
      OrdinarySkips(marks[1..], rest, word);
    }
  }

  lemma TailWordsOrdinary()
    ensures IsOrdinary(Mark(Word, "IS", 0)) && IsOrdinary(Mark(Word, "NULL", 0))
    ensures IsOrdinary(Mark(Symbol, "=", 0)) && IsOrdinary(Mark(Symbol, "?", 0))
  {
    assert UpperChar("IS"[0]) != UpperChar("OR"[0]);
    assert UpperChar("NULL"[0]) != UpperChar("CASE"[0]);
  }

  /** A text without connectives and not in parentheses is one atomic condition. */
  lemma OrdinaryAtom(marks: seq<Mark>, row: Row)
    requires forall i :: 0 <= i < |marks| ==> IsOrdinary(marks[i])
    requires marks != [] && !IsMark(marks[0], "(", 0)
    ensures First(marks, 0, "OR") == |marks| && Holds(marks, 0, row) == row(Plain(marks))
  {
    hide IsOrdinary, Pass, Plain, Holds, Connective;
    assert marks + [] == marks;
    OrdinarySkips(marks, [], "OR");
    OrdinarySkips(marks, [], "AND");
    HoldsNeither(marks, 0, row);
  }

  lemma FieldAtom(field: string, tail: seq<Mark>, row: Row)
    requires IsSafeFieldName(field) && HasNoConnective(field)
    requires tail == EqualsHole() || tail == IsNull()
    ensures var marks := FieldMarks(field) + tail;
      (forall i :: 0 <= i < |marks| ==> IsOrdinary(marks[i])) && marks != [] &&
      First(marks, 0, "OR") == |marks| && Holds(marks, 0, row) == row(Plain(marks))
  {
    hide FieldMarks, IsOrdinary, Holds, Connective;
    ReadsField(field);
    TailWordsOrdinary();
    var marks := FieldMarks(field) + tail;
    forall i | 0 <= i < |marks|
      ensures IsOrdinary(marks[i])
    {
      assert marks[i] == if i < |FieldMarks(field)| then FieldMarks(field)[i] else tail[i - |FieldMarks(field)|];
    }
    assert !IsMark(marks[0], "(", 0) by {
      assert "="[0] != "("[0] && "."[0] != "("[0];
    }
    OrdinaryAtom(marks, row);
  }

  /** The condition holds of a row exactly when its tenant column matches and, if asked for, it is not deleted. */
  lemma ConditionHolds(options: Options, row: Row)
    requires AreSafe(options) && HasNoConnective(options.tenantField) && HasNoConnective(options.softDeleteField)
    ensures First(ConditionMarks(options), 0, "OR") == |ConditionMarks(options)|
    ensures Holds(ConditionMarks(options), 0, row) ==
      (row(Plain(FieldMarks(options.tenantField) + EqualsHole())) &&
       (HasSoftDelete(options) ==> row(Plain(FieldMarks(options.softDeleteField) + IsNull()))))
  {
    hide FieldMarks, EqualsHole, IsNull, IsOrdinary, Holds, Connective, Plain;
    var first := FieldMarks(options.tenantField) + EqualsHole();
    FieldAtom(options.tenantField, EqualsHole(), row);
    if HasSoftDelete(options) {
      var soft := FieldMarks(options.softDeleteField) + IsNull();
      var rest := [Mark(Word, "AND", 0)] + soft;
      FieldAtom(options.softDeleteField, IsNull(), row);
      OrdinarySkips(first, rest, "OR");
      OrdinarySkips(first, rest, "AND");
      AndConnects(soft);
      HoldsAnd(first + rest, 0, |first|, row);
      assert (first + rest)[..|first|] == first && (first + rest)[|first| + 1..] == soft;
    } else {
      assert first + [] == first;
    }
  }

  lemma AndConnects(rest: seq<Mark>)
    ensures First([Mark(Word, "AND", 0)] + rest, 0, "AND") == 0
    ensures First([Mark(Word, "AND", 0)] + rest, 0, "OR") == 1 + First(rest, 0, "OR")
  {
    AndPasses();
    hide Pass;
    assert ([Mark(Word, "AND", 0)] + rest)[1..] == rest;
  }

  // ----- the accepted query -----

  /** Tokens and clause of the statement behind an accepted tenant query. */
  ghost predicate Accepts(baseSQL: string, options: Options, tokens: seq<Token>, clause: Clause) {
    var sql := TrimSpace(baseSQL);
    sql != "" && Scan(sql) == Some(tokens) &&
    AnalyzeText(sql, TenantFieldFromCondition(Condition(options))) == Ok(clause) &&
    (clause.WhereAt? ==> clause.index < |tokens| - 1 && TopWord(tokens[clause.index], "WHERE") &&
                         tokens[clause.index].end <= |sql|)
  }

  /** Offset of the predicate among the tokens of the rewritten statement. */
  function PredicateStart(tokens: seq<Token>, clause: Clause): nat {
    if clause.WhereAt? then clause.index + 1 else |tokens| + 1
  }

  /** The old predicate's meaning; a statement without one keeps every row. */
  ghost predicate OldPredicateHolds(tokens: seq<Token>, clause: Clause, row: Row)
    requires clause.WhereAt? ==> clause.index < |tokens|
  {
    clause.WhereAt? ==> Holds(Marks(tokens[clause.index + 1..], 0), 0, row)
  }

  lemma AcceptedQuery<A>(tenant: A, baseSQL: string, baseArgs: seq<A>, options: Options)
    returns (tokens: seq<Token>, clause: Clause)
    requires QueryWithArgs(Tenant(tenant), baseSQL, baseArgs, options).Ok?
    ensures Accepts(baseSQL, options, tokens, clause)
    ensures QueryWithArgs(Tenant(tenant), baseSQL, baseArgs, options).value ==
      Query(AddTenantCondition(TrimSpace(baseSQL), Condition(options), WhereEnd(tokens, clause)), baseArgs + [tenant])
  {
    hide AnalyzeText, Scan, TrimSpace, Condition, TenantFieldFromCondition, TopWord;
    var sql, field := TrimSpace(baseSQL), TenantFieldFromCondition(Condition(options));
    ClauseEnds(sql, field);
    tokens, clause := Scan(sql).value, AnalyzeText(sql, field).value;
  }

  /** The text and the arguments of an accepted query. */
  lemma QueryText<A>(tenant: A, baseSQL: string, baseArgs: seq<A>, options: Options, tokens: seq<Token>, clause: Clause)
    requires QueryWithArgs(Tenant(tenant), baseSQL, baseArgs, options).Ok? && Accepts(baseSQL, options, tokens, clause)
    ensures QueryWithArgs(Tenant(tenant), baseSQL, baseArgs, options).value ==
      Query(AddTenantCondition(TrimSpace(baseSQL), Condition(options), WhereEnd(tokens, clause)), baseArgs + [tenant])
  {
    var tokens', clause' := AcceptedQuery(tenant, baseSQL, baseArgs, options);
    hide QueryWithArgs, AddTenantCondition, AnalyzeText, Scan, TrimSpace, Condition, TenantFieldFromCondition, TopWord;
    assert tokens' == tokens && clause' == clause;
  }

  /** The scan of the condition is all the rewrite needs of it. */
  lemma ConditionTokens(options: Options)
    requires AreSafe(options)
    ensures Scan(Condition(options)).Some? && Marks(Scan(Condition(options)).value, 0) == ConditionMarks(options)
  {
    ConditionScans(options);
    hide Condition, ConditionMarks;
  }

  /** The statement an accepted query rewrites. */
  lemma AcceptedText(baseSQL: string, options: Options, tokens: seq<Token>, clause: Clause)
    requires Accepts(baseSQL, options, tokens, clause)
    ensures var sql, field := TrimSpace(baseSQL), TenantFieldFromCondition(Condition(options));
      AnalyzeText(sql, field) == Ok(clause) && Scan(sql) == Some(tokens) &&
        (clause.WhereAt? ==> clause.index < |tokens|)
  {
    hide AnalyzeText, Scan, TrimSpace, Condition, TenantFieldFromCondition, TopWord;
  }

  /** Re-scanning an accepted query reads the old tokens, the old predicate one level deeper, and the condition. */
  lemma QueryScansAsSpliced<A>(tenant: A, baseSQL: string, baseArgs: seq<A>, options: Options,
                               tokens: seq<Token>, clause: Clause)
    requires AreSafe(options) && QueryWithArgs(Tenant(tenant), baseSQL, baseArgs, options).Ok?
    requires Accepts(baseSQL, options, tokens, clause)
    ensures var query := QueryWithArgs(Tenant(tenant), baseSQL, baseArgs, options).value;
      Scan(query.text).Some? &&
      Marks(Scan(query.text).value, 0) == QueryMarks(tokens, clause, ConditionMarks(options))
  {
    hide *;
    var sql, condition := TrimSpace(baseSQL), Condition(options);
    AcceptedText(baseSQL, options, tokens, clause);
    QueryText(tenant, baseSQL, baseArgs, options, tokens, clause);
    ConditionTokens(options);
    RewriteScansAsSpliced(sql, TenantFieldFromCondition(condition), condition);
    SplicedIsQueryMarks(tokens, clause, Scan(condition).value);
  }

  lemma SplicedIsQueryMarks(tokens: seq<Token>, clause: Clause, condition: seq<Token>)
    requires clause.WhereAt? ==> clause.index < |tokens|
    ensures SplicedMarks(tokens, clause, condition) == QueryMarks(tokens, clause, Marks(condition, 0))
  {
    hide Marks, Wrapped, Deeper;
    MarksDeeperAfter(tokens, clause);
  }

  function QueryMarks(tokens: seq<Token>, clause: Clause, condition: seq<Mark>): seq<Mark>
    requires clause.WhereAt? ==> clause.index < |tokens|
  {
    match clause
    case NoWhere => Marks(tokens, 0) + ([Mark(Word, "WHERE", 0)] + condition)
    case WhereAt(w) => Marks(tokens[..w + 1], 0) + Wrapped(Deeper(Marks(tokens[w + 1..], 0)), condition)
  }

  lemma MarksDeeperAfter(tokens: seq<Token>, clause: Clause)
    requires clause.WhereAt? ==> clause.index < |tokens|
    ensures clause.WhereAt? ==> Marks(tokens[clause.index + 1..], 1) == Deeper(Marks(tokens[clause.index + 1..], 0))
  {
    if clause.WhereAt? {
      MarksDeeper(tokens[clause.index + 1..]);
    }
  }

  /** An accepted query keeps a row exactly when the old statement kept it and the tenant condition holds of it. */
  lemma QueryIsolatesTenant<A>(tenant: A, baseSQL: string, baseArgs: seq<A>, options: Options,
                               tokens: seq<Token>, clause: Clause, row: Row)
    requires AreSafe(options) && First(ConditionMarks(options), 0, "OR") == |ConditionMarks(options)|
    requires QueryWithArgs(Tenant(tenant), baseSQL, baseArgs, options).Ok?
    requires Accepts(baseSQL, options, tokens, clause)
    ensures var query := QueryWithArgs(Tenant(tenant), baseSQL, baseArgs, options).value;
      var start := PredicateStart(tokens, clause);
      Scan(query.text).Some? && 0 < start <= |Scan(query.text).value| &&
      var marks := Marks(Scan(query.text).value, 0);
      MarkIs(marks[start - 1], "WHERE") &&
      marks[..start - 1] == Marks(tokens[..if clause.WhereAt? then clause.index else |tokens|], 0) &&
      Holds(marks[start..], 0, row) ==
        (OldPredicateHolds(tokens, clause, row) && Holds(ConditionMarks(options), 0, row))
  {
    QueryScansAsSpliced(tenant, baseSQL, baseArgs, options, tokens, clause);
    hide QueryWithArgs, Scan, ConditionMarks, FieldMarks, Holds, Plain, HasNoConnective, Connective, AnalyzeText,
      Wrapped;
    QueryMarksSplit(tokens, clause, ConditionMarks(options), row);
  }

  /**
   A field may be named like a connective, and in the Boolean reading of SqlMeaning the condition then isolates nothing.
   Common databases refuse such a text as a syntax error. The reading takes every word OR for the connective, also
   behind a dot as in `t.OR`, where a database may read a column.
   */
  lemma FieldNamedOr()
    ensures var options := Options("OR", "", false);
      AreSafe(options) && First(ConditionMarks(options), 0, "OR") < |ConditionMarks(options)| &&
        !Isolates(ConditionMarks(options))
  {
    var options := Options("OR", "", false);
    assert IsFieldByte("OR", 0) && IsFieldByte("OR", 1);
    ReadsKeyword("OR", 0);
    var marks := ConditionMarks(options);
    assert marks[0] == Mark(Word, "OR", 0);
    assert Pass(marks[0], 0, "OR", START) == None by {
      assert UpperChar("OR"[1]) != UpperChar("AND"[1]);
    }
    hide Pass, FieldMarks;
    assert First(marks, 0, "OR") == 0;
    IsolatesExactlyWithoutOr(marks);
  }

  lemma QueryMarksSplit(tokens: seq<Token>, clause: Clause, condition: seq<Mark>, row: Row)
    requires clause.WhereAt? ==> clause.index < |tokens| && TopWord(tokens[clause.index], "WHERE")
    requires First(condition, 0, "OR") == |condition|
    ensures var marks, start := QueryMarks(tokens, clause, condition), PredicateStart(tokens, clause);
      start <= |marks| && MarkIs(marks[start - 1], "WHERE") &&
      marks[..start - 1] == Marks(tokens[..if clause.WhereAt? then clause.index else |tokens|], 0) &&
      Holds(marks[start..], 0, row) == (OldPredicateHolds(tokens, clause, row) && Holds(condition, 0, row))
  {
    hide Holds, Wrapped, Connective, Marks, First;
    var marks, start := QueryMarks(tokens, clause, condition), PredicateStart(tokens, clause);
    match clause
    case NoWhere =>
      assert tokens[..|tokens|] == tokens;
      assert marks[start..] == condition;
    case WhereAt(w) =>
      WhereSplits(tokens, w, condition);
      WrappedHoldsBoth(Marks(tokens[w + 1..], 0), condition, row);
  }

  lemma WhereSplits(tokens: seq<Token>, w: nat, condition: seq<Mark>)
    requires w < |tokens| && TopWord(tokens[w], "WHERE")
    ensures var marks := QueryMarks(tokens, WhereAt(w), condition);
      w + 1 <= |marks| && MarkIs(marks[w], "WHERE") && marks[..w] == Marks(tokens[..w], 0) &&
      marks[w + 1..] == Wrapped(Deeper(Marks(tokens[w + 1..], 0)), condition)
  {
    assert tokens[..w + 1] == tokens[..w] + [tokens[w]];
    MarksAppend(tokens[..w], [tokens[w]], 0);
    hide Wrapped, Deeper;
  }

  lemma WrappedHoldsBoth(inner: seq<Mark>, condition: seq<Mark>, row: Row)
    requires First(condition, 0, "OR") == |condition|
    ensures Holds(Wrapped(Deeper(inner), condition), 0, row) == (Holds(inner, 0, row) && Holds(condition, 0, row))
  {
    hide Holds, Wrapped, First;
    WrappedHolds(Deeper(inner), condition, row);
    HoldsDeeper(inner, 0, row);
  }

  /** A rewritten statement with its arguments in place, from the old one and the condition with theirs. */
  function FilledQuery<A>(filled: seq<Slot<A>>, clause: Clause, condition: seq<Slot<A>>): seq<Slot<A>>
    requires clause.WhereAt? ==> clause.index < |filled|
  {
    match clause
    case NoWhere => filled + ([Lexical(Word, "WHERE")] + condition)
    case WhereAt(w) =>
      filled[..w + 1] + ([Lexical(Symbol, "(")] + (filled[w + 1..] + ([Lexical(Symbol, ")")] +
      ([Lexical(Word, "AND")] + condition))))
  }

  lemma FillQuery<A>(tokens: seq<Token>, clause: Clause, args: seq<A>, condition: seq<Mark>, more: seq<A>)
    requires clause.WhereAt? ==> clause.index < |tokens|
    requires Holes(Marks(tokens, 0)) == |args|
    ensures var marks := QueryMarks(tokens, clause, condition);
      Holes(marks) == |args| + Holes(condition) &&
      Fill(marks, args + more) == FilledQuery(Fill(Marks(tokens, 0), args), clause, Fill(condition, more))
  {
    hide Fill, Holes, Wrapped, Deeper;
    match clause
    case NoWhere => FillWhere(Marks(tokens, 0), args, condition, more);
    case WhereAt(w) =>
      var marks := Marks(tokens, 0);
      assert tokens == tokens[..w + 1] + tokens[w + 1..];
      MarksAppend(tokens[..w + 1], tokens[w + 1..], 0);
      assert marks[..w + 1] == Marks(tokens[..w + 1], 0) && marks[w + 1..] == Marks(tokens[w + 1..], 0);
      FillWrapped(marks, w + 1, args, condition, more);
  }

  /** Binding the arguments and rewriting commute: old placeholders keep their arguments, the tenant's is last. */
  lemma QueryKeepsBindings<A>(tenant: A, baseSQL: string, baseArgs: seq<A>, options: Options,
                              tokens: seq<Token>, clause: Clause)
    requires AreSafe(options) && QueryWithArgs(Tenant(tenant), baseSQL, baseArgs, options).Ok?
    requires Accepts(baseSQL, options, tokens, clause)
    requires Holes(Marks(tokens, 0)) == |baseArgs|
    ensures var query := QueryWithArgs(Tenant(tenant), baseSQL, baseArgs, options).value;
      Scan(query.text).Some? &&
      Holes(Marks(Scan(query.text).value, 0)) == |query.args| &&
      Fill(Marks(Scan(query.text).value, 0), query.args) ==
        FilledQuery(Fill(Marks(tokens, 0), baseArgs), clause, Fill(ConditionMarks(options), [tenant]))
  {
    hide QueryWithArgs, Scan, ConditionMarks, Fill, Holes, AnalyzeText, QueryMarks, FilledQuery, TopWord,
      AddTenantCondition,
         TenantFieldFromCondition, Condition, IsSafeFieldName, TrimSpace, Marks;
    QueryScansAsSpliced(tenant, baseSQL, baseArgs, options, tokens, clause);
    ConditionHoles(options);
    var _, _ := AcceptedQuery(tenant, baseSQL, baseArgs, options);
    FillQuery(tokens, clause, baseArgs, ConditionMarks(options), [tenant]);
  }

  lemma LexicalFirst<A>(mark: Mark, rest: seq<Mark>, args: seq<A>)
    requires mark == Mark(Word, "WHERE", 0) || mark == Mark(Word, "AND", 0) || mark == Mark(Symbol, "(", 0) ||
      mark == Mark(Symbol, ")", 0)
    ensures Fill([mark] + rest, args) == [Lexical(mark.kind, mark.text)] + Fill(rest, args)
    ensures Holes([mark] + rest) == Holes(rest)
  {
    assert !IsHole(mark) by {
      assert "("[0] != "?"[0] && ")"[0] != "?"[0];
    }
    FillLexical(mark, rest, args);
  }

  lemma FillWhere<A>(marks: seq<Mark>, args: seq<A>, condition: seq<Mark>, more: seq<A>)
    requires Holes(marks) == |args|
    ensures var all := marks + ([Mark(Word, "WHERE", 0)] + condition);
      Holes(all) == |args| + Holes(condition) &&
      Fill(all, args + more) == Fill(marks, args) + ([Lexical(Word, "WHERE")] + Fill(condition, more))
  {
    hide Fill, Holes;
    LexicalFirst(Mark(Word, "WHERE", 0), condition, more);
    FillAppend(marks, [Mark(Word, "WHERE", 0)] + condition, args, more);
  }

  lemma FillWrapped<A>(marks: seq<Mark>, n: nat, args: seq<A>, condition: seq<Mark>, more: seq<A>)
    requires n <= |marks| && Holes(marks) == |args|
    ensures var all := marks[..n] + Wrapped(Deeper(marks[n..]), condition);
      var filled := Fill(marks, args);
      Holes(all) == |args| + Holes(condition) &&
      Fill(all, args + more) == filled[..n] + ([Lexical(Symbol, "(")] + (filled[n..] + ([Lexical(Symbol, ")")] +
                                ([Lexical(Word, "AND")] + Fill(condition, more)))))
  {
    hide *;
    HolesBefore(marks, args, n);
    var k := Holes(marks[..n]);
    FillAround(marks[..n], marks[n..], args[..k], args[k..], condition, more);
    WholeAgain(marks, n);
    WholeAgain(args, k);
  }

  lemma WholeAgain<T>(s: seq<T>, n: nat)
    requires n <= |s|
    ensures s[..n] + s[n..] == s
  {
  }

  lemma Regroup<T>(a: seq<T>, b: seq<T>, c: seq<T>)
    ensures a + b + c == a + (b + c)
  {
  }

  /** A statement around whose predicate the condition is spliced. */
  lemma FillAround<A>(before: seq<Mark>, inner: seq<Mark>, first: seq<A>, second: seq<A>, condition: seq<Mark>,
          more: seq<A>)
    requires Holes(before) == |first| && Holes(inner) == |second|
    ensures var all := before + Wrapped(Deeper(inner), condition);
      var filled := Fill(before + inner, first + second);
      Holes(all) == |first + second| + Holes(condition) &&
      Fill(all, first + second + more) == filled[..|before|] + ([Lexical(Symbol, "(")] + (filled[|before|..] +
        ([Lexical(Symbol, ")")] + ([Lexical(Word, "AND")] + Fill(condition, more)))))
  {
    hide *;
    FillSplit(before, inner, first, second);
    FillInner(inner, second, condition, more);
    FillAppend(before, Wrapped(Deeper(inner), condition), first, second + more);
    Regroup(first, second, more);
  }

  lemma FillSplit<A>(before: seq<Mark>, inner: seq<Mark>, first: seq<A>, second: seq<A>)
    requires Holes(before) == |first|
    ensures |Fill(before, first)| == |before|
    ensures Fill(before + inner, first + second)[..|before|] == Fill(before, first)
    ensures Fill(before + inner, first + second)[|before|..] == Fill(inner, second)
  {
    FillAppend(before, inner, first, second);
  }

  /** The wrapped predicate takes its own arguments and then the condition's. */
  lemma FillInner<A>(inner: seq<Mark>, args: seq<A>, condition: seq<Mark>, more: seq<A>)
    requires Holes(inner) == |args|
    ensures var wrapped := Wrapped(Deeper(inner), condition);
      Holes(wrapped) == |args| + Holes(condition) &&
      Fill(wrapped, args + more) == [Lexical(Symbol, "(")] +
        (Fill(inner, args) + ([Lexical(Symbol, ")")] + ([Lexical(Word, "AND")] + Fill(condition, more))))
  {
    hide *;
    var closed := [Mark(Symbol, ")", 0)] + ([Mark(Word, "AND", 0)] + condition);
    FillDeeper(inner, args);
    FillClosing(condition, more);
    FillAppend(Deeper(inner), closed, args, more);
    LexicalFirst(Mark(Symbol, "(", 0), Deeper(inner) + closed, args + more);
    WrappedIs(Deeper(inner), condition);
  }

  /** The closing parenthesis, AND and the condition. */
  lemma FillClosing<A>(condition: seq<Mark>, more: seq<A>)
    ensures var closed := [Mark(Symbol, ")", 0)] + ([Mark(Word, "AND", 0)] + condition);
      Holes(closed) == Holes(condition) &&
      Fill(closed, more) == [Lexical(Symbol, ")")] + ([Lexical(Word, "AND")] + Fill(condition, more))
  {
    hide *;
    LexicalFirst(Mark(Word, "AND", 0), condition, more);
    LexicalFirst(Mark(Symbol, ")", 0), [Mark(Word, "AND", 0)] + condition, more);
  }

  lemma WrappedIs(inner: seq<Mark>, condition: seq<Mark>)
    ensures Wrapped(inner, condition) ==
      [Mark(Symbol, "(", 0)] + (inner + ([Mark(Symbol, ")", 0)] + ([Mark(Word, "AND", 0)] + condition)))
  {
  }
}
