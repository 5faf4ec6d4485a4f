/** The tenant rewrite: the spliced text, and what the scanner reads in it. */
module SqlRewrite {
  import opened Prelude
  import opened SqlText
  import opened WhiteSpace
  import opened SqlScanner
  import opened SqlSplicing
  import opened SqlAnalysis

  // ----- the operation -----

  datatype Options = Options(tenantField: string, softDeleteField: string, includeSoftDeleted: bool)

  /** Who is asking: nobody, the host, or a tenant whose identifier is bound as an argument. */
  datatype Scope<+A> = NoTenant | Host | Tenant(argument: A)

  datatype QueryError = ErrNoTenant | Rejected(reason: SqlError)

  datatype Query<+A> = Query(text: string, args: seq<A>)

  function Condition(options: Options): string {
    options.tenantField + " = ?" +
    if options.softDeleteField != "" && !options.includeSoftDeleted then " AND " + options.softDeleteField + " IS NULL"
    else ""
  }

  function TenantFieldFromCondition(expression: string): string {
    match Find(expression, 0, " = ?")
    case Some(i) => TrimSpace(expression[..i])
    case None => ""
  }

  function AddTenantCondition(sql: string, condition: string, whereEnd: Option<nat>): string
    requires whereEnd.Some? ==> whereEnd.value <= |sql|
  {
    match whereEnd
    case None => sql + " WHERE " + condition
    case Some(end) => TrimSpace(sql[..end]) + " (" + TrimSpace(sql[end..]) + ") AND " + condition
  }

  function QueryWithArgs<A>(scope: Scope<A>, baseSQL: string, baseArgs: seq<A>, options: Options)
    : Result<Query<A>, QueryError>
  {
    var sql := TrimSpace(baseSQL);
    if sql == "" then Err(Rejected(UnsafeSQL))
    else if scope.NoTenant? then Err(ErrNoTenant)
    else if scope.Host? then Ok(Query(sql, baseArgs))
    else
      var condition := Condition(options);
      match AnalyzeText(sql, TenantFieldFromCondition(condition))
      case Err(reason) => Err(Rejected(reason))
      case Ok(clause) =>
        ClauseEnds(sql, TenantFieldFromCondition(condition));
        Ok(Query(AddTenantCondition(sql, condition, WhereEnd(Scan(sql).value, clause)), baseArgs + [scope.argument]))
  }

  function WhereEnd(tokens: seq<Token>, clause: Clause): Option<nat> {
    if clause.WhereAt? && clause.index < |tokens| then Some(tokens[clause.index].end) else None
  }

  lemma ClauseEnds(sql: string, tenantField: string)
    requires AnalyzeText(sql, tenantField).Ok?
    ensures Scan(sql).Some?
    ensures var clause := AnalyzeText(sql, tenantField).value;
      clause.WhereAt? ==> clause.index < |Scan(sql).value| - 1 && TopWord(Scan(sql).value[clause.index], "WHERE") &&
                          Scan(sql).value[clause.index].end <= |sql|
  {
    hide Analyze, Run, TopWord;
    var clause := AnalyzeText(sql, tenantField).value;
    if clause.WhereAt? {
      AcceptedWhere(Scan(sql).value, tenantField);
      RunCut(sql, 0, 0, clause.index);
    }
  }

  // ----- scanning the pieces -----

  /** Scanned inside `depth` parentheses, the text is `marks` and ends inside `after` parentheses. */
  ghost predicate Reads(s: string, depth: nat, marks: seq<Mark>, after: nat) {
    Run(s, 0, depth).Some? && Run(s, 0, depth).value.depth == after && Marks(Run(s, 0, depth).value.tokens, 0) == marks
  }

  lemma ReadsFrom(s: string, at: nat, depth: nat, deeper: nat)
    requires Run(s, at, depth).Some?
    ensures Reads(s, depth + deeper, Marks(Run(s, at, depth).value.tokens, deeper), Run(s, at, depth).value.depth +
      deeper)
  {
    RunMoved(s, at, depth, 0, deeper);
  }

  lemma ReadsAt(s: string, at: nat, depth: nat, marks: seq<Mark>, after: nat)
    requires Reads(s, depth, marks, after)
    ensures Run(s, at, depth).Some? && Run(s, at, depth).value.depth == after
    ensures Marks(Run(s, at, depth).value.tokens, 0) == marks
  {
    RunMoved(s, 0, depth, at, 0);
  }

  lemma ReadsAppend(a: string, b: string, depth: nat, marks: seq<Mark>, middle: nat, marks': seq<Mark>, after: nat)
    requires Reads(a, depth, marks, middle) && Reads(b, middle, marks', after) && Barrier(b)
    ensures Reads(a + b, depth, marks + marks', after)
  {
    hide Run;
    RunAppend(a, b, 0, depth);
    ReadsAt(b, |a|, middle, marks', after);
    MarksAppend(Run(a, 0, depth).value.tokens, Run(b, |a|, middle).value.tokens, 0);
  }

  lemma ReadsBlank(s: string, depth: nat, marks: seq<Mark>, after: nat)
    requires Reads(s, depth, marks, after)
    ensures Reads(" " + s, depth, marks, after)
  {
    hide Run;
    RunBlank(" " + s, 0, depth);
    assert (" " + s)[1..] == s;
    ReadsAt(s, 1, depth, marks, after);
  }

  predicate IsKeyword(word: string) { word != "" && forall i :: 0 <= i < |word| ==> 'A' <= word[i] <= 'Z' }

  lemma ReadsKeyword(word: string, depth: nat)
    requires IsKeyword(word)
    ensures Reads(word, depth, [Mark(Word, word, depth)], depth)
  {
    assert Lex(word) == Piece(Word, |word|);
    RunToken(word, 0, depth, Word, |word|);
    assert word[..|word|] == word && word[|word|..] == "";
  }

  /** A keyword between blanks, and what follows it. */
  lemma ReadsKeywordThen(word: string, rest: string, depth: nat, marks: seq<Mark>, after: nat)
    requires IsKeyword(word) && Reads(rest, depth, marks, after)
    ensures Reads(" " + word + " " + rest, depth, [Mark(Word, word, depth)] + marks, after)
  {
    hide Reads;
    ReadsKeyword(word, depth);
    ReadsBlank(rest, depth, marks, after);
    ReadsAppend(word, " " + rest, depth, [Mark(Word, word, depth)], depth, marks, after);
    ReadsBlank(word + (" " + rest), depth, [Mark(Word, word, depth)] + marks, after);
    assert " " + (word + (" " + rest)) == " " + word + " " + rest;
  }

  lemma ReadsOpen(rest: string, depth: nat, marks: seq<Mark>, after: nat)
    requires Reads(rest, depth + 1, marks, after)
    ensures Reads("(" + rest, depth, [Mark(Symbol, "(", depth)] + marks, after)
  {
    var s := "(" + rest;
    assert s[..1] == "(" && s[1..] == rest;
    assert Lex(s) == Piece(Symbol, 1);
    hide Run, Lex;
    RunToken(s, 0, depth, Symbol, 1);
    ReadsAt(rest, 1, depth + 1, marks, after);
    MarksAppend([Token(Symbol, "(", 0, 1, depth)], Run(rest, 1, depth + 1).value.tokens, 0);
  }

  lemma ReadsClose(rest: string, depth: nat, marks: seq<Mark>, after: nat)
    requires Reads(rest, depth, marks, after)
    ensures Reads(")" + rest, depth + 1, [Mark(Symbol, ")", depth)] + marks, after)
  {
    var s := ")" + rest;
    assert s[..1] == ")" && s[1..] == rest;
    assert Lex(s) == Piece(Symbol, 1);
    hide Run, Lex;
    RunToken(s, 0, depth + 1, Symbol, 1);
    ReadsAt(rest, 1, depth, marks, after);
    MarksAppend([Token(Symbol, ")", 0, 1, depth)], Run(rest, 1, depth).value.tokens, 0);
  }

  lemma ReadsTrimmed(s: string, at: nat, depth: nat, deeper: nat)
    requires Run(s, at, depth).Some?
    ensures Reads(TrimSpace(s), depth + deeper, Marks(Run(s, at, depth).value.tokens, deeper),
                  Run(s, at, depth).value.depth + deeper)
  {
    hide Run, TrimSpace, TrimLeft, Reads, Marks;
    RunTrimSpace(s, at, depth);
    ReadsFrom(TrimSpace(s), at + |s| - |TrimLeft(s)|, depth, deeper);
  }

  // ----- the rewritten statement -----

  /** What the rewritten statement must scan to. */
  function SplicedMarks(tokens: seq<Token>, clause: Clause, condition: seq<Token>): seq<Mark>
    requires clause.WhereAt? ==> clause.index < |tokens|
  {
    match clause
    case NoWhere => Marks(tokens, 0) + ([Mark(Word, "WHERE", 0)] + Marks(condition, 0))
    case WhereAt(w) => Marks(tokens[..w + 1], 0) + Wrapped(Marks(tokens[w + 1..], 1), Marks(condition, 0))
  }

  /** A predicate in parentheses, conjoined with a condition. */
  function Wrapped(inner: seq<Mark>, condition: seq<Mark>): seq<Mark> {
    [Mark(Symbol, "(", 0)] + (inner + ([Mark(Symbol, ")", 0)] + ([Mark(Word, "AND", 0)] + condition)))
  }

  lemma ReadsWrapped(p: string, inner: seq<Mark>, condition: string, marks: seq<Mark>)
    requires Reads(p, 1, inner, 1) && Reads(condition, 0, marks, 0)
    ensures Reads(" (" + p + ") AND " + condition, 0, Wrapped(inner, marks), 0)
  {
    hide Reads;
    var conjunct := " " + "AND" + " " + condition;
    var and := [Mark(Word, "AND", 0)] + marks;
    var closed := [Mark(Symbol, ")", 0)] + and;
    ReadsKeywordThen("AND", condition, 0, marks, 0);
    ReadsClose(conjunct, 0, and, 0);
    ReadsAppend(p, ")" + conjunct, 1, inner, 1, closed, 0);
    ReadsOpen(p + (")" + conjunct), 0, inner + closed, 0);
    ReadsBlank("(" + (p + (")" + conjunct)), 0, Wrapped(inner, marks), 0);
    assert " (" + p + ") AND " + condition == " " + ("(" + (p + (")" + conjunct)));
  }

  /** Re-scanning the rewritten text succeeds and reads exactly the spliced tokens. */
  lemma RewriteScansAsSpliced(sql: string, tenantField: string, condition: string)
    requires AnalyzeText(sql, tenantField).Ok? && Scan(condition).Some?
    ensures Scan(sql).Some?
    ensures var tokens, clause := Scan(sql).value, AnalyzeText(sql, tenantField).value;
      (clause.WhereAt? ==> clause.index < |tokens| && tokens[clause.index].end <= |sql|) &&
      var rewritten := AddTenantCondition(sql, condition, WhereEnd(tokens, clause));
      Scan(rewritten).Some? &&
      Marks(Scan(rewritten).value, 0) == SplicedMarks(tokens, clause, Scan(condition).value)
  {
    ClauseEnds(sql, tenantField);
    var tokens, clause := Scan(sql).value, AnalyzeText(sql, tenantField).value;
    ScanRuns(sql);
    ScanRuns(condition);
    hide *;
    if clause.NoWhere? {
      SplicesBehind(sql, tokens, condition, Scan(condition).value);
      RewriteNoWhere(sql, condition, tokens, clause);
      ReadsScan(AddTenantCondition(sql, condition, None), SplicedMarks(tokens, clause, Scan(condition).value));
    } else {
      SplicesAround(sql, tokens, clause.index, condition, Scan(condition).value);
      RewriteWhere(tokens, clause);
      var end := Some(tokens[clause.index].end);
      ReadsScan(AddTenantCondition(sql, condition, end), SplicedMarks(tokens, clause, Scan(condition).value));
    }
  }

  lemma ScanRuns(sql: string)
    requires Scan(sql).Some?
    ensures Run(sql, 0, 0) == Some(Scanned(Scan(sql).value, 0))
  {
    hide Run;
  }

  lemma ReadsScan(text: string, marks: seq<Mark>)
    requires Reads(text, 0, marks, 0)
    ensures Scan(text).Some? && Marks(Scan(text).value, 0) == marks
  {
    hide Run, Marks;
  }

  lemma RewriteNoWhere(sql: string, condition: string, tokens: seq<Token>, clause: Clause)
    requires clause.NoWhere?
    ensures WhereEnd(tokens, clause) == None && AddTenantCondition(sql, condition, None) == sql + " WHERE " + condition
  {
  }

  lemma RewriteWhere(tokens: seq<Token>, clause: Clause)
    requires clause.WhereAt? && clause.index < |tokens|
    ensures WhereEnd(tokens, clause) == Some(tokens[clause.index].end)
  {
  }

  /** The condition behind a statement without WHERE. */
  lemma SplicesBehind(sql: string, tokens: seq<Token>, condition: string, extra: seq<Token>)
    requires Run(sql, 0, 0) == Some(Scanned(tokens, 0)) && Run(condition, 0, 0) == Some(Scanned(extra, 0))
    ensures Reads(sql + " WHERE " + condition, 0, SplicedMarks(tokens, NoWhere, extra), 0)
  {
    hide Run, Reads, Marks;
    ReadsFrom(condition, 0, 0, 0);
    ReadsFrom(sql, 0, 0, 0);
    AppendedScan(sql, Marks(tokens, 0), condition, Marks(extra, 0));
  }

  /** The condition around the predicate of a statement. */
  lemma SplicesAround(sql: string, tokens: seq<Token>, w: nat, condition: string, extra: seq<Token>)
    requires Run(sql, 0, 0) == Some(Scanned(tokens, 0)) && Run(condition, 0, 0) == Some(Scanned(extra, 0))
    requires w < |tokens| && TopWord(tokens[w], "WHERE") && tokens[w].end <= |sql|
    ensures
      Reads(AddTenantCondition(sql, condition, Some(tokens[w].end)), 0, SplicedMarks(tokens, WhereAt(w), extra), 0)
  {
    hide Run, Reads, Marks, TrimSpace, Wrapped, TopWord;
    var end := tokens[w].end;
    ReadsFrom(condition, 0, 0, 0);
    RunCut(sql, 0, 0, w);
    WordLeavesDepth(tokens[w]);
    ReadsTrimmed(sql[..end], 0, 0, 0);
    ReadsTrimmed(sql[end..], end, 0, 1);
    ConjoinedScan(TrimSpace(sql[..end]), Marks(tokens[..w + 1], 0), TrimSpace(sql[end..]), Marks(tokens[w + 1..], 1),
                  condition, Marks(extra, 0));
  }

  lemma WordLeavesDepth(token: Token)
    requires TopWord(token, "WHERE")
    ensures AfterToken(token) == 0
  {
  }

  lemma AppendedScan(sql: string, marks: seq<Mark>, condition: string, extra: seq<Mark>)
    requires Reads(sql, 0, marks, 0) && Reads(condition, 0, extra, 0)
    ensures Reads(sql + " WHERE " + condition, 0, marks + ([Mark(Word, "WHERE", 0)] + extra), 0)
  {
    hide Reads;
    ReadsKeywordThen("WHERE", condition, 0, extra, 0);
    var text := " " + "WHERE" + " " + condition;
    ReadsAppend(sql, text, 0, marks, 0, [Mark(Word, "WHERE", 0)] + extra, 0);
    assert sql + " WHERE " + condition == sql + text;
  }

  lemma ConjoinedScan(prefix: string, before: seq<Mark>, p: string, inner: seq<Mark>, condition: string,
          extra: seq<Mark>)
    requires Reads(prefix, 0, before, 0) && Reads(p, 1, inner, 1) && Reads(condition, 0, extra, 0)
    ensures Reads(prefix + " (" + p + ") AND " + condition, 0, before + Wrapped(inner, extra), 0)
  {
    hide Reads, Wrapped;
    ReadsWrapped(p, inner, condition, extra);
    var text := " (" + p + ") AND " + condition;
    ReadsAppend(prefix, text, 0, before, 0, Wrapped(inner, extra), 0);
    assert prefix + " (" + p + ") AND " + condition == prefix + text;
  }
}
