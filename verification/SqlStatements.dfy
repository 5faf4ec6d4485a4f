/**
 The statements the rewriter accepts, as a grammar over their tokens. A tenant's query is answered exactly when its text
 has such a form, and the SET list of an accepted UPDATE never names the tenant's column, in any spelling.
 */
module SqlStatements {
  import opened Prelude
  import opened SqlText
  import opened WhiteSpace
  import opened SqlScanner
  import opened SqlNames
  import opened SqlGrammar
  import opened SqlAnalysis
  import opened SqlRewrite
  import opened SqlIsolation

  // ----- names -----

  /** The identifier's name, which a quoted spelling may disguise. */
  ghost predicate IsNamed(token: Token, name: string) {
    (token.kind.Word? && token.text == name) ||
    (token.kind.QuotedIdentifier? && exists style :: token.text == Quoted(name, style))
  }

  ghost predicate Names(token: Token, column: string) { exists name :: IsNamed(token, name) && EqualFold(name, column) }

  /** The last part of a dotted field name. */
  ghost predicate IsColumnOf(column: string, field: string) {
    '.' !in column && (field == column || (|field| > |column| && field[|field| - |column| - 1..] == "." + column))
  }

  lemma ValueOfQuoted(token: Token, name: string, style: Style)
    requires token.kind.QuotedIdentifier? && token.text == Quoted(name, style)
    ensures IdentifierValue(token) == name
  {
    UnescapeDoubled(name, Closing(style));
    hide Doubled, Unescape;
    assert token.text[1..|token.text| - 1] == Doubled(name, Closing(style));
  }

  lemma NamesValue(sql: string, token: Token, column: string)
    requires LexicalIn(sql, token) && IsIdentifier(token)
    ensures Names(token, column) <==> EqualFold(IdentifierValue(token), column)
  {
    hide Quoted, EqualFold;
    if token.kind.Word? {
      assert IdentifierValue(token) == token.text && IsNamed(token, token.text);
    } else {
      assert IsLexical(QuotedIdentifier, token.text, sql[token.end..]);
      var name, style: Style :| token.text == Quoted(name, style) && IsClosed(name, style, sql[token.end..]);
      ValueOfQuoted(token, name, style);
      assert IsNamed(token, name);
      if other :| IsNamed(token, other) && EqualFold(other, column) {
        var style': Style :| token.text == Quoted(other, style');
        ValueOfQuoted(token, other, style');
      }
    }
  }

  // ----- the column of the configured field -----

  predicate AreQuotes(s: string) { forall c :: c in s ==> c in "\"`[]" }

  /** Trimming takes the quotes off both ends, and nothing else. */
  lemma {:induction false} QuotesTrimmed(s: string) returns (before: string, after: string)
    ensures var trimmed := TrimNameQuotes(s);
      s == before + trimmed + after && AreQuotes(before) && AreQuotes(after) &&
      (trimmed != "" ==> !AreQuotes([trimmed[0]]) && !AreQuotes([trimmed[|trimmed| - 1]]))
    decreases |s|
  {
    before, after := "", "";
    if s != "" && IsNameQuote(s[0]) {
      before, after := QuotesTrimmed(s[1..]);
      before := [s[0]] + before;
    } else if s != "" && IsNameQuote(s[|s| - 1]) {
      before, after := QuotesTrimmed(s[..|s| - 1]);
      after := after + [s[|s| - 1]];
    } else if s != "" {
      assert s[0] in [s[0]] && s[|s| - 1] in [s[|s| - 1]];
    }
  }

  lemma {:induction false} FindBlank(field: string, rest: string, from: nat)
    requires from <= |field| && forall i :: 0 <= i < |field| ==> field[i] != ' '
    ensures Find(field + " = ?" + rest, from, " = ?") == Some(|field|)
    decreases |field| - from
  {
    var s := field + " = ?" + rest;
    if from == |field| {
      assert s[from..from + 4] == " = ?";
    } else {
      FindBlank(field, rest, from + 1);
      assert s[from..from + 4][0] == s[from] == field[from];
    }
  }

  lemma FieldHasNoBlank(field: string)
    requires IsSafeFieldName(field)
    ensures forall i :: 0 <= i < |field| ==> !IsSpace(field[i]) && !IsNameQuote(field[i])
  {
    forall i | 0 <= i < |field|
      ensures !IsSpace(field[i]) && !IsNameQuote(field[i])
    {
      assert IsFieldByte(field, i);
    }
  }

  lemma ConditionField(options: Options)
    requires IsSafeFieldName(options.tenantField)
    ensures TenantFieldFromCondition(Condition(options)) == options.tenantField
  {
    var field := options.tenantField;
    var rest := if options.softDeleteField != "" && !options.includeSoftDeleted
      then " AND " + options.softDeleteField + " IS NULL" else "";
    FieldHasNoBlank(field);
    FindBlank(field, rest, 0);
    assert Condition(options) == field + " = ?" + rest;
    assert Condition(options)[..|field|] == field;
    hide Find;
  }

  /** The column is what follows the last dot, or everything. */
  lemma ColumnPlace(column: string, field: string)
    ensures IsColumnOf(column, field) <==>
      '.' !in column && |column| <= |field| && field[|field| - |column|..] == column &&
      (|column| < |field| ==> field[|field| - |column| - 1] == '.')
  {
    if |column| < |field| {
      var at := |field| - |column| - 1;
      assert field[at..] == [field[at]] + field[at + 1..];
      assert field[at..] == "." + column ==> field[at] == '.' && field[at + 1..] == column;
    }
  }

  lemma {:induction false} AfterLastDotIs(field: string)
    ensures IsColumnOf(AfterLastDot(field), field)
    decreases |field|
  {
    hide IsColumnOf;
    var column := AfterLastDot(field);
    ColumnPlace(column, field);
    if field != "" && field[|field| - 1] != '.' {
      var front := field[..|field| - 1];
      AfterLastDotIs(front);
      ColumnPlace(AfterLastDot(front), front);
      AppendedColumn(AfterLastDot(front), front, field[|field| - 1]);
      assert field == front + [field[|field| - 1]];
    }
  }

  lemma AppendedColumn(column: string, front: string, c: char)
    requires c != '.' && IsColumnOf(column, front)
    ensures IsColumnOf(column + [c], front + [c])
  {
    ColumnPlace(column, front);
    ColumnPlace(column + [c], front + [c]);
    hide IsColumnOf;
    assert (front + [c])[|front| - |column|..] == front[|front| - |column|..] + [c];
  }

  lemma ColumnUnique(a: string, b: string, field: string)
    requires IsColumnOf(a, field) && IsColumnOf(b, field)
    ensures a == b
  {
    ColumnPlace(a, field);
    ColumnPlace(b, field);
    NoDotFrom(a, field);
    NoDotFrom(b, field);
    hide IsColumnOf;
  }

  lemma NoDotFrom(column: string, field: string)
    requires '.' !in column && |column| <= |field| && field[|field| - |column|..] == column
    ensures forall i :: |field| - |column| <= i < |field| ==> field[i] != '.'
  {
    forall i | |field| - |column| <= i < |field|
      ensures field[i] != '.'
    {
      assert field[i] == column[i - (|field| - |column|)];
    }
  }

  lemma {:induction false} NothingToTrim(s: string)
    requires forall i :: 0 <= i < |s| ==> !IsSpace(s[i]) && !IsNameQuote(s[i])
    ensures TrimSpace(s) == s && TrimNameQuotes(s) == s
  {
  }

  lemma ColumnOfSafe(field: string, column: string)
    requires IsSafeFieldName(field) && IsColumnOf(column, field)
    ensures column != "" && forall i :: 0 <= i < |column| ==> !IsSpace(column[i]) && !IsNameQuote(column[i])
  {
    ColumnPlace(column, field);
    FieldHasNoBlank(field);
    assert IsFieldByte(field, |field| - 1);
    hide IsColumnOf;
    assert forall i :: 0 <= i < |column| ==> column[i] == field[|field| - |column| + i];
  }

  /** The column the analysis protects is the last part of the configured field. */
  lemma ProtectedColumn(options: Options, column: string)
    requires IsSafeFieldName(options.tenantField) && IsColumnOf(column, options.tenantField)
    ensures ConfiguredColumnName(TenantFieldFromCondition(Condition(options))) == column != ""
  {
    var field := options.tenantField;
    ConditionField(options);
    FieldHasNoBlank(field);
    NothingToTrim(field);
    AfterLastDotIs(field);
    ColumnUnique(column, AfterLastDot(field), field);
    ColumnOfSafe(field, column);
    NothingToTrim(column);
    hide TrimSpace, TrimNameQuotes, AfterLastDot, Condition, TenantFieldFromCondition, IsColumnOf, IsSafeFieldName;
  }

  // ----- statements -----

  /** Words that would take the statement beyond one table and one condition, or put something behind the condition. */
  const FOREIGN: seq<string> :=
    ["JOIN"] + ["UNION", "INTERSECT", "EXCEPT"] + ["RETURNING"] +
    ["ORDER", "GROUP", "HAVING", "LIMIT", "OFFSET", "FETCH", "FOR"] + ["INTO", "USING"] +
    ["WINDOW", "QUALIFY", "OUTPUT", "LOCK", "OPTION", "OVER", "CONNECT", "START", "MODEL"]

  predicate IsForeign(token: Token) { exists word :: word in FOREIGN && token.IsWord(word) }

  predicate OpensStatement(token: Token) {
    exists word :: word in ["SELECT", "UPDATE", "DELETE", "INSERT"] && token.IsWord(word)
  }

  predicate Dangles(token: Token) { exists word :: word in ["WHERE", "AND", "OR"] && token.IsWord(word) }

  /** One statement: none inside it, no foreign word outside its parentheses, and no dangling connective. */
  predicate IsSingle(tokens: seq<Token>) {
    tokens != [] && !Dangles(tokens[|tokens| - 1]) &&
    (forall i :: 0 < i < |tokens| ==> !OpensStatement(tokens[i])) &&
    (forall i :: 0 <= i < |tokens| && tokens[i].depth == 0 ==> !IsForeign(tokens[i]))
  }

  /** `clause` is the only top-level WHERE from `start` on, and something follows it. */
  ghost predicate OnlyClause(tokens: seq<Token>, start: nat, clause: Clause) {
    match clause
    case NoWhere => HasNoWord(tokens, start, "WHERE")
    case WhereAt(w) =>
      start <= w < |tokens| - 1 && TopWord(tokens[w], "WHERE") &&
      forall i :: start <= i < |tokens| && i != w ==> !TopWord(tokens[i], "WHERE")
  }

  /** Everything before the clause, from `start` on. */
  function HeadFrom(tokens: seq<Token>, start: nat, clause: Clause): seq<Token> {
    var end := if clause.WhereAt? then clause.index else |tokens|;
    if start <= end <= |tokens| then tokens[start..end] else []
  }

  /** The only such word outside parentheses, from `start` on. */
  ghost predicate OnlyWord(tokens: seq<Token>, start: nat, at: nat, word: string) {
    start <= at < |tokens| && TopWord(tokens[at], word) &&
    forall i :: start <= i < |tokens| && i != at ==> !TopWord(tokens[i], word)
  }

  /** A dotted name, and perhaps an alias. */
  ghost predicate IsRelation(tokens: seq<Token>) { exists n: nat :: n <= |tokens| && IsRelationOf(tokens, n) }

  ghost predicate IsRelationOf(tokens: seq<Token>, n: nat)
    requires n <= |tokens|
  {
    IsPath(tokens[..n]) &&
    (n == |tokens| ||
     (n + 1 == |tokens| && IsIdentifier(tokens[n]) && !tokens[n].IsWord("AS")) ||
     (n + 2 == |tokens| && tokens[n].IsWord("AS") && IsIdentifier(tokens[n + 1])))
  }

  ghost predicate IsSelect(tokens: seq<Token>, clause: Clause) {
    tokens != [] && TopWord(tokens[0], "SELECT") && exists from :: SelectsFrom(tokens, from, clause)
  }

  ghost predicate SelectsFrom(tokens: seq<Token>, from: nat, clause: Clause) {
    1 < from && OnlyWord(tokens, 1, from, "FROM") && OnlyClause(tokens, from + 1, clause) &&
    IsRelation(HeadFrom(tokens, from + 1, clause))
  }

  ghost predicate IsDelete(tokens: seq<Token>, clause: Clause) {
    tokens != [] && TopWord(tokens[0], "DELETE") && OnlyWord(tokens, 1, 1, "FROM") && OnlyClause(tokens, 2, clause) &&
    IsRelation(HeadFrom(tokens, 2, clause))
  }

  ghost predicate IsUpdate(tokens: seq<Token>, clause: Clause, column: string) {
    tokens != [] && TopWord(tokens[0], "UPDATE") && exists target :: Updates(tokens, target, clause, column)
  }

  ghost predicate Updates(tokens: seq<Token>, target: nat, clause: Clause, column: string) {
    SetsAt(tokens, target, clause) && IsAssignmentList(HeadFrom(tokens, target + 1, clause), column)
  }

  /** A table, the only SET, no FROM after it, and the clause. */
  ghost predicate SetsAt(tokens: seq<Token>, target: nat, clause: Clause) {
    1 < target && OnlyWord(tokens, 1, target, "SET") && IsRelation(tokens[1..target]) &&
    HasNoWord(tokens, target + 1, "FROM") && OnlyClause(tokens, target + 1, clause)
  }

  ghost predicate HasNoWord(tokens: seq<Token>, start: nat, word: string) {
    forall i :: start <= i < |tokens| ==> !TopWord(tokens[i], word)
  }

  /** Assignments with commas between them, none of which names the column. */
  ghost predicate IsAssignmentList(list: seq<Token>, column: string) {
    exists pieces :: IsJoin(pieces, list) && forall i :: 0 <= i < |pieces| ==> AssignsElsewhere(pieces[i], column)
  }

  /** `path = expression`, where the last name of the path is another one. */
  ghost predicate AssignsElsewhere(piece: seq<Token>, column: string) {
    exists equals :: 0 < equals < |piece| - 1 && TopSymbol(piece[equals], "=") && IsPath(piece[..equals]) &&
      !Names(piece[equals - 1], column)
  }

  /** A statement that the rewriter accepts, with its predicate. */
  ghost predicate IsStatement(tokens: seq<Token>, clause: Clause, column: string) {
    IsSingle(tokens) &&
    (IsSelect(tokens, clause) || IsDelete(tokens, clause) || IsUpdate(tokens, clause, column))
  }

  // ----- what the analysis accepts -----

  lemma ForeignWords(token: Token)
    ensures IsUnsupportedTopLevelKeyword(token) <==> IsForeign(token)
  {
    assert UNSUPPORTED == FOREIGN;
  }

  lemma {:induction false} PathStops(tokens: seq<Token>, i: nat, n: nat)
    requires i <= n <= |tokens| && i % 2 == 1 == n % 2 && (n < |tokens| ==> !TopSymbol(tokens[n], "."))
    requires forall j :: i <= j < n && j % 2 == 0 ==> IsIdentifier(tokens[j]) && tokens[j].depth == 0
    requires forall j :: i <= j < n && j % 2 == 1 ==> TopSymbol(tokens[j], ".")
    ensures PathRest(tokens, i) == Some(n)
    decreases n - i
  {
    if i < n {
      PathStops(tokens, i + 2, n);
    }
  }

  lemma {:induction false} PathTaken(tokens: seq<Token>, i: nat)
    requires i <= |tokens| && i % 2 == 1 && PathRest(tokens, i).Some?
    ensures var n := PathRest(tokens, i).value;
      n % 2 == 1 && (forall j :: i <= j < n && j % 2 == 0 ==> IsIdentifier(tokens[j]) && tokens[j].depth == 0) &&
      (forall j :: i <= j < n && j % 2 == 1 ==> TopSymbol(tokens[j], ".")) &&
      (n < |tokens| ==> !TopSymbol(tokens[n], "."))
    decreases |tokens| - i
  {
    if i < |tokens| && TopSymbol(tokens[i], ".") {
      PathTaken(tokens, i + 2);
    }
  }

  lemma RelationExactly(tokens: seq<Token>)
    ensures IsSimpleRelation(tokens) <==> IsRelation(tokens)
  {
    if PathEnd(tokens).Some? {
      PathTaken(tokens, 1);
      var n := PathEnd(tokens).value;
      assert IsPath(tokens[..n]);
      if IsSimpleRelation(tokens) {
        assert IsRelationOf(tokens, n);
      }
    }
    if n: nat :| n <= |tokens| && IsRelationOf(tokens, n) {
      assert forall j :: 0 <= j < n ==> tokens[..n][j] == tokens[j];
      assert n < |tokens| ==> !TopSymbol(tokens[n], ".");
      PathStops(tokens, 1, n);
    }
  }

  // ----- SET lists -----

  lemma CommaAt(tokens: seq<Token>, start: nat, n: nat)
    requires start + n <= |tokens| && HasNoComma(tokens[start..start + n])
    requires start + n < |tokens| ==> TopSymbol(tokens[start + n], ",")
    ensures NextComma(tokens, start) == start + n
  {
    assert forall j :: start <= j < start + n ==> tokens[j] == tokens[start..start + n][j - start];
  }

  /** A list has one division into pieces. */
  lemma {:induction false} JoinIsPieces(pieces: seq<seq<Token>>, tokens: seq<Token>, start: nat)
    requires start <= |tokens| && IsJoin(pieces, tokens[start..])
    ensures pieces == Pieces(tokens, start)
    decreases |pieces|
  {
    hide HasNoComma, NextComma, TopSymbol, Pieces, IsJoin;
    JoinFirst(pieces, tokens, start);
    var n := |pieces[0]|;
    PiecesFirst(tokens, start);
    CommaAt(tokens, start, n);
    if |pieces| > 1 {
      JoinIsPieces(pieces[1..], tokens, start + n + 1);
      assert pieces == [pieces[0]] + pieces[1..];
    } else {
      assert pieces == [tokens[start..]];
    }
  }

  lemma JoinFirst(pieces: seq<seq<Token>>, tokens: seq<Token>, start: nat)
    requires start <= |tokens| && IsJoin(pieces, tokens[start..])
    ensures |pieces| > 0 && var n := |pieces[0]|;
      start + n <= |tokens| && tokens[start..start + n] == pieces[0] && HasNoComma(pieces[0]) &&
      if |pieces| == 1 then start + n == |tokens| && tokens[start..] == pieces[0]
      else start + n < |tokens| && TopSymbol(tokens[start + n], ",") && IsJoin(pieces[1..], tokens[start + n + 1..])
  {
    assert |pieces| > 0;
    hide HasNoComma, TopSymbol;
    var list, n := tokens[start..], |pieces[0]|;
    if |pieces| == 1 {
      assert tokens[start..start + n] == list;
    } else {
      assert tokens[start..start + n] == list[..n] && tokens[start + n] == list[n];
      assert list[n + 1..] == tokens[start + n + 1..];
    }
  }

  lemma {:induction false} PieceMembers(tokens: seq<Token>, start: nat)
    requires start <= |tokens|
    ensures forall i, t :: 0 <= i < |Pieces(tokens, start)| && t in Pieces(tokens, start)[i] ==> t in tokens
    decreases |tokens| - start
  {
    hide NextComma;
    PiecesFirst(tokens, start);
    var end := NextComma(tokens, start);
    if end < |tokens| {
      PieceMembers(tokens, end + 1);
      assert forall i :: 0 < i < |Pieces(tokens, start)| ==> Pieces(tokens, start)[i] == Pieces(tokens, end + 1)[i - 1];
    }
  }

  /** The test for the tenant's column sees through the spelling of the token. */
  ghost predicate SeesName(token: Token, column: string) {
    IsIdentifier(token) ==> (Names(token, column) <==> IsTenantColumn(token, column))
  }

  lemma PieceExactly(piece: seq<Token>, column: string)
    requires forall t :: t in piece ==> SeesName(t, column)
    ensures AssignsElsewhere(piece, column) <==> IsAssignment(piece, column)
  {
    hide Names, IsTenantColumn;
    forall equals | 0 < equals < |piece| - 1 && IsPath(piece[..equals])
      ensures Names(piece[equals - 1], column) <==> IsTenantColumn(piece[equals - 1], column)
    {
      assert piece[..equals][equals - 1] == piece[equals - 1] && piece[equals - 1] in piece;
    }
    hide IsPath;
  }

  lemma ListExactly(list: seq<Token>, column: string)
    requires forall t :: t in list ==> SeesName(t, column)
    ensures IsAssignmentList(list, column) <==> CheckAssignments(list, 0, column).None?
  {
    hide SeesName, AssignsElsewhere, IsAssignment, Pieces, IsJoin, CheckAssignments;
    assert list[0..] == list;
    AssignmentsForm(list, 0, column);
    PiecesCover(list, 0);
    PieceMembers(list, 0);
    forall i | 0 <= i < |Pieces(list, 0)|
      ensures AssignsElsewhere(Pieces(list, 0)[i], column) <==> IsAssignment(Pieces(list, 0)[i], column)
    {
      PieceExactly(Pieces(list, 0)[i], column);
    }
    if pieces :| IsJoin(pieces, list) && forall i :: 0 <= i < |pieces| ==> AssignsElsewhere(pieces[i], column) {
      JoinIsPieces(pieces, list, 0);
    }
  }

  // ----- statements -----

  lemma OnlyWordExactly(tokens: seq<Token>, start: nat, at: nat, word: string)
    ensures OnlyWord(tokens, start, at, word) <==> Occurs(tokens, start, word) == At(at)
  {
  }

  lemma ClauseExactly(tokens: seq<Token>, start: nat, clause: Clause)
    ensures OnlyClause(tokens, start, clause) <==> WhereClause(tokens, start) == Some(clause)
  {
    hide TopWord;
    match clause
    case NoWhere =>
    case WhereAt(w) => OnlyWordExactly(tokens, start, w, "WHERE");
  }

  lemma ClauseBounds(tokens: seq<Token>, start: nat, clause: Clause)
    requires start <= |tokens|
    ensures WhereClause(tokens, start) == Some(clause) ==>
      start <= BeforeWhere(tokens, clause) <= |tokens| &&
      HeadFrom(tokens, start, clause) == tokens[start..BeforeWhere(tokens, clause)]
  {
    hide TopWord;
  }

  lemma SelectAt(tokens: seq<Token>, from: nat, clause: Clause)
    requires Occurs(tokens, 1, "FROM") == At(from)
    ensures AnalyzeSelect(tokens) == Ok(clause) <==> SelectsFrom(tokens, from, clause)
  {
    OnlyWordExactly(tokens, 1, from, "FROM");
    ClauseExactly(tokens, from + 1, clause);
    RelationExactly(HeadFrom(tokens, from + 1, clause));
    ClauseBounds(tokens, from + 1, clause);
    hide OnlyClause, OnlyWord, IsRelation, IsSimpleRelation, TopWord, WhereClause, Occurs, HeadFrom, BeforeWhere;
  }

  lemma NoSelectAt(tokens: seq<Token>)
    requires !Occurs(tokens, 1, "FROM").At?
    ensures AnalyzeSelect(tokens).Err?
  {
    hide Occurs, TopWord;
  }

  lemma SelectExactly(tokens: seq<Token>, clause: Clause)
    requires tokens != [] && TopWord(tokens[0], "SELECT")
    ensures IsSelect(tokens, clause) <==> AnalyzeSelect(tokens) == Ok(clause)
  {
    hide TopWord, Occurs, AnalyzeSelect;
    if Occurs(tokens, 1, "FROM").At? {
      SelectAt(tokens, Occurs(tokens, 1, "FROM").index, clause);
    } else {
      NoSelectAt(tokens);
    }
    if from :| SelectsFrom(tokens, from, clause) {
      OnlyWordExactly(tokens, 1, from, "FROM");
    }
    hide SelectsFrom;
  }

  lemma DeleteExactly(tokens: seq<Token>, clause: Clause)
    requires tokens != [] && TopWord(tokens[0], "DELETE")
    ensures IsDelete(tokens, clause) <==> AnalyzeDelete(tokens) == Ok(clause)
  {
    OnlyWordExactly(tokens, 1, 1, "FROM");
    if |tokens| >= 3 {
      ClauseExactly(tokens, 2, clause);
      RelationExactly(HeadFrom(tokens, 2, clause));
      ClauseBounds(tokens, 2, clause);
    } else if |tokens| == 2 {
      NothingIsNoRelation(HeadFrom(tokens, 2, clause));
    }
    hide IsRelation, IsSimpleRelation, WhereClause, Occurs, BeforeWhere, OnlyClause, HeadFrom;
  }

  lemma NothingIsNoRelation(tokens: seq<Token>)
    ensures tokens == [] ==> !IsRelation(tokens)
  {
  }

  lemma HasNoWordExactly(tokens: seq<Token>, start: nat, word: string)
    ensures HasNoWord(tokens, start, word) <==> Occurs(tokens, start, word).Absent?
  {
  }

  lemma HeadMembers(tokens: seq<Token>, start: nat, clause: Clause, column: string)
    requires forall t :: t in tokens ==> SeesName(t, column)
    ensures forall t :: t in HeadFrom(tokens, start, clause) ==> SeesName(t, column)
  {
    hide SeesName;
    assert forall t :: t in HeadFrom(tokens, start, clause) ==> t in tokens;
  }

  /** An UPDATE is judged by its SET list when the rest is in order. */
  lemma SetsExactly(tokens: seq<Token>, field: string, target: nat, clause: Clause)
    requires Occurs(tokens, 1, "SET") == At(target)
    ensures AnalyzeUpdate(tokens, field) == Ok(clause) ==> SetsAt(tokens, target, clause)
    ensures SetsAt(tokens, target, clause) ==>
      var problem := CheckAssignments(HeadFrom(tokens, target + 1, clause), 0, ConfiguredColumnName(field));
      AnalyzeUpdate(tokens, field) == if problem.None? then Ok(clause) else Err(problem.value)
  {
    hide OnlyClause, OnlyWord, HasNoWord, IsRelation, IsSimpleRelation, TopWord, WhereClause, HeadFrom, BeforeWhere,
      ConfiguredColumnName, CheckAssignments;
    OnlyWordExactly(tokens, 1, target, "SET");
    HasNoWordExactly(tokens, target + 1, "FROM");
    ClauseExactly(tokens, target + 1, clause);
    RelationExactly(tokens[1..target]);
    ClauseBounds(tokens, target + 1, clause);
    hide Occurs;
  }

  lemma UpdateAt(tokens: seq<Token>, field: string, target: nat, clause: Clause)
    requires Occurs(tokens, 1, "SET") == At(target)
    requires forall t :: t in tokens ==> SeesName(t, ConfiguredColumnName(field))
    ensures AnalyzeUpdate(tokens, field) == Ok(clause) <==> Updates(tokens, target, clause, ConfiguredColumnName(field))
  {
    hide SetsAt, HeadFrom, IsAssignmentList, ConfiguredColumnName, CheckAssignments, SeesName, AnalyzeUpdate, Occurs;
    SetsExactly(tokens, field, target, clause);
    HeadMembers(tokens, target + 1, clause, ConfiguredColumnName(field));
    ListExactly(HeadFrom(tokens, target + 1, clause), ConfiguredColumnName(field));
  }

  lemma NoUpdateAt(tokens: seq<Token>, field: string)
    requires !Occurs(tokens, 1, "SET").At?
    ensures AnalyzeUpdate(tokens, field).Err?
  {
    hide Occurs, TopWord;
  }

  lemma UpdateExactly(tokens: seq<Token>, field: string, clause: Clause)
    requires tokens != [] && TopWord(tokens[0], "UPDATE")
    requires forall t :: t in tokens ==> SeesName(t, ConfiguredColumnName(field))
    ensures IsUpdate(tokens, clause, ConfiguredColumnName(field)) <==> AnalyzeUpdate(tokens, field) == Ok(clause)
  {
    hide TopWord, Occurs, AnalyzeUpdate, SeesName, ConfiguredColumnName;
    if Occurs(tokens, 1, "SET").At? {
      UpdateAt(tokens, field, Occurs(tokens, 1, "SET").index, clause);
    } else {
      NoUpdateAt(tokens, field);
    }
    if target :| Updates(tokens, target, clause, ConfiguredColumnName(field)) {
      OnlyWordExactly(tokens, 1, target, "SET");
    }
    hide Updates;
  }

  lemma KeywordsDiffer(token: Token)
    ensures !(token.IsWord("SELECT") && token.IsWord("UPDATE")) && !(token.IsWord("SELECT") && token.IsWord("DELETE"))
    ensures !(token.IsWord("UPDATE") && token.IsWord("DELETE"))
  {
    assert UpperChar("SELECT"[0]) != UpperChar("UPDATE"[0]) && UpperChar("SELECT"[0]) != UpperChar("DELETE"[0]) &&
      UpperChar("UPDATE"[0]) != UpperChar("DELETE"[0]);
  }

  lemma SingleExactly(tokens: seq<Token>)
    requires tokens != []
    ensures IsSingle(tokens) <==>
      !(exists i: nat :: i < |tokens| && IsRefusedAt(tokens, i)) &&
      var last := tokens[|tokens| - 1]; !(last.IsWord("WHERE") || last.IsWord("AND") || last.IsWord("OR"))
  {
    forall i: nat | i < |tokens|
      ensures IsRefusedAt(tokens, i) <==>
        (i > 0 && OpensStatement(tokens[i])) || (tokens[i].depth == 0 && IsForeign(tokens[i]))
    {
      ForeignWords(tokens[i]);
      StatementWords(tokens[i]);
    }
    DanglingWords(tokens[|tokens| - 1]);
    hide IsForeign, OpensStatement, Dangles, IsRefusedAt;
  }

  lemma StatementWords(token: Token)
    ensures IsStatementKeyword(token) <==> OpensStatement(token)
  {
    var words := ["SELECT", "UPDATE", "DELETE", "INSERT"];
    assert words[0] in words && words[1] in words && words[2] in words && words[3] in words;
  }

  lemma DanglingWords(token: Token)
    ensures Dangles(token) <==> token.IsWord("WHERE") || token.IsWord("AND") || token.IsWord("OR")
  {
    var words := ["WHERE", "AND", "OR"];
    assert words[0] in words && words[1] in words && words[2] in words;
  }

  /** The analysis finds a predicate exactly in a statement of the grammar. */
  lemma AnalyzeExactly(tokens: seq<Token>, field: string, clause: Clause)
    requires forall t :: t in tokens ==> SeesName(t, ConfiguredColumnName(field))
    ensures Analyze(tokens, field) == Ok(clause) <==> IsStatement(tokens, clause, ConfiguredColumnName(field))
  {
    hide IsSingle, AnalyzeSelect, AnalyzeUpdate, AnalyzeDelete, IsRefusedAt, SeesName, ConfiguredColumnName;
    if tokens != [] {
      SingleExactly(tokens);
      KeywordsDiffer(tokens[0]);
      if TopWord(tokens[0], "SELECT") {
        SelectExactly(tokens, clause);
      } else if TopWord(tokens[0], "UPDATE") {
        UpdateExactly(tokens, field, clause);
      } else if TopWord(tokens[0], "DELETE") {
        DeleteExactly(tokens, clause);
      }
    }
    hide EqualFold;
  }

  // ----- the tenant's query -----

  lemma {:induction false} TokensSee(sql: string, tokens: seq<Token>, column: string)
    requires AllLexical(sql, tokens) && column != ""
    ensures forall t :: t in tokens ==> SeesName(t, column)
  {
    hide LexicalIn, Names, IdentifierValue;
    forall t | t in tokens
      ensures SeesName(t, column)
    {
      var i :| 0 <= i < |tokens| && tokens[i] == t;
      assert LexicalIn(sql, tokens[i]);
      if IsIdentifier(t) {
        NamesValue(sql, t, column);
      }
    }
  }

  lemma TokenizationSees(sql: string, tokens: seq<Token>, column: string)
    requires IsTokenization(sql, tokens) && column != ""
    ensures forall t :: t in tokens ==> SeesName(t, column)
  {
    hide AllLexical, SeesName;
    TokensSee(sql, tokens, column);
  }

  lemma AcceptsAnalyzed(baseSQL: string, options: Options, tokens: seq<Token>, clause: Clause)
    ensures Accepts(baseSQL, options, tokens, clause) <==>
      Scan(TrimSpace(baseSQL)) == Some(tokens) &&
      Analyze(tokens, TenantFieldFromCondition(Condition(options))) == Ok(clause)
  {
    hide Scan, TrimSpace, TenantFieldFromCondition, Condition, TopWord, IsRefusedAt, AnalyzeSelect, AnalyzeUpdate,
      AnalyzeDelete;
    var sql, field := TrimSpace(baseSQL), TenantFieldFromCondition(Condition(options));
    NothingScans(sql);
    if Scan(sql) == Some(tokens) && Analyze(tokens, field) == Ok(clause) {
      ClauseEnds(sql, field);
    }
  }

  /** An accepted query is a tokenized statement of the grammar, and the other way round. */
  lemma AcceptsExactly(baseSQL: string, options: Options, column: string, tokens: seq<Token>, clause: Clause)
    requires AreSafe(options) && IsColumnOf(column, options.tenantField)
    ensures Accepts(baseSQL, options, tokens, clause) <==>
      IsTokenization(TrimSpace(baseSQL), tokens) && IsStatement(tokens, clause, column)
  {
    hide IsTokenization, Scan, Analyze, TenantFieldFromCondition, Condition, TrimSpace, IsStatement, Accepts, SeesName,
      ConfiguredColumnName, IsColumnOf, IsSafeFieldName;
    var sql, field := TrimSpace(baseSQL), TenantFieldFromCondition(Condition(options));
    ScanExactly(sql, tokens);
    ProtectedColumn(options, column);
    AcceptsAnalyzed(baseSQL, options, tokens, clause);
    if IsTokenization(sql, tokens) {
      TokenizationSees(sql, tokens, column);
      AnalyzeExactly(tokens, field, clause);
    }
  }

  lemma NothingScans(sql: string)
    ensures sql == "" ==> Scan(sql) == Some([])
  {
  }

  /** A tenant's query is answered exactly when its text is a statement of the grammar. */
  lemma QueryExactly<A>(tenant: A, baseSQL: string, baseArgs: seq<A>, options: Options, column: string)
    requires AreSafe(options) && IsColumnOf(column, options.tenantField)
    ensures QueryWithArgs(Tenant(tenant), baseSQL, baseArgs, options).Ok? <==>
      exists tokens, clause :: IsTokenization(TrimSpace(baseSQL), tokens) && IsStatement(tokens, clause, column)
  {
    hide IsTokenization, IsStatement, Accepts, QueryWithArgs;
    if QueryWithArgs(Tenant(tenant), baseSQL, baseArgs, options).Ok? {
      var tokens, clause := AcceptedQuery(tenant, baseSQL, baseArgs, options);
      AcceptsExactly(baseSQL, options, column, tokens, clause);
    }
    if tokens, clause :| IsTokenization(TrimSpace(baseSQL), tokens) && IsStatement(tokens, clause, column) {
      AcceptsExactly(baseSQL, options, column, tokens, clause);
      AcceptedIsAnswered(tenant, baseSQL, baseArgs, options, tokens, clause);
    }
  }

  lemma AcceptedIsAnswered<A>(tenant: A, baseSQL: string, baseArgs: seq<A>, options: Options, tokens: seq<Token>,
          clause: Clause)
    requires Accepts(baseSQL, options, tokens, clause)
    ensures QueryWithArgs(Tenant(tenant), baseSQL, baseArgs, options).Ok?
  {
    hide AnalyzeText, Scan, TrimSpace, Condition, TenantFieldFromCondition, TopWord;
  }

  /** No UPDATE moves a tenant's rows to another tenant: its SET list is complete and names other columns only. */
  lemma UpdateKeepsTenant<A>(tenant: A, baseSQL: string, baseArgs: seq<A>, options: Options, column: string,
          tokens: seq<Token>)
    requires AreSafe(options) && IsColumnOf(column, options.tenantField)
    requires QueryWithArgs(Tenant(tenant), baseSQL, baseArgs, options).Ok?
    requires Scan(TrimSpace(baseSQL)) == Some(tokens) && tokens != [] && TopWord(tokens[0], "UPDATE")
    ensures exists target, clause :: Updates(tokens, target, clause, column)
  {
    hide QueryWithArgs, Accepts, Scan, TrimSpace, Analyze, Condition, TenantFieldFromCondition, IsTokenization,
      IsSingle, EqualFold, OnlyWord, OnlyClause, Updates, SelectsFrom, IsRelation, AreSafe, IsColumnOf;
    var tokens', clause := AcceptedQuery(tenant, baseSQL, baseArgs, options);
    AcceptsAnalyzed(baseSQL, options, tokens', clause);
    AcceptsExactly(baseSQL, options, column, tokens', clause);
    KeywordsDiffer(tokens[0]);
  }

  lemma {:induction false} CheckUpTo(tokens: seq<Token>, start: nat, column: string, k: nat)
    requires start <= |tokens| && k < |Pieces(tokens, start)|
    requires forall i :: 0 <= i < k ==> CheckAssignment(Pieces(tokens, start)[i], column).None?
    requires CheckAssignment(Pieces(tokens, start)[k], column).Some?
    ensures CheckAssignments(tokens, start, column) == CheckAssignment(Pieces(tokens, start)[k], column)
    decreases k
  {
    hide *;
    var pieces, end := Pieces(tokens, start), NextComma(tokens, start);
    PiecesFirst(tokens, start);
    CheckFirst(tokens, start, column);
    assert pieces[0] == tokens[start..end] by {
      assert end == |tokens| ==> tokens[start..end] == tokens[start..];
    }
    if k > 0 {
      var rest := Pieces(tokens, end + 1);
      assert forall i :: 0 <= i < |rest| ==> rest[i] == pieces[i + 1];
      CheckUpTo(tokens, end + 1, column, k - 1);
    }
  }

  /** `path = expression`, where the last name of the path is the column. */
  ghost predicate AssignsTo(piece: seq<Token>, column: string) {
    exists equals :: 0 < equals < |piece| - 1 && TopSymbol(piece[equals], "=") && IsPath(piece[..equals]) &&
      Names(piece[equals - 1], column)
  }

  lemma AssignsToIsRefused(piece: seq<Token>, column: string)
    requires AssignsTo(piece, column) && forall t :: t in piece ==> SeesName(t, column)
    ensures CheckAssignment(piece, column) == Some(TenantFieldUpdate)
  {
    hide Names, IsTenantColumn, PathEnd, IsPath;
    var equals :| 0 < equals < |piece| - 1 && TopSymbol(piece[equals], "=") && IsPath(piece[..equals]) &&
      Names(piece[equals - 1], column);
    PathHasNoEquals(piece[..equals]);
    PathWhole(piece[..equals]);
    PathEndsInName(piece[..equals]);
    assert forall i :: 0 <= i < equals ==> piece[..equals][i] == piece[i];
    assert piece[equals - 1] in piece && FirstEquals(piece, 0) == equals;
  }

  lemma PathEndsInName(path: seq<Token>)
    requires IsPath(path)
    ensures path != [] && IsIdentifier(path[|path| - 1])
  {
  }

  lemma FirstNamingIsFound(list: seq<Token>, column: string, pieces: seq<seq<Token>>, k: nat)
    requires IsJoin(pieces, list) && k < |pieces| && AssignsTo(pieces[k], column)
    requires forall i :: 0 <= i < k ==> AssignsElsewhere(pieces[i], column)
    requires forall t :: t in list ==> SeesName(t, column)
    ensures CheckAssignments(list, 0, column) == Some(TenantFieldUpdate)
  {
    hide SeesName, IsJoin, Pieces, AssignsTo, AssignsElsewhere, CheckAssignments, CheckAssignment, IsAssignment;
    assert list[0..] == list;
    JoinIsPieces(pieces, list, 0);
    PieceMembers(list, 0);
    forall i | 0 <= i < k
      ensures CheckAssignment(pieces[i], column).None?
    {
      PieceExactly(pieces[i], column);
      AssignmentForm(pieces[i], column);
    }
    AssignsToIsRefused(pieces[k], column);
    CheckUpTo(list, 0, column, k);
  }

  /** A list whose first piece that is no assignment to another column is one to this. */
  ghost predicate NamesFirst(list: seq<Token>, column: string) {
    exists pieces, k: nat :: IsJoin(pieces, list) && k < |pieces| && AssignsTo(pieces[k], column) &&
      forall i :: 0 <= i < k ==> AssignsElsewhere(pieces[i], column)
  }

  /** An UPDATE like the accepted ones but for naming the column. */
  ghost predicate UpdatesTenant(tokens: seq<Token>, target: nat, clause: Clause, column: string) {
    SetsAt(tokens, target, clause) && NamesFirst(HeadFrom(tokens, target + 1, clause), column)
  }

  lemma NamesFirstIsFound(list: seq<Token>, column: string)
    requires NamesFirst(list, column) && forall t :: t in list ==> SeesName(t, column)
    ensures CheckAssignments(list, 0, column) == Some(TenantFieldUpdate)
  {
    hide SeesName, IsJoin, AssignsTo, AssignsElsewhere, CheckAssignments;
    var pieces, k: nat :| IsJoin(pieces, list) && k < |pieces| && AssignsTo(pieces[k], column) &&
      forall i :: 0 <= i < k ==> AssignsElsewhere(pieces[i], column);
    FirstNamingIsFound(list, column, pieces, k);
  }

  lemma UpdatesTenantIsRefused(tokens: seq<Token>, field: string, target: nat, clause: Clause)
    requires UpdatesTenant(tokens, target, clause, ConfiguredColumnName(field))
    requires forall t :: t in tokens ==> SeesName(t, ConfiguredColumnName(field))
    ensures AnalyzeUpdate(tokens, field) == Err(TenantFieldUpdate)
  {
    hide HeadFrom, NamesFirst, OnlyClause, OnlyWord, HasNoWord, IsRelation, ConfiguredColumnName, CheckAssignments,
      SeesName, AnalyzeUpdate, Occurs;
    OnlyWordExactly(tokens, 1, target, "SET");
    SetsExactly(tokens, field, target, clause);
    HeadMembers(tokens, target + 1, clause, ConfiguredColumnName(field));
    NamesFirstIsFound(HeadFrom(tokens, target + 1, clause), ConfiguredColumnName(field));
  }

  lemma AnalyzesUpdate(tokens: seq<Token>, field: string)
    requires IsSingle(tokens) && TopWord(tokens[0], "UPDATE")
    ensures Analyze(tokens, field) == AnalyzeUpdate(tokens, field)
  {
    SingleExactly(tokens);
    KeywordsDiffer(tokens[0]);
    hide AnalyzeUpdate, AnalyzeSelect, AnalyzeDelete, IsRefusedAt, IsSingle, EqualFold;
  }

  lemma RefusedText<A>(tenant: A, baseSQL: string, baseArgs: seq<A>, options: Options, tokens: seq<Token>,
          error: SqlError)
    requires AreSafe(options) && Scan(TrimSpace(baseSQL)) == Some(tokens) && tokens != []
    requires Analyze(tokens, TenantFieldFromCondition(Condition(options))) == Err(error)
    ensures QueryWithArgs(Tenant(tenant), baseSQL, baseArgs, options) == Err(Rejected(error))
  {
    NothingScans(TrimSpace(baseSQL));
    hide Scan, TrimSpace, Condition, TenantFieldFromCondition, Analyze, IsSafeFieldName;
  }

  /** Naming the tenant's column is what such an UPDATE is refused for. */
  lemma NamingTenantIsRefused<A>(tenant: A, baseSQL: string, baseArgs: seq<A>, options: Options, column: string,
          tokens: seq<Token>, target: nat, clause: Clause)
    requires AreSafe(options) && IsColumnOf(column, options.tenantField)
    requires IsTokenization(TrimSpace(baseSQL), tokens) && IsSingle(tokens) && TopWord(tokens[0], "UPDATE")
    requires UpdatesTenant(tokens, target, clause, column)
    ensures QueryWithArgs(Tenant(tenant), baseSQL, baseArgs, options) == Err(Rejected(TenantFieldUpdate))
  {
    hide Scan, IsTokenization, Analyze, TopWord, TenantFieldFromCondition, Condition, TrimSpace, UpdatesTenant,
      SeesName, IsColumnOf, IsSafeFieldName, Dangles, OpensStatement, IsForeign, QueryWithArgs, AnalyzeUpdate;
    var sql, field := TrimSpace(baseSQL), TenantFieldFromCondition(Condition(options));
    ScanExactly(sql, tokens);
    ProtectedColumn(options, column);
    TokenizationSees(sql, tokens, column);
    AnalyzesUpdate(tokens, field);
    UpdatesTenantIsRefused(tokens, field, target, clause);
    RefusedText(tenant, baseSQL, baseArgs, options, tokens, TenantFieldUpdate);
  }

  /** Neither the tenant's text nor the rewritten one hides anything in a comment or behind a semicolon. */
  lemma QueryHasNoComment<A>(tenant: A, baseSQL: string, baseArgs: seq<A>, options: Options)
    requires AreSafe(options) && QueryWithArgs(Tenant(tenant), baseSQL, baseArgs, options).Ok?
    ensures var query := QueryWithArgs(Tenant(tenant), baseSQL, baseArgs, options).value;
      Scan(TrimSpace(baseSQL)).Some? && HasNoComment(Scan(TrimSpace(baseSQL)).value) &&
      Scan(query.text).Some? && HasNoComment(Scan(query.text).value)
  {
    hide *;
    var tokens, clause := AcceptedQuery(tenant, baseSQL, baseArgs, options);
    AcceptedText(baseSQL, options, tokens, clause);
    QueryScansAsSpliced(tenant, baseSQL, baseArgs, options, tokens, clause);
    AcceptedHasNoComment(TrimSpace(baseSQL));
    AcceptedHasNoComment(QueryWithArgs(Tenant(tenant), baseSQL, baseArgs, options).value.text);
  }

  /** Without a tenant there is no query; the host's text passes as it is. */
  lemma OnlyTenantsAreRewritten<A>(scope: Scope<A>, baseSQL: string, baseArgs: seq<A>, options: Options)
    ensures scope.NoTenant? ==> QueryWithArgs(scope, baseSQL, baseArgs, options).Err?
    ensures scope.Host? && QueryWithArgs(scope, baseSQL, baseArgs, options).Ok? ==>
      QueryWithArgs(scope, baseSQL, baseArgs, options).value == Query(TrimSpace(baseSQL), baseArgs)
    ensures scope.Host? ==> (QueryWithArgs(scope, baseSQL, baseArgs, options).Err? <==> IsBlank(baseSQL))
  {
    TrimmedNothing(baseSQL);
    hide AnalyzeText, TrimSpace, Condition, TenantFieldFromCondition, IsBlank;
    if scope.Tenant? {
      return;
    }
  }

  lemma TrimmedNothing(s: string)
    ensures TrimSpace(s) == "" <==> IsBlank(s)
  {
    var left := TrimLeft(s);
    assert s == s[..|s| - |left|] + left;
    if left != "" {
      assert !IsSpace(s[|s| - |left|]) && left[0..] == left;
    }
  }

  // ----- field names -----

  /** Names separated by dots. */
  ghost predicate IsDotted(field: string)
    decreases |field|
  {
    IsName(field, false) ||
    exists n: nat :: n < |field| && field[n] == '.' && IsName(field[..n], false) && IsDotted(field[n + 1..])
  }

  lemma SafeParts(field: string, n: nat)
    requires IsSafeFieldName(field) && n == TagEnd(field, 1)
    ensures IsName(field[..n], false) && field[..|field|] == field
    ensures n < |field| ==> field[n] == '.' && IsSafeFieldName(field[n + 1..])
  {
    hide IsName, IsIdentifierStart, IsDigit;
    NameParts(field[..n]);
    assert field[..n][0] == field[0] && forall i :: 0 < i < n ==> field[..n][i] == field[i];
    if n < |field| {
      assert IsFieldByte(field, n);
      FieldTextSuffix(field, n + 1);
    }
  }

  lemma {:induction false} SafeIsDotted(field: string)
    requires IsSafeFieldName(field)
    ensures IsDotted(field)
    decreases |field|
  {
    hide IsName, IsFieldText, IsIdentifierStart;
    var n := TagEnd(field, 1);
    SafeParts(field, n);
    if n < |field| {
      SafeIsDotted(field[n + 1..]);
    }
  }

  lemma NameIsSafe(field: string)
    requires IsName(field, false)
    ensures IsSafeFieldName(field)
  {
    hide IsName, IsIdentifierStart, IsDigit;
    NameParts(field);
    forall i: nat | i < |field|
      ensures IsFieldByte(field, i)
    {
    }
  }

  lemma {:induction false} DottedIsSafe(field: string)
    requires IsDotted(field)
    ensures IsSafeFieldName(field)
    decreases |field|
  {
    hide IsName, IsSafeFieldName;
    if IsName(field, false) {
      NameIsSafe(field);
    } else {
      var n: nat :| n < |field| && field[n] == '.' && IsName(field[..n], false) && IsDotted(field[n + 1..]);
      DottedIsSafe(field[n + 1..]);
      JoinedIsSafe(field, n);
    }
  }

  /** The options accept exactly the dotted names. */
  lemma SafeExactly(field: string)
    ensures IsSafeFieldName(field) <==> IsDotted(field)
  {
    hide *;
    if IsSafeFieldName(field) {
      SafeIsDotted(field);
    }
    if IsDotted(field) {
      DottedIsSafe(field);
    }
  }

  lemma JoinedIsSafe(field: string, n: nat)
    requires n < |field| && field[n] == '.' && IsSafeFieldName(field[n + 1..]) && IsName(field[..n], false)
    ensures IsSafeFieldName(field)
  {
    hide IsName, IsIdentifierStart, IsDigit;
    NameParts(field[..n]);
    assert field[..n][0] == field[0] && field[n + 1..][0] == field[n + 1];
    forall i: nat | i < |field|
      ensures IsFieldByte(field, i)
    {
      if i < n {
        assert field[..n][i] == field[i];
      } else if i > n {
        assert IsFieldByte(field[n + 1..], i - n - 1);
      }
    }
  }
}
