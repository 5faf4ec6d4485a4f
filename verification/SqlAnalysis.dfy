/** Which statements the rewriter accepts, and where their predicate begins. */
module SqlAnalysis {
  import opened Prelude
  import opened SqlText
  import opened WhiteSpace
  import opened SqlScanner

  datatype SqlError = UnsafeSQL | TenantFieldUpdate

  // ----- single tokens -----

  predicate IsIdentifier(token: Token) { token.kind.Word? || token.kind.QuotedIdentifier? }

  predicate TopWord(token: Token, word: string) { token.depth == 0 && token.IsWord(word) }

  predicate TopSymbol(token: Token, symbol: string) { token.depth == 0 && token.IsSymbol(symbol) }

  predicate IsStatementKeyword(token: Token) {
    token.IsWord("SELECT") || token.IsWord("UPDATE") || token.IsWord("DELETE") || token.IsWord("INSERT")
  }

  const UNSUPPORTED: seq<string> := [
    "JOIN", "UNION", "INTERSECT", "EXCEPT", "RETURNING", "ORDER", "GROUP", "HAVING",
    "LIMIT", "OFFSET", "FETCH", "FOR", "INTO", "USING", "WINDOW", "QUALIFY", "OUTPUT",
    "LOCK", "OPTION", "OVER", "CONNECT", "START", "MODEL"]

  predicate IsUnsupportedTopLevelKeyword(token: Token) { exists word :: word in UNSUPPORTED && token.IsWord(word) }

  /** A quoted name with each doubled closing quote read as one. */
  function Unescape(s: string, quote: char): string {
    if s == "" then ""
    else if |s| >= 2 && s[0] == quote && s[1] == quote then [quote] + Unescape(s[2..], quote)
    else [s[0]] + Unescape(s[1..], quote)
  }

  function IdentifierValue(token: Token): string {
    if !token.kind.QuotedIdentifier? || |token.text| < 2 then token.text
    else
      var value := token.text[1..|token.text| - 1];
      match token.text[0]
      case '[' => Unescape(value, ']')
      case '`' => Unescape(value, '`')
      case '"' => Unescape(value, '"')
      case _ => value
  }

  function AfterLastDot(field: string): string
    decreases |field|
  {
    if field == "" || field[|field| - 1] == '.' then ""
    else AfterLastDot(field[..|field| - 1]) + [field[|field| - 1]]
  }

  predicate IsNameQuote(c: char) { c == '`' || c == '"' || c == '[' || c == ']' }

  function TrimNameQuotes(s: string): string
    decreases |s|
  {
    if s != "" && IsNameQuote(s[0]) then TrimNameQuotes(s[1..])
    else if s != "" && IsNameQuote(s[|s| - 1]) then TrimNameQuotes(s[..|s| - 1])
    else s
  }

  function ConfiguredColumnName(field: string): string { TrimNameQuotes(AfterLastDot(TrimSpace(field))) }

  // ----- words outside every parenthesis -----

  datatype Occurrence = Absent | At(index: nat) | Repeated

  function Occurs(tokens: seq<Token>, start: nat, word: string): (o: Occurrence)
    ensures o.Absent? <==> forall i :: start <= i < |tokens| ==> !TopWord(tokens[i], word)
    ensures o.At? ==> start <= o.index < |tokens| && TopWord(tokens[o.index], word)
    ensures o.At? ==> forall i :: start <= i < |tokens| && i != o.index ==> !TopWord(tokens[i], word)
    ensures o.Repeated? ==>
      exists i, j :: start <= i < j < |tokens| && TopWord(tokens[i], word) && TopWord(tokens[j], word)
    decreases |tokens| - start
  {
    if start >= |tokens| then Absent
    else
      var rest := Occurs(tokens, start + 1, word);
      if !TopWord(tokens[start], word) then rest
      else if rest.Absent? then At(start)
      else
        assert rest.At? ==> TopWord(tokens[rest.index], word);
        Repeated
  }

  method OptionalUniqueTopLevelWord(tokens: seq<Token>, start: nat, word: string) returns (index: int, ok: bool)
    ensures match Occurs(tokens, start, word)
            case Absent => ok && index == -1
            case At(i) => ok && index == i
            case Repeated => !ok && index == -1
  {
    index := -1;
    var i := start;
    while i < |tokens|
      invariant start <= i
      invariant index == -1 ==> forall j :: start <= j < i && j < |tokens| ==> !TopWord(tokens[j], word)
      invariant index != -1 ==> start <= index < i && index < |tokens| && TopWord(tokens[index], word)
      invariant index != -1 ==> forall j :: start <= j < i && j < |tokens| && j != index ==> !TopWord(tokens[j], word)
    {
      if tokens[i].depth == 0 && tokens[i].IsWord(word) {
        if index >= 0 {
          assert TopWord(tokens[index], word) && TopWord(tokens[i], word);
          return -1, false;
        }
        index := i;
      }
      i := i + 1;
    }
    assert index >= 0 ==> TopWord(tokens[index], word);
    return index, true;
  }

  method UniqueTopLevelWord(tokens: seq<Token>, start: nat, word: string) returns (index: int, ok: bool)
    ensures match Occurs(tokens, start, word)
            case At(i) => ok && index == i
            case _ => !ok && index == -1
  {
    index, ok := OptionalUniqueTopLevelWord(tokens, start, word);
    ok := index >= 0;
  }

  // ----- identifier paths and relations -----

  function PathRest(tokens: seq<Token>, i: nat): (end: Option<nat>)
    requires i <= |tokens|
    ensures end.Some? ==> i <= end.value <= |tokens|
    decreases |tokens| - i
  {
    if i == |tokens| || !TopSymbol(tokens[i], ".") then Some(i)
    else if i + 1 >= |tokens| || !IsIdentifier(tokens[i + 1]) || tokens[i + 1].depth != 0 then None
    else PathRest(tokens, i + 2)
  }

  /** End of the dotted name that the tokens begin with. */
  function PathEnd(tokens: seq<Token>): (end: Option<nat>)
    ensures end.Some? ==> 0 < end.value <= |tokens|
  {
    if tokens == [] || !IsIdentifier(tokens[0]) || tokens[0].depth != 0 then None else PathRest(tokens, 1)
  }

  method ConsumeIdentifierPath(tokens: seq<Token>) returns (index: nat, ok: bool)
    ensures ok <==> PathEnd(tokens).Some?
    ensures ok ==> index == PathEnd(tokens).value
  {
    if |tokens| == 0 || !IsIdentifier(tokens[0]) || tokens[0].depth != 0 {
      return 0, false;
    }
    index := 1;
    while index < |tokens|
      invariant 1 <= index <= |tokens| && PathRest(tokens, 1) == PathRest(tokens, index)
    {
      if tokens[index].depth != 0 || !tokens[index].kind.Symbol? || tokens[index].text != "." {
        break;
      }
      if index + 1 >= |tokens| || !IsIdentifier(tokens[index + 1]) || tokens[index + 1].depth != 0 {
        return index, false;
      }
      index := index + 2;
    }
    return index, true;
  }

  /** Identifiers separated by dots, all outside parentheses. */
  ghost predicate IsPath(tokens: seq<Token>) {
    |tokens| % 2 == 1 &&
    (forall i :: 0 <= i < |tokens| && i % 2 == 0 ==> IsIdentifier(tokens[i]) && tokens[i].depth == 0) &&
    (forall i :: 0 <= i < |tokens| && i % 2 == 1 ==> TopSymbol(tokens[i], "."))
  }

  lemma {:induction false} PathRestWhole(tokens: seq<Token>, i: nat)
    requires i <= |tokens| && i % 2 == 1
    ensures PathRest(tokens, i) == Some(|tokens|) <==>
      |tokens| % 2 == 1 &&
      (forall j :: i <= j < |tokens| && j % 2 == 0 ==> IsIdentifier(tokens[j]) && tokens[j].depth == 0) &&
      (forall j :: i <= j < |tokens| && j % 2 == 1 ==> TopSymbol(tokens[j], "."))
    decreases |tokens| - i
  {
    if i < |tokens| && TopSymbol(tokens[i], ".") && i + 1 < |tokens| {
      PathRestWhole(tokens, i + 2);
    }
  }

  lemma PathWhole(tokens: seq<Token>)
    ensures PathEnd(tokens) == Some(|tokens|) <==> IsPath(tokens)
  {
    if tokens != [] {
      PathRestWhole(tokens, 1);
    }
  }

  predicate IsSimpleRelation(tokens: seq<Token>) {
    match PathEnd(tokens)
    case None => false
    case Some(end) =>
      end == |tokens| ||
      var alias := if tokens[end].IsWord("AS") then end + 1 else end;
      alias + 1 == |tokens| && IsIdentifier(tokens[alias])
  }

  // ----- the SET list of an UPDATE -----

  function NextComma(tokens: seq<Token>, i: nat): (end: nat)
    requires i <= |tokens|
    ensures i <= end <= |tokens|
    ensures end < |tokens| ==> TopSymbol(tokens[end], ",")
    ensures forall j :: i <= j < end ==> !TopSymbol(tokens[j], ",")
    decreases |tokens| - i
  {
    if i == |tokens| || TopSymbol(tokens[i], ",") then i else NextComma(tokens, i + 1)
  }

  function FirstEquals(tokens: seq<Token>, i: nat): (at: nat)
    requires i <= |tokens|
    ensures i <= at <= |tokens|
    ensures at < |tokens| ==> TopSymbol(tokens[at], "=")
    ensures forall j :: i <= j < at ==> !TopSymbol(tokens[j], "=")
    decreases |tokens| - i
  {
    if i == |tokens| || TopSymbol(tokens[i], "=") then i else FirstEquals(tokens, i + 1)
  }

  predicate IsTenantColumn(token: Token, column: string) {
    column != "" && EqualFold(IdentifierValue(token), column)
  }

  function CheckAssignment(piece: seq<Token>, column: string): Option<SqlError> {
    var equals := FirstEquals(piece, 0);
    if equals == 0 || equals + 1 >= |piece| || PathEnd(piece[..equals]) != Some(equals) then Some(UnsafeSQL)
    else if IsTenantColumn(piece[equals - 1], column) then Some(TenantFieldUpdate)
    else None
  }

  /** The first error among the comma-separated pieces from `start` on. */
  function CheckAssignments(tokens: seq<Token>, start: nat, column: string): Option<SqlError>
    requires start <= |tokens|
    decreases |tokens| - start
  {
    var end := NextComma(tokens, start);
    match CheckAssignment(tokens[start..end], column)
    case Some(error) => Some(error)
    case None => if end == |tokens| then None else CheckAssignments(tokens, end + 1, column)
  }

  lemma EmptyAssignment(piece: seq<Token>, column: string)
    requires piece == []
    ensures CheckAssignment(piece, column) == Some(UnsafeSQL)
  {
  }

  method ValidateAssignment(assignment: seq<Token>, column: string) returns (error: Option<SqlError>)
    requires |assignment| > 0
    ensures error == CheckAssignment(assignment, column)
  {
    var equals, i := -1, 0;
    while i < |assignment|
      invariant 0 <= i <= |assignment| && equals == -1
      invariant FirstEquals(assignment, 0) == FirstEquals(assignment, i)
    {
      if assignment[i].depth == 0 && assignment[i].kind.Symbol? && assignment[i].text == "=" {
        equals := i;
        break;
      }
      i := i + 1;
    }
    if equals <= 0 || equals == |assignment| - 1 {
      return Some(UnsafeSQL);
    }
    var end, ok := ConsumeIdentifierPath(assignment[..equals]);
    if !ok || end != equals {
      return Some(UnsafeSQL);
    }
    if column != "" && EqualFold(IdentifierValue(assignment[equals - 1]), column) {
      return Some(TenantFieldUpdate);
    }
    return None;
  }

  lemma CommaIsLater(tokens: seq<Token>, i: nat)
    requires i < |tokens| && !TopSymbol(tokens[i], ",")
    ensures NextComma(tokens, i) == NextComma(tokens, i + 1)
  {
  }

  lemma CommaIsHere(tokens: seq<Token>, i: nat)
    requires i == |tokens| || (i < |tokens| && TopSymbol(tokens[i], ","))
    ensures NextComma(tokens, i) == i
  {
  }

  lemma CheckFirst(tokens: seq<Token>, start: nat, column: string)
    requires start <= |tokens|
    ensures var end := NextComma(tokens, start); var failure := CheckAssignment(tokens[start..end], column);
      CheckAssignments(tokens, start, column) ==
        if failure.Some? then failure else if end == |tokens| then None else CheckAssignments(tokens, end + 1, column)
  {
    hide CheckAssignment, NextComma;
  }

  method ValidateAssignments(tokens: seq<Token>, tenantField: string) returns (error: Option<SqlError>)
    ensures error == CheckAssignments(tokens, 0, ConfiguredColumnName(tenantField))
  {
    hide *;
    var column := ConfiguredColumnName(tenantField);
    if |tokens| == 0 {
      CommaIsHere(tokens, 0);
      CheckFirst(tokens, 0, column);
      EmptyAssignment(tokens[0..0], column);
      return Some(UnsafeSQL);
    }
    var start, index := 0, 0;
    while index <= |tokens|
      invariant 0 <= start <= index <= |tokens| + 1
      invariant index == |tokens| + 1 ==> CheckAssignments(tokens, 0, column).None?
      invariant index <= |tokens| ==> CheckAssignments(tokens, 0, column) == CheckAssignments(tokens, start, column)
      invariant index <= |tokens| ==> NextComma(tokens, start) == NextComma(tokens, index)
    {
      if index < |tokens| && !TopSymbol(tokens[index], ",") {
        CommaIsLater(tokens, index);
        index := index + 1;
        continue;
      }
      CommaIsHere(tokens, index);
      CheckFirst(tokens, start, column);
      var assignment := tokens[start..index];
      if |assignment| == 0 {
        EmptyAssignment(assignment, column);
        return Some(UnsafeSQL);
      }
      var failure := ValidateAssignment(assignment, column);
      if failure.Some? {
        return failure;
      }
      start := index + 1;
      index := index + 1;
    }
    return None;
  }

  /** The pieces between top-level commas. */
  function Pieces(tokens: seq<Token>, start: nat): (pieces: seq<seq<Token>>)
    requires start <= |tokens|
    ensures |pieces| > 0
    decreases |tokens| - start
  {
    var end := NextComma(tokens, start);
    if end == |tokens| then [tokens[start..]] else [tokens[start..end]] + Pieces(tokens, end + 1)
  }

  /** `path = expression`, where the path does not name the tenant column. */
  ghost predicate IsAssignment(piece: seq<Token>, column: string) {
    exists equals :: 0 < equals < |piece| - 1 && TopSymbol(piece[equals], "=") && IsPath(piece[..equals]) &&
      !IsTenantColumn(piece[equals - 1], column)
  }

  lemma PathHasNoEquals(path: seq<Token>)
    requires IsPath(path)
    ensures forall i :: 0 <= i < |path| ==> !TopSymbol(path[i], "=")
  {
    assert "=" != "." by {
      assert "="[0] != "."[0];
    }
    forall i | 0 <= i < |path|
      ensures !TopSymbol(path[i], "=")
    {
      if i % 2 == 1 {
        assert TopSymbol(path[i], ".");
      }
    }
  }

  lemma AssignmentForm(piece: seq<Token>, column: string)
    ensures CheckAssignment(piece, column).None? <==> IsAssignment(piece, column)
  {
    hide PathEnd, IsPath, IsTenantColumn;
    var first := FirstEquals(piece, 0);
    PathWhole(piece[..first]);
    if IsAssignment(piece, column) {
      var equals :| 0 < equals < |piece| - 1 && TopSymbol(piece[equals], "=") && IsPath(piece[..equals]) &&
        !IsTenantColumn(piece[equals - 1], column);
      PathHasNoEquals(piece[..equals]);
      assert forall i :: 0 <= i < equals ==> piece[..equals][i] == piece[i];
      assert first == equals;
    }
  }

  ghost predicate AllAssignments(pieces: seq<seq<Token>>, column: string) {
    forall i :: 0 <= i < |pieces| ==> IsAssignment(pieces[i], column)
  }

  lemma AllAssignmentsCons(first: seq<Token>, rest: seq<seq<Token>>, column: string)
    ensures AllAssignments([first] + rest, column) <==> IsAssignment(first, column) && AllAssignments(rest, column)
  {
    hide IsAssignment;
    var pieces := [first] + rest;
    assert pieces[0] == first;
    assert forall i :: 0 <= i < |rest| ==> rest[i] == pieces[i + 1];
    assert forall i :: 0 < i < |pieces| ==> pieces[i] == rest[i - 1];
  }

  /** An assignment list passes exactly when each piece between its commas is an assignment to another column. */
  lemma {:induction false} AssignmentsForm(tokens: seq<Token>, start: nat, column: string)
    requires start <= |tokens|
    ensures CheckAssignments(tokens, start, column).None? <==> AllAssignments(Pieces(tokens, start), column)
    decreases |tokens| - start
  {
    hide CheckAssignment, IsAssignment, AllAssignments, NextComma;
    var end := NextComma(tokens, start);
    AssignmentForm(tokens[start..end], column);
    if end == |tokens| {
      assert tokens[start..end] == tokens[start..];
      assert Pieces(tokens, start) == [tokens[start..end]] + [];
      AllAssignmentsCons(tokens[start..end], [], column);
      AllAssignmentsNil(column);
    } else {
      AssignmentsForm(tokens, end + 1, column);
      AllAssignmentsCons(tokens[start..end], Pieces(tokens, end + 1), column);
    }
  }

  lemma AllAssignmentsNil(column: string)
    ensures AllAssignments([], column)
  {
  }

  predicate HasNoComma(piece: seq<Token>) { forall i :: 0 <= i < |piece| ==> !TopSymbol(piece[i], ",") }

  /** The pieces written one after another with commas between them are the list; none holds a comma of its own. */
  ghost predicate IsJoin(pieces: seq<seq<Token>>, list: seq<Token>)
    decreases |pieces|
  {
    |pieces| > 0 && HasNoComma(pieces[0]) &&
    if |pieces| == 1 then list == pieces[0]
    else
      var n := |pieces[0]|;
      n < |list| && list[..n] == pieces[0] && TopSymbol(list[n], ",") && IsJoin(pieces[1..], list[n + 1..])
  }

  lemma JoinNext(first: seq<Token>, comma: Token, rest: seq<seq<Token>>, tail: seq<Token>, list: seq<Token>)
    requires |rest| > 0 && HasNoComma(first) && TopSymbol(comma, ",") && IsJoin(rest, tail) &&
      list == first + ([comma] + tail)
    ensures IsJoin([first] + rest, list)
  {
    hide HasNoComma, TopSymbol;
    assert ([first] + rest)[1..] == rest;
    assert list[..|first|] == first && list[|first|] == comma && list[|first| + 1..] == tail;
  }

  lemma FirstPiece(tokens: seq<Token>, start: nat)
    requires start <= |tokens|
    ensures var end := NextComma(tokens, start);
      HasNoComma(tokens[start..end]) && (end == |tokens| ==> tokens[start..end] == tokens[start..]) &&
      (end < |tokens| ==>
        TopSymbol(tokens[end], ",") && tokens[start..] == tokens[start..end] + ([tokens[end]] + tokens[end + 1..]))
  {
    hide TopSymbol;
    var end := NextComma(tokens, start);
    assert forall i :: 0 <= i < end - start ==> tokens[start..end][i] == tokens[start + i];
  }

  lemma PiecesFirst(tokens: seq<Token>, start: nat)
    requires start <= |tokens|
    ensures var end := NextComma(tokens, start);
      Pieces(tokens, start) ==
        if end == |tokens| then [tokens[start..]] else [tokens[start..end]] + Pieces(tokens, end + 1)
  {
    hide NextComma;
  }

  lemma {:induction false} PiecesCover(tokens: seq<Token>, start: nat)
    requires start <= |tokens|
    ensures IsJoin(Pieces(tokens, start), tokens[start..])
    decreases |tokens| - start
  {
    hide *;
    PiecesFirst(tokens, start);
    FirstPiece(tokens, start);
    var end := NextComma(tokens, start);
    if end == |tokens| {
      IsJoinSingle(tokens[start..]);
    } else {
      PiecesCover(tokens, end + 1);
      JoinNext(tokens[start..end], tokens[end], Pieces(tokens, end + 1), tokens[end + 1..], tokens[start..]);
    }
  }

  lemma IsJoinSingle(list: seq<Token>)
    requires HasNoComma(list)
    ensures IsJoin([list], list)
  {
  }

  // ----- the statements -----

  /** Where the predicate keyword stands, when there is one. */
  datatype Clause = NoWhere | WhereAt(index: nat)

  function WhereClause(tokens: seq<Token>, start: nat): Option<Clause> {
    match Occurs(tokens, start, "WHERE")
    case Repeated => None
    case Absent => Some(NoWhere)
    case At(i) => if i == |tokens| - 1 then None else Some(WhereAt(i))
  }

  function BeforeWhere(tokens: seq<Token>, clause: Clause): nat {
    if clause.WhereAt? then clause.index else |tokens|
  }

  function AnalyzeSelect(tokens: seq<Token>): Result<Clause, SqlError> {
    match Occurs(tokens, 1, "FROM")
    case At(from) =>
      var where := WhereClause(tokens, from + 1);
      if from == 1 || where.None? then Err(UnsafeSQL)
      else if !IsSimpleRelation(tokens[from + 1..BeforeWhere(tokens, where.value)]) then Err(UnsafeSQL)
      else Ok(where.value)
    case _ => Err(UnsafeSQL)
  }

  function AnalyzeUpdate(tokens: seq<Token>, tenantField: string): Result<Clause, SqlError> {
    var target := Occurs(tokens, 1, "SET");
    if !target.At? || target.index <= 1 || !IsSimpleRelation(tokens[1..target.index]) then Err(UnsafeSQL)
    else if !Occurs(tokens, target.index + 1, "FROM").Absent? then Err(UnsafeSQL)
    else
      var where := WhereClause(tokens, target.index + 1);
      if where.None? then Err(UnsafeSQL)
      else
        var list := tokens[target.index + 1..BeforeWhere(tokens, where.value)];
        match CheckAssignments(list, 0, ConfiguredColumnName(tenantField))
        case Some(error) => Err(error)
        case None => Ok(where.value)
  }

  function AnalyzeDelete(tokens: seq<Token>): Result<Clause, SqlError> {
    if |tokens| < 3 || !TopWord(tokens[1], "FROM") || Occurs(tokens, 1, "FROM") != At(1) then Err(UnsafeSQL)
    else
      var where := WhereClause(tokens, 2);
      if where.None? || !IsSimpleRelation(tokens[2..BeforeWhere(tokens, where.value)]) then Err(UnsafeSQL)
      else Ok(where.value)
  }

  predicate IsRefusedAt(tokens: seq<Token>, i: nat)
    requires i < |tokens|
  {
    (i > 0 && IsStatementKeyword(tokens[i])) || (tokens[i].depth == 0 && IsUnsupportedTopLevelKeyword(tokens[i]))
  }

  function Analyze(tokens: seq<Token>, tenantField: string): Result<Clause, SqlError> {
    if tokens == [] || !tokens[0].kind.Word? || tokens[0].depth != 0 then Err(UnsafeSQL)
    else if exists i: nat :: i < |tokens| && IsRefusedAt(tokens, i) then Err(UnsafeSQL)
    else
      var last := tokens[|tokens| - 1];
      if last.IsWord("WHERE") || last.IsWord("AND") || last.IsWord("OR") then Err(UnsafeSQL)
      else if tokens[0].IsWord("SELECT") then AnalyzeSelect(tokens)
      else if tokens[0].IsWord("UPDATE") then AnalyzeUpdate(tokens, tenantField)
      else if tokens[0].IsWord("DELETE") then AnalyzeDelete(tokens)
      else Err(UnsafeSQL)
  }

  function AnalyzeText(sql: string, tenantField: string): Result<Clause, SqlError> {
    match Scan(sql)
    case None => Err(UnsafeSQL)
    case Some(tokens) => Analyze(tokens, tenantField)
  }

  lemma ClauseInRange(tokens: seq<Token>, tenantField: string)
    ensures var r := AnalyzeSelect(tokens); r.Ok? && r.value.WhereAt? ==> r.value.index < |tokens| - 1
    ensures var r := AnalyzeUpdate(tokens, tenantField); r.Ok? && r.value.WhereAt? ==> r.value.index < |tokens| - 1
    ensures var r := AnalyzeDelete(tokens); r.Ok? && r.value.WhereAt? ==> r.value.index < |tokens| - 1
  {
    hide IsSimpleRelation, CheckAssignments, TopWord;
  }

  method AnalyzeTenantRewriteSQL(sql: string, tenantField: string) returns (whereEnd: int, error: Option<SqlError>)
    ensures match AnalyzeText(sql, tenantField)
            case Err(e) => error == Some(e)
            case Ok(NoWhere) => error.None? && whereEnd == -1
            case Ok(WhereAt(w)) => error.None? && w < |Scan(sql).value| && whereEnd == Scan(sql).value[w].end
  {
    hide IsStatementKeyword, IsUnsupportedTopLevelKeyword, AnalyzeSelect, AnalyzeUpdate, AnalyzeDelete, Scan;
    var tokens, ok := ScanSQL(sql);
    if !ok || |tokens| == 0 || !tokens[0].kind.Word? || tokens[0].depth != 0 {
      return -1, Some(UnsafeSQL);
    }
    var index := 0;
    while index < |tokens|
      invariant 0 <= index <= |tokens|
      invariant forall i: nat :: i < index ==> !IsRefusedAt(tokens, i)
    {
      if index > 0 && IsStatementKeyword(tokens[index]) {
        assert IsRefusedAt(tokens, index);
        return -1, Some(UnsafeSQL);
      }
      if tokens[index].depth == 0 && IsUnsupportedTopLevelKeyword(tokens[index]) {
        assert IsRefusedAt(tokens, index);
        return -1, Some(UnsafeSQL);
      }
      index := index + 1;
    }
    var last := tokens[|tokens| - 1];
    if last.IsWord("WHERE") || last.IsWord("AND") || last.IsWord("OR") {
      return -1, Some(UnsafeSQL);
    }
    var clause;
    if tokens[0].IsWord("SELECT") {
      clause := AnalyzeSelect(tokens);
    } else if tokens[0].IsWord("UPDATE") {
      clause := AnalyzeUpdate(tokens, tenantField);
    } else if tokens[0].IsWord("DELETE") {
      clause := AnalyzeDelete(tokens);
    } else {
      clause := Err(UnsafeSQL);
    }
    if clause.Err? {
      return -1, Some(clause.error);
    }
    ClauseInRange(tokens, tenantField);
    match clause.value
    case NoWhere => return -1, None;
    case WhereAt(w) => return tokens[w].end, None;
  }

  /** An accepted clause is a WHERE outside parentheses, with a predicate after it. */
  lemma AcceptedWhere(tokens: seq<Token>, tenantField: string)
    requires Analyze(tokens, tenantField).Ok? && Analyze(tokens, tenantField).value.WhereAt?
    ensures var w := Analyze(tokens, tenantField).value.index;
      w < |tokens| - 1 && TopWord(tokens[w], "WHERE") && forall i :: w < i < |tokens| ==> !TopWord(tokens[i], "WHERE")
  {
    hide IsSimpleRelation, CheckAssignments, TopWord, IsStatementKeyword, IsUnsupportedTopLevelKeyword,
      ConfiguredColumnName;
  }

  /** The SET list of an accepted UPDATE. */
  function SetList(tokens: seq<Token>, clause: Clause): seq<Token> {
    var target := Occurs(tokens, 1, "SET");
    var end := BeforeWhere(tokens, clause);
    if target.At? && target.index + 1 <= end <= |tokens| then tokens[target.index + 1..end] else []
  }

  lemma UpdateList(tokens: seq<Token>, tenantField: string)
    requires AnalyzeUpdate(tokens, tenantField).Ok?
    ensures CheckAssignments(SetList(tokens, AnalyzeUpdate(tokens, tenantField).value), 0,
      ConfiguredColumnName(tenantField)).None?
  {
    hide CheckAssignments, IsSimpleRelation;
  }

  /** An accepted UPDATE assigns to other columns only, in every piece of its SET list. */
  lemma AcceptedUpdate(tokens: seq<Token>, tenantField: string)
    requires tokens != [] && tokens[0].IsWord("UPDATE") && Analyze(tokens, tenantField).Ok?
    ensures var list := SetList(tokens, Analyze(tokens, tenantField).value);
      IsJoin(Pieces(list, 0), list) && AllAssignments(Pieces(list, 0), ConfiguredColumnName(tenantField))
  {
    hide AnalyzeUpdate, AnalyzeSelect, AnalyzeDelete, SetList, CheckAssignments, Pieces, IsJoin, AllAssignments;
    assert !tokens[0].IsWord("SELECT") by {
      assert UpperChar("UPDATE"[0]) != UpperChar("SELECT"[0]);
    }
    assert Analyze(tokens, tenantField) == AnalyzeUpdate(tokens, tenantField);
    var list := SetList(tokens, Analyze(tokens, tenantField).value);
    UpdateList(tokens, tenantField);
    PiecesCover(list, 0);
    AssignmentsForm(list, 0, ConfiguredColumnName(tenantField));
    assert list[0..] == list;
  }
}
