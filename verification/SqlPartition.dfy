/** The tokens of a scanned statement partition its text, and their depths count the open parentheses. */
module SqlPartition {
  import opened Prelude
  import opened SqlText
  import opened WhiteSpace
  import opened SqlScanner

  /** From offset `from`, inside `depth` parentheses, the text is `tokens` with only blanks around them. */
  ghost predicate Covers(sql: string, from: nat, depth: nat, tokens: seq<Token>)
    decreases |tokens|
  {
    if tokens == [] then from <= |sql| && IsBlank(sql[from..]) && depth == 0
    else
      var token := tokens[0];
      from <= token.start < token.end <= |sql| &&
      IsBlank(sql[from..token.start]) &&
      token.text == sql[token.start..token.end] &&
      !IsSpace(token.text[0]) &&
      (if token.IsSymbol(")") then depth > 0 && token.depth == depth - 1 else token.depth == depth) &&
      Covers(sql, token.end, AfterToken(token), tokens[1..])
  }

  lemma CoversBlank(sql: string, from: nat, depth: nat, tokens: seq<Token>)
    requires from < |sql| && IsSpace(sql[from]) && Covers(sql, from + 1, depth, tokens)
    ensures Covers(sql, from, depth, tokens)
  {
    if tokens == [] {
      assert sql[from..] == [sql[from]] + sql[from + 1..];
    } else {
      assert sql[from..tokens[0].start] == [sql[from]] + sql[from + 1..tokens[0].start];
    }
  }

  lemma LexParenthesis(s: string)
    requires s != "" && Lex(s).Piece?
    ensures (s[0] == ')' ==> Lex(s) == Piece(Symbol, 1)) && (s[..Lex(s).length] == ")" ==> s[0] == ')')
  {
  }

  lemma {:induction false} RunCovers(sql: string, from: nat, depth: nat)
    requires from <= |sql| && Run(sql[from..], from, depth).Some? && Run(sql[from..], from, depth).value.depth == 0
    ensures Covers(sql, from, depth, Run(sql[from..], from, depth).value.tokens)
    decreases |sql| - from
  {
    hide Lex, Run, Covers;
    var s := sql[from..];
    if s == "" {
      RunEmpty(from, depth);
      CoversEnd(sql, from);
    } else if IsSpace(s[0]) {
      RunBlank(s, from, depth);
      assert s[1..] == sql[from + 1..];
      RunCovers(sql, from + 1, depth);
      CoversBlank(sql, from, depth, Run(s, from, depth).value.tokens);
    } else {
      RunFirst(s, from, depth);
      LexParenthesis(s);
      var n, next, first := Lex(s).length, DepthAfter(s[0], depth), FirstToken(s, from, depth);
      assert s[n..] == sql[from + n..] && s[..n] == sql[from..from + n];
      RunCovers(sql, from + n, next);
      CoversToken(sql, from, depth, first, Run(s[n..], from + n, next).value.tokens);
    }
  }

  lemma CoversEnd(sql: string, from: nat)
    requires from == |sql|
    ensures Covers(sql, from, 0, [])
  {
  }

  lemma CoversToken(sql: string, from: nat, depth: nat, token: Token, rest: seq<Token>)
    requires token.start == from < token.end <= |sql| && token.text == sql[from..token.end] && !IsSpace(sql[from])
    requires if token.IsSymbol(")") then depth > 0 && token.depth == depth - 1 else token.depth == depth
    requires Covers(sql, token.end, AfterToken(token), rest)
    ensures Covers(sql, from, depth, [token] + rest)
  {
    assert ([token] + rest)[1..] == rest;
  }

  lemma TokensPartitionText(sql: string)
    requires Scan(sql).Some?
    ensures Covers(sql, 0, 0, Scan(sql).value)
  {
    assert sql[0..] == sql;
    RunCovers(sql, 0, 0);
  }
}
