/** The SQL scanner: what one lexeme is, what a scan is, and the index loops that compute them. */
module SqlScanner {
  import opened Prelude
  import opened SqlText
  import opened WhiteSpace

  datatype Kind = Word | QuotedIdentifier | StringLiteral | Symbol

  datatype Token = Token(kind: Kind, text: string, start: nat, end: nat, depth: nat) {
    predicate IsWord(word: string) { kind.Word? && EqualFold(text, word) }
    predicate IsSymbol(symbol: string) { kind.Symbol? && text == symbol }
  }

  /** What the text begins with: a blank, one token of a given length, or something refused. */
  datatype Lexeme = Blank | Piece(kind: Kind, length: nat) | Refused

  // ----- the four scans that cross several bytes -----

  /** End of a quoted text whose opening quote lies before `i`; a doubled quote is content. */
  function QuotedEnd(s: string, i: nat, quote: char): (end: Option<nat>)
    ensures end.Some? ==> i < end.value <= |s| && s[end.value - 1] == quote
    ensures end.Some? && end.value < |s| ==> s[end.value] != quote
    decreases |s| - i
  {
    if i >= |s| || s[i] == '\\' then None
    else if s[i] != quote then QuotedEnd(s, i + 1, quote)
    else if i + 1 < |s| && s[i + 1] == quote then QuotedEnd(s, i + 2, quote)
    else Some(i + 1)
  }

  function BracketEnd(s: string, i: nat): (end: Option<nat>)
    ensures end.Some? ==> i < end.value <= |s| && s[end.value - 1] == ']'
    ensures end.Some? && end.value < |s| ==> s[end.value] != ']'
    decreases |s| - i
  {
    if i >= |s| then None
    else if s[i] != ']' then BracketEnd(s, i + 1)
    else if i + 1 < |s| && s[i + 1] == ']' then BracketEnd(s, i + 2)
    else Some(i + 1)
  }

  function WordEnd(s: string, i: nat): (end: nat)
    requires i <= |s|
    ensures i <= end <= |s|
    ensures forall j :: i <= j < end ==> IsIdentifierPart(s[j])
    ensures end < |s| ==> !IsIdentifierPart(s[end])
    decreases |s| - i
  {
    if i < |s| && IsIdentifierPart(s[i]) then WordEnd(s, i + 1) else i
  }

  function TagEnd(s: string, i: nat): (end: nat)
    requires i <= |s|
    ensures i <= end <= |s|
    ensures forall j :: i <= j < end ==> IsTagPart(s[j])
    ensures end < |s| ==> !IsTagPart(s[end])
    decreases |s| - i
  {
    if i < |s| && IsTagPart(s[i]) then TagEnd(s, i + 1) else i
  }

  /** Length of the dollar-quote delimiter that `s` begins with. */
  function DollarTag(s: string): (length: Option<nat>)
    ensures length.Some? ==> 2 <= length.value <= |s| && s[0] == '$' && s[length.value - 1] == '$'
    ensures length.Some? ==> forall j :: 1 <= j < length.value ==> IsTagPart(s[j]) || s[j] == '$'
  {
    if |s| < 2 || s[0] != '$' then None
    else if s[1] == '$' then Some(2)
    else if !IsIdentifierStart(s[1]) then None
    else
      var end := TagEnd(s, 2);
      if end < |s| && s[end] == '$' then Some(end + 1) else None
  }

  // ----- one lexeme -----

  predicate IsRefused(s: string)
    requires s != ""
  {
    s[0] == ';' || s[0] == '#' || s[0] == '\0' || "--" <= s || "/*" <= s || "*/" <= s
  }

  function FromEnd(kind: Kind, end: Option<nat>): Lexeme {
    match end
    case None => Refused
    case Some(n) => Piece(kind, n)
  }

  function Lex(s: string): (lexeme: Lexeme)
    requires s != ""
    ensures lexeme.Piece? ==> 0 < lexeme.length <= |s| && !IsSpace(s[0]) && !IsSpace(s[lexeme.length - 1])
  {
    if IsSpace(s[0]) then Blank
    else if IsRefused(s) then Refused
    else if DollarTag(s).Some? then
      var n := DollarTag(s).value;
      match Find(s, n, s[..n])
      case None => Refused
      case Some(at) =>
        assert s[at + n - 1] == s[at..at + n][n - 1] == s[..n][n - 1];
        Piece(StringLiteral, at + n)
    else if s[0] == '\'' then FromEnd(StringLiteral, QuotedEnd(s, 1, s[0]))
    else if s[0] == '"' || s[0] == '`' then FromEnd(QuotedIdentifier, QuotedEnd(s, 1, s[0]))
    else if s[0] == '[' then FromEnd(QuotedIdentifier, BracketEnd(s, 1))
    else if IsIdentifierStart(s[0]) then Piece(Word, WordEnd(s, 1))
    else Piece(Symbol, 1)
  }

  // ----- a whole scan -----

  datatype Scanned = Scanned(tokens: seq<Token>, depth: nat)

  function Prepend(tokens: seq<Token>, rest: Option<Scanned>): Option<Scanned> {
    match rest
    case None => None
    case Some(scanned) => Some(Scanned(tokens + scanned.tokens, scanned.depth))
  }

  /** The depth recorded for a token beginning with `c`: a closing parenthesis counts as outside. */
  function DepthAt(c: char, depth: nat): nat { if c == ')' && 0 < depth then depth - 1 else depth }

  function DepthAfter(c: char, depth: nat): nat { if c == '(' then depth + 1 else DepthAt(c, depth) }

  /** The number of open parentheses just after a token. */
  function AfterToken(token: Token): nat { if token.IsSymbol("(") then token.depth + 1 else token.depth }

  function FirstToken(s: string, at: nat, depth: nat): Token
    requires s != "" && Lex(s).Piece?
  {
    Token(Lex(s).kind, s[..Lex(s).length], at, at + Lex(s).length, DepthAt(s[0], depth))
  }

  /** Tokens of `s` when scanning starts at offset `at` inside `depth` open parentheses. */
  function Run(s: string, at: nat, depth: nat): Option<Scanned>
    decreases |s|
  {
    if s == "" then Some(Scanned([], depth))
    else
      match Lex(s)
      case Refused => None
      case Blank => Run(s[1..], at + 1, depth)
      case Piece(_, n) =>
        if s[0] == ')' && depth == 0 then None
        else Prepend([FirstToken(s, at, depth)], Run(s[n..], at + n, DepthAfter(s[0], depth)))
  }

  /** `scanSQL`: the tokens of a statement whose parentheses balance, or nothing. */
  function Scan(sql: string): Option<seq<Token>> {
    match Run(sql, 0, 0)
    case None => None
    case Some(scanned) => if scanned.depth == 0 then Some(scanned.tokens) else None
  }

  // ----- the loops -----

  method ScanQuoted(sql: string, start: nat, quote: char) returns (end: nat, ok: bool)
    requires start < |sql|
    ensures ok <==> QuotedEnd(sql[start..], 1, quote).Some?
    ensures ok ==> end == start + QuotedEnd(sql[start..], 1, quote).value
  {
    var index := start + 1;
    while index < |sql|
      invariant start < index
      invariant QuotedEnd(sql[start..], 1, quote) == QuotedEnd(sql[start..], index - start, quote)
    {
      if sql[index] == '\\' {
        return 0, false;
      }
      if sql[index] != quote {
        index := index + 1;
        continue;
      }
      if index + 1 < |sql| && sql[index + 1] == quote {
        index := index + 2;
        continue;
      }
      return index + 1, true;
    }
    return 0, false;
  }

  method ScanBracketIdentifier(sql: string, start: nat) returns (end: nat, ok: bool)
    requires start < |sql|
    ensures ok <==> BracketEnd(sql[start..], 1).Some?
    ensures ok ==> end == start + BracketEnd(sql[start..], 1).value
  {
    var index := start + 1;
    while index < |sql|
      invariant start < index
      invariant BracketEnd(sql[start..], 1) == BracketEnd(sql[start..], index - start)
    {
      if sql[index] != ']' {
        index := index + 1;
        continue;
      }
      if index + 1 < |sql| && sql[index + 1] == ']' {
        index := index + 2;
        continue;
      }
      return index + 1, true;
    }
    return 0, false;
  }

  method DollarQuoteDelimiter(sql: string, start: nat) returns (delimiter: string, ok: bool)
    requires start < |sql|
    ensures ok <==> DollarTag(sql[start..]).Some?
    ensures ok ==> delimiter == sql[start..][..DollarTag(sql[start..]).value]
  {
    if sql[start] != '$' || start + 1 >= |sql| {
      return "", false;
    }
    if sql[start + 1] == '$' {
      return "$$", true;
    }
    if !IsIdentifierStart(sql[start + 1]) {
      return "", false;
    }
    var index := start + 2;
    while index < |sql| && IsTagPart(sql[index])
      invariant start + 2 <= index <= |sql|
      invariant TagEnd(sql[start..], 2) == TagEnd(sql[start..], index - start)
    {
      index := index + 1;
    }
    if index >= |sql| || sql[index] != '$' {
      return "", false;
    }
    assert sql[start..index + 1] == sql[start..][..index + 1 - start];
    return sql[start..index + 1], true;
  }

  /** The finished prefix `done` and the scan of what is left make up the whole scan. */
  ghost predicate Continues(sql: string, done: seq<Token>, index: nat, depth: nat)
    requires index <= |sql|
  {
    Run(sql, 0, 0) == Prepend(done, Run(sql[index..], index, depth))
  }

  lemma AdvanceBlank(sql: string, done: seq<Token>, index: nat, depth: nat)
    requires index < |sql| && Continues(sql, done, index, depth) && IsSpace(sql[index])
    ensures Continues(sql, done, index + 1, depth)
  {
    assert sql[index..][1..] == sql[index + 1..];
  }

  lemma RunEmpty(at: nat, depth: nat)
    ensures Run("", at, depth) == Some(Scanned([], depth))
  {
  }

  lemma RunBlank(s: string, at: nat, depth: nat)
    requires s != "" && IsSpace(s[0])
    ensures Run(s, at, depth) == Run(s[1..], at + 1, depth)
  {
  }

  /** One step of the scan, for a text known to begin with a token. */
  lemma RunToken(s: string, at: nat, depth: nat, kind: Kind, n: nat)
    requires s != "" && Lex(s) == Piece(kind, n)
    ensures 0 < n <= |s|
    ensures s[0] == ')' && depth == 0 ==> Run(s, at, depth).None?
    ensures !(s[0] == ')' && depth == 0) ==>
      Run(s, at, depth) == Prepend([Token(kind, s[..n], at, at + n, DepthAt(s[0], depth))],
                                   Run(s[n..], at + n, DepthAfter(s[0], depth)))
  {
  }

  /** One step of a scan known to succeed. */
  lemma RunFirst(s: string, at: nat, depth: nat)
    requires s != "" && !IsSpace(s[0]) && Run(s, at, depth).Some?
    ensures Lex(s).Piece? && 0 < Lex(s).length <= |s| && !(s[0] == ')' && depth == 0)
    ensures Run(s[Lex(s).length..], at + Lex(s).length, DepthAfter(s[0], depth)).Some?
    ensures Run(s, at, depth) == Prepend([FirstToken(s, at, depth)],
                                         Run(s[Lex(s).length..], at + Lex(s).length, DepthAfter(s[0], depth)))
    ensures AfterToken(FirstToken(s, at, depth)) == DepthAfter(s[0], depth)
  {
    assert s[..Lex(s).length][0] == s[0];
    if s[0] == '(' {
      assert s[..1] == "(";
    }
  }

  lemma AdvanceToken(sql: string, done: seq<Token>, index: nat, depth: nat, kind: Kind, end: nat)
    requires index < end <= |sql| && Continues(sql, done, index, depth)
    requires Lex(sql[index..]) == Piece(kind, end - index)
    ensures sql[index] == ')' && depth == 0 ==> Scan(sql).None?
    ensures !(sql[index] == ')' && depth == 0) ==>
      Continues(sql, done + [Token(kind, sql[index..end], index, end, DepthAt(sql[index], depth))], end,
                DepthAfter(sql[index], depth))
  {
    var s, n := sql[index..], end - index;
    var token := Token(kind, sql[index..end], index, end, DepthAt(sql[index], depth));
    var rest := Run(sql[end..], end, DepthAfter(sql[index], depth));
    RunToken(s, index, depth, kind, n);
    PrependTwice(done, [token], rest);
    assert !(sql[index] == ')' && depth == 0) ==> Run(s, index, depth) == Prepend([token], rest) by {
      assert s[n..] == sql[end..] && s[..n] == sql[index..end];
    }
  }

  lemma PrependTwice(a: seq<Token>, b: seq<Token>, rest: Option<Scanned>)
    ensures Prepend(a, Prepend(b, rest)) == Prepend(a + b, rest)
  {
    if rest.Some? {
      assert a + (b + rest.value.tokens) == a + b + rest.value.tokens;
    }
  }

  /** The token at `index`, which is not a blank; refused texts end the scan. */
  method ScanToken(sql: string, index: nat) returns (kind: Kind, end: nat, ok: bool)
    requires index < |sql| && !IsSpace(sql[index])
    ensures ok <==> Lex(sql[index..]).Piece?
    ensures ok ==> index < end <= |sql| && Lex(sql[index..]) == Piece(kind, end - index)
  {
    ghost var s := sql[index..];
    if sql[index] == ';' || sql[index] == '#' || sql[index] == '\0'
       || "--" <= sql[index..] || "/*" <= sql[index..] || "*/" <= sql[index..] {
      return Symbol, 0, false;
    }
    var delimiter, quoted := DollarQuoteDelimiter(sql, index);
    if quoted {
      var found := Find(sql[index..], |delimiter|, delimiter);
      if found.None? {
        return Symbol, 0, false;
      }
      return StringLiteral, index + found.value + |delimiter|, true;
    }
    if sql[index] == '\'' || sql[index] == '"' || sql[index] == '`' {
      end, ok := ScanQuoted(sql, index, sql[index]);
      return if sql[index] == '\'' then StringLiteral else QuotedIdentifier, end, ok;
    }
    if sql[index] == '[' {
      end, ok := ScanBracketIdentifier(sql, index);
      return QuotedIdentifier, end, ok;
    }
    if IsIdentifierStart(sql[index]) {
      end := index + 1;
      while end < |sql| && IsIdentifierPart(sql[end])
        invariant index < end <= |sql|
        invariant WordEnd(s, 1) == WordEnd(s, end - index)
      {
        end := end + 1;
      }
      return Word, end, true;
    }
    return Symbol, index + 1, true;
  }

  lemma ScanStarts(sql: string)
    ensures Continues(sql, [], 0, 0)
  {
    assert sql[0..] == sql;
    assert Run(sql, 0, 0).Some? ==> [] + Run(sql, 0, 0).value.tokens == Run(sql, 0, 0).value.tokens;
  }

  lemma ScanRefused(sql: string, done: seq<Token>, index: nat, depth: nat)
    requires index < |sql| && Continues(sql, done, index, depth) && !IsSpace(sql[index]) && !Lex(sql[index..]).Piece?
    ensures Scan(sql).None?
  {
  }

  lemma ScanEnds(sql: string, done: seq<Token>, depth: nat)
    requires Continues(sql, done, |sql|, depth)
    ensures Scan(sql) == if depth == 0 then Some(done) else None
  {
    assert done + [] == done;
  }

  method ScanSQL(sql: string) returns (tokens: seq<Token>, ok: bool)
    ensures ok <==> Scan(sql).Some?
    ensures ok ==> tokens == Scan(sql).value
  {
    hide Continues, Run, Lex, Scan;
    tokens := [];
    ScanStarts(sql);
    var depth: nat := 0;
    var index := 0;
    while index < |sql|
      invariant index <= |sql| && Continues(sql, tokens, index, depth)
      decreases |sql| - index
    {
      if IsSpace(sql[index]) {
        AdvanceBlank(sql, tokens, index, depth);
        index := index + 1;
        continue;
      }
      var kind, end, found := ScanToken(sql, index);
      if !found {
        ScanRefused(sql, tokens, index, depth);
        return [], false;
      }
      AdvanceToken(sql, tokens, index, depth, kind, end);
      if sql[index] == '(' {
        tokens := tokens + [Token(kind, sql[index..end], index, end, depth)];
        depth := depth + 1;
        index := end;
        continue;
      }
      if sql[index] == ')' {
        if depth == 0 {
          return [], false;
        }
        depth := depth - 1;
      }
      tokens := tokens + [Token(kind, sql[index..end], index, end, depth)];
      index := end;
    }
    ScanEnds(sql, tokens, depth);
    if depth != 0 {
      return [], false;
    }
    return tokens, true;
  }
}
