/**
 What a tokenized statement is, said of finished tokens and the text behind each, without a scanner. A text scans to
 some tokens exactly when these are its tokenization, so that the scanner refuses nothing else and accepts nothing else.
 */
module SqlGrammar {
  import opened Prelude
  import opened SqlText
  import opened WhiteSpace
  import opened SqlScanner
  import opened SqlPartition
  import opened SqlNames
  import opened SqlAnalysis

  // ----- the tokens -----

  const LOWER := "abcdefghijklmnopqrstuvwxyz"

  const UPPER := "ABCDEFGHIJKLMNOPQRSTUVWXYZ"

  const LETTERS := "_" + LOWER + UPPER

  const DIGITS := "0123456789"

  /** A letter or underscore, then also digits and, where `dollars` is set, dollar signs. */
  predicate IsName(s: string, dollars: bool) {
    s != "" && s[0] in LETTERS &&
    forall i :: 0 < i < |s| ==> s[i] in LETTERS || s[i] in DIGITS || (dollars && s[i] == '$')
  }

  /** `$$`, or a name without dollar signs between two of them. */
  predicate IsTag(tag: string) {
    |tag| >= 2 && tag[0] == '$' == tag[|tag| - 1] && (|tag| == 2 || IsName(tag[1..|tag| - 1], false))
  }

  ghost predicate StartsTag(s: string) { exists n: nat :: n <= |s| && IsTag(s[..n]) }

  predicate StartsComment(s: string) { "--" <= s || "/*" <= s || "*/" <= s }

  predicate StartsWith(s: string, c: char) { s != "" && s[0] == c }

  /** `text` can be a token of this kind where `after` follows it. */
  ghost predicate IsLexical(kind: Kind, text: string, after: string) {
    match kind
    case Word => IsName(text, true) && (after == "" || !(after[0] in LETTERS || after[0] in DIGITS || after[0] == '$'))
    case QuotedIdentifier => exists name, style: Style :: text == Quoted(name, style) && IsClosed(name, style, after)
    case StringLiteral =>
      (exists body :: text == "'" + Doubled(body, '\'') + "'" && '\\' !in body && !StartsWith(after, '\'')) ||
      (exists n: nat :: n <= |text| && IsDollarQuoted(text, n))
    case Symbol =>
      |text| == 1 && !IsSpace(text[0]) && text[0] !in LETTERS && text[0] !in ";#\0'\"`[" &&
      !StartsComment(text + after) && !StartsTag(text + after)
  }

  /** The name's closing quote is its last one, and no backslash casts doubt on that. */
  predicate IsClosed(name: string, style: Style, after: string) {
    (style.Brackets? || '\\' !in name) && !StartsWith(after, Closing(style))
  }

  /** The text between a tag of length `n` and its next occurrence, with both. */
  predicate IsDollarQuoted(text: string, n: nat)
    requires n <= |text|
  {
    IsTag(text[..n]) && |text| >= 2 * n && text[|text| - n..] == text[..n] &&
    forall i: nat :: n <= i < |text| - n ==> !OccursAt(text, i, text[..n])
  }

  /** The tokens partition the text, each is lexical where it stands, and the parentheses balance. */
  ghost predicate IsTokenization(sql: string, tokens: seq<Token>) {
    Covers(sql, 0, 0, tokens) && AllLexical(sql, tokens)
  }

  ghost predicate AllLexical(sql: string, tokens: seq<Token>) {
    forall i :: 0 <= i < |tokens| ==> LexicalIn(sql, tokens[i])
  }

  ghost predicate LexicalIn(sql: string, token: Token) {
    token.end <= |sql| && IsLexical(token.kind, token.text, sql[token.end..])
  }

  // ----- alphabets -----

  lemma LowerAt(i: nat)
    requires i < 26
    ensures LOWER[i] as int == 'a' as int + i
  {
  }

  lemma UpperAt(i: nat)
    requires i < 26
    ensures UPPER[i] as int == 'A' as int + i
  {
  }

  lemma DigitAt(i: nat)
    requires i < 10
    ensures DIGITS[i] as int == '0' as int + i
  {
  }

  lemma Lower(c: char)
    ensures 'a' <= c <= 'z' <==> c in LOWER
  {
    if 'a' <= c <= 'z' {
      LowerAt(c as int - 'a' as int);
    }
    if i: nat :| i < |LOWER| && LOWER[i] == c {
      LowerAt(i);
    }
  }

  lemma Upper(c: char)
    ensures 'A' <= c <= 'Z' <==> c in UPPER
  {
    if 'A' <= c <= 'Z' {
      UpperAt(c as int - 'A' as int);
    }
    if i: nat :| i < |UPPER| && UPPER[i] == c {
      UpperAt(i);
    }
  }

  lemma Alphabet(c: char)
    ensures IsIdentifierStart(c) <==> c in LETTERS
    ensures IsDigit(c) <==> c in DIGITS
  {
    Lower(c);
    Upper(c);
    assert c in "_" <==> c == '_';
    if '0' <= c <= '9' {
      DigitAt(c as int - '0' as int);
    }
    if i: nat :| i < |DIGITS| && DIGITS[i] == c {
      DigitAt(i);
    }
  }

  predicate IsLower(c: char) { c in LOWER }

  predicate IsUpper(c: char) { c in UPPER }

  lemma LettersExactly(c: char)
    ensures (IsLower(c) <==> 'a' <= c <= 'z') && (IsUpper(c) <==> 'A' <= c <= 'Z')
  {
    Lower(c);
    Upper(c);
  }

  /** `lower` and `upper` are one letter. */
  predicate AreCases(lower: char, upper: char) {
    IsLower(lower) && IsUpper(upper) && lower as int - upper as int == 'a' as int - 'A' as int
  }

  lemma CasesExactly(lower: char, upper: char)
    ensures AreCases(lower, upper) <==> 'a' <= lower <= 'z' && UpperChar(lower) == upper
  {
    hide IsLower, IsUpper;
    LettersExactly(lower);
    LettersExactly(upper);
  }

  predicate IsSameLetter(a: char, b: char) { a == b || AreCases(a, b) || AreCases(b, a) }

  lemma SameLetterExactly(a: char, b: char)
    ensures UpperChar(a) == UpperChar(b) <==> IsSameLetter(a, b)
  {
    hide AreCases;
    CasesExactly(a, b);
    CasesExactly(b, a);
  }

  /** Texts are the same ignoring case exactly when they have the same letters. */
  lemma FoldExactly(a: string, b: string)
    ensures EqualFold(a, b) <==> |a| == |b| && forall i :: 0 <= i < |a| ==> IsSameLetter(a[i], b[i])
  {
    hide IsSameLetter, UpperChar;
    if |a| == |b| {
      forall i | 0 <= i < |a|
        ensures UpperChar(a[i]) == UpperChar(b[i]) <==> IsSameLetter(a[i], b[i])
      {
        SameLetterExactly(a[i], b[i]);
      }
    }
  }

  lemma NameParts(s: string)
    ensures IsName(s, true) <==>
      s != "" && IsIdentifierStart(s[0]) && forall i :: 0 < i < |s| ==> IsIdentifierPart(s[i])
    ensures IsName(s, false) <==> s != "" && IsIdentifierStart(s[0]) && forall i :: 0 < i < |s| ==> IsTagPart(s[i])
  {
    hide IsIdentifierStart, IsDigit;
    forall i | 0 <= i < |s|
      ensures IsIdentifierStart(s[i]) <==> s[i] in LETTERS
      ensures IsDigit(s[i]) <==> s[i] in DIGITS
    {
      Alphabet(s[i]);
    }
  }

  // ----- one lexeme is lexical -----

  /** What lies between the quotes is some text with its quotes doubled. */
  lemma {:induction false} QuotedBody(s: string, i: nat, quote: char) returns (body: string)
    requires i <= |s| && quote != '\\' && QuotedEnd(s, i, quote).Some?
    ensures var end := QuotedEnd(s, i, quote).value;
      s[i..end] == Doubled(body, quote) + [quote] && '\\' !in body && (end < |s| ==> s[end] != quote)
    decreases |s| - i
  {
    var end := QuotedEnd(s, i, quote).value;
    if s[i] != quote {
      var rest := QuotedBody(s, i + 1, quote);
      body := [s[i]] + rest;
      assert s[i..end] == [s[i]] + s[i + 1..end];
    } else if i + 1 < |s| && s[i + 1] == quote {
      var rest := QuotedBody(s, i + 2, quote);
      body := [quote] + rest;
      assert s[i..end] == [quote, quote] + s[i + 2..end];
    } else {
      body := "";
    }
    assert body != "" ==> body[1..] == body[1..];
  }

  lemma {:induction false} BracketBody(s: string, i: nat) returns (body: string)
    requires i <= |s| && BracketEnd(s, i).Some?
    ensures var end := BracketEnd(s, i).value;
      s[i..end] == Doubled(body, ']') + [']'] && (end < |s| ==> s[end] != ']')
    decreases |s| - i
  {
    var end := BracketEnd(s, i).value;
    if s[i] != ']' {
      var rest := BracketBody(s, i + 1);
      body := [s[i]] + rest;
      assert s[i..end] == [s[i]] + s[i + 1..end];
    } else if i + 1 < |s| && s[i + 1] == ']' {
      var rest := BracketBody(s, i + 2);
      body := [']'] + rest;
      assert s[i..end] == [']', ']'] + s[i + 2..end];
    } else {
      body := "";
    }
  }

  // ----- dollar quotes -----

  lemma TagIsDollarTag(s: string, n: nat)
    requires n <= |s| && IsTag(s[..n])
    ensures DollarTag(s) == Some(n)
  {
    hide IsName, IsIdentifierStart, IsDigit;
    var tag := s[..n];
    assert tag[0] == s[0] && tag[n - 1] == s[n - 1];
    if n > 2 {
      var name := tag[1..n - 1];
      NameParts(name);
      assert forall j :: 0 <= j < n - 2 ==> name[j] == s[j + 1];
      assert forall j :: 2 <= j < n - 1 ==> s[j] == name[j - 1];
      DollarIsNoName();
      assert TagEnd(s, 2) == n - 1;
    }
  }

  lemma DollarIsNoName()
    ensures !IsIdentifierStart('$') && !IsDigit('$') && !IsTagPart('$')
  {
  }

  lemma DollarTagIsTag(s: string)
    requires DollarTag(s).Some?
    ensures DollarTag(s).value <= |s| && IsTag(s[..DollarTag(s).value])
  {
    hide IsName, IsIdentifierStart, IsDigit;
    var n := DollarTag(s).value;
    if n > 2 {
      var name := s[..n][1..n - 1];
      assert forall j :: 0 <= j < n - 2 ==> name[j] == s[j + 1];
      NameParts(name);
    }
  }

  lemma StartsTagExactly(s: string)
    ensures StartsTag(s) <==> DollarTag(s).Some?
  {
    hide IsTag, DollarTag;
    if DollarTag(s).Some? {
      DollarTagIsTag(s);
    }
    if n: nat :| n <= |s| && IsTag(s[..n]) {
      TagIsDollarTag(s, n);
    }
  }

  lemma FindFirst(s: string, from: nat, pattern: string, at: nat)
    requires from <= at && OccursAt(s, at, pattern) && forall i: nat :: from <= i < at ==> !OccursAt(s, i, pattern)
    ensures Find(s, from, pattern) == Some(at)
  {
    hide OccursAt;
  }

  lemma OccursInFront(s: string, end: nat, i: nat, pattern: string)
    requires i + |pattern| <= end <= |s|
    ensures OccursAt(s[..end], i, pattern) <==> OccursAt(s, i, pattern)
  {
    assert s[..end][i..i + |pattern|] == s[i..i + |pattern|];
  }

  /** The text up to the next occurrence of its own first `n` characters. */
  lemma DollarQuoted(s: string, n: nat, at: nat)
    requires n <= at && at + n <= |s| && IsTag(s[..n])
    ensures Find(s, n, s[..n]) == Some(at) <==> IsDollarQuoted(s[..at + n], n)
  {
    hide IsTag, OccursAt;
    var text, tag := s[..at + n], s[..n];
    assert text[..n] == tag && text[at..] == s[at..at + n];
    forall i: nat | i <= at
      ensures OccursAt(text, i, tag) <==> OccursAt(s, i, tag)
    {
      OccursInFront(s, at + n, i, tag);
    }
    if IsDollarQuoted(text, n) {
      OccursHere(s, at, tag);
      FindFirst(s, n, tag, at);
    }
    if Find(s, n, tag) == Some(at) {
      OccursThere(s, at, tag);
    }
  }

  lemma OccursHere(s: string, at: nat, pattern: string)
    requires at + |pattern| <= |s| && s[at..at + |pattern|] == pattern
    ensures OccursAt(s, at, pattern)
  {
  }

  lemma OccursThere(s: string, at: nat, pattern: string)
    requires OccursAt(s, at, pattern)
    ensures at + |pattern| <= |s| && s[at..at + |pattern|] == pattern
  {
  }

  // ----- a lexeme is a token and what follows it -----

  lemma NoTag(s: string)
    requires s == "" || s[0] != '$'
    ensures DollarTag(s).None?
  {
  }

  lemma WordLexeme(s: string, n: nat)
    requires 0 < n <= |s|
    ensures Lex(s) == Piece(Word, n) <==> IsLexical(Word, s[..n], s[n..])
  {
    WordText(s, n);
    hide IsLexical, WordEnd;
    if IsIdentifierStart(s[0]) {
      LetterLexeme(s);
    } else {
      OtherLexeme(s);
    }
  }

  lemma OtherLexeme(s: string)
    requires s != "" && !IsIdentifierStart(s[0])
    ensures Lex(s).Piece? ==> !Lex(s).kind.Word?
  {
    hide DollarTag, QuotedEnd, BracketEnd, IsIdentifierStart, Find;
  }

  lemma WordText(s: string, n: nat)
    requires 0 < n <= |s|
    ensures IsLexical(Word, s[..n], s[n..]) <==> IsIdentifierStart(s[0]) && WordEnd(s, 1) == n
  {
    hide IsName, IsIdentifierStart, IsDigit;
    var text, after := s[..n], s[n..];
    NameParts(text);
    assert text[0] == s[0] && (n < |s| ==> after[0] == s[n]);
    assert forall i :: 0 <= i < n ==> text[i] == s[i];
    if n < |s| {
      Alphabet(s[n]);
    }
  }

  lemma LetterLexeme(s: string)
    requires s != "" && IsIdentifierStart(s[0])
    ensures Lex(s) == Piece(Word, WordEnd(s, 1))
  {
    NoTag(s);
    hide DollarTag, WordEnd;
  }

  lemma QuoteLexeme(s: string)
    requires s != "" && (s[0] == '\'' || s[0] == '"' || s[0] == '`')
    ensures Lex(s) == FromEnd(if s[0] == '\'' then StringLiteral else QuotedIdentifier, QuotedEnd(s, 1, s[0]))
  {
    NoTag(s);
    hide DollarTag, QuotedEnd;
  }

  lemma BracketLexeme(s: string)
    requires s != "" && s[0] == '['
    ensures Lex(s) == FromEnd(QuotedIdentifier, BracketEnd(s, 1))
  {
    NoTag(s);
    hide DollarTag, BracketEnd;
  }

  lemma DollarLexeme(s: string)
    requires DollarTag(s).Some?
    ensures s != "" && DollarTag(s).value <= |s|
    ensures var n := DollarTag(s).value;
      Lex(s) == match Find(s, n, s[..n]) case None => Refused case Some(at) => Piece(StringLiteral, at + n)
  {
    hide DollarTag, Find;
  }

  lemma EnclosedText(s: string, n: nat, quote: char) returns (body: string)
    requires 0 < n <= |s| && s[0] == quote != '\\' && QuotedEnd(s, 1, quote) == Some(n)
    ensures s[..n] == [quote] + Doubled(body, quote) + [quote] && '\\' !in body && !StartsWith(s[n..], quote)
  {
    hide QuotedEnd, Doubled;
    body := QuotedBody(s, 1, quote);
    assert s[..n] == [s[0]] + s[1..n];
    assert s[..n] == [quote] + (Doubled(body, quote) + [quote]);
  }

  lemma EnclosedEnds(s: string, n: nat, quote: char, body: string)
    requires 0 < n <= |s| && s[..n] == [quote] + Doubled(body, quote) + [quote] && !StartsWith(s[n..], quote)
    requires quote != '\\' && '\\' !in body
    ensures QuotedEnd(s, 1, quote) == Some(n)
  {
    hide QuotedEnd, Doubled;
    var after := s[n..];
    assert s == s[..n] + after;
    QuotedEndDoubled([quote], body, quote, after);
  }

  lemma BracketedText(s: string, n: nat) returns (name: string)
    requires 0 < n <= |s| && s[0] == '[' && BracketEnd(s, 1) == Some(n)
    ensures s[..n] == ['['] + Doubled(name, ']') + [']'] && !StartsWith(s[n..], ']')
  {
    hide BracketEnd, Doubled;
    name := BracketBody(s, 1);
    assert s[..n] == [s[0]] + s[1..n];
    assert s[..n] == ['['] + (Doubled(name, ']') + [']']);
  }

  lemma BracketedEnds(s: string, n: nat, name: string)
    requires 0 < n <= |s| && s[..n] == ['['] + Doubled(name, ']') + [']'] && !StartsWith(s[n..], ']')
    ensures BracketEnd(s, 1) == Some(n)
  {
    hide BracketEnd, Doubled;
    var after := s[n..];
    assert s == s[..n] + after;
    BracketEndDoubled(['['], name, after);
  }

  lemma QuotedFirst(name: string, style: Style)
    ensures |Quoted(name, style)| >= 2 && Quoted(name, style)[0] == Opening(style)
  {
    hide Doubled;
  }

  /** Which lexemes begin with which character. */
  lemma KindsByFirst(s: string)
    requires s != "" && Lex(s).Piece?
    ensures Lex(s).kind.QuotedIdentifier? <==> s[0] in "\"`["
    ensures Lex(s).kind.StringLiteral? <==> s[0] == '\'' || DollarTag(s).Some?
    ensures Lex(s).kind.Symbol? ==> Lex(s).length == 1
    ensures Lex(s).kind.Symbol? <==>
      !IsIdentifierStart(s[0]) && s[0] !in "\"`['" && DollarTag(s).None? && !IsRefused(s) && !IsSpace(s[0])
  {
    if s[0] != '$' {
      NoTag(s);
    }
    hide DollarTag, QuotedEnd, BracketEnd, Find, WordEnd, IsRefused, IsSpace;
  }

  lemma QuotedLexeme(s: string, n: nat)
    requires 0 < n <= |s|
    ensures Lex(s) == Piece(QuotedIdentifier, n) <==> IsLexical(QuotedIdentifier, s[..n], s[n..])
  {
    hide Lex, Doubled, QuotedEnd, BracketEnd;
    var text, after := s[..n], s[n..];
    if Lex(s) == Piece(QuotedIdentifier, n) {
      KindsByFirst(s);
      QuotedLexemeText(s, n);
    }
    if name, style :| text == Quoted(name, style) && IsClosed(name, style, after) {
      QuotedFirst(name, style);
      assert s[0] == text[0];
      if style.Brackets? {
        BracketedEnds(s, n, name);
        BracketLexeme(s);
      } else {
        EnclosedEnds(s, n, s[0], name);
        QuoteLexeme(s);
      }
    }
  }

  lemma QuotedLexemeText(s: string, n: nat)
    requires 0 < n <= |s| && Lex(s) == Piece(QuotedIdentifier, n) && s[0] in "\"`["
    ensures IsLexical(QuotedIdentifier, s[..n], s[n..])
  {
    hide Lex, Doubled, QuotedEnd, BracketEnd;
    if s[0] == '[' {
      BracketLexeme(s);
      var name := BracketedText(s, n);
      assert s[..n] == Quoted(name, Brackets) && IsClosed(name, Brackets, s[n..]);
    } else {
      QuoteLexeme(s);
      var style := if s[0] == '"' then DoubleQuotes else Backticks;
      var name := EnclosedText(s, n, s[0]);
      assert s[..n] == Quoted(name, style) && IsClosed(name, style, s[n..]);
    }
  }

  lemma StringLexeme(s: string, n: nat)
    requires 0 < n <= |s|
    ensures Lex(s) == Piece(StringLiteral, n) <==> IsLexical(StringLiteral, s[..n], s[n..])
  {
    hide Lex, Doubled, QuotedEnd, IsTag, DollarTag, IsDollarQuoted;
    var text, after := s[..n], s[n..];
    assert text[0] == s[0];
    if Lex(s) == Piece(StringLiteral, n) {
      KindsByFirst(s);
      if s[0] == '\'' {
        QuoteLexeme(s);
        var body := EnclosedText(s, n, '\'');
      } else {
        DollarLexemeText(s, n);
      }
    }
    if body :| text == "'" + Doubled(body, '\'') + "'" && '\\' !in body && !StartsWith(after, '\'') {
      EnclosedEnds(s, n, '\'', body);
      QuoteLexeme(s);
    }
    if m: nat :| m <= |text| && IsDollarQuoted(text, m) {
      DollarTextLexeme(s, n, m);
    }
  }

  lemma DollarLexemeText(s: string, n: nat)
    requires 0 < n <= |s| && Lex(s) == Piece(StringLiteral, n) && DollarTag(s).Some?
    ensures DollarTag(s).value <= n && IsDollarQuoted(s[..n], DollarTag(s).value)
  {
    hide Lex, IsTag, DollarTag, IsDollarQuoted, Find;
    DollarLexeme(s);
    DollarTagIsTag(s);
    var m := DollarTag(s).value;
    DollarQuoted(s, m, n - m);
  }

  lemma DollarTextLexeme(s: string, n: nat, m: nat)
    requires m <= n <= |s| && IsDollarQuoted(s[..n], m)
    ensures s != "" && Lex(s) == Piece(StringLiteral, n)
  {
    hide Lex, IsTag, DollarTag, Find;
    assert s[..n][..m] == s[..m];
    TagIsDollarTag(s, m);
    DollarLexeme(s);
    DollarQuoted(s, m, n - m);
  }

  lemma SymbolLexeme(s: string, n: nat)
    requires 0 < n <= |s|
    ensures Lex(s) == Piece(Symbol, n) <==> IsLexical(Symbol, s[..n], s[n..])
  {
    hide Lex, DollarTag;
    assert s == s[..n] + s[n..] && s[..n][0] == s[0];
    Alphabet(s[0]);
    StartsTagExactly(s);
    hide StartsTag, IsIdentifierStart;
    if Lex(s).Piece? {
      KindsByFirst(s);
    } else if IsLexical(Symbol, s[..n], s[n..]) {
      PlainLexeme(s);
    }
  }

  lemma PlainLexeme(s: string)
    requires s != "" && !IsIdentifierStart(s[0]) && s[0] !in "\"`['" && DollarTag(s).None? && !IsRefused(s)
    requires !IsSpace(s[0])
    ensures Lex(s) == Piece(Symbol, 1)
  {
  }

  /** The scanner's next lexeme is the one token the text can begin with. */
  lemma LexExactly(s: string, kind: Kind, n: nat)
    requires 0 < n <= |s|
    ensures Lex(s) == Piece(kind, n) <==> IsLexical(kind, s[..n], s[n..])
  {
    hide Lex, IsLexical;
    match kind
    case Word => WordLexeme(s, n);
    case QuotedIdentifier => QuotedLexeme(s, n);
    case StringLiteral => StringLexeme(s, n);
    case Symbol => SymbolLexeme(s, n);
  }

  // ----- whole texts -----

  lemma {:induction false} RunLexical(sql: string, from: nat, depth: nat)
    requires from <= |sql| && Run(sql[from..], from, depth).Some?
    ensures AllLexical(sql, Run(sql[from..], from, depth).value.tokens)
    decreases |sql| - from
  {
    hide Lex, Run, IsLexical;
    var s := sql[from..];
    if s == "" {
      RunEmpty(from, depth);
    } else if IsSpace(s[0]) {
      RunBlank(s, from, depth);
      assert s[1..] == sql[from + 1..];
      RunLexical(sql, from + 1, depth);
    } else {
      RunFirst(s, from, depth);
      var n := Lex(s).length;
      assert s[n..] == sql[from + n..];
      LexExactly(s, Lex(s).kind, n);
      RunLexical(sql, from + n, DepthAfter(s[0], depth));
    }
  }

  lemma LexicalFirst(kind: Kind, text: string, after: string)
    requires IsLexical(kind, text, after)
    ensures text != "" && (text[0] == '(' || text[0] == ')' ==> kind.Symbol?)
    ensures text == "(" || text == ")" ==> kind.Symbol?
    ensures kind.Symbol? ==> |text| == 1
  {
    hide Doubled, IsTag;
    assert '(' !in LETTERS && ')' !in LETTERS by {
      Alphabet('(');
      Alphabet(')');
    }
    if kind.QuotedIdentifier? {
      var name, style: Style :| text == Quoted(name, style) && IsClosed(name, style, after);
      QuotedFirst(name, style);
    } else if kind.StringLiteral? {
      if n: nat :| n <= |text| && IsDollarQuoted(text, n) {
        TagFirst(text, n);
      }
    }
  }

  lemma TagFirst(text: string, n: nat)
    requires n <= |text| && IsTag(text[..n])
    ensures n >= 2 && text[0] == '$'
  {
    assert text[..n][0] == text[0];
  }

  /** A tokenization is what the scanner finds. */
  lemma {:induction false} TokensRun(sql: string, from: nat, depth: nat, tokens: seq<Token>)
    requires from <= |sql| && Covers(sql, from, depth, tokens) && AllLexical(sql, tokens)
    ensures Run(sql[from..], from, depth) == Some(Scanned(tokens, 0))
    decreases |sql| - from
  {
    hide Lex, Run, IsLexical, Covers;
    var s := sql[from..];
    CoversFirst(sql, from, depth, tokens);
    if s == "" {
      RunEmpty(from, depth);
    } else if IsSpace(s[0]) {
      RunBlank(s, from, depth);
      assert s[1..] == sql[from + 1..];
      TokensRun(sql, from + 1, depth, tokens);
    } else {
      var token, n := tokens[0], tokens[0].end - from;
      assert LexicalIn(sql, token);
      assert s[n..] == sql[token.end..] && s[..n] == sql[from..token.end];
      LexExactly(s, token.kind, n);
      LexicalFirst(token.kind, token.text, s[n..]);
      DepthAgrees(token, s[0], depth);
      RunToken(s, from, depth, token.kind, n);
      TokensRun(sql, token.end, AfterToken(token), tokens[1..]);
      assert tokens == [token] + tokens[1..];
    }
  }

  /** What a covered text begins with. */
  lemma CoversFirst(sql: string, from: nat, depth: nat, tokens: seq<Token>)
    requires from <= |sql| && Covers(sql, from, depth, tokens)
    ensures from == |sql| ==> tokens == [] && depth == 0
    ensures from < |sql| && IsSpace(sql[from]) ==> Covers(sql, from + 1, depth, tokens)
    ensures from < |sql| && !IsSpace(sql[from]) ==>
      tokens != [] && var token := tokens[0];
      token.start == from < token.end <= |sql| && token.text == sql[from..token.end] &&
      (if token.IsSymbol(")") then depth > 0 && token.depth == depth - 1 else token.depth == depth) &&
      Covers(sql, token.end, AfterToken(token), tokens[1..])
  {
    if from < |sql| && tokens == [] {
      assert sql[from..][0] == sql[from];
      assert sql[from + 1..] == sql[from..][1..];
    } else if from < |sql| && from < tokens[0].start {
      assert sql[from..tokens[0].start][0] == sql[from];
      assert sql[from + 1..tokens[0].start] == sql[from..tokens[0].start][1..];
    } else if from < |sql| {
      assert tokens[0].text[0] == sql[from];
    }
  }

  lemma DepthAgrees(token: Token, c: char, depth: nat)
    requires token.text != "" && token.text[0] == c && (c == '(' || c == ')' ==> token.kind.Symbol?)
    requires token.kind.Symbol? ==> |token.text| == 1
    requires if token.IsSymbol(")") then depth > 0 && token.depth == depth - 1 else token.depth == depth
    ensures !(c == ')' && depth == 0) && token.depth == DepthAt(c, depth) && AfterToken(token) == DepthAfter(c, depth)
  {
    assert |token.text| == 1 ==> token.text == [c];
    assert c != '(' ==> token.text != "(";
    assert c != ')' ==> token.text != ")";
  }

  /** A text is accepted with some tokens exactly when they are its tokenization. */
  lemma ScanExactly(sql: string, tokens: seq<Token>)
    ensures Scan(sql) == Some(tokens) <==> IsTokenization(sql, tokens)
  {
    hide Run, Covers, AllLexical;
    assert sql[0..] == sql;
    if Scan(sql) == Some(tokens) {
      TokensPartitionText(sql);
      RunLexical(sql, 0, 0);
    }
    if IsTokenization(sql, tokens) {
      TokensRun(sql, 0, 0, tokens);
    }
  }

  /** Blanks are what the database takes for blanks. */
  lemma Blanks(c: char)
    ensures IsSpace(c) <==> c in " \t\n\r\U{000C}\U{000B}"
  {
  }

  // ----- no comments -----

  /** No statement separator and no comment, in what is not quoted. */
  ghost predicate HasNoComment(tokens: seq<Token>) {
    (forall i :: 0 <= i < |tokens| && tokens[i].kind.Symbol? ==> tokens[i].text !in {";", "#", "\0"}) &&
    (forall i :: 0 <= i < |tokens| - 1 && Touch(tokens[i], tokens[i + 1]) ==>
      tokens[i].text + tokens[i + 1].text !in {"--", "/*", "*/"})
  }

  /** Two symbols with nothing between them. */
  predicate Touch(a: Token, b: Token) { a.kind.Symbol? && b.kind.Symbol? && a.end == b.start }

  lemma AcceptedHasNoComment(sql: string)
    requires Scan(sql).Some?
    ensures HasNoComment(Scan(sql).value)
  {
    hide Covers, LexicalIn, Scan;
    var tokens := Scan(sql).value;
    ScanExactly(sql, tokens);
    forall i | 0 <= i < |tokens| && tokens[i].kind.Symbol?
      ensures tokens[i].text !in {";", "#", "\0"}
    {
      assert LexicalIn(sql, tokens[i]);
      PlainToken(sql, tokens[i]);
    }
    forall i | 0 <= i < |tokens| - 1 && Touch(tokens[i], tokens[i + 1])
      ensures tokens[i].text + tokens[i + 1].text !in {"--", "/*", "*/"}
    {
      assert LexicalIn(sql, tokens[i]) && LexicalIn(sql, tokens[i + 1]);
      CoveredText(sql, 0, 0, tokens, i + 1);
      TokensApart(sql, tokens[i], tokens[i + 1]);
    }
  }

  lemma PlainToken(sql: string, token: Token)
    requires LexicalIn(sql, token) && token.kind.Symbol?
    ensures token.text !in {";", "#", "\0"}
  {
    SymbolIsPlain(token.text, sql[token.end..]);
  }

  lemma TokensApart(sql: string, a: Token, b: Token)
    requires LexicalIn(sql, a) && LexicalIn(sql, b) && Touch(a, b)
    requires b.start <= b.end <= |sql| && b.text == sql[b.start..b.end]
    ensures a.text + b.text !in {"--", "/*", "*/"}
  {
    hide StartsTag;
    assert sql[a.end..] == b.text + sql[b.end..];
    SymbolsApart(a.text, b.text, sql[b.end..]);
  }

  lemma {:induction false} CoveredText(sql: string, from: nat, depth: nat, tokens: seq<Token>, i: nat)
    requires Covers(sql, from, depth, tokens) && i < |tokens|
    ensures tokens[i].start <= tokens[i].end <= |sql| && tokens[i].text == sql[tokens[i].start..tokens[i].end]
    decreases i
  {
    if i > 0 {
      CoveredText(sql, tokens[0].end, AfterToken(tokens[0]), tokens[1..], i - 1);
    }
  }

  lemma SymbolIsPlain(text: string, after: string)
    requires IsLexical(Symbol, text, after)
    ensures text !in {";", "#", "\0"}
  {
    assert text[0] in text;
  }

  lemma SymbolsApart(a: string, b: string, after: string)
    requires IsLexical(Symbol, a, b + after) && |b| == 1
    ensures a + b !in {"--", "/*", "*/"}
  {
    var s := a + (b + after);
    assert s[..2] == a + b;
    hide StartsTag;
  }
}
