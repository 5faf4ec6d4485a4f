/** Quoted names: every name survives quoting, scanning and reading back. */
module SqlNames {
  import opened Prelude
  import opened SqlText
  import opened WhiteSpace
  import opened SqlScanner
  import opened SqlAnalysis

  /** The name with each `quote` in it written twice. */
  function Doubled(name: string, quote: char): string {
    if name == "" then ""
    else (if name[0] == quote then [quote, quote] else [name[0]]) + Doubled(name[1..], quote)
  }

  lemma {:induction false} UnescapeDoubled(name: string, quote: char)
    ensures Unescape(Doubled(name, quote), quote) == name
  {
    if name != "" {
      var rest := Doubled(name[1..], quote);
      UnescapeDoubled(name[1..], quote);
      var first := if name[0] == quote then [quote, quote] else [name[0]];
      assert (first + rest)[|first|..] == rest;
      assert name == [name[0]] + name[1..];
    }
  }

  /** The end of a doubled name is the first quote after it, wherever the name begins. */
  lemma {:induction false} QuotedEndDoubled(before: string, name: string, quote: char, after: string)
    requires quote != '\\' && forall i :: 0 <= i < |name| ==> name[i] != '\\'
    requires after == "" || after[0] != quote
    ensures var s := before + Doubled(name, quote) + [quote] + after;
      QuotedEnd(s, |before|, quote) == Some(|before| + |Doubled(name, quote)| + 1)
    decreases |name|
  {
    var s := before + Doubled(name, quote) + [quote] + after;
    if name == "" {
      assert s == before + ([quote] + after);
    } else {
      var first := if name[0] == quote then [quote, quote] else [name[0]];
      QuotedEndDoubled(before + first, name[1..], quote, after);
      assert s == before + first + Doubled(name[1..], quote) + [quote] + after;
      assert s[|before|] == first[0] && (|first| == 2 ==> s[|before| + 1] == first[1]);
    }
  }

  lemma {:induction false} BracketEndDoubled(before: string, name: string, after: string)
    requires after == "" || after[0] != ']'
    ensures var s := before + Doubled(name, ']') + [']'] + after;
      BracketEnd(s, |before|) == Some(|before| + |Doubled(name, ']')| + 1)
    decreases |name|
  {
    var s := before + Doubled(name, ']') + [']'] + after;
    if name == "" {
      assert s == before + ([']'] + after);
    } else {
      var first := if name[0] == ']' then [']', ']'] else [name[0]];
      BracketEndDoubled(before + first, name[1..], after);
      assert s == before + first + Doubled(name[1..], ']') + [']'] + after;
      assert s[|before|] == first[0] && (|first| == 2 ==> s[|before| + 1] == first[1]);
    }
  }

  datatype Style = DoubleQuotes | Backticks | Brackets

  function Opening(style: Style): char {
    match style case DoubleQuotes => '"' case Backticks => '`' case Brackets => '['
  }

  function Closing(style: Style): char { if style == Brackets then ']' else Opening(style) }

  function Quoted(name: string, style: Style): string {
    [Opening(style)] + Doubled(name, Closing(style)) + [Closing(style)]
  }

  lemma LexQuoted(name: string, style: Style)
    requires style != Brackets ==> forall i :: 0 <= i < |name| ==> name[i] != '\\'
    ensures Lex(Quoted(name, style)) == Piece(QuotedIdentifier, |Quoted(name, style)|)
  {
    var s := Quoted(name, style);
    assert s == [Opening(style)] + Doubled(name, Closing(style)) + [Closing(style)] + "";
    if style == Brackets {
      BracketEndDoubled([Opening(style)], name, "");
    } else {
      QuotedEndDoubled([Opening(style)], name, Closing(style), "");
    }
  }

  /** A name quoted in any style scans as one identifier whose value is the name. */
  lemma QuotedNameRoundTrip(name: string, style: Style)
    requires style != Brackets ==> forall i :: 0 <= i < |name| ==> name[i] != '\\'
    ensures var text := Quoted(name, style);
      Scan(text) == Some([Token(QuotedIdentifier, text, 0, |text|, 0)]) &&
      IdentifierValue(Token(QuotedIdentifier, text, 0, |text|, 0)) == name
  {
    var text := Quoted(name, style);
    LexQuoted(name, style);
    hide Lex, Run;
    var token := Token(QuotedIdentifier, text, 0, |text|, 0);
    RunToken(text, 0, 0, QuotedIdentifier, |text|);
    RunEmpty(|text|, 0);
    assert text[|text|..] == "" && text[..|text|] == text && [token] + [] == [token];
    UnescapeDoubled(name, Closing(style));
    assert text[1..|text| - 1] == Doubled(name, Closing(style));
  }
}
