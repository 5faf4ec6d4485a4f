/**
 Compositionality of the scanner: cutting a text at a token boundary cuts its scan, and a text
 followed by a barrier byte scans as if it stood alone.
 */
module SqlSplicing {
  import opened Prelude
  import opened SqlText
  import opened WhiteSpace
  import opened SqlScanner

  // ----- a lexeme depends only on the bytes it covers -----

  lemma SamePrefix(s: string, u: string, n: nat)
    requires n <= |s| && n <= |u| && u[..n] == s[..n]
    ensures forall i :: 0 <= i < n ==> u[i] == s[i]
  {
    assert forall i :: 0 <= i < n ==> u[..n][i] == s[..n][i];
  }

  lemma {:induction false} QuotedLocal(s: string, u: string, i: nat, quote: char)
    requires QuotedEnd(s, i, quote).Some?
    requires var end :=
      QuotedEnd(s, i, quote).value; end <= |u| && u[..end] == s[..end] && (end < |u| ==> u[end] != quote)
    ensures QuotedEnd(u, i, quote) == QuotedEnd(s, i, quote)
    decreases |s| - i
  {
    SamePrefix(s, u, QuotedEnd(s, i, quote).value);
    if s[i] != quote {
      QuotedLocal(s, u, i + 1, quote);
    } else if i + 1 < |s| && s[i + 1] == quote {
      QuotedLocal(s, u, i + 2, quote);
    }
  }

  lemma {:induction false} BracketLocal(s: string, u: string, i: nat)
    requires BracketEnd(s, i).Some?
    requires var end := BracketEnd(s, i).value; end <= |u| && u[..end] == s[..end] && (end < |u| ==> u[end] != ']')
    ensures BracketEnd(u, i) == BracketEnd(s, i)
    decreases |s| - i
  {
    SamePrefix(s, u, BracketEnd(s, i).value);
    if s[i] != ']' {
      BracketLocal(s, u, i + 1);
    } else if i + 1 < |s| && s[i + 1] == ']' {
      BracketLocal(s, u, i + 2);
    }
  }

  lemma {:induction false} WordLocal(s: string, u: string, i: nat)
    requires i <= |s| && WordEnd(s, i) <= |u| && u[..WordEnd(s, i)] == s[..WordEnd(s, i)]
    requires WordEnd(s, i) < |u| ==> !IsIdentifierPart(u[WordEnd(s, i)])
    ensures WordEnd(u, i) == WordEnd(s, i)
    decreases |s| - i
  {
    if i < WordEnd(s, i) {
      assert u[i] == u[..WordEnd(s, i)][i] == s[i];
      WordLocal(s, u, i + 1);
    }
  }

  lemma {:induction false} TagLocal(s: string, u: string, i: nat)
    requires i <= |s| && TagEnd(s, i) < |u| && TagEnd(s, i) < |s| && u[..TagEnd(s, i) + 1] == s[..TagEnd(s, i) + 1]
    ensures TagEnd(u, i) == TagEnd(s, i)
    decreases |s| - i
  {
    assert u[i] == u[..TagEnd(s, i) + 1][i] == s[i];
    if i < TagEnd(s, i) {
      TagLocal(s, u, i + 1);
    }
  }

  lemma DollarLocal(s: string, u: string)
    requires DollarTag(s).Some? && DollarTag(s).value <= |u| && u[..DollarTag(s).value] == s[..DollarTag(s).value]
    ensures DollarTag(u) == DollarTag(s)
  {
    SamePrefix(s, u, DollarTag(s).value);
    if s[1] != '$' {
      TagLocal(s, u, 2);
    }
  }

  lemma OccursLocal(s: string, u: string, end: nat, i: nat, pattern: string)
    requires end <= |s| && end <= |u| && u[..end] == s[..end] && i + |pattern| <= end
    ensures OccursAt(u, i, pattern) <==> OccursAt(s, i, pattern)
  {
    assert u[i..i + |pattern|] == u[..end][i..i + |pattern|];
    assert s[i..i + |pattern|] == s[..end][i..i + |pattern|];
  }

  /** The first occurrence is the one that no occurrence precedes. */
  lemma FindIsFirst(s: string, from: nat, pattern: string, at: nat)
    requires from <= at && OccursAt(s, at, pattern) && forall i: nat :: from <= i < at ==> !OccursAt(s, i, pattern)
    ensures Find(s, from, pattern) == Some(at)
  {
    hide OccursAt;
    var found := Find(s, from, pattern);
    assert found.Some? ==> OccursAt(s, found.value, pattern);
  }

  /** Equal prefixes have the same occurrences. */
  lemma PrefixOccurs(s: string, u: string, end: nat, pattern: string)
    requires end <= |s| && end <= |u| && u[..end] == s[..end]
    ensures forall i: nat :: i + |pattern| <= end ==> (OccursAt(u, i, pattern) <==> OccursAt(s, i, pattern))
  {
    forall i: nat | i + |pattern| <= end
      ensures OccursAt(u, i, pattern) <==> OccursAt(s, i, pattern)
    {
      OccursLocal(s, u, end, i, pattern);
    }
  }

  lemma FindLocal(s: string, u: string, from: nat, pattern: string)
    requires Find(s, from, pattern).Some?
    requires var end := Find(s, from, pattern).value + |pattern|; end <= |s| && end <= |u| && u[..end] == s[..end]
    ensures Find(u, from, pattern) == Find(s, from, pattern)
  {
    hide *;
    var at := Find(s, from, pattern).value;
    PrefixOccurs(s, u, at + |pattern|, pattern);
    FindIsFirst(u, from, pattern, at);
  }

  // ----- cutting and extending one lexeme -----

  /** Text that cannot prolong the token before it. */
  predicate Barrier(t: string) { t == "" || t[0] == ' ' || t[0] == ')' }

  lemma LexCut(s: string, m: nat)
    requires s != "" && Lex(s).Piece? && Lex(s).length <= m <= |s|
    ensures s[..m] != "" && Lex(s[..m]) == Lex(s)
  {
    var u, n := s[..m], Lex(s).length;
    assert u[..n] == s[..n];
    assert !IsRefused(u) by {
      assert |u| >= 2 ==> u[1] == s[1];
    }
    if DollarTag(s).Some? {
      var l := DollarTag(s).value;
      assert u[..l] == s[..l];
      DollarLocal(s, u);
      FindLocal(s, u, l, s[..l]);
    } else {
      if DollarTag(u).Some? {
        var l := DollarTag(u).value;
        assert u[..l] == s[..l];
        DollarLocal(u, s);
      }
      LexPlainLocal(s, u);
    }
  }

  lemma ExtendPlain(s: string, t: string)
    requires s != "" && Barrier(t)
    ensures !IsRefused(s) ==> !IsRefused(s + t)
    ensures DollarTag(s).None? ==> DollarTag(s + t).None?
  {
    var u := s + t;
    assert |u| >= 2 ==> u[1] == if |s| >= 2 then s[1] else t[0];
    if DollarTag(s).None? && DollarTag(u).Some? {
      var l := DollarTag(u).value;
      assert l <= |s| by {
        assert |s| < |u| ==> u[|s|] == t[0];
      }
      assert u[..l] == s[..l];
      DollarLocal(u, s);
    }
  }

  lemma LexExtend(s: string, t: string)
    requires s != "" && Lex(s).Piece? && Barrier(t)
    ensures Lex(s + t) == Lex(s)
  {
    hide DollarTag, QuotedEnd, BracketEnd, WordEnd, Find;
    var u, n := s + t, Lex(s).length;
    assert u[..n] == s[..n];
    ExtendPlain(s, t);
    if DollarTag(s).Some? {
      var l := DollarTag(s).value;
      assert u[..l] == s[..l];
      DollarLocal(s, u);
      FindLocal(s, u, l, s[..l]);
    } else {
      LexPlainLocal(s, u);
    }
  }

  lemma LexPlainLocal(s: string, u: string)
    requires s != "" && Lex(s).Piece? && DollarTag(s).None?
    requires u != "" && DollarTag(u).None? && !IsRefused(u)
    requires Lex(s).length <= |u| && u[..Lex(s).length] == s[..Lex(s).length]
    requires var n := Lex(s).length; n < |u| ==> (n < |s| && u[n] == s[n]) || u[n] == ' ' || u[n] == ')'
    ensures Lex(u) == Lex(s)
  {
    var n := Lex(s).length;
    assert u[0] == u[..n][0] == s[0];
    if s[0] == '\'' || s[0] == '"' || s[0] == '`' {
      QuotedLocal(s, u, 1, s[0]);
    } else if s[0] == '[' {
      BracketLocal(s, u, 1);
    } else if IsIdentifierStart(s[0]) {
      WordLocal(s, u, 1);
    }
  }

  // ----- whole scans -----

  lemma {:induction false} RunSpaces(b: string, s: string, at: nat, depth: nat)
    requires IsBlank(b)
    ensures Run(b + s, at, depth) == Run(s, at + |b|, depth)
  {
    if b == "" {
      assert b + s == s;
    } else {
      assert (b + s)[1..] == b[1..] + s;
      RunBlank(b + s, at, depth);
      RunSpaces(b[1..], s, at + 1, depth);
    }
  }

  /** A text followed by a barrier is scanned as if it stood alone, and the scan goes on after it. */
  lemma {:induction false} RunAppend(a: string, b: string, at: nat, depth: nat)
    requires Run(a, at, depth).Some? && Barrier(b)
    ensures var first := Run(a, at, depth).value;
      Run(a + b, at, depth) == Prepend(first.tokens, Run(b, at + |a|, first.depth))
    decreases |a|
  {
    hide Lex, Run;
    if a == "" {
      assert a + b == b;
      RunEmpty(at, depth);
      PrependNothing(Run(b, at, depth));
    } else {
      if IsSpace(a[0]) {
        RunBlank(a, at, depth);
        RunBlank(a + b, at, depth);
        assert (a + b)[1..] == a[1..] + b;
        RunAppend(a[1..], b, at + 1, depth);
      } else {
        RunFirst(a, at, depth);
        LexExtend(a, b);
        var n, next := Lex(a).length, DepthAfter(a[0], depth);
        var rest := Run(a[n..], at + n, next).value;
        RunToken(a + b, at, depth, Lex(a).kind, n);
        assert (a + b)[n..] == a[n..] + b && (a + b)[..n] == a[..n];
        RunAppend(a[n..], b, at + n, next);
        PrependTwice([FirstToken(a, at, depth)], rest.tokens, Run(b, at + |a|, rest.depth));
      }
    }
  }

  lemma PrependNothing(rest: Option<Scanned>)
    ensures Prepend([], rest) == rest
  {
    if rest.Some? {
      assert [] + rest.value.tokens == rest.value.tokens;
    }
  }

  /** Blanks at the end of a text that scans are not part of any token. */
  lemma {:induction false} RunDropSpaces(s: string, b: string, at: nat, depth: nat)
    requires IsBlank(b) && Run(s + b, at, depth).Some?
    ensures Run(s, at, depth) == Run(s + b, at, depth)
    decreases |s|
  {
    hide Lex, Run;
    var u := s + b;
    if s == "" {
      assert u == b + "";
      RunSpaces(b, "", at, depth);
      RunEmpty(at + |b|, depth);
      RunEmpty(at, depth);
    } else {
      if IsSpace(s[0]) {
        RunBlank(s, at, depth);
        RunBlank(u, at, depth);
        assert u[1..] == s[1..] + b;
        RunDropSpaces(s[1..], b, at + 1, depth);
      } else {
        RunFirst(u, at, depth);
        var n := Lex(u).length;
        assert forall j :: |s| <= j < |u| ==> IsSpace(u[j]);
        LexCut(u, |s|);
        assert u[..|s|] == s && u[..n] == s[..n] && u[n..] == s[n..] + b;
        RunToken(s, at, depth, Lex(s).kind, n);
        RunDropSpaces(s[n..], b, at + n, DepthAfter(s[0], depth));
      }
    }
  }

  lemma RunTrimSpace(s: string, at: nat, depth: nat)
    requires Run(s, at, depth).Some?
    ensures Run(TrimSpace(s), at + |s| - |TrimLeft(s)|, depth) == Run(s, at, depth)
  {
    hide Lex, Run, TrimLeft, TrimRight, IsBlank;
    var l := TrimLeft(s);
    var r := TrimRight(l);
    assert s == s[..|s| - |l|] + l;
    RunSpaces(s[..|s| - |l|], l, at, depth);
    assert l == r + l[|r|..];
    RunDropSpaces(r, l[|r|..], at + |s| - |l|, depth);
  }

  /** What a scan that reached token i left behind it, and what remained to be scanned. */
  ghost predicate CutAt(s: string, at: nat, depth: nat, whole: Scanned, i: nat)
    requires i < |whole.tokens|
  {
    var token := whole.tokens[i];
    at < token.end <= at + |s| &&
    Run(s[..token.end - at], at, depth) == Some(Scanned(whole.tokens[..i + 1], AfterToken(token))) &&
    Run(s[token.end - at..], token.end, AfterToken(token)) == Some(Scanned(whole.tokens[i + 1..], whole.depth))
  }

  /** Cutting a text after its i-th token cuts its scan there. */
  lemma {:induction false} RunCut(s: string, at: nat, depth: nat, i: nat)
    requires Run(s, at, depth).Some? && i < |Run(s, at, depth).value.tokens|
    ensures CutAt(s, at, depth, Run(s, at, depth).value, i)
    decreases |s|
  {
    var whole := Run(s, at, depth).value;
    assert s != "";
    hide Lex, Run;
    if IsSpace(s[0]) {
      RunBlank(s, at, depth);
      RunCut(s[1..], at + 1, depth, i);
      var cut := whole.tokens[i].end - at;
      RunBlank(s[..cut], at, depth);
      assert s[..cut][1..] == s[1..][..cut - 1] && s[cut..] == s[1..][cut - 1..];
    } else {
      RunFirst(s, at, depth);
      RunCutToken(s, at, depth, i);
    }
  }

  lemma {:induction false} RunCutToken(s: string, at: nat, depth: nat, i: nat)
    requires Run(s, at, depth).Some? && i < |Run(s, at, depth).value.tokens|
    requires s != "" && !IsSpace(s[0]) && Lex(s).Piece?
    ensures CutAt(s, at, depth, Run(s, at, depth).value, i)
    decreases |s|, 0
  {
    hide Lex, WordEnd, QuotedEnd, BracketEnd, DollarTag, IsRefused;
    var whole := Run(s, at, depth).value;
    var n, next, first := Lex(s).length, DepthAfter(s[0], depth), FirstToken(s, at, depth);
    RunFirst(s, at, depth);
    var rest := Run(s[n..], at + n, next).value;
    assert whole.tokens == [first] + rest.tokens;
    if i == 0 {
      LexCut(s, n);
      RunToken(s[..n], at, depth, Lex(s).kind, n);
      assert s[..n][n..] == "" && s[..n][..n] == s[..n];
      assert whole.tokens[..1] == [first] + [] && whole.tokens[1..] == rest.tokens;
    } else {
      hide Run;
      RunCut(s[n..], at + n, next, i - 1);
      RunCutLater(s, at, depth, i);
    }
  }

  lemma RunCutLater(s: string, at: nat, depth: nat, i: nat)
    requires Run(s, at, depth).Some? && 0 < i < |Run(s, at, depth).value.tokens|
    requires s != "" && !IsSpace(s[0]) && Lex(s).Piece?
    requires var n, next := Lex(s).length, DepthAfter(s[0], depth);
      0 < n <= |s| && Run(s[n..], at + n, next).Some? && i - 1 < |Run(s[n..], at + n, next).value.tokens| &&
      CutAt(s[n..], at + n, next, Run(s[n..], at + n, next).value, i - 1)
    ensures CutAt(s, at, depth, Run(s, at, depth).value, i)
  {
    hide Lex, WordEnd, QuotedEnd, BracketEnd, DollarTag, IsRefused, Run;
    var whole := Run(s, at, depth).value;
    var n, next, first := Lex(s).length, DepthAfter(s[0], depth), FirstToken(s, at, depth);
    RunFirst(s, at, depth);
    var rest := Run(s[n..], at + n, next).value;
    var cut := whole.tokens[i].end - at;
    assert s[n..][..cut - n] == s[..cut][n..] && s[n..][cut - n..] == s[cut..] && s[..cut][..n] == s[..n];
    LexCut(s, cut);
    RunToken(s[..cut], at, depth, Lex(s).kind, n);
    assert whole.tokens[..i + 1] == [first] + rest.tokens[..i] && whole.tokens[i + 1..] == rest.tokens[i..];
  }

  // ----- scanning the same text elsewhere -----

  /** A token without its position: what the database reads, and how deep. */
  datatype Mark = Mark(kind: Kind, text: string, depth: nat)

  function Marks(tokens: seq<Token>, deeper: nat): (marks: seq<Mark>)
    ensures |marks| == |tokens|
    ensures forall i :: 0 <= i < |marks| ==> marks[i] == Mark(tokens[i].kind, tokens[i].text, tokens[i].depth + deeper)
  {
    if tokens == [] then []
    else [Mark(tokens[0].kind, tokens[0].text, tokens[0].depth + deeper)] + Marks(tokens[1..], deeper)
  }

  lemma MarksAppend(a: seq<Token>, b: seq<Token>, deeper: nat)
    ensures Marks(a + b, deeper) == Marks(a, deeper) + Marks(b, deeper)
  {
  }

  lemma MarksNothing(deeper: nat)
    ensures Marks([], 0) == Marks([], deeper)
  {
  }

  lemma MarksMoved(token: Token, rest: seq<Token>, token': Token, rest': seq<Token>, deeper: nat)
    requires token'.kind == token.kind && token'.text == token.text && token'.depth == token.depth + deeper
    requires Marks(rest', 0) == Marks(rest, deeper)
    ensures Marks([token'] + rest', 0) == Marks([token] + rest, deeper)
  {
    assert ([token'] + rest')[1..] == rest' && ([token] + rest)[1..] == rest;
  }

  /** Scanning elsewhere, or inside more parentheses, moves the tokens and changes nothing else. */
  lemma {:induction false} RunMoved(s: string, at: nat, depth: nat, at': nat, deeper: nat)
    requires Run(s, at, depth).Some?
    ensures Run(s, at', depth + deeper).Some?
    ensures Run(s, at', depth + deeper).value.depth == Run(s, at, depth).value.depth + deeper
    ensures Marks(Run(s, at', depth + deeper).value.tokens, 0) == Marks(Run(s, at, depth).value.tokens, deeper)
    decreases |s|
  {
    hide Lex, Run, Marks;
    if s == "" {
      RunEmpty(at, depth);
      RunEmpty(at', depth + deeper);
      MarksNothing(deeper);
    } else {
      if IsSpace(s[0]) {
        RunBlank(s, at, depth);
        RunBlank(s, at', depth + deeper);
        RunMoved(s[1..], at + 1, depth, at' + 1, deeper);
      } else {
        RunFirst(s, at, depth);
        var n, next := Lex(s).length, DepthAfter(s[0], depth);
        RunToken(s, at', depth + deeper, Lex(s).kind, n);
        RunMoved(s[n..], at + n, next, at' + n, deeper);
        MarksMoved(FirstToken(s, at, depth), Run(s[n..], at + n, next).value.tokens,
                   FirstToken(s, at', depth + deeper), Run(s[n..], at' + n, next + deeper).value.tokens, deeper);
      }
    }
  }
}
