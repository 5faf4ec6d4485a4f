/** What the rewrite means: the rows it keeps, and the arguments its placeholders receive. */
module SqlMeaning {
  import opened Prelude
  import opened SqlText
  import opened WhiteSpace
  import opened SqlScanner
  import opened SqlSplicing
  import opened SqlAnalysis
  import opened SqlRewrite

  // ----- the Boolean reading of a WHERE clause -----

  predicate MarkIs(mark: Mark, word: string) { mark.kind.Word? && EqualFold(mark.text, word) }

  predicate IsMark(mark: Mark, symbol: string, depth: nat) { mark == Mark(Symbol, symbol, depth) }

  /** Open CASE expressions, and whether a BETWEEN still waits for its AND. */
  datatype Reading = Reading(cases: nat, between: bool)

  const START := Reading(0, false)

  /**
   The reading after a mark that is not the connective `word`, or nothing when it is. Words inside
   CASE ... END, and the AND that belongs to a BETWEEN, connect nothing.
   */
  function Pass(mark: Mark, depth: nat, word: string, reading: Reading): Option<Reading> {
    if mark.depth != depth || !mark.kind.Word? then Some(reading)
    else if MarkIs(mark, "CASE") then Some(reading.(cases := reading.cases + 1))
    else if MarkIs(mark, "END") then Some(reading.(cases := if reading.cases > 0 then reading.cases - 1 else 0))
    else if reading.cases > 0 then Some(reading)
    else if MarkIs(mark, "BETWEEN") then Some(reading.(between := true))
    else if MarkIs(mark, "AND") && reading.between then Some(reading.(between := false))
    else if MarkIs(mark, word) then None
    else Some(reading)
  }

  /** Where the first connective `word` stands at `depth`, or the length of the text. */
  function Connective(marks: seq<Mark>, depth: nat, word: string, reading: Reading): (at: nat)
    ensures at <= |marks|
  {
    if marks == [] then 0
    else
      match Pass(marks[0], depth, word, reading)
      case None => 0
      case Some(next) => 1 + Connective(marks[1..], depth, word, next)
  }

  function First(marks: seq<Mark>, depth: nat, word: string): (at: nat)
    ensures at <= |marks|
  {
    Connective(marks, depth, word, START)
  }

  /** One pair of parentheses around everything. */
  predicate IsGroup(marks: seq<Mark>, depth: nat) {
    |marks| >= 2 && IsMark(marks[0], "(", depth) && IsMark(marks[|marks| - 1], ")", depth) &&
    forall i :: 0 < i < |marks| - 1 ==> marks[i].depth > depth
  }

  /** The tokens of an atomic condition, wherever it stands. */
  function Plain(marks: seq<Mark>): (plain: seq<(Kind, string)>)
    ensures |plain| == |marks|
  {
    seq(|marks|, i requires 0 <= i < |marks| => (marks[i].kind, marks[i].text))
  }

  /** Which atomic conditions hold of a row. */
  type Row = seq<(Kind, string)> -> bool

  /** OR binds weakest, then AND; a group means what it holds; anything else is atomic. */
  function Holds(marks: seq<Mark>, depth: nat, row: Row): bool
    decreases |marks|
  {
    var or, and := First(marks, depth, "OR"), First(marks, depth, "AND");
    if or < |marks| then Holds(marks[..or], depth, row) || Holds(marks[or + 1..], depth, row)
    else if and < |marks| then Holds(marks[..and], depth, row) && Holds(marks[and + 1..], depth, row)
    else if IsGroup(marks, depth) then Holds(marks[1..|marks| - 1], depth + 1, row)
    else row(Plain(marks))
  }

  // ----- reading the same marks deeper -----

  function Deeper(marks: seq<Mark>): (deeper: seq<Mark>)
    ensures |deeper| == |marks|
    ensures forall i :: 0 <= i < |marks| ==> deeper[i] == Mark(marks[i].kind, marks[i].text, marks[i].depth + 1)
  {
    seq(|marks|, i requires 0 <= i < |marks| => Mark(marks[i].kind, marks[i].text, marks[i].depth + 1))
  }

  lemma MarksDeeper(tokens: seq<Token>)
    ensures Marks(tokens, 1) == Deeper(Marks(tokens, 0))
  {
  }

  lemma {:induction false} ConnectiveDeeper(marks: seq<Mark>, depth: nat, word: string, reading: Reading)
    ensures Connective(Deeper(marks), depth + 1, word, reading) == Connective(marks, depth, word, reading)
  {
    if marks != [] {
      var next := Pass(marks[0], depth, word, reading);
      assert Pass(Deeper(marks)[0], depth + 1, word, reading) == next;
      hide Pass;
      assert Deeper(marks)[1..] == Deeper(marks[1..]);
      if next.Some? {
        ConnectiveDeeper(marks[1..], depth, word, next.value);
      }
    }
  }

  lemma GroupDeeper(marks: seq<Mark>, depth: nat)
    ensures IsGroup(Deeper(marks), depth + 1) <==> IsGroup(marks, depth)
  {
    if IsGroup(Deeper(marks), depth + 1) {
      assert forall i :: 0 < i < |marks| - 1 ==> Deeper(marks)[i].depth == marks[i].depth + 1;
    }
  }

  lemma HoldsOr(marks: seq<Mark>, depth: nat, or: nat, row: Row)
    requires First(marks, depth, "OR") == or < |marks|
    ensures Holds(marks, depth, row) == (Holds(marks[..or], depth, row) || Holds(marks[or + 1..], depth, row))
  {
  }

  lemma HoldsAnd(marks: seq<Mark>, depth: nat, and: nat, row: Row)
    requires First(marks, depth, "OR") == |marks| && First(marks, depth, "AND") == and < |marks|
    ensures Holds(marks, depth, row) == (Holds(marks[..and], depth, row) && Holds(marks[and + 1..], depth, row))
  {
  }

  lemma HoldsNeither(marks: seq<Mark>, depth: nat, row: Row)
    requires First(marks, depth, "OR") == First(marks, depth, "AND") == |marks|
    ensures IsGroup(marks, depth) ==>
      |marks| >= 2 && Holds(marks, depth, row) == Holds(marks[1..|marks| - 1], depth + 1, row)
    ensures !IsGroup(marks, depth) ==> Holds(marks, depth, row) == row(Plain(marks))
  {
  }

  lemma {:induction false} HoldsDeeper(marks: seq<Mark>, depth: nat, row: Row)
    ensures Holds(Deeper(marks), depth + 1, row) == Holds(marks, depth, row)
    decreases |marks|
  {
    hide Connective, IsGroup, Holds, Plain;
    var deeper, or, and := Deeper(marks), First(marks, depth, "OR"), First(marks, depth, "AND");
    ConnectiveDeeper(marks, depth, "OR", START);
    ConnectiveDeeper(marks, depth, "AND", START);
    if or < |marks| {
      HoldsOr(marks, depth, or, row);
      HoldsOr(deeper, depth + 1, or, row);
      assert deeper[..or] == Deeper(marks[..or]) && deeper[or + 1..] == Deeper(marks[or + 1..]);
      HoldsDeeper(marks[..or], depth, row);
      HoldsDeeper(marks[or + 1..], depth, row);
    } else if and < |marks| {
      HoldsAnd(marks, depth, and, row);
      HoldsAnd(deeper, depth + 1, and, row);
      assert deeper[..and] == Deeper(marks[..and]) && deeper[and + 1..] == Deeper(marks[and + 1..]);
      HoldsDeeper(marks[..and], depth, row);
      HoldsDeeper(marks[and + 1..], depth, row);
    } else {
      GroupDeeper(marks, depth);
      PlainDeeper(marks);
      HoldsNeither(marks, depth, row);
      HoldsNeither(deeper, depth + 1, row);
      if IsGroup(marks, depth) {
        assert deeper[1..|marks| - 1] == Deeper(marks[1..|marks| - 1]);
        HoldsDeeper(marks[1..|marks| - 1], depth + 1, row);
      }
    }
  }

  lemma PlainDeeper(marks: seq<Mark>)
    ensures Plain(Deeper(marks)) == Plain(marks)
  {
  }

  // ----- the wrapped predicate -----

  /** Marks that can connect nothing at this depth. */
  predicate IsInert(marks: seq<Mark>, depth: nat) {
    forall i :: 0 <= i < |marks| ==> marks[i].depth != depth || !marks[i].kind.Word?
  }

  lemma {:induction false} ConnectiveSkips(inert: seq<Mark>, rest: seq<Mark>, depth: nat, word: string)
    requires IsInert(inert, depth)
    ensures Connective(inert + rest, depth, word, START) == |inert| + Connective(rest, depth, word, START)
  {
    if inert == [] {
      assert inert + rest == rest;
    } else {
      assert (inert + rest)[1..] == inert[1..] + rest && (inert + rest)[0] == inert[0];
      ConnectiveSkips(inert[1..], rest, depth, word);
    }
  }

  function Group(inner: seq<Mark>): seq<Mark> { [Mark(Symbol, "(", 0)] + inner + [Mark(Symbol, ")", 0)] }

  lemma GroupInert(inner: seq<Mark>)
    requires forall i :: 0 <= i < |inner| ==> inner[i].depth > 0
    ensures IsInert(Group(inner), 0) && IsGroup(Group(inner), 0) && Group(inner)[1..|Group(inner)| - 1] == inner
    ensures First(Group(inner), 0, "OR") == First(Group(inner), 0, "AND") == |Group(inner)|
  {
    var group := Group(inner);
    assert forall i :: 0 < i < |inner| + 1 ==> group[i] == inner[i - 1];
    ConnectiveSkips(group, [], 0, "OR");
    ConnectiveSkips(group, [], 0, "AND");
    assert group + [] == group;
  }

  lemma WrappedConnectives(inner: seq<Mark>, condition: seq<Mark>)
    requires forall i :: 0 <= i < |inner| ==> inner[i].depth > 0
    ensures Wrapped(inner, condition) == Group(inner) + ([Mark(Word, "AND", 0)] + condition)
    ensures First(Wrapped(inner, condition), 0, "OR") == |Group(inner)| + 1 + First(condition, 0, "OR")
    ensures First(Wrapped(inner, condition), 0, "AND") == |Group(inner)|
  {
    GroupInert(inner);
    var conjunct := [Mark(Word, "AND", 0)] + condition;
    assert Wrapped(inner, condition) == Group(inner) + conjunct;
    hide Group;
    ConnectiveSkips(Group(inner), conjunct, 0, "OR");
    ConnectiveSkips(Group(inner), conjunct, 0, "AND");
    AndPasses();
    hide Pass;
    assert conjunct[1..] == condition && conjunct[0] == Mark(Word, "AND", 0);
  }

  lemma AndPasses()
    ensures Pass(Mark(Word, "AND", 0), 0, "OR", START) == Some(START)
    ensures Pass(Mark(Word, "AND", 0), 0, "AND", START) == None
  {
    assert UpperChar("AND"[0]) != UpperChar("END"[0]);
  }

  lemma GroupHolds(inner: seq<Mark>, row: Row)
    requires forall i :: 0 <= i < |inner| ==> inner[i].depth > 0
    ensures Holds(Group(inner), 0, row) == Holds(inner, 1, row)
  {
    hide Group, Holds, Connective;
    GroupInert(inner);
    HoldsNeither(Group(inner), 0, row);
  }

  /** How the wrapped predicate splits, by where the condition's own first OR stands. */
  lemma WrappedHolds(inner: seq<Mark>, condition: seq<Mark>, row: Row)
    requires forall i :: 0 <= i < |inner| ==> inner[i].depth > 0
    ensures var or := First(condition, 0, "OR");
      Holds(Wrapped(inner, condition), 0, row) ==
      if or == |condition| then Holds(inner, 1, row) && Holds(condition, 0, row)
      else (Holds(inner, 1, row) && Holds(condition[..or], 0, row)) || Holds(condition[or + 1..], 0, row)
  {
    hide Holds, Connective, Wrapped, Group;
    var or, n := First(condition, 0, "OR"), |Group(inner)|;
    WrappedConnectives(inner, condition);
    if or == |condition| {
      WrappedAnd(inner, condition, row);
    } else {
      var marks, left := Wrapped(inner, condition), Wrapped(inner, condition[..or]);
      ConnectivePrefix(condition, 0, "OR", START);
      WrappedConnectives(inner, condition[..or]);
      WrappedAnd(inner, condition[..or], row);
      HoldsOr(marks, 0, n + 1 + or, row);
      assert marks[..n + 1 + or] == left && marks[n + 1 + or + 1..] == condition[or + 1..];
    }
  }

  lemma WrappedAnd(inner: seq<Mark>, condition: seq<Mark>, row: Row)
    requires forall i :: 0 <= i < |inner| ==> inner[i].depth > 0
    requires First(condition, 0, "OR") == |condition|
    ensures Holds(Wrapped(inner, condition), 0, row) == (Holds(inner, 1, row) && Holds(condition, 0, row))
  {
    hide Holds, Connective, Wrapped, Group;
    var marks, group := Wrapped(inner, condition), Group(inner);
    WrappedConnectives(inner, condition);
    HoldsAnd(marks, 0, |group|, row);
    assert marks[..|group|] == group && marks[|group| + 1..] == condition;
    GroupHolds(inner, row);
  }

  /** Before its first connective a text has none. */
  lemma {:induction false} ConnectivePrefix(marks: seq<Mark>, depth: nat, word: string, reading: Reading)
    ensures var at := Connective(marks, depth, word, reading);
      Connective(marks[..at], depth, word, reading) == at
  {
    hide Pass;
    var at := Connective(marks, depth, word, reading);
    if 0 < at {
      assert marks[..at][1..] == marks[1..][..at - 1] && marks[..at][0] == marks[0];
      ConnectivePrefix(marks[1..], depth, word, Pass(marks[0], depth, word, reading).value);
    }
  }

  // ----- exactly when the tenant condition isolates -----

  /** Whatever the predicate was, the new clause holds of a row exactly when the old one and the condition do. */
  ghost predicate Isolates(condition: seq<Mark>) {
    forall inner: seq<Mark>, row: Row ::
      (forall i :: 0 <= i < |inner| ==> inner[i].depth > 0) ==>
      Holds(Wrapped(inner, condition), 0, row) == (Holds(inner, 1, row) && Holds(condition, 0, row))
  }

  lemma {:induction false} AllTrue(marks: seq<Mark>, depth: nat, row: Row)
    requires forall plain :: |plain| <= |marks| ==> row(plain)
    ensures Holds(marks, depth, row)
    decreases |marks|
  {
    hide Connective, Holds, IsGroup;
    var or, and := First(marks, depth, "OR"), First(marks, depth, "AND");
    if or < |marks| {
      HoldsOr(marks, depth, or, row);
      AllTrue(marks[..or], depth, row);
    } else if and < |marks| {
      HoldsAnd(marks, depth, and, row);
      AllTrue(marks[..and], depth, row);
      AllTrue(marks[and + 1..], depth, row);
    } else {
      HoldsNeither(marks, depth, row);
      if IsGroup(marks, depth) {
        AllTrue(marks[1..|marks| - 1], depth + 1, row);
      }
    }
  }

  lemma {:induction false} ConnectiveOfSymbols(marks: seq<Mark>, depth: nat, word: string)
    requires forall i :: 0 <= i < |marks| ==> marks[i].kind.Symbol?
    ensures First(marks, depth, word) == |marks|
  {
    if marks != [] {
      ConnectiveOfSymbols(marks[1..], depth, word);
    }
  }

  /** The rewrite isolates every predicate exactly when the condition has no OR outside parentheses. */
  lemma IsolatesExactlyWithoutOr(condition: seq<Mark>)
    ensures Isolates(condition) <==> First(condition, 0, "OR") == |condition|
  {
    hide Connective, Holds, Wrapped;
    if First(condition, 0, "OR") == |condition| {
      forall inner: seq<Mark>, row: Row | forall i :: 0 <= i < |inner| ==> inner[i].depth > 0
        ensures Holds(Wrapped(inner, condition), 0, row) == (Holds(inner, 1, row) && Holds(condition, 0, row))
      {
        WrappedHolds(inner, condition, row);
      }
    } else {
      OrBreaksIsolation(condition);
    }
  }

  /** An atomic predicate that no part of a text of `n` marks can equal. */
  lemma FreshAtom(inner: seq<Mark>, n: nat, row: Row)
    requires |inner| == n + 1 && forall i :: 0 <= i < |inner| ==> inner[i] == Mark(Symbol, "?", 1)
    requires forall plain :: row(plain) <==> |plain| <= n
    ensures !Holds(inner, 1, row)
  {
    assert !IsMark(inner[0], "(", 1) by {
      assert "?"[0] != "("[0];
    }
    ConnectiveOfSymbols(inner, 1, "OR");
    ConnectiveOfSymbols(inner, 1, "AND");
    hide Connective, Holds, IsMark, Plain;
    HoldsNeither(inner, 1, row);
    assert |Plain(inner)| == n + 1;
  }

  lemma OrBreaksIsolation(condition: seq<Mark>)
    requires First(condition, 0, "OR") < |condition|
    ensures !Isolates(condition)
  {
    hide Connective, Holds, Wrapped;
    var or := First(condition, 0, "OR");
    var inner := seq(|condition| + 1, i => Mark(Symbol, "?", 1));
    var row: Row := plain => |plain| <= |condition|;
    FreshAtom(inner, |condition|, row);
    WrappedHolds(inner, condition, row);
    AllTrue(condition[or + 1..], 0, row);
    assert Holds(Wrapped(inner, condition), 0, row) && !Holds(inner, 1, row);
  }

  // ----- arguments -----

  /** A statement with its placeholders replaced by the arguments bound to them. */
  datatype Slot<A> = Lexical(kind: Kind, text: string) | Bound(argument: A)

  predicate IsHole(mark: Mark) { mark.kind.Symbol? && mark.text == "?" }

  function Holes(marks: seq<Mark>): nat {
    if marks == [] then 0 else (if IsHole(marks[0]) then 1 else 0) + Holes(marks[1..])
  }

  function Fill<A>(marks: seq<Mark>, args: seq<A>): (slots: seq<Slot<A>>)
    ensures |slots| == |marks|
  {
    if marks == [] then []
    else if IsHole(marks[0]) && args != [] then [Bound(args[0])] + Fill(marks[1..], args[1..])
    else [Lexical(marks[0].kind, marks[0].text)] + Fill(marks[1..], args)
  }

  lemma FillHole<A>(mark: Mark, marks: seq<Mark>, arg: A, args: seq<A>)
    requires IsHole(mark)
    ensures Fill([mark] + marks, [arg] + args) == [Bound(arg)] + Fill(marks, args)
    ensures Holes([mark] + marks) == 1 + Holes(marks)
  {
    assert ([mark] + marks)[1..] == marks && ([arg] + args)[1..] == args;
  }

  lemma FillLexical<A>(mark: Mark, marks: seq<Mark>, args: seq<A>)
    requires !IsHole(mark)
    ensures Fill([mark] + marks, args) == [Lexical(mark.kind, mark.text)] + Fill(marks, args)
    ensures Holes([mark] + marks) == Holes(marks)
  {
    assert ([mark] + marks)[1..] == marks;
  }

  lemma {:induction false} FillAppend<A>(a: seq<Mark>, b: seq<Mark>, args: seq<A>, more: seq<A>)
    requires Holes(a) == |args|
    ensures Fill(a + b, args + more) == Fill(a, args) + Fill(b, more)
    ensures Holes(a + b) == Holes(a) + Holes(b)
    decreases |a|, 0
  {
    if a == [] {
      assert a + b == b && args + more == more;
    } else {
      FillAppendCons(a[0], a[1..], b, args, more);
      assert a == [a[0]] + a[1..];
    }
  }

  lemma {:induction false} FillAppendCons<A>(mark: Mark, rest: seq<Mark>, b: seq<Mark>, args: seq<A>, more: seq<A>)
    requires Holes([mark] + rest) == |args|
    ensures Fill([mark] + rest + b, args + more) == Fill([mark] + rest, args) + Fill(b, more)
    ensures Holes([mark] + rest + b) == Holes([mark] + rest) + Holes(b)
    decreases |rest|, 1
  {
    hide Fill, Holes, IsHole;
    assert [mark] + rest + b == [mark] + (rest + b);
    if IsHole(mark) {
      HoleNeedsArgument(mark, rest);
      var arg, others := args[0], args[1..];
      assert args == [arg] + others && args + more == [arg] + (others + more);
      FillHole(mark, rest, arg, others);
      FillHole(mark, rest + b, arg, others + more);
      FillAppend(rest, b, others, more);
    } else {
      FillLexical(mark, rest, args);
      FillLexical(mark, rest + b, args + more);
      FillAppend(rest, b, args, more);
    }
  }

  lemma HoleNeedsArgument(mark: Mark, rest: seq<Mark>)
    requires IsHole(mark)
    ensures Holes([mark] + rest) == 1 + Holes(rest)
  {
    assert ([mark] + rest)[1..] == rest;
  }

  lemma {:induction false} FillDeeper<A>(marks: seq<Mark>, args: seq<A>)
    ensures Fill(Deeper(marks), args) == Fill(marks, args) && Holes(Deeper(marks)) == Holes(marks)
  {
    if marks != [] {
      assert Deeper(marks)[1..] == Deeper(marks[1..]);
      FillDeeper(marks[1..], args);
      if args != [] {
        FillDeeper(marks[1..], args[1..]);
      }
    }
  }

  lemma {:induction false} HolesBefore<A>(marks: seq<Mark>, args: seq<A>, n: nat)
    requires n <= |marks| && Holes(marks) == |args|
    ensures Holes(marks[..n]) + Holes(marks[n..]) == |args|
    ensures Fill(marks, args) ==
      Fill(marks[..n], args[..Holes(marks[..n])]) + Fill(marks[n..], args[Holes(marks[..n])..])
  {
    HolesAppend(marks[..n], marks[n..]);
    var k := Holes(marks[..n]);
    assert marks == marks[..n] + marks[n..];
    assert args == args[..k] + args[k..];
    FillAppend(marks[..n], marks[n..], args[..k], args[k..]);
  }

  lemma {:induction false} HolesAppend(a: seq<Mark>, b: seq<Mark>)
    ensures Holes(a + b) == Holes(a) + Holes(b)
  {
    if a == [] {
      assert a + b == b;
    } else {
      assert (a + b)[1..] == a[1..] + b;
      HolesAppend(a[1..], b);
    }
  }
}
