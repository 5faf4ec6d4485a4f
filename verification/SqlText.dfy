/** Byte classes and string helpers of the SQL rewriter. Every `char` stands for one ASCII byte. */
module SqlText {
  import opened Prelude

  predicate IsDigit(c: char) { '0' <= c <= '9' }

  predicate IsIdentifierStart(c: char) { c == '_' || 'a' <= c <= 'z' || 'A' <= c <= 'Z' }

  predicate IsIdentifierPart(c: char) { IsIdentifierStart(c) || IsDigit(c) || c == '$' }

  /** Dollar-quote tags use the identifier alphabet without the dollar sign. */
  predicate IsTagPart(c: char) { IsIdentifierStart(c) || IsDigit(c) }

  function UpperChar(c: char): char {
    if 'a' <= c <= 'z' then (c as int - 32) as char else c
  }

  /** Comparison ignoring ASCII case. */
  predicate EqualFold(a: string, b: string) {
    |a| == |b| && forall i :: 0 <= i < |a| ==> UpperChar(a[i]) == UpperChar(b[i])
  }

  predicate OccursAt(s: string, i: nat, pattern: string) {
    i + |pattern| <= |s| && s[i..i + |pattern|] == pattern
  }

  /** The first position at or after `from` where `pattern` occurs. */
  function Find(s: string, from: nat, pattern: string): (r: Option<nat>)
    ensures r.Some? ==> from <= r.value && OccursAt(s, r.value, pattern)
    ensures forall i: nat :: from <= i && (r.Some? ==> i < r.value) ==> !OccursAt(s, i, pattern)
    decreases |s| - from
  {
    if OccursAt(s, from, pattern) then Some(from)
    else if from >= |s| then None
    else Find(s, from + 1, pattern)
  }
}
