// The parts of Go's strings package that the modelled code relies on.
module Strings {

  predicate OccursAt(s: string, p: string, i: int) {
    0 <= i && i + |p| <= |s| && s[i..i + |p|] == p
  }

  /** strings.Index: the first position at which p occurs in s, or -1. */
  function IndexOf(s: string, p: string): (i: int)
    ensures i == -1 || OccursAt(s, p, i)
    ensures forall j :: 0 <= j && (i == -1 || j < i) ==> !OccursAt(s, p, j)
  {
    IndexFrom(s, p, 0)
  }

  function IndexFrom(s: string, p: string, from: nat): (i: int)
    ensures i == -1 || (from <= i && OccursAt(s, p, i))
    ensures forall j :: from <= j && (i == -1 || j < i) ==> !OccursAt(s, p, j)
    decreases |s| - from
  {
    if from + |p| > |s| then -1
    else if OccursAt(s, p, from) then from
    else if from < |s| then IndexFrom(s, p, from + 1)
    else -1
  }

  /** Occurrences of a one-character pattern are the positions of that character. */
  lemma OccurrencesOf(s: string, c: char)
    ensures forall i {:trigger OccursAt(s, [c], i)} :: OccursAt(s, [c], i) <==> 0 <= i < |s| && s[i] == c
  {
    forall i | 0 <= i < |s| ensures OccursAt(s, [c], i) <==> s[i] == c {
      assert s[i..i + 1] == [s[i]];
    }
  }

  /** strings.HasPrefix. */
  predicate HasPrefix(s: string, p: string) {
    p <= s
  }

  /** strings.Split for a one-character separator. */
  function Split(s: string, c: char): (parts: seq<string>)
    ensures |parts| >= 1
  {
    if s == "" then [""]
    else
      var rest := Split(s[1..], c);
      if s[0] == c then [""] + rest else [[s[0]] + rest[0]] + rest[1..]
  }

  /** strings.Join for a one-character separator. */
  function Join(parts: seq<string>, c: char): string {
    if |parts| == 0 then ""
    else if |parts| == 1 then parts[0]
    else parts[0] + [c] + Join(parts[1..], c)
  }

  lemma {:induction false} SplitAtFirst(a: string, b: string, c: char)
    requires c !in a
    ensures Split(a + [c] + b, c) == [a] + Split(b, c)
  {
    var s := a + [c] + b;
    if a == "" {
      assert s[1..] == b;
    } else {
      assert s[1..] == a[1..] + [c] + b;
      SplitAtFirst(a[1..], b, c);
      assert [a[0]] + a[1..] == a;
    }
  }

  lemma {:induction false} SplitWithoutSeparator(a: string, c: char)
    requires c !in a
    ensures Split(a, c) == [a]
  {
    if a != "" {
      SplitWithoutSeparator(a[1..], c);
      assert [a[0]] + a[1..] == a;
    }
  }

  /** No part of a split contains the separator. */
  lemma {:induction false} SplitPartsFree(s: string, c: char)
    ensures forall p :: p in Split(s, c) ==> c !in p
  {
    if s != "" {
      SplitPartsFree(s[1..], c);
      var rest := Split(s[1..], c);
      assert rest[0] in rest;
      forall p | p in Split(s, c) ensures c !in p {
        if p !in rest && p != "" {
          assert p == [s[0]] + rest[0];
        }
      }
    }
  }

  /** Splitting undoes joining, for a non-empty list of parts that are free of the separator. */
  lemma {:induction false} SplitUndoesJoin(parts: seq<string>, c: char)
    requires |parts| >= 1
    requires forall p :: p in parts ==> c !in p
    ensures Split(Join(parts, c), c) == parts
  {
    assert parts[0] in parts;
    if |parts| == 1 {
      SplitWithoutSeparator(parts[0], c);
    } else {
      SplitUndoesJoin(parts[1..], c);
      SplitAtFirst(parts[0], Join(parts[1..], c), c);
      assert [parts[0]] + parts[1..] == parts;
    }
  }
}
