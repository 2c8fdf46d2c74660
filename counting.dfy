/** Counting occurrences in sequences, used to reason about edge multiplicities. */
module Counting {

  /** Number of occurrences of x in s. */
  function Count(s: seq<nat>, x: nat): (c: nat)
    ensures c <= |s|
  {
    if |s| == 0 then 0 else Count(s[..|s| - 1], x) + (if s[|s| - 1] == x then 1 else 0)
  }

  /** Number of entries of s that belong to the set S. */
  function CountIn(s: seq<nat>, S: set<nat>): (c: nat)
    ensures c <= |s|
  {
    if |s| == 0 then 0 else CountIn(s[..|s| - 1], S) + (if s[|s| - 1] in S then 1 else 0)
  }

  /** Taking one more element of a prefix adds its occurrence. */
  lemma CountSnoc(s: seq<nat>, j: nat, x: nat)
    requires j < |s|
    ensures Count(s[..j + 1], x) == Count(s[..j], x) + (if s[j] == x then 1 else 0)
  {
    assert s[..j + 1][..j] == s[..j];
  }

  /** Appending x adds one occurrence of x and none of anything else. */
  lemma CountAppend(s: seq<nat>, x: nat, y: nat)
    ensures Count(s + [x], y) == Count(s, y) + (if x == y then 1 else 0)
  {
    assert (s + [x])[..|s|] == s;
  }

  lemma {:induction false} CountPrefixBound(s: seq<nat>, j: nat, x: nat)
    requires j <= |s|
    ensures Count(s[..j], x) <= Count(s, x)
    decreases |s| - j
  {
    if j < |s| {
      CountSnoc(s, j, x);
      CountPrefixBound(s, j + 1, x);
    } else {
      assert s[..j] == s;
    }
  }

  /** Count of x in s is positive exactly when x occurs in s. */
  lemma {:induction false} CountPositive(s: seq<nat>, x: nat)
    ensures Count(s, x) > 0 <==> x in s
  {
    if |s| > 0 {
      CountPositive(s[..|s| - 1], x);
      assert s == s[..|s| - 1] + [s[|s| - 1]];
    }
  }

  /** Removing one member u from S discounts exactly u's occurrences. */
  lemma {:induction false} CountInRemove(s: seq<nat>, S: set<nat>, u: nat)
    requires u in S
    ensures CountIn(s, S - {u}) == CountIn(s, S) - Count(s, u)
  {
    if |s| > 0 {
      CountInRemove(s[..|s| - 1], S, u);
      CountInUpper(s[..|s| - 1], S, u);
    }
  }

  lemma {:induction false} CountInUpper(s: seq<nat>, S: set<nat>, u: nat)
    requires u in S
    ensures Count(s, u) <= CountIn(s, S)
  {
    if |s| > 0 {
      CountInUpper(s[..|s| - 1], S, u);
    }
  }

  /** CountIn is zero exactly when no entry is in S. */
  lemma {:induction false} CountInZero(s: seq<nat>, S: set<nat>)
    ensures CountIn(s, S) == 0 <==> forall i :: 0 <= i < |s| ==> s[i] !in S
  {
    if |s| > 0 {
      CountInZero(s[..|s| - 1], S);
      assert forall i :: 0 <= i < |s| - 1 ==> s[..|s| - 1][i] == s[i];
    }
  }

  /** When every entry is in S, CountIn is the length. */
  lemma {:induction false} CountInAll(s: seq<nat>, S: set<nat>)
    requires forall i :: 0 <= i < |s| ==> s[i] in S
    ensures CountIn(s, S) == |s|
  {
    if |s| > 0 {
      CountInAll(s[..|s| - 1], S);
    }
  }
}
