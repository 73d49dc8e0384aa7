// Small facts about sequences, kept apart from the types they are used on.
module Sequences {

  predicate Distinct<T(==)>(s: seq<T>) {
    forall i, j :: 0 <= i < j < |s| ==> s[i] != s[j]
  }

  lemma PrefixGrows<T>(s: seq<T>, n: nat)
    requires n < |s|
    ensures s[..n + 1] == s[..n] + [s[n]]
  {
  }

  lemma WholePrefix<T>(s: seq<T>)
    ensures s[..|s|] == s
  {
  }

  // A property that holds at the start and steps exactly where another one holds, holds exactly
  // where the other one held so far.
  lemma {:induction false} StepsUpTo(here: int -> bool, step: int -> bool, n: nat)
    requires here(0) && forall k :: 0 <= k < n ==> (here(k + 1) <==> here(k) && step(k))
    ensures here(n) <==> forall k :: 0 <= k < n ==> step(k)
  {
    if n > 0 {
      StepsUpTo(here, step, n - 1);
      assert here(n - 1 + 1) <==> here(n - 1) && step(n - 1);
    }
  }

  lemma {:induction false} HoldsUpTo(here: int -> bool, n: nat)
    requires here(0) && forall k :: 0 <= k < n && here(k) ==> here(k + 1)
    ensures here(n)
  {
    if n > 0 {
      HoldsUpTo(here, n - 1);
      assert here(n - 1 + 1);
    }
  }
}
