/** Values and facts that several models share. */
module Common {

  datatype Option<+T> = None | Some(value: T)

  lemma ConcatAssoc<T>(a: seq<T>, b: seq<T>, c: seq<T>)
    ensures a + (b + c) == a + b + c
  {
  }

  ghost predicate Increasing(at: seq<int>) {
    forall j, k | 0 <= j < k < |at| :: at[j] < at[k]
  }

  ghost predicate AllHave<T>(s: seq<T>, p: T -> bool, at: seq<int>) {
    forall j | 0 <= j < |at| :: 0 <= at[j] < |s| && p(s[at[j]])
  }

  ghost predicate Among(i: int, at: seq<int>) {
    exists j :: 0 <= j < |at| && at[j] == i
  }

  ghost predicate NoneMissed<T>(s: seq<T>, p: T -> bool, at: seq<int>) {
    forall i | 0 <= i < |s| && p(s[i]) :: Among(i, at)
  }

  /** The indices, in order, of all elements that have the property. */
  ghost predicate Picks<T>(s: seq<T>, p: T -> bool, at: seq<int>) {
    Increasing(at) && AllHave(s, p, at) && NoneMissed(s, p, at)
  }

  lemma IncreasingSnoc(at: seq<int>, n: int)
    requires Increasing(at) && forall j | 0 <= j < |at| :: at[j] < n
    ensures Increasing(at + [n])
  {
  }

  lemma NoneMissedSnoc<T>(s: seq<T>, p: T -> bool, at: seq<int>, x: T)
    requires NoneMissed(s, p, at)
    ensures NoneMissed(s + [x], p, if p(x) then at + [|s|] else at)
  {
    var at' := if p(x) then at + [|s|] else at;
    forall i | 0 <= i < |s + [x]| && p((s + [x])[i]) ensures Among(i, at') {
      if i < |s| {
        assert p(s[i]) && Among(i, at);
        var j :| 0 <= j < |at| && at[j] == i;
        assert at'[j] == i;
      } else {
        assert at'[|at|] == i;
      }
    }
  }

  lemma PicksSnoc<T>(s: seq<T>, p: T -> bool, at: seq<int>, x: T)
    requires Picks(s, p, at)
    ensures Picks(s + [x], p, if p(x) then at + [|s|] else at)
  {
    NoneMissedSnoc(s, p, at, x);
    if p(x) { IncreasingSnoc(at, |s|); }
    forall j | 0 <= j < |at| ensures (s + [x])[at[j]] == s[at[j]] {
    }
  }

  function Min(a: nat, b: nat): nat {
    if a < b then a else b
  }

  /** The doubling of the retry delays. */
  function Pow2(n: nat): nat {
    if n == 0 then 1 else 2 * Pow2(n - 1)
  }

  lemma {:induction false} Pow2IsPositive(n: nat)
    ensures Pow2(n) >= 1
  {
    if n > 0 { Pow2IsPositive(n - 1); }
  }
}
