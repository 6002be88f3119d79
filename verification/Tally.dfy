/** Sums over a thread table: how many threads stand at a program point, how many
    tokens they carry, how much work they have left. */
module Tally {

  function One(b: bool): int { if b then 1 else 0 }

  function Id(n: int): int { n }

  /** How often a thread occurs in a list of threads. */
  function Times(threads: seq<nat>, t: nat): nat { multiset(threads)[t] }

  lemma TimesOneMore(threads: seq<nat>, u: nat, t: nat)
    ensures Times(threads + [u], t) == Times(threads, t) + One(t == u)
  {
  }

  /** A count asked for by a number that may be negative. */
  function Natural(n: int): nat { if n < 0 then 0 else n }

  function Sum<T>(f: T -> int, s: seq<T>): int {
    if s == [] then 0 else f(s[0]) + Sum(f, s[1..])
  }

  /** Moving one thread changes a sum by the weights of its old and new position. */
  lemma {:induction false} SumUpdate<T>(f: T -> int, s: seq<T>, i: nat, v: T)
    requires i < |s|
    ensures Sum(f, s[i := v]) == Sum(f, s) - f(s[i]) + f(v)
  {
    if i == 0 {
      assert s[i := v][1..] == s[1..];
    } else {
      assert s[i := v][1..] == s[1..][i - 1 := v];
      SumUpdate(f, s[1..], i - 1, v);
    }
  }

  lemma {:induction false} SumNonneg<T>(f: T -> int, s: seq<T>)
    requires forall k :: 0 <= k < |s| ==> f(s[k]) >= 0
    ensures Sum(f, s) >= 0
  {
    if s != [] {
      SumNonneg(f, s[1..]);
    }
  }

  /** Every single weight is at most the sum of all the weights. */
  lemma {:induction false} SumCovers<T>(f: T -> int, s: seq<T>, i: nat)
    requires forall k :: 0 <= k < |s| ==> f(s[k]) >= 0
    requires i < |s|
    ensures 0 <= f(s[i]) <= Sum(f, s)
  {
    SumNonneg(f, s[1..]);
    if i > 0 {
      SumCovers(f, s[1..], i - 1);
    }
  }

  /** So are two weights of different threads together. */
  lemma {:induction false} SumCoversTwo<T>(f: T -> int, s: seq<T>, i: nat, j: nat)
    requires forall k :: 0 <= k < |s| ==> f(s[k]) >= 0
    requires i < j < |s|
    ensures f(s[i]) + f(s[j]) <= Sum(f, s)
  {
    if i == 0 {
      SumCovers(f, s[1..], j - 1);
    } else {
      SumCoversTwo(f, s[1..], i - 1, j - 1);
    }
  }

  /** A sum whose weights are all the same. */
  lemma {:induction false} SumConstant<T>(f: T -> int, s: seq<T>, c: int)
    requires forall k :: 0 <= k < |s| ==> f(s[k]) == c
    ensures Sum(f, s) == c * |s|
  {
    if s != [] {
      SumConstant(f, s[1..], c);
    }
  }

  /** A positive sum has a positive weight in it. */
  lemma {:induction false} SumWitness<T>(f: T -> int, s: seq<T>) returns (i: nat)
    requires Sum(f, s) > 0
    ensures i < |s| && f(s[i]) > 0
  {
    if f(s[0]) > 0 {
      i := 0;
    } else {
      i := SumWitness(f, s[1..]);
      i := i + 1;
    }
  }
}
