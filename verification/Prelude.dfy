/** Notions that several parts of the program share. */
module Prelude {

  datatype Option<+T> = None | Some(value: T)

  /** A waker; clones differ but wake the same task. */
  datatype Waker = Waker(task: nat, instance: nat) {
    predicate WillWake(other: Waker) {
      task == other.task
    }
  }

  function Min(a: int, b: int): int {
    if a <= b then a else b
  }

  predicate Distinct(q: seq<nat>) {
    forall i, j :: 0 <= i < j < |q| ==> q[i] != q[j]
  }

  /** Some number outside a finite set: one above all of its members. */
  lemma FreshNumber(numbers: set<nat>) returns (n: nat)
    ensures n !in numbers
  {
    n := 0;
    var rest := numbers;
    while rest != {}
      invariant rest <= numbers && forall k :: k in numbers && k !in rest ==> k < n
      decreases rest
    {
      var k :| k in rest;
      rest := rest - {k};
      n := if k < n then n else k + 1;
    }
  }

  /** `m'` is `m` with at most the entry of `k` written or removed. */
  predicate OneEntry<K, V(==)>(m: map<K, V>, m': map<K, V>, k: K) {
    m' == m || m' == m - {k} || (k in m' && m' == m[k := m'[k]])
  }
}
