/** Folding a step over the elements of a sequence, and when the order of the elements does not matter. */
module Folds {

  function Fold<S, K>(step: (S, K) -> S, order: seq<K>, s: S): S {
    if order == [] then s else Fold(step, order[1..], step(s, order[0]))
  }

  /** Two elements that may change places wherever they stand side by side. */
  ghost predicate Swappable<S(!new), K>(step: (S, K) -> S, k: K, k': K) {
    forall s :: step(step(s, k), k') == step(step(s, k'), k)
  }

  predicate Distinct<K(==)>(o: seq<K>) {
    forall i, j :: 0 <= i < j < |o| ==> o[i] != o[j]
  }

  lemma {:induction false} MoveToFront<S(!new), K>(step: (S, K) -> S, order: seq<K>, i: nat, s: S)
    requires i < |order| && forall j :: 0 <= j < i ==> Swappable(step, order[j], order[i])
    ensures Fold(step, order, s) == Fold(step, order[..i] + order[i + 1..], step(s, order[i]))
    decreases |order|
  {
    var rest := order[..i] + order[i + 1..];
    if i == 0 {
      assert rest == order[1..];
    } else {
      MoveToFront(step, order[1..], i - 1, step(s, order[0]));
      assert order[1..][..i - 1] + order[1..][i..] == rest[1..];
      assert Swappable(step, order[0], order[i]);
    }
  }

  /** Finds the first element of one order in the other, and takes it out of both. */
  lemma FindFirst<K>(o: seq<K>, o': seq<K>) returns (i: nat, rest: seq<K>)
    requires multiset(o) == multiset(o') && o != []
    ensures i < |o'| && o'[i] == o[0] && rest == o'[..i] + o'[i + 1..]
    ensures multiset(rest) == multiset(o[1..])
  {
    assert o[0] in multiset(o');
    i :| 0 <= i < |o'| && o'[i] == o[0];
    rest := o'[..i] + o'[i + 1..];
    assert o == [o[0]] + o[1..];
    assert o' == o'[..i] + [o'[i]] + o'[i + 1..];
    assert multiset(rest) == multiset(o') - multiset{o[0]};
    assert multiset(o[1..]) == multiset(o) - multiset{o[0]};
  }

  /** When any two different elements may change places, all orders give the same result. */
  lemma {:induction false} SwappableOrdersAgree<S(!new), K>(step: (S, K) -> S, o: seq<K>, o': seq<K>, s: S)
    requires multiset(o) == multiset(o') && Distinct(o) && Distinct(o')
    requires forall k, k' :: k in o' && k' in o' && k != k' ==> Swappable(step, k, k')
    ensures Fold(step, o, s) == Fold(step, o', s)
    decreases |o|
  {
    if o == [] {
      assert |multiset(o')| == 0;
      assert o' == [];
    } else {
      var i, rest := FindFirst(o, o');
      assert o'[i] in o' && forall k :: k in rest ==> k in o';
      forall j | 0 <= j < i ensures Swappable(step, o'[j], o'[i]) {
        assert o'[j] in o';
      }
      MoveToFront(step, o', i, s);
      SwappableOrdersAgree(step, o[1..], rest, step(s, o[0]));
    }
  }
}
