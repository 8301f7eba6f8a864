/**
 * What the aggregator's `Map` accumulation computes, stated once for any
 * grouping key: the keys in the order a JavaScript `Map` first sees them,
 * and per key the summed income and expense amounts.
 *
 * Every function here walks the list from the front, one transaction at a
 * time, as the source's `forEach` does, so that a loop over a prefix of the
 * list can be compared with the function of that prefix.
 */
module Grouping {
  import opened Domain
  import opened Lists

  function Amount(t: Transaction): int { t.amount }

  predicate IsIncome(t: Transaction) { t.kind == INCOME }

  predicate IsExpense(t: Transaction) { t.kind == EXPENSE }

  /** The distinct keys of `s`, in order of first appearance. */
  function Keys<K(==)>(s: seq<Transaction>, key: Transaction -> K): (ks: seq<K>)
    ensures forall i, j :: 0 <= i < j < |ks| ==> ks[i] != ks[j]
  {
    if s == [] then []
    else
      var ks := Keys(s[..|s| - 1], key);
      var k := key(s[|s| - 1]);
      if k in ks then ks else ks + [k]
  }

  /** Every key of a row is listed, and every listed key is the key of some row. */
  lemma {:induction false} KeysCover<K>(s: seq<Transaction>, key: Transaction -> K)
    ensures forall i :: 0 <= i < |s| ==> key(s[i]) in Keys(s, key)
    ensures forall j :: 0 <= j < |Keys(s, key)| ==> exists i :: 0 <= i < |s| && key(s[i]) == Keys(s, key)[j]
    decreases |s|
  {
    if s != [] {
      var p := s[..|s| - 1];
      KeysCover(p, key);
      assert forall i :: 0 <= i < |p| ==> s[i] == p[i];
      var ks := Keys(s, key);
      forall i | 0 <= i < |s|
        ensures key(s[i]) in ks
      {
        if i < |p| {
          assert key(p[i]) in Keys(p, key);
        }
      }
      forall j | 0 <= j < |ks|
        ensures exists i :: 0 <= i < |s| && key(s[i]) == ks[j]
      {
        if j < |Keys(p, key)| {
          var i :| 0 <= i < |p| && key(p[i]) == Keys(p, key)[j];
          assert s[i] == p[i] && ks[j] == Keys(p, key)[j];
          assert 0 <= i < |s| && key(s[i]) == ks[j];
        } else {
          var i := |s| - 1;
          assert 0 <= i < |s| && key(s[i]) == ks[j];
        }
      }
    } else {
      assert Keys(s, key) == [];
    }
  }

  /** The key of row `i` is listed. */
  lemma KeyListed<K>(s: seq<Transaction>, key: Transaction -> K, i: nat)
    requires i < |s|
    ensures key(s[i]) in Keys(s, key)
  {
    KeysCover(s, key);
  }

  /** The listed key at `x` is the key of some row. */
  lemma KeyWitness<K>(s: seq<Transaction>, key: Transaction -> K, x: nat)
    requires x < |Keys(s, key)|
    ensures exists i :: 0 <= i < |s| && key(s[i]) == Keys(s, key)[x]
  {
    KeysCover(s, key);
  }

  /**
   * `Array.from(map.values())` for a map whose keys were inserted in the
   * order `order`, when each value is `f` of its key.
   */
  method MapValues<K, V>(order: seq<K>, entries: map<K, V>, ghost f: K -> V) returns (vs: seq<V>)
    requires forall j :: 0 <= j < |order| ==> order[j] in entries && entries[order[j]] == f(order[j])
    ensures vs == Map(order, f)
  {
    vs := [];
    for j := 0 to |order|
      invariant vs == Map(order[..j], f)
    {
      assert order[..j + 1][..j] == order[..j];
      vs := vs + [entries[order[j]]];
    }
    assert order[..|order|] == order;
  }

  /** The amounts of the INCOME transactions whose key is `k`, summed. */
  function Income<K(==)>(s: seq<Transaction>, key: Transaction -> K, k: K): int {
    if s == [] then 0
    else
      var t := s[|s| - 1];
      Income(s[..|s| - 1], key, k) + (if key(t) == k && t.kind == INCOME then t.amount else 0)
  }

  /** The amounts of the other (non-INCOME) transactions whose key is `k`, summed. */
  function Expense<K(==)>(s: seq<Transaction>, key: Transaction -> K, k: K): int {
    if s == [] then 0
    else
      var t := s[|s| - 1];
      Expense(s[..|s| - 1], key, k) + (if key(t) == k && t.kind != INCOME then t.amount else 0)
  }

  function IncomeOf<K(==)>(s: seq<Transaction>, key: Transaction -> K): K -> int {
    k => Income(s, key, k)
  }

  function ExpenseOf<K(==)>(s: seq<Transaction>, key: Transaction -> K): K -> int {
    k => Expense(s, key, k)
  }

  /** The first transaction of `s` whose key is `k`, if any. */
  function FirstWith<K(==)>(s: seq<Transaction>, key: Transaction -> K, k: K): (r: Option<Transaction>)
    ensures r.Some? ==> r.value in s && key(r.value) == k
  {
    if s == [] then None
    else
      var first := FirstWith(s[..|s| - 1], key, k);
      if first.Some? then first
      else if key(s[|s| - 1]) == k then Some(s[|s| - 1])
      else None
  }

  /** A row with key `k` exists exactly when `k` is among the keys. */
  lemma {:induction false} FirstWithIffKey<K>(s: seq<Transaction>, key: Transaction -> K, k: K)
    ensures FirstWith(s, key, k).Some? <==> k in Keys(s, key)
    decreases |s|
  {
    if s != [] {
      FirstWithIffKey(s[..|s| - 1], key, k);
    }
  }

  // ----- Reordering the rows -----

  /** What one row contributes to the income of key `k`. */
  function IncomeTerm<K(==)>(key: Transaction -> K, k: K): Transaction -> int {
    t => if key(t) == k && t.kind == INCOME then t.amount else 0
  }

  /** What one row contributes to the expense of key `k`. */
  function ExpenseTerm<K(==)>(key: Transaction -> K, k: K): Transaction -> int {
    t => if key(t) == k && t.kind != INCOME then t.amount else 0
  }

  lemma {:induction false} IncomeAsSum<K>(s: seq<Transaction>, key: Transaction -> K, k: K)
    ensures Income(s, key, k) == SumOf(s, IncomeTerm(key, k))
    decreases |s|
  {
    if s != [] {
      IncomeAsSum(s[..|s| - 1], key, k);
    }
  }

  lemma {:induction false} ExpenseAsSum<K>(s: seq<Transaction>, key: Transaction -> K, k: K)
    ensures Expense(s, key, k) == SumOf(s, ExpenseTerm(key, k))
    decreases |s|
  {
    if s != [] {
      ExpenseAsSum(s[..|s| - 1], key, k);
    }
  }

  /** A key's income and expense do not depend on the order of the rows. */
  lemma GroupSumsPermutation<K>(s: seq<Transaction>, s': seq<Transaction>, key: Transaction -> K, k: K)
    requires multiset(s) == multiset(s')
    ensures Income(s, key, k) == Income(s', key, k)
    ensures Expense(s, key, k) == Expense(s', key, k)
  {
    IncomeAsSum(s, key, k);
    IncomeAsSum(s', key, k);
    SumOfPermutation(s, s', IncomeTerm(key, k));
    ExpenseAsSum(s, key, k);
    ExpenseAsSum(s', key, k);
    SumOfPermutation(s, s', ExpenseTerm(key, k));
  }

  /** A key listed for some rows is listed for any reordering of them. */
  lemma KeyTransfers<K>(s: seq<Transaction>, s': seq<Transaction>, key: Transaction -> K, k: K)
    requires multiset(s) == multiset(s')
    requires k in Keys(s, key)
    ensures k in Keys(s', key)
  {
    var x :| 0 <= x < |Keys(s, key)| && Keys(s, key)[x] == k;
    KeyWitness(s, key, x);
    var i :| 0 <= i < |s| && key(s[i]) == k;
    assert s[i] in multiset(s');
    var j :| 0 <= j < |s'| && s'[j] == s[i];
    KeyListed(s', key, j);
  }

  /** Reordering the rows reorders the key list and changes nothing else about it. */
  lemma KeysPermutation<K>(s: seq<Transaction>, s': seq<Transaction>, key: Transaction -> K)
    requires multiset(s) == multiset(s')
    ensures multiset(Keys(s, key)) == multiset(Keys(s', key))
  {
    var a, b := Keys(s, key), Keys(s', key);
    forall k
      ensures k in a <==> k in b
    {
      if k in a {
        KeyTransfers(s, s', key, k);
      }
      if k in b {
        KeyTransfers(s', s, key, k);
      }
    }
    DistinctSameElements(a, b);
  }

  /** The summed amount of the transactions that satisfy `q`: `s.filter(q).reduce(+)`. */
  function SumWhere(s: seq<Transaction>, q: Transaction -> bool): int {
    SumOf(Filter(s, q), Amount)
  }

  lemma SumWhereStep(s: seq<Transaction>, q: Transaction -> bool)
    requires s != []
    ensures SumWhere(s, q) == SumWhere(s[..|s| - 1], q) + (if q(s[|s| - 1]) then s[|s| - 1].amount else 0)
  {
    var f := Filter(s, q);
    if q(s[|s| - 1]) {
      assert f[..|f| - 1] == Filter(s[..|s| - 1], q);
    }
  }

  /** What one more row does to the list of keys. */
  lemma KeysStep<K>(s: seq<Transaction>, t: Transaction, key: Transaction -> K)
    ensures Keys(s + [t], key) == if key(t) in Keys(s, key) then Keys(s, key) else Keys(s, key) + [key(t)]
  {
    assert (s + [t])[..|s|] == s;
  }

  /** What one more row does to each grouped quantity. */
  lemma GroupStep<K>(s: seq<Transaction>, t: Transaction, key: Transaction -> K, k: K)
    ensures Keys(s + [t], key) == if key(t) in Keys(s, key) then Keys(s, key) else Keys(s, key) + [key(t)]
    ensures Income(s + [t], key, k) == Income(s, key, k) + (if key(t) == k && t.kind == INCOME then t.amount else 0)
    ensures Expense(s + [t], key, k) == Expense(s, key, k) + (if key(t) == k && t.kind != INCOME then t.amount else 0)
    ensures FirstWith(s + [t], key, k) ==
      if FirstWith(s, key, k).Some? then FirstWith(s, key, k) else if key(t) == k then Some(t) else None
  {
    assert (s + [t])[..|s|] == s;
  }

  /** A key that never occurs collects nothing. */
  lemma {:induction false} AbsentKeyIsZero<K>(s: seq<Transaction>, key: Transaction -> K, k: K)
    requires k !in Keys(s, key)
    ensures Income(s, key, k) == 0 && Expense(s, key, k) == 0
    decreases |s|
  {
    if s != [] {
      AbsentKeyIsZero(s[..|s| - 1], key, k);
    }
  }

  /**
   * Adding `c` to the term of one key of a list of distinct keys adds `c`
   * to the sum if the key is in the list.
   */
  lemma {:induction false} SumOfBump<K>(ks: seq<K>, f: K -> int, g: K -> int, kt: K, c: int)
    requires forall i, j :: 0 <= i < j < |ks| ==> ks[i] != ks[j]
    requires forall i :: 0 <= i < |ks| ==> g(ks[i]) == f(ks[i]) + (if ks[i] == kt then c else 0)
    ensures SumOf(ks, g) == SumOf(ks, f) + (if kt in ks then c else 0)
    decreases |ks|
  {
    if ks != [] {
      var p := ks[..|ks| - 1];
      SumOfBump(p, f, g, kt, c);
      assert kt in ks <==> kt in p || ks[|ks| - 1] == kt;
      assert ks[|ks| - 1] == kt ==> kt !in p;
    }
  }

  /** The per-key incomes add up to the income of the whole list. */
  lemma {:induction false} GroupIncomeSum<K>(s: seq<Transaction>, key: Transaction -> K)
    ensures SumOf(Keys(s, key), IncomeOf(s, key)) == SumWhere(s, IsIncome)
    decreases |s|
  {
    if s != [] {
      var p, t := s[..|s| - 1], s[|s| - 1];
      var c := if t.kind == INCOME then t.amount else 0;
      GroupIncomeSum(p, key);
      SumWhereStep(s, IsIncome);
      var ks := Keys(p, key);
      SumOfBump(ks, IncomeOf(p, key), IncomeOf(s, key), key(t), c);
      if key(t) !in ks {
        AbsentKeyIsZero(p, key, key(t));
        assert Keys(s, key) == ks + [key(t)];
        SumOfAppend(ks, [key(t)], IncomeOf(s, key));
        assert SumOf([key(t)], IncomeOf(s, key)) == Income(s, key, key(t)) by {
          assert [key(t)][..0] == [];
        }
      }
    }
  }

  /** The per-key expenses add up to the expense of the whole list. */
  lemma {:induction false} GroupExpenseSum<K>(s: seq<Transaction>, key: Transaction -> K)
    ensures SumOf(Keys(s, key), ExpenseOf(s, key)) == SumWhere(s, IsExpense)
    decreases |s|
  {
    if s != [] {
      var p, t := s[..|s| - 1], s[|s| - 1];
      var c := if t.kind != INCOME then t.amount else 0;
      GroupExpenseSum(p, key);
      SumWhereStep(s, IsExpense);
      var ks := Keys(p, key);
      SumOfBump(ks, ExpenseOf(p, key), ExpenseOf(s, key), key(t), c);
      if key(t) !in ks {
        AbsentKeyIsZero(p, key, key(t));
        assert Keys(s, key) == ks + [key(t)];
        SumOfAppend(ks, [key(t)], ExpenseOf(s, key));
        assert SumOf([key(t)], ExpenseOf(s, key)) == Expense(s, key, key(t)) by {
          assert [key(t)][..0] == [];
        }
      }
    }
  }

  /** Splitting a list by a condition and its negation splits every sum over it. */
  lemma {:induction false} SumWherePartition(s: seq<Transaction>, p: Transaction -> bool, np: Transaction -> bool, q: Transaction -> bool)
    requires forall t :: np(t) == !p(t)
    ensures SumWhere(Filter(s, p), q) + SumWhere(Filter(s, np), q) == SumWhere(s, q)
    decreases |s|
  {
    if s != [] {
      var init, t := s[..|s| - 1], s[|s| - 1];
      SumWherePartition(init, p, np, q);
      SumWhereStep(s, q);
      var fp, fn := Filter(s, p), Filter(s, np);
      if p(t) {
        assert fp[..|fp| - 1] == Filter(init, p);
        SumWhereStep(fp, q);
      } else {
        assert fn[..|fn| - 1] == Filter(init, np);
        SumWhereStep(fn, q);
      }
    }
  }
}
