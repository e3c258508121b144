/**
 * The folds the dashboard reports are built from: the `reduce` sums over
 * orders and the `filter(...).length` age counts over users.
 */
module Folds {
  import opened Wrappers
  import opened Records

  /**
   * `orders.reduce((acc, order) => acc + (order.field || 0), acc)`:
   * a left fold that threads the accumulator from the first order on.
   */
  function Reduce(orders: seq<Order>, field: Field, acc: int): int
    decreases |orders|
  {
    if orders == [] then acc
    else Reduce(orders[1..], field, acc + Amount(orders[0], field))
  }

  /** The reference total of `field` over `orders`, missing values as 0. */
  function Sum(orders: seq<Order>, field: Field): int
    decreases |orders|
  {
    if orders == [] then 0 else Amount(orders[0], field) + Sum(orders[1..], field)
  }

  /** The left fold started at `acc` adds exactly the reference total to `acc`. */
  lemma {:induction false} ReduceIsSum(orders: seq<Order>, field: Field, acc: int)
    ensures Reduce(orders, field, acc) == acc + Sum(orders, field)
    decreases |orders|
  {
    if orders != [] {
      ReduceIsSum(orders[1..], field, acc + Amount(orders[0], field));
    }
  }

  /** Totals over a concatenation add up. */
  lemma {:induction false} SumAppend(s: seq<Order>, t: seq<Order>, field: Field)
    ensures Sum(s + t, field) == Sum(s, field) + Sum(t, field)
    decreases |s|
  {
    if s == [] {
      assert s + t == t;
    } else {
      assert (s + t)[1..] == s[1..] + t;
      SumAppend(s[1..], t, field);
    }
  }

  /** Taking one order out of a sequence takes its amount out of the total. */
  lemma SumRemove(t: seq<Order>, i: nat, field: Field)
    requires i < |t|
    ensures Sum(t, field) == Amount(t[i], field) + Sum(t[..i] + t[i + 1..], field)
  {
    var x := t[i];
    assert t == t[..i] + ([x] + t[i + 1..]);
    SumAppend(t[..i], [x] + t[i + 1..], field);
    SumAppend([x], t[i + 1..], field);
    SumAppend(t[..i], t[i + 1..], field);
    assert Sum([x], field) == Amount(x, field) by {
      assert [x][1..] == [];
    }
  }

  /** Removing one occurrence of `t[i]` removes one copy from the multiset. */
  lemma MultisetRemove(t: seq<Order>, i: nat)
    requires i < |t|
    ensures multiset(t[..i] + t[i + 1..]) == multiset(t) - multiset{t[i]}
  {
    assert t == t[..i] + [t[i]] + t[i + 1..];
  }

  /**
   * A total does not depend on the order in which the store returns the
   * documents: any two permutations of the same orders give the same sum.
   */
  lemma {:induction false} SumPermutation(s: seq<Order>, t: seq<Order>, field: Field)
    requires multiset(s) == multiset(t)
    ensures Sum(s, field) == Sum(t, field)
    decreases |s|
  {
    if s == [] {
      assert |multiset(t)| == 0;
    } else {
      var x := s[0];
      assert s == [x] + s[1..];
      assert x in multiset(t);
      var i :| 0 <= i < |t| && t[i] == x;
      var rest := t[..i] + t[i + 1..];
      MultisetRemove(t, i);
      assert multiset(s[1..]) == multiset(s) - multiset{x};
      SumPermutation(s[1..], rest, field);
      SumRemove(t, i, field);
    }
  }

  /** The three age groups of the pie report. */
  datatype AgeBracket = Teen | Adult | Old

  /**
   * `age < 20`, `age >= 20 && age < 40` and `age >= 40`; an undefined age
   * fails every comparison, so it falls in no bracket.
   */
  predicate InBracket(age: Option<int>, b: AgeBracket)
  {
    match age
    case None => false
    case Some(a) =>
      match b
      case Teen => a < 20
      case Adult => a >= 20 && a < 40
      case Old => a >= 40
  }

  /** `users.filter(u => InBracket(u.age, b)).length`. */
  function CountBracket(users: seq<User>, b: AgeBracket): (n: nat)
    ensures n <= |users|
    decreases |users|
  {
    if users == [] then 0
    else (if InBracket(users[0].age, b) then 1 else 0) + CountBracket(users[1..], b)
  }

  /** The number of users whose age is defined. */
  function CountAged(users: seq<User>): (n: nat)
    ensures n <= |users|
    decreases |users|
  {
    if users == [] then 0
    else (if users[0].age.Some? then 1 else 0) + CountAged(users[1..])
  }

  /** Every defined age lies in exactly one bracket, an undefined one in none. */
  lemma BracketsPartition(age: Option<int>)
    ensures age.Some? <==> InBracket(age, Teen) || InBracket(age, Adult) || InBracket(age, Old)
    ensures !(InBracket(age, Teen) && InBracket(age, Adult))
    ensures !(InBracket(age, Teen) && InBracket(age, Old))
    ensures !(InBracket(age, Adult) && InBracket(age, Old))
  {
  }

  /** The three bracket counts add up to the number of users with an age. */
  lemma {:induction false} AgePartition(users: seq<User>)
    ensures CountBracket(users, Teen) + CountBracket(users, Adult) + CountBracket(users, Old)
            == CountAged(users)
    decreases |users|
  {
    if users != [] {
      BracketsPartition(users[0].age);
      AgePartition(users[1..]);
    }
  }

  /** When every age is defined, the brackets count every user once. */
  lemma {:induction false} AllAged(users: seq<User>)
    requires forall i :: 0 <= i < |users| ==> users[i].age.Some?
    ensures CountAged(users) == |users|
    decreases |users|
  {
    if users != [] {
      AllAged(users[1..]);
    }
  }
}
