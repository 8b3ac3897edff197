/** Sums over a payments table, restricted to a scope, computed from scratch. */
module Aggregates {
  import opened Domain
  import opened Sums

  datatype Scope = All | OnDate(date: int) | ByMethod(via: string) | OfCustomer(customer: Id)
  datatype Measure = Amount | Count | Success | Failure | Spent | Refunded | Balance

  predicate InScope(s: Scope, r: Payment) {
    match s
    case All => true
    case OnDate(d) => DateOf(r.createdAt) == d
    case ByMethod(m) => r.via == m
    case OfCustomer(c) => r.customerId == c
  }

  function Value(m: Measure, r: Payment): int {
    match m
    case Amount => r.amount
    case Count => 1
    case Success => if Succeeded(r.status) then 1 else 0
    case Failure => if r.status == Failed then 1 else 0
    case Spent => if Succeeded(r.status) then r.amount - r.amountRefunded else 0
    case Refunded => r.amountRefunded
    case Balance => r.amount + (if Succeeded(r.status) then r.amount else 0) - r.amountRefunded
  }

  /** A payment belongs to the UTC day, counted from 1970, in which it was created. */
  lemma OnDateIff(date: int, r: Payment)
    ensures InScope(OnDate(date), r) <==> date * 86_400_000_000 <= r.createdAt < (date + 1) * 86_400_000_000
  {
  }

  function Weight(s: Scope, m: Measure, r: Payment): int {
    if InScope(s, r) then Value(m, r) else 0
  }

  ghost function Column(payments: map<Id, Payment>, s: Scope, m: Measure): map<Id, int> {
    map p | p in payments :: Weight(s, m, payments[p])
  }

  ghost function Sum(payments: map<Id, Payment>, s: Scope, m: Measure): int {
    Total(Column(payments, s, m))
  }

  ghost function WeightAt(payments: map<Id, Payment>, p: Id, s: Scope, m: Measure): int {
    if p in payments then Weight(s, m, payments[p]) else 0
  }

  /** Writing one payment row moves every sum by the change in that row's weight. */
  lemma SumUpdate(payments: map<Id, Payment>, p: Id, row: Payment)
    ensures forall s, m :: Sum(payments[p := row], s, m)
                        == Sum(payments, s, m) - WeightAt(payments, p, s, m) + Weight(s, m, row)
  {
    forall s, m ensures Sum(payments[p := row], s, m)
                        == Sum(payments, s, m) - WeightAt(payments, p, s, m) + Weight(s, m, row)
    {
      assert Column(payments[p := row], s, m) == Column(payments, s, m)[p := Weight(s, m, row)];
      TotalUpdate(Column(payments, s, m), p, Weight(s, m, row));
    }
  }

  lemma SumWrite(payments: map<Id, Payment>, p: Id, row: Payment, s: Scope, m: Measure)
    ensures Sum(payments[p := row], s, m) == Sum(payments, s, m) - WeightAt(payments, p, s, m) + Weight(s, m, row)
  {
    SumUpdate(payments, p, row);
  }

  lemma SumZero(payments: map<Id, Payment>, s: Scope)
    requires forall p :: p in payments ==> !InScope(s, payments[p])
    ensures forall m :: Sum(payments, s, m) == 0
  {
    forall m ensures Sum(payments, s, m) == 0 {
      TotalZero(Column(payments, s, m));
    }
  }

  lemma SumLe(payments: map<Id, Payment>, s1: Scope, m1: Measure, s2: Scope, m2: Measure)
    requires forall p {:trigger p in payments} :: p in payments ==> Weight(s1, m1, payments[p]) <= Weight(s2, m2, payments[p])
    ensures Sum(payments, s1, m1) <= Sum(payments, s2, m2)
  {
    var a, b := Column(payments, s1, m1), Column(payments, s2, m2);
    forall k | k in a ensures a[k] <= b[k] {
      assert a[k] == Weight(s1, m1, payments[k]) && b[k] == Weight(s2, m2, payments[k]);
    }
    TotalLe(a, b);
  }

  lemma SumNonNegative(payments: map<Id, Payment>, s: Scope, m: Measure)
    requires forall p :: p in payments ==> 0 <= Weight(s, m, payments[p])
    ensures 0 <= Sum(payments, s, m)
  {
    var zeros := map p | p in payments :: 0;
    TotalZero(zeros);
    TotalLe(zeros, Column(payments, s, m));
  }
}
