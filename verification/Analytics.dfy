/** The dashboard's two ways of reading the same numbers, and other facts about reachable read tables. */
module Analytics {
  import opened Domain
  import opened Sums
  import opened Aggregates
  import opened CoreTables
  import opened CoreInvariants
  import opened ReadTables
  import opened Projection
  import opened Replay

  // ---------- The summary query, over the payments table ----------

  datatype Summary = Summary(payments: int, revenue: Cents, success: int, failed: int)

  ghost function Amounts(payments: map<Id, ReadPayment>): map<Id, int> { map p | p in payments :: payments[p].amount }

  ghost function GetSummary(t: Tables): Summary {
    Summary(|t.payments|, Total(Amounts(t.payments)),
            |WithStatus(t.payments, {Captured, Settled})|, |WithStatus(t.payments, {Failed})|)
  }

  function WithStatus(payments: map<Id, ReadPayment>, wanted: set<Status>): set<Id> {
    set p | p in payments && payments[p].status in wanted
  }

  lemma CountIs(t: Tables, c: Core, m: Measure, ones: set<Id>)
    requires PaymentsAgree(t.payments, c.customers, c.payments) && ones <= c.payments.Keys
    requires forall p :: p in c.payments ==> Value(m, c.payments[p]) == if p in ones then 1 else 0
    ensures |ones| == Sum(c.payments, All, m)
  {
    TotalCounts(Column(c.payments, All, m), ones);
  }

  lemma OutcomesCounted(t: Tables, c: Core)
    requires PaymentsAgree(t.payments, c.customers, c.payments)
    ensures |WithStatus(t.payments, {Captured, Settled})| == Sum(c.payments, All, Success)
    ensures |WithStatus(t.payments, {Failed})| == Sum(c.payments, All, Failure)
  {
    CountIs(t, c, Success, WithStatus(t.payments, {Captured, Settled}));
    CountIs(t, c, Failure, WithStatus(t.payments, {Failed}));
  }

  lemma SummaryIsSum(t: Tables, c: Core)
    requires PaymentsAgree(t.payments, c.customers, c.payments)
    ensures GetSummary(t) == Summary(Sum(c.payments, All, Count), Sum(c.payments, All, Amount),
                                     Sum(c.payments, All, Success), Sum(c.payments, All, Failure))
  {
    assert Amounts(t.payments) == Column(c.payments, All, Amount);
    CountIs(t, c, Count, t.payments.Keys);
    assert |t.payments| == |t.payments.Keys|;
    OutcomesCounted(t, c);
  }

  // ---------- The pre-aggregated tables add up to the same ----------

  /** The sums of the classes of a partition add up to the sum of everything. */
  ghost function ByKey<K(!new)>(payments: map<Id, Payment>, keys: set<K>, scope: K -> Scope, m: Measure): map<K, int> {
    map k | k in keys :: Sum(payments, scope(k), m)
  }

  /** `scope` maps each key to the rows that have it. */
  ghost predicate Classifies<K(!new)>(scope: K -> Scope, key: Payment -> K) {
    forall k, r {:trigger InScope(scope(k), r)} :: InScope(scope(k), r) <==> key(r) == k
  }

  lemma ClassStep<K(!new)>(rest: map<Id, Payment>, p: Id, row: Payment, k: K,
                           scope: K -> Scope, key: Payment -> K, m: Measure)
    requires Classifies(scope, key) && p !in rest
    ensures Sum(rest[p := row], scope(k), m) == Sum(rest, scope(k), m) + (if k == key(row) then Value(m, row) else 0)
  {
    SumWrite(rest, p, row, scope(k), m);
    assert InScope(scope(k), row) <==> key(row) == k;
  }

  /** Only the row's own class changes. */
  lemma ClassesStep<K(!new)>(rest: map<Id, Payment>, p: Id, row: Payment, keys: set<K>,
                             scope: K -> Scope, key: Payment -> K, m: Measure)
    requires Classifies(scope, key) && p !in rest && key(row) in keys
    ensures ByKey(rest[p := row], keys, scope, m)
         == ByKey(rest, keys, scope, m)[key(row) := Sum(rest[p := row], scope(key(row)), m)]
  {
    forall k | k in keys && k != key(row) ensures Sum(rest[p := row], scope(k), m) == Sum(rest, scope(k), m) {
      ClassStep(rest, p, row, k, scope, key, m);
    }
  }

  lemma PartitionStep<K(!new)>(rest: map<Id, Payment>, p: Id, row: Payment, keys: set<K>,
                               scope: K -> Scope, key: Payment -> K, m: Measure)
    requires Classifies(scope, key) && p !in rest && key(row) in keys
    requires Total(ByKey(rest, keys, scope, m)) == Sum(rest, All, m)
    ensures Total(ByKey(rest[p := row], keys, scope, m)) == Sum(rest[p := row], All, m)
  {
    var before := ByKey(rest, keys, scope, m);
    ClassesStep(rest, p, row, keys, scope, key, m);
    var v := Sum(rest[p := row], scope(key(row)), m);
    TotalUpdate(before, key(row), v);
    ClassStep(rest, p, row, key(row), scope, key, m);
    SumWrite(rest, p, row, All, m);
  }

  lemma {:induction false} Partition<K(!new)>(payments: map<Id, Payment>, keys: set<K>,
                                              scope: K -> Scope, key: Payment -> K, m: Measure)
    requires Classifies(scope, key)
    requires forall p :: p in payments ==> key(payments[p]) in keys
    ensures Total(ByKey(payments, keys, scope, m)) == Sum(payments, All, m)
    decreases |payments|
  {
    if payments == map[] {
      PartitionOfNothing(keys, scope, m);
    } else {
      var p :| p in payments;
      var rest := payments - {p};
      assert rest.Keys == payments.Keys - {p};
      assert payments == rest[p := payments[p]];
      Partition(rest, keys, scope, key, m);
      PartitionStep(rest, p, payments[p], keys, scope, key, m);
    }
  }

  lemma PartitionOfNothing<K(!new)>(keys: set<K>, scope: K -> Scope, m: Measure)
    ensures Total(ByKey(map[], keys, scope, m)) == Sum(map[], All, m) == 0
  {
    SumZero(map[], All);
    var column := ByKey(map[], keys, scope, m);
    forall k | k in column ensures column[k] == 0 { SumZero(map[], scope(k)); }
    TotalZero(column);
  }

  function DailyField(y: Daily, m: Measure): int {
    match m
    case Count => y.count
    case Success => y.success
    case Failure => y.failed
    case _ => y.total
  }

  function MethodField(row: MethodStats, m: Measure): int {
    match m
    case Count => row.count
    case Success => row.success
    case _ => row.total
  }

  ghost function DailyColumn(t: Tables, m: Measure): map<int, int> { map d | d in t.daily :: DailyField(t.daily[d], m) }

  ghost function MethodColumn(t: Tables, m: Measure): map<string, int> {
    map v | v in t.methods :: MethodField(t.methods[v], m)
  }

  function DayOf(r: Payment): int { DateOf(r.createdAt) }
  function ViaOf(r: Payment): string { r.via }
  function DayScope(d: int): Scope { OnDate(d) }
  function ViaScope(v: string): Scope { ByMethod(v) }

  lemma DailyCell(y: Daily, payments: map<Id, Payment>, d: int, m: Measure)
    requires DayAgrees(y, payments, d) && m in {Amount, Count, Success, Failure}
    ensures DailyField(y, m) == Sum(payments, DayScope(d), m)
  {
  }

  lemma DailyColumnIs(t: Tables, c: Core, m: Measure)
    requires DailyAgrees(t.daily, c.payments) && m in {Amount, Count, Success, Failure}
    ensures DailyColumn(t, m) == ByKey(c.payments, t.daily.Keys, DayScope, m)
  {
    forall d | d in t.daily ensures DailyField(t.daily[d], m) == Sum(c.payments, DayScope(d), m) {
      DailyCell(t.daily[d], c.payments, d, m);
    }
  }

  lemma DailyAddsUp(t: Tables, c: Core, m: Measure)
    requires DailyAgrees(t.daily, c.payments) && m in {Amount, Count, Success, Failure}
    ensures Total(DailyColumn(t, m)) == Sum(c.payments, All, m)
  {
    forall p | p in c.payments ensures DayOf(c.payments[p]) in t.daily.Keys {
      assert InScope(OnDate(DayOf(c.payments[p])), c.payments[p]);
    }
    Partition(c.payments, t.daily.Keys, DayScope, DayOf, m);
    DailyColumnIs(t, c, m);
  }

  lemma MethodCell(row: MethodStats, payments: map<Id, Payment>, v: string, m: Measure)
    requires MethodAgrees(row, payments, v) && m in {Amount, Count, Success}
    ensures MethodField(row, m) == Sum(payments, ViaScope(v), m)
  {
  }

  lemma MethodCells(methods: map<string, MethodStats>, payments: map<Id, Payment>, m: Measure)
    requires MethodsAgree(methods, payments) && m in {Amount, Count, Success}
    ensures forall v :: v in methods ==> MethodField(methods[v], m) == Sum(payments, ViaScope(v), m)
  {
    forall v | v in methods ensures MethodField(methods[v], m) == Sum(payments, ViaScope(v), m) {
      MethodCell(methods[v], payments, v, m);
    }
  }

  lemma MethodColumnIs(t: Tables, payments: map<Id, Payment>, m: Measure)
    requires forall v :: v in t.methods ==> MethodField(t.methods[v], m) == Sum(payments, ViaScope(v), m)
    ensures MethodColumn(t, m) == ByKey(payments, t.methods.Keys, ViaScope, m)
  {
  }

  lemma MethodsAddUp(t: Tables, c: Core, m: Measure)
    requires MethodsAgree(t.methods, c.payments) && m in {Amount, Count, Success}
    ensures Total(MethodColumn(t, m)) == Sum(c.payments, All, m)
  {
    forall p | p in c.payments ensures ViaOf(c.payments[p]) in t.methods.Keys {
      assert InScope(ByMethod(ViaOf(c.payments[p])), c.payments[p]);
    }
    Partition(c.payments, t.methods.Keys, ViaScope, ViaOf, m);
    MethodCells(t.methods, c.payments, m);
    MethodColumnIs(t, c.payments, m);
  }

  /** In every reachable read state the summary over payments and the sums of the daily and the
      per-method tables are the same numbers. */
  lemma {:induction false} QueryPathsAgree(profile: Profile, eventId: Id, now: Time, history: seq<Tx>)
    ensures var s := Replayed(Run(Genesis(profile, eventId, now), history).outbox);
      s.tables.Some? &&
      var t := s.tables.value;
      var summary := GetSummary(t);
      && summary.revenue == Total(DailyColumn(t, Amount)) == Total(MethodColumn(t, Amount))
      && summary.payments == Total(DailyColumn(t, Count)) == Total(MethodColumn(t, Count))
      && summary.success == Total(DailyColumn(t, Success)) == Total(MethodColumn(t, Success))
      && summary.failed == Total(DailyColumn(t, Failure))
  {
    ReplayInStep(profile, eventId, now, history);
    var c := Run(Genesis(profile, eventId, now), history);
    var t := Replayed(c.outbox).tables.value;
    SummaryIsSum(t, c);
    DailyAddsUp(t, c, Amount);
    DailyAddsUp(t, c, Count);
    DailyAddsUp(t, c, Success);
    DailyAddsUp(t, c, Failure);
    MethodsAddUp(t, c, Amount);
    MethodsAddUp(t, c, Count);
    MethodsAddUp(t, c, Success);
  }

  // ---------- Rows ----------

  /** The copied columns are what a join would give; read payments never show a refund. */
  lemma {:induction false} DenormalisedIsJoin(profile: Profile, eventId: Id, now: Time, history: seq<Tx>)
    ensures var s := Replayed(Run(Genesis(profile, eventId, now), history).outbox);
      s.tables.Some? &&
      var t := s.tables.value;
      && (forall p :: p in t.payments ==>
            var r := t.payments[p];
            r.customerId in t.customers && r.customerName == Some(t.customers[r.customerId].name)
              && r.customerEmail == t.customers[r.customerId].email && r.amountRefunded == 0)
      && (forall r :: r in t.refunds ==>
            var refund := t.refunds[r];
            refund.paymentId in t.payments && refund.customerName == t.payments[refund.paymentId].customerName
              && refund.paymentAmount == Some(t.payments[refund.paymentId].amount))
  {
    ReplayInStep(profile, eventId, now, history);
    GenesisIsGood(profile, eventId, now);
    ReachableIsGood(Genesis(profile, eventId, now), history);
    var c := Run(Genesis(profile, eventId, now), history);
    JoinsHold(Replayed(c.outbox).tables.value, c);
  }

  lemma JoinsHold(t: Tables, c: Core)
    requires RowsSane(c) && Agrees(t, c)
    ensures forall p :: p in t.payments ==>
      var r := t.payments[p];
      r.customerId in t.customers && r.customerName == Some(t.customers[r.customerId].name)
        && r.customerEmail == t.customers[r.customerId].email && r.amountRefunded == 0
    ensures forall r :: r in t.refunds ==>
      var refund := t.refunds[r];
      refund.paymentId in t.payments && refund.customerName == t.payments[refund.paymentId].customerName
        && refund.paymentAmount == Some(t.payments[refund.paymentId].amount)
  {
  }

  /** Rates are percentages that never understate; daily rows balance; spending is never negative. */
  lemma {:induction false} AggregatesAreSane(profile: Profile, eventId: Id, now: Time, history: seq<Tx>)
    ensures var s := Replayed(Run(Genesis(profile, eventId, now), history).outbox);
      s.tables.Some? &&
      var t := s.tables.value;
      && (forall v :: v in t.methods ==>
            0 <= Rate(t.methods[v].success, t.methods[v].count) <= t.methods[v].rate <= 10_000)
      && (forall d :: d in t.daily ==>
            t.daily[d].net == t.daily[d].total - t.daily[d].refund && DayCounts(t.daily[d]))
      && Total(DailyRefunds(t.daily)) <= Total(RefundAmounts(t.refunds))
      && (forall i :: i in t.customers ==> 0 <= t.customers[i].totalSpent <= MAX_CENTS)
      && Fits(t)
  {
    ReplayInStep(profile, eventId, now, history);
    GenesisIsGood(profile, eventId, now);
    ReachableIsGood(Genesis(profile, eventId, now), history);
    var c := Run(Genesis(profile, eventId, now), history);
    var t := Replayed(c.outbox).tables.value;
    MethodCountsSane(t.methods, c.payments);
    forall v | v in t.methods
      ensures 0 <= Rate(t.methods[v].success, t.methods[v].count) <= t.methods[v].rate <= 10_000
    {
      RateInRange(t.methods[v].success, t.methods[v].count);
      assert RateSane(t.methods[v]);
    }
    DayCountsSane(t.daily, c.payments);
    CustomersFit(t, c);
    TablesFit(t, c);
  }
}
