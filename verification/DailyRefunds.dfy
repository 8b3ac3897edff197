/** The daily refund column, exactly, when events carry strictly increasing times. */
module DailyRefunds {
  import opened Domain
  import opened Sums
  import opened Aggregates
  import opened CoreTables
  import opened CoreInvariants
  import opened ReadTables
  import opened Projection
  import opened Replay

  /** A refund lands in its own day's row only if that day already had a payment. */
  ghost predicate Lands(payments: map<Id, Payment>, refund: Refund) {
    exists p :: p in payments && DateOf(payments[p].createdAt) == DateOf(refund.createdAt)
      && payments[p].createdAt < refund.createdAt
  }

  ghost function LandedColumn(c: Core, d: int): map<Id, int> {
    map r | r in c.refunds ::
      if DateOf(c.refunds[r].createdAt) == d && Lands(c.payments, c.refunds[r]) then c.refunds[r].amount else 0
  }

  /** The refunds that landed on a day, recomputed from the core tables. */
  ghost function LandedOn(c: Core, d: int): int {
    Total(LandedColumn(c, d))
  }

  ghost predicate RefundsExact(daily: map<int, Daily>, c: Core) {
    forall d :: d in daily ==> daily[d].refund == LandedOn(c, d)
  }

  /** Everything in the tables is older than `now`. */
  ghost predicate Before(c: Core, now: Time) {
    && (forall p :: p in c.payments ==> c.payments[p].createdAt < now)
    && (forall r :: r in c.refunds ==> c.refunds[r].createdAt < now)
  }

  lemma LandedUnmoved(c: Core, d: Core)
    requires d.refunds.Keys == c.refunds.Keys
    requires forall r :: r in c.refunds ==>
      d.refunds[r].createdAt == c.refunds[r].createdAt && d.refunds[r].amount == c.refunds[r].amount
    requires forall r :: r in c.refunds ==> (Lands(d.payments, d.refunds[r]) <==> Lands(c.payments, c.refunds[r]))
    ensures forall day :: LandedOn(d, day) == LandedOn(c, day)
  {
    forall day ensures LandedOn(d, day) == LandedOn(c, day) {
      assert LandedColumn(d, day) == LandedColumn(c, day);
    }
  }

  /** A later payment makes no earlier refund land. */
  lemma LaterPaymentChangesNothing(payments: map<Id, Payment>, p: Id, row: Payment, refund: Refund)
    requires p in payments ==> row.createdAt == payments[p].createdAt
    requires p !in payments ==> refund.createdAt < row.createdAt
    ensures Lands(payments[p := row], refund) <==> Lands(payments, refund)
  {
    var after := payments[p := row];
    if Lands(payments, refund) {
      var q :| q in payments && DateOf(payments[q].createdAt) == DateOf(refund.createdAt)
        && payments[q].createdAt < refund.createdAt;
      assert q in after && after[q].createdAt == payments[q].createdAt;
    }
    if Lands(after, refund) {
      var q :| q in after && DateOf(after[q].createdAt) == DateOf(refund.createdAt)
        && after[q].createdAt < refund.createdAt;
      assert q in payments && after[q].createdAt == payments[q].createdAt;
    }
  }

  lemma PaymentWriteKeeps(c: Core, d: Core, p: Id, now: Time)
    requires Before(c, now) && p in d.payments && d.payments == c.payments[p := d.payments[p]] && d.refunds == c.refunds
    requires if p in c.payments then d.payments[p].createdAt == c.payments[p].createdAt else d.payments[p].createdAt == now
    ensures forall day :: LandedOn(d, day) == LandedOn(c, day)
  {
    forall r | r in c.refunds ensures Lands(d.payments, d.refunds[r]) <==> Lands(c.payments, c.refunds[r]) {
      LaterPaymentChangesNothing(c.payments, p, d.payments[p], c.refunds[r]);
    }
    LandedUnmoved(c, d);
  }

  /** Before a day's first payment, nothing can have landed on it. */
  lemma NothingLandedYet(c: Core, day: int)
    requires !Inhabited(c.payments, OnDate(day))
    ensures LandedOn(c, day) == 0
  {
    forall p | p in c.payments ensures !InScope(OnDate(day), c.payments[p]) {}
    TotalZero(LandedColumn(c, day));
  }

  ghost function LandingWeight(payments: map<Id, Payment>, refund: Refund, day: int): int {
    if DateOf(refund.createdAt) == day && Lands(payments, refund) then refund.amount else 0
  }

  lemma NewRefundLands(c: Core, d: Core, r: Id)
    requires r !in c.refunds && r in d.refunds && d.refunds == c.refunds[r := d.refunds[r]]
    requires forall x :: Lands(d.payments, x) <==> Lands(c.payments, x)
    ensures forall day :: LandedOn(d, day) == LandedOn(c, day) + LandingWeight(c.payments, d.refunds[r], day)
  {
    forall day ensures LandedOn(d, day) == LandedOn(c, day) + LandingWeight(c.payments, d.refunds[r], day) {
      var w := LandingWeight(c.payments, d.refunds[r], day);
      assert LandedColumn(d, day) == LandedColumn(c, day)[r := w];
      TotalUpdate(LandedColumn(c, day), r, w);
    }
  }

  lemma SameTimesLand(payments: map<Id, Payment>, p: Id, row: Payment)
    requires p in payments && row.createdAt == payments[p].createdAt
    ensures forall x :: Lands(payments[p := row], x) <==> Lands(payments, x)
  {
    forall x ensures Lands(payments[p := row], x) <==> Lands(payments, x) {
      LaterPaymentChangesNothing(payments, p, row, x);
    }
  }

  /** When everything is older, a refund made now lands exactly if its day is inhabited. */
  lemma LandsIfInhabited(c: Core, refund: Refund)
    requires Before(c, refund.createdAt)
    ensures Lands(c.payments, refund) <==> Inhabited(c.payments, OnDate(DateOf(refund.createdAt)))
  {
    if Inhabited(c.payments, OnDate(DateOf(refund.createdAt))) {
      var p :| p in c.payments && InScope(OnDate(DateOf(refund.createdAt)), c.payments[p]);
      assert c.payments[p].createdAt < refund.createdAt;
    }
  }

  // ---------- One event at a time ----------

  /** A payment event changes no refund cell; a row it adds starts at zero. */
  lemma RefundCells(t: Tables, e: Event, d: int)
    requires e.PaymentEvent? && d in Apply(t, e).daily
    ensures Apply(t, e).daily[d].refund == if d in t.daily then t.daily[d].refund else 0
  {
  }

  lemma ExactAfterPayment(t: Tables, c: Core, d: Core, p: Id, now: Time, e: Event)
    requires DailyAgrees(t.daily, c.payments) && RefundsExact(t.daily, c) && Before(c, now)
    requires p in d.payments && d.payments == c.payments[p := d.payments[p]] && d.refunds == c.refunds
    requires if p in c.payments then d.payments[p].createdAt == c.payments[p].createdAt else d.payments[p].createdAt == now
    requires e.PaymentEvent? && e.payment == d.payments[p]
    ensures RefundsExact(Apply(t, e).daily, d)
  {
    PaymentWriteKeeps(c, d, p, now);
    var after := Apply(t, e).daily;
    forall day | day in after ensures after[day].refund == LandedOn(d, day) {
      RefundCells(t, e, day);
      if day in t.daily {
        assert t.daily[day].refund == LandedOn(c, day);
      } else {
        NothingLandedYet(c, day);
      }
    }
  }

  lemma ExactAfterRefund(t: Tables, c: Core, d: Core, r: Id, p: Id, now: Time)
    requires DailyAgrees(t.daily, c.payments) && RefundsExact(t.daily, c) && Before(c, now)
    requires p in c.payments && p in d.payments && d.payments == c.payments[p := d.payments[p]]
    requires d.payments[p].createdAt == c.payments[p].createdAt
    requires r !in c.refunds && r in d.refunds && d.refunds == c.refunds[r := d.refunds[r]] && d.refunds[r].createdAt == now
    ensures RefundsExact(DailyRefunded(t.daily, d.refunds[r]), d)
  {
    SameTimesLand(c.payments, p, d.payments[p]);
    NewRefundLands(c, d, r);
    LandsIfInhabited(c, d.refunds[r]);
  }

  lemma ExactAfterQuiet(t: Tables, c: Core, d: Core)
    requires RefundsExact(t.daily, c) && d.payments == c.payments && d.refunds.Keys == c.refunds.Keys
    requires forall r :: r in c.refunds ==>
      d.refunds[r].createdAt == c.refunds[r].createdAt && d.refunds[r].amount == c.refunds[r].amount
    ensures RefundsExact(t.daily, d)
  {
    forall r | r in c.refunds ensures Lands(d.payments, d.refunds[r]) <==> Lands(c.payments, c.refunds[r]) {}
    LandedUnmoved(c, d);
  }

  /** The creation times that a transaction leaves. */
  lemma PaymentTimes(c: Core, command: Command, now: Time, d: Core, e: Event)
    requires RowsSane(c) && EffectOf(c, command, now) == Does(d, e)
    requires command.CreatePayment? || command.TransitionPayment? || command.UpdatePayment?
    ensures var p := command.paymentId;
      && WritesPayment(c, d, e, p)
      && d.payments[p].createdAt == if p in c.payments then c.payments[p].createdAt else now
  {
  }

  lemma RefundTimes(c: Core, command: Command, now: Time, d: Core, e: Event)
    requires RowsSane(c) && EffectOf(c, command, now) == Does(d, e) && command.CreateRefund?
    ensures var p, r := command.paymentId, command.refundId;
      && IssuesRefund(c, d, e, p, r)
      && d.payments[p].createdAt == c.payments[p].createdAt && d.refunds[r].createdAt == now
  {
  }

  /** Nothing that the refund column looks at. */
  ghost predicate QuietChange(c: Core, d: Core) {
    && d.payments == c.payments && d.refunds.Keys == c.refunds.Keys
    && forall r :: r in c.refunds ==>
         d.refunds[r].createdAt == c.refunds[r].createdAt && d.refunds[r].amount == c.refunds[r].amount
  }

  lemma QuietTimes(t: Tables, c: Core, command: Command, now: Time, d: Core, e: Event)
    requires EffectOf(c, command, now) == Does(d, e)
    requires !command.CreatePayment? && !command.TransitionPayment? && !command.UpdatePayment? && !command.CreateRefund?
    ensures QuietChange(c, d) && Apply(t, e).daily == t.daily
  {
  }

  lemma ExactKept(t: Tables, c: Core, command: Command, now: Time, d: Core, e: Event)
    requires RowsSane(c) && DailyAgrees(t.daily, c.payments) && RefundsExact(t.daily, c) && Before(c, now)
    requires EffectOf(c, command, now) == Does(d, e)
    ensures RefundsExact(Apply(t, e).daily, d)
  {
    if command.CreatePayment? || command.TransitionPayment? || command.UpdatePayment? {
      PaymentTimes(c, command, now, d, e);
      ExactAfterPayment(t, c, d, command.paymentId, now, e);
    } else if command.CreateRefund? {
      RefundTimes(c, command, now, d, e);
      ApplyIssuing(t, command.refundId, d.refunds[command.refundId], d.payments[command.paymentId].customerId);
      ExactAfterRefund(t, c, d, command.refundId, command.paymentId, now);
    } else {
      QuietTimes(t, c, command, now, d, e);
      ExactAfterQuiet(t, c, d);
    }
  }

  lemma BeforeKept(c: Core, command: Command, now: Time, later: Time)
    requires Before(c, now) && now < later && EffectOf(c, command, now).Does?
    ensures Before(EffectOf(c, command, now).core, later)
  {
  }

  lemma BeforeLater(c: Core, now: Time, later: Time)
    requires Before(c, now) && now <= later
    ensures Before(c, later)
  {
  }

  lemma {:induction false} ExactHandled(s: ReadSide, c: Core, tx: Tx, d: Core, e: Event, later: Time)
    requires Good(c) && InStep(s, c) && RefundsExact(s.tables.value.daily, c)
    requires Before(c, tx.now) && tx.now < later && Execute(c, tx) == Ok(d)
    requires |d.outbox| == |c.outbox| + 1 && e == d.outbox[|c.outbox|].event
    ensures ExactSide(Handle(s, e), d, later)
  {
    var d0, e0 := CommitEvent(c, tx, d);
    HandleInStep(s, c, tx, d);
    ExactKept(s.tables.value, c, tx.command, tx.now, d0, e);
    BeforeKept(c, tx.command, tx.now, later);
    ExactAfterQuiet(Apply(s.tables.value, e), d0, d);
    HandledTables(s, e);
  }

  lemma HandledTables(s: ReadSide, e: Event)
    requires s.tables.Some? && Sync(Provision(s, e), e).Some? && !e.MerchantCreated?
    ensures Handle(s, e).tables == Some(Apply(s.tables.value, e))
  {
  }

  /** Everything in the write tables is older than `later`, and the read side's refund column is exact. */
  ghost predicate ExactSide(s: ReadSide, c: Core, later: Time) {
    Before(c, later) && s.tables.Some? && RefundsExact(s.tables.value.daily, c)
  }

  lemma {:induction false} ExactStep(profile: Profile, eventId: Id, now: Time, before: seq<Tx>, tx: Tx, later: Time, c: Core, d: Core)
    requires c == Run(Genesis(profile, eventId, now), before) && Execute(c, tx) == Ok(d)
    requires ExactSide(Replayed(c.outbox), c, tx.now) && tx.now < later
    ensures ExactSide(Replayed(d.outbox), d, later)
  {
    ReplayInStep(profile, eventId, now, before);
    GenesisIsGood(profile, eventId, now);
    ReachableIsGood(Genesis(profile, eventId, now), before);
    OneEventEach(c, tx, d);
    ExactHandled(Replayed(c.outbox), c, tx, d, d.outbox[|c.outbox|].event, later);
  }

  lemma {:induction false} EveryHistoryExact(profile: Profile, eventId: Id, now: Time, history: seq<Tx>, later: Time)
    requires Increasing(now, history)
    requires now < later && forall i :: 0 <= i < |history| ==> history[i].now < later
    ensures var c := Run(Genesis(profile, eventId, now), history); ExactSide(Replayed(c.outbox), c, later)
  {
    var start := Genesis(profile, eventId, now);
    if history == [] {
      ReplayInStep(profile, eventId, now, history);
    } else {
      var before, tx := history[..|history| - 1], history[|history| - 1];
      var c := Run(start, before);
      EveryHistoryExact(profile, eventId, now, before, tx.now);
      BeforeLater(c, tx.now, later);
      if Execute(c, tx).Ok? { ExactStep(profile, eventId, now, before, tx, later, c, Execute(c, tx).core); }
    }
  }

  /** With strictly increasing times, after any history every day's refund column is exactly the sum of
      the refunds made on that day after the day's first payment, and net is total less that. */
  lemma {:induction false} DailyRefundsExact(profile: Profile, eventId: Id, now: Time, history: seq<Tx>, later: Time)
    requires Increasing(now, history)
    requires now < later && forall i :: 0 <= i < |history| ==> history[i].now < later
    ensures var c := Run(Genesis(profile, eventId, now), history);
      var s := Replayed(c.outbox);
      && Before(c, later) && s.tables.Some?
      && forall d :: d in s.tables.value.daily ==>
           var y := s.tables.value.daily[d];
           y.refund == LandedOn(c, d) && y.net == Sum(c.payments, OnDate(d), Amount) - LandedOn(c, d)
  {
    EveryHistoryExact(profile, eventId, now, history, later);
    ReplayInStep(profile, eventId, now, history);
    var c := Run(Genesis(profile, eventId, now), history);
    NetExact(Replayed(c.outbox).tables.value.daily, c);
  }

  lemma NetExact(daily: map<int, Daily>, c: Core)
    requires RefundsExact(daily, c) && DailySane(daily) && DailyAgrees(daily, c.payments)
    ensures forall d :: d in daily ==>
      daily[d].refund == LandedOn(c, d) && daily[d].net == Sum(c.payments, OnDate(d), Amount) - LandedOn(c, d)
  {
    forall d | d in daily
      ensures daily[d].refund == LandedOn(c, d) && daily[d].net == Sum(c.payments, OnDate(d), Amount) - LandedOn(c, d)
    {
      assert DayAgrees(daily[d], c.payments, d);
    }
  }
}
