/** The whole pipeline of one merchant, as a state machine: commits, polls whose sends may raise and that may
    crash, and a consumer that may crash, restart and be handed messages again. */
module Pipeline {
  import opened Domain
  import opened CoreTables
  import opened CoreInvariants
  import opened ReadTables
  import opened Replay
  import opened SyncConsumer
  import opened Staging

  /** A claimed event and what became of it. */
  datatype Handled = Handled(record: Record, fate: Fate)

  /** `published`: how many outbox rows are marked. `log`: this merchant's messages on its partition.
      `position`, `committed`: the consumer's offsets. `reach` and `handled` record the past: the furthest
      offset ever processed, and every claim with its fate. */
  datatype Lane = Lane(core: Core, history: seq<Tx>, published: nat, log: seq<Record>,
                       position: nat, committed: nat, reach: nat, consumer: Consumer, handled: seq<Handled>)

  datatype Step =
    | Commit(tx: Tx)
    /** Tries to send the next pending rows, of which some are accepted; then either commits the marks or
        dies before that. */
    | Poll(accepted: seq<bool>, marked: bool)
    /** Takes the message at the position; `ack` is whether its offset gets committed. */
    | Consume(env: Env, ack: bool)
    /** A later acknowledgement on the partition covers what was read so far. */
    | Acknowledge
    /** A restart, a rebalance or an offset reset: reading goes on from an earlier offset. */
    | Rewind(to: nat)

  function Records(handled: seq<Handled>): seq<Record> {
    seq(|handled|, i requires 0 <= i < |handled| => handled[i].record)
  }

  function Start(profile: Profile, eventId: Id, now: Time): Lane {
    Lane(Genesis(profile, eventId, now), [], 0, [], 0, 0, 0, Consumer(NOTHING, {}, map[]), [])
  }

  predicate Enabled(l: Lane, s: Step) {
    match s
    case Commit(_) => true
    case Poll(accepted, _) => l.published + |accepted| <= |l.core.outbox|
    case Consume(_, _) => l.position < |l.log|
    case Acknowledge => true
    case Rewind(to) => to <= l.committed
  }

  function Max(a: nat, b: nat): nat { if a < b then b else a }

  function ConsumeNext(l: Lane, env: Env, ack: bool): Lane
    requires l.position < |l.log|
  {
    var r := l.log[l.position];
    if env.CrashBeforeClaim? then l.(position := l.committed)
    else
      var isNew := r.id !in l.consumer.claims;
      var crashed := isNew && env.CrashInClaim?;
      l.(consumer := Process(l.consumer, Valid(r), env),
         handled := if isNew then l.handled + [Handled(r, FateOf(l.consumer.side, r.event, env))] else l.handled,
         position := if crashed then l.committed else l.position + 1,
         committed := if !crashed && ack then l.position + 1 else l.committed,
         reach := Max(l.reach, l.position + 1))
  }

  function PollNext(l: Lane, accepted: seq<bool>, marked: bool): Lane
    requires l.published + |accepted| <= |l.core.outbox|
  {
    l.(log := l.log + SentOf(l.core.outbox, l.published, accepted),
       published := if marked then l.published + |accepted| else l.published)
  }

  function Next(l: Lane, s: Step): Lane {
    if !Enabled(l, s) then l
    else match s
      case Commit(tx) => l.(core := After(l.core, Execute(l.core, tx)), history := l.history + [tx])
      case Poll(accepted, marked) => PollNext(l, accepted, marked)
      case Consume(env, ack) => ConsumeNext(l, env, ack)
      case Acknowledge => l.(committed := l.position)
      case Rewind(to) => l.(position := to)
  }

  function RunLane(l: Lane, steps: seq<Step>): Lane {
    if steps == [] then l else Next(RunLane(l, steps[..|steps| - 1]), steps[|steps| - 1])
  }

  // ---------- What every run keeps ----------

  /** The read side that the recorded fates leave. */
  function SettledAll(handled: seq<Handled>): ReadSide {
    if handled == [] then NOTHING
    else
      var last := handled[|handled| - 1];
      Settle(SettledAll(handled[..|handled| - 1]), last.record.event, last.fate)
  }

  function DeadIds(handled: seq<Handled>): set<Id> {
    set i | 0 <= i < |handled| && WasDeadLettered(handled[i].fate) :: handled[i].record.id
  }

  /** Offsets: everything behind `reach` has been processed, and nothing else. */
  predicate OffsetsSane(l: Lane) {
    l.position <= l.reach && l.committed <= l.reach <= |l.log|
  }

  /** All messages come from the outbox. */
  ghost predicate LogSane(log: seq<Record>, outbox: seq<Record>, published: nat) {
    UniqueIds(outbox) && published <= |outbox| && forall i :: 0 <= i < |log| ==> log[i] in outbox
  }

  /** The claims are the handled events, each handled once. */
  ghost predicate HandledSane(handled: seq<Handled>, claims: set<Id>, outbox: seq<Record>) {
    && claims == Ids(Records(handled)) && UniqueIds(Records(handled))
    && forall i :: 0 <= i < |handled| ==> handled[i].record in outbox
  }

  predicate FatesSane(handled: seq<Handled>, c: Consumer) {
    c.side == SettledAll(handled) && c.dead.Keys == DeadIds(handled)
  }

  ghost predicate LaneSane(l: Lane) {
    && OffsetsSane(l) && LogSane(l.log, l.core.outbox, l.published)
    && HandledSane(l.handled, l.consumer.claims, l.core.outbox) && FatesSane(l.handled, l.consumer)
  }

  /** The messages are in outbox order, and so what was handled is exactly the outbox prefix seen so far. */
  predicate InOrder(l: Lane)
    requires l.reach <= |l.log|
  {
    Staged(l.log, l.core.outbox) && SeenUpTo(l.log, l.core.outbox, l.reach, Records(l.handled))
  }

  predicate SeenUpTo(log: seq<Record>, outbox: seq<Record>, reach: nat, seen: seq<Record>)
    requires reach <= |log|
  {
    |seen| == High(log[..reach], outbox) && seen <= outbox
  }

  // ---------- Commits ----------

  lemma NewRecord(outbox: seq<Record>, r: Record)
    requires r.id !in Ids(outbox)
    ensures r !in outbox
  {
    forall i | 0 <= i < |outbox| ensures outbox[i].id in Ids(outbox) {}
  }

  lemma LogGrows(log: seq<Record>, outbox: seq<Record>, published: nat, r: Record)
    requires LogSane(log, outbox, published) && r.id !in Ids(outbox)
    ensures LogSane(log, outbox + [r], published)
    ensures r !in outbox && r !in log
  {
    NewRecord(outbox, r);
    UniqueExtends(outbox, r);
  }

  lemma {:induction false} CommitAppends(c: Core, tx: Tx)
    ensures var d := After(c, Execute(c, tx));
      if Execute(c, tx).Ok? then |d.outbox| == |c.outbox| + 1 && d.outbox[|c.outbox|].id !in Ids(c.outbox)
                                 && d.outbox == c.outbox + [d.outbox[|c.outbox|]]
      else d == c
  {
    if Execute(c, tx).Ok? { OneEventEach(c, tx, Execute(c, tx).core); }
  }

  lemma CommitKeeps(l: Lane, tx: Tx)
    requires LaneSane(l)
    ensures LaneSane(Next(l, Commit(tx)))
  {
    CommitAppends(l.core, tx);
    if Execute(l.core, tx).Ok? {
      var d := Execute(l.core, tx).core;
      LogGrows(l.log, l.core.outbox, l.published, d.outbox[|l.core.outbox|]);
    }
  }

  /** The order on the log does not depend on what was committed later. */
  lemma {:induction false} CommitKeepsOrder(l: Lane, tx: Tx)
    requires LaneSane(l)
    ensures var d := Next(l, Commit(tx));
      && (Staged(d.log, d.core.outbox) <==> Staged(l.log, l.core.outbox))
      && High(d.log, d.core.outbox) == High(l.log, l.core.outbox)
      && (InOrder(l) ==> InOrder(d))
  {
    CommitAppends(l.core, tx);
    if Execute(l.core, tx).Ok? {
      var d := Execute(l.core, tx).core;
      var r := d.outbox[|l.core.outbox|];
      LogGrows(l.log, l.core.outbox, l.published, r);
      GrowthKeepsStaged(l.log, l.core.outbox, r);
      assert r !in l.log[..l.reach];
      GrowthKeepsStaged(l.log[..l.reach], l.core.outbox, r);
    }
  }

  // ---------- Polls ----------

  lemma {:induction false} SentFromOutbox(outbox: seq<Record>, from: nat, accepted: seq<bool>)
    requires from + |accepted| <= |outbox|
    ensures forall i :: 0 <= i < |SentOf(outbox, from, accepted)| ==> SentOf(outbox, from, accepted)[i] in outbox
  {
    if accepted != [] { SentFromOutbox(outbox, from, accepted[..|accepted| - 1]); }
  }

  lemma {:induction false} PollKeeps(l: Lane, accepted: seq<bool>, marked: bool)
    requires LaneSane(l)
    ensures LaneSane(Next(l, Poll(accepted, marked)))
  {
    if l.published + |accepted| <= |l.core.outbox| { SentFromOutbox(l.core.outbox, l.published, accepted); }
  }

  /** A poll leaves the messages in order exactly if they were and it leaves no gap. */
  lemma {:induction false} PollStagedIff(l: Lane, accepted: seq<bool>, marked: bool)
    requires LaneSane(l) && l.published + |accepted| <= |l.core.outbox|
    ensures Staged(PollNext(l, accepted, marked).log, l.core.outbox)
       <==> Staged(l.log, l.core.outbox) && GapFree(High(l.log, l.core.outbox), l.published, accepted)
  {
    if Staged(l.log, l.core.outbox) {
      SendStagedIff(l.log, l.core.outbox, l.published, accepted);
    } else {
      NotStagedAgain(l.log, l.core.outbox, SentOf(l.core.outbox, l.published, accepted));
    }
  }

  lemma PollKeepsOrder(l: Lane, accepted: seq<bool>, marked: bool)
    requires LaneSane(l) && InOrder(l) && l.published + |accepted| <= |l.core.outbox|
    requires Staged(PollNext(l, accepted, marked).log, l.core.outbox)
    ensures InOrder(PollNext(l, accepted, marked))
  {
    assert PollNext(l, accepted, marked).log[..l.reach] == l.log[..l.reach];
  }

  // ---------- Consumption ----------

  lemma IdsExtend(records: seq<Record>, r: Record)
    ensures Ids(records + [r]) == Ids(records) + {r.id}
  {
    var more := records + [r];
    forall id | id in Ids(more) ensures id in Ids(records) + {r.id} {
      var i :| 0 <= i < |more| && more[i].id == id;
      assert i < |records| ==> records[i].id == id;
    }
    forall id | id in Ids(records) ensures id in Ids(more) {
      var i :| 0 <= i < |records| && records[i].id == id;
      assert more[i].id == id;
    }
    assert more[|records|].id == r.id;
  }

  lemma DeadIdsExtend(handled: seq<Handled>, last: Handled)
    ensures DeadIds(handled + [last]) == DeadIds(handled) + (if WasDeadLettered(last.fate) then {last.record.id} else {})
  {
    var more := handled + [last];
    forall id | id in DeadIds(handled) ensures id in DeadIds(more) {
      var i :| 0 <= i < |handled| && WasDeadLettered(handled[i].fate) && handled[i].record.id == id;
      assert more[i] == handled[i];
    }
    assert more[|handled|] == last;
  }

  /** A new claim gets the fate its environment gives it. */
  lemma {:induction false} ClaimSettles(c: Consumer, handled: seq<Handled>, r: Record, env: Env)
    requires FatesSane(handled, c) && r.id !in c.claims && !env.CrashBeforeClaim?
    ensures Process(c, Valid(r), env).claims == c.claims + {r.id}
    ensures FatesSane(handled + [Handled(r, FateOf(c.side, r.event, env))], Process(c, Valid(r), env))
  {
    var last := Handled(r, FateOf(c.side, r.event, env));
    assert (handled + [last])[..|handled|] == handled;
    DeadIdsExtend(handled, last);
  }

  lemma ClaimExtends(handled: seq<Handled>, claims: set<Id>, outbox: seq<Record>, last: Handled)
    requires HandledSane(handled, claims, outbox) && last.record.id !in claims && last.record in outbox
    ensures Records(handled + [last]) == Records(handled) + [last.record]
    ensures HandledSane(handled + [last], claims + {last.record.id}, outbox)
  {
    assert Records(handled + [last]) == Records(handled) + [last.record];
    UniqueExtends(Records(handled), last.record);
    IdsExtend(Records(handled), last.record);
  }

  lemma {:induction false} ClaimBooks(c: Consumer, handled: seq<Handled>, outbox: seq<Record>, r: Record, env: Env,
                                      more: seq<Handled>, after: Consumer)
    requires HandledSane(handled, c.claims, outbox) && FatesSane(handled, c)
    requires r.id !in c.claims && r in outbox && !env.CrashBeforeClaim?
    requires more == handled + [Handled(r, FateOf(c.side, r.event, env))] && after == Process(c, Valid(r), env)
    ensures HandledSane(more, after.claims, outbox) && FatesSane(more, after)
  {
    ClaimSettles(c, handled, r, env);
    ClaimExtends(handled, c.claims, outbox, more[|handled|]);
  }

  lemma ConsumeKeepsOffsets(l: Lane, env: Env, ack: bool)
    requires OffsetsSane(l) && l.position < |l.log|
    ensures OffsetsSane(ConsumeNext(l, env, ack))
  {
  }

  lemma DuplicateKeeps(l: Lane, env: Env, ack: bool)
    requires LaneSane(l) && l.position < |l.log|
    requires env.CrashBeforeClaim? || l.log[l.position].id in l.consumer.claims
    ensures LaneSane(ConsumeNext(l, env, ack))
  {
    ConsumeKeepsOffsets(l, env, ack);
    assert Process(l.consumer, Valid(l.log[l.position]), env) == l.consumer;
  }

  lemma ClaimKeeps(l: Lane, env: Env, ack: bool)
    requires LaneSane(l) && l.position < |l.log|
    requires !env.CrashBeforeClaim? && l.log[l.position].id !in l.consumer.claims
    ensures LaneSane(ConsumeNext(l, env, ack))
  {
    ConsumeKeepsOffsets(l, env, ack);
    var r, after := l.log[l.position], ConsumeNext(l, env, ack);
    ClaimBooks(l.consumer, l.handled, l.core.outbox, r, env, after.handled, after.consumer);
  }

  lemma ConsumeKeeps(l: Lane, env: Env, ack: bool)
    requires LaneSane(l) && l.position < |l.log|
    ensures LaneSane(ConsumeNext(l, env, ack))
  {
    if env.CrashBeforeClaim? || l.log[l.position].id in l.consumer.claims {
      DuplicateKeeps(l, env, ack);
    } else {
      ClaimKeeps(l, env, ack);
    }
  }

  lemma ClaimsArePrefix(l: Lane)
    requires LaneSane(l) && InOrder(l)
    ensures l.consumer.claims == Ids(l.core.outbox[..|l.handled|])
  {
    assert Records(l.handled) == l.core.outbox[..|l.handled|];
  }

  /** In order, a message that is not claimed yet is the first record of the outbox not handled. */
  lemma {:induction false} ClaimIsNext(l: Lane)
    requires LaneSane(l) && InOrder(l) && l.position < |l.log| && l.log[l.position].id !in l.consumer.claims
    ensures var h := |l.handled|;
      && l.position == l.reach && h < |l.core.outbox| && l.log[l.position] == l.core.outbox[h]
      && High(l.log[..l.reach + 1], l.core.outbox) == h + 1
  {
    ClaimsArePrefix(l);
    HandledIsHigh(l);
    UnseenIsNext(l.log, l.core.outbox, l.reach, l.position, |l.handled|);
  }

  lemma HandledIsHigh(l: Lane)
    requires LaneSane(l) && InOrder(l)
    ensures |l.handled| == High(l.log[..l.reach], l.core.outbox) <= |l.core.outbox|
  {
    assert |Records(l.handled)| == |l.handled|;
  }

  /** A duplicate at the furthest offset adds nothing; */
  lemma {:induction false} SeenAgain(log: seq<Record>, outbox: seq<Record>, reach: nat, seen: seq<Record>)
    requires Staged(log, outbox) && UniqueIds(outbox) && reach < |log| && SeenUpTo(log, outbox, reach, seen)
    requires log[reach].id in Ids(seen)
    ensures SeenUpTo(log, outbox, reach + 1, seen)
  {
    assert seen == outbox[..|seen|];
    AtReach(log, outbox, reach);
  }

  /** a new event there is the next one. */
  lemma {:induction false} SeenNext(log: seq<Record>, outbox: seq<Record>, reach: nat, seen: seq<Record>)
    requires Staged(log, outbox) && UniqueIds(outbox) && reach < |log| && SeenUpTo(log, outbox, reach, seen)
    requires log[reach].id !in Ids(seen)
    ensures SeenUpTo(log, outbox, reach + 1, seen + [log[reach]])
  {
    assert seen == outbox[..|seen|];
    AtReach(log, outbox, reach);
  }

  lemma ConsumeReach(l: Lane, env: Env, ack: bool)
    requires OffsetsSane(l) && l.position < |l.log|
    ensures var after := ConsumeNext(l, env, ack);
      && after.log == l.log && after.core == l.core && after.reach <= |after.log|
      && after.reach == if !env.CrashBeforeClaim? && l.position == l.reach then l.reach + 1 else l.reach
  {
  }

  lemma {:induction false} DuplicateKeepsOrder(l: Lane, env: Env, ack: bool)
    requires LaneSane(l) && InOrder(l) && l.position < |l.log|
    requires env.CrashBeforeClaim? || l.log[l.position].id in l.consumer.claims
    ensures OffsetsSane(ConsumeNext(l, env, ack))
    ensures InOrder(ConsumeNext(l, env, ack))
  {
    ConsumeKeepsOffsets(l, env, ack);
    ConsumeReach(l, env, ack);
    if !env.CrashBeforeClaim? && l.position == l.reach {
      SeenAgain(l.log, l.core.outbox, l.reach, Records(l.handled));
    }
  }

  lemma {:induction false} ClaimKeepsOrder(l: Lane, env: Env, ack: bool)
    requires LaneSane(l) && InOrder(l) && l.position < |l.log|
    requires !env.CrashBeforeClaim? && l.log[l.position].id !in l.consumer.claims
    ensures OffsetsSane(ConsumeNext(l, env, ack))
    ensures InOrder(ConsumeNext(l, env, ack))
  {
    ConsumeKeepsOffsets(l, env, ack);
    ConsumeReach(l, env, ack);
    ClaimIsNext(l);
    SeenNext(l.log, l.core.outbox, l.reach, Records(l.handled));
    var r := l.log[l.position];
    ClaimExtends(l.handled, l.consumer.claims, l.core.outbox, Handled(r, FateOf(l.consumer.side, r.event, env)));
  }

  // ---------- Whole runs ----------

  lemma StepKeeps(l: Lane, s: Step)
    requires LaneSane(l)
    ensures LaneSane(Next(l, s))
  {
    match s
    case Commit(tx) => CommitKeeps(l, tx);
    case Poll(accepted, marked) => PollKeeps(l, accepted, marked);
    case Consume(env, ack) => if l.position < |l.log| { ConsumeKeeps(l, env, ack); }
    case Acknowledge =>
    case Rewind(_) =>
  }

  /** A poll that leaves no accepted message behind a new one that was not accepted. */
  predicate Orderly(l: Lane, s: Step) {
    s.Poll? && Enabled(l, s) ==> GapFree(High(l.log, l.core.outbox), l.published, s.accepted)
  }

  /** One step leaves the messages in order exactly if they were and the step is orderly. */
  lemma {:induction false} StepStagedIff(l: Lane, s: Step)
    requires LaneSane(l)
    ensures Staged(Next(l, s).log, Next(l, s).core.outbox) <==> Staged(l.log, l.core.outbox) && Orderly(l, s)
  {
    match s
    case Commit(tx) => CommitKeepsOrder(l, tx);
    case Poll(accepted, marked) =>
      if l.published + |accepted| <= |l.core.outbox| { PollStagedIff(l, accepted, marked); }
    case _ =>
  }

  lemma {:induction false} StepKeepsOrder(l: Lane, s: Step)
    requires LaneSane(l) && InOrder(l) && Orderly(l, s)
    ensures LaneSane(Next(l, s)) && InOrder(Next(l, s))
  {
    StepKeeps(l, s);
    StepStagedIff(l, s);
    match s
    case Commit(tx) => CommitKeepsOrder(l, tx);
    case Poll(accepted, marked) =>
      if l.published + |accepted| <= |l.core.outbox| { PollKeepsOrder(l, accepted, marked); }
    case Consume(env, ack) =>
      if l.position < |l.log| {
        if env.CrashBeforeClaim? || l.log[l.position].id in l.consumer.claims {
          DuplicateKeepsOrder(l, env, ack);
        } else {
          ClaimKeepsOrder(l, env, ack);
        }
      }
    case _ =>
  }

  lemma StartSane(profile: Profile, eventId: Id, now: Time)
    ensures LaneSane(Start(profile, eventId, now)) && InOrder(Start(profile, eventId, now))
  {
    assert Ids([]) == {};
  }

  lemma {:induction false} CoreFollows(l: Lane, s: Step, start: Core)
    requires l.core == Run(start, l.history)
    ensures Next(l, s).core == Run(start, Next(l, s).history)
  {
    if s.Commit? { assert (l.history + [s.tx])[..|l.history|] == l.history; }
  }

  /** Every run, whatever its faults, keeps the books; and its core is a history of transactions. */
  lemma {:induction false} RunSane(profile: Profile, eventId: Id, now: Time, steps: seq<Step>)
    ensures LaneSane(RunLane(Start(profile, eventId, now), steps))
    ensures var l := RunLane(Start(profile, eventId, now), steps); l.core == Run(Genesis(profile, eventId, now), l.history)
  {
    if steps == [] {
      StartSane(profile, eventId, now);
    } else {
      var before := steps[..|steps| - 1];
      var l, s := RunLane(Start(profile, eventId, now), before), steps[|steps| - 1];
      RunSane(profile, eventId, now, before);
      StepKeeps(l, s);
      CoreFollows(l, s, Genesis(profile, eventId, now));
    }
  }

  /** The state in which step i is taken. */
  function StateAt(start: Lane, steps: seq<Step>, i: nat): Lane
    requires i <= |steps|
  {
    RunLane(start, steps[..i])
  }

  /** Step i is taken in a state in which it may be. */
  predicate AllowedAt(start: Lane, steps: seq<Step>, i: nat, allowed: (Lane, Step) -> bool)
    requires i < |steps|
  {
    allowed(StateAt(start, steps, i), steps[i])
  }

  /** Every step is. */
  predicate AllSteps(start: Lane, steps: seq<Step>, allowed: (Lane, Step) -> bool) {
    forall i :: 0 <= i < |steps| ==> AllowedAt(start, steps, i, allowed)
  }

  lemma {:induction false} SameStates(start: Lane, steps: seq<Step>, before: seq<Step>, i: nat)
    requires before <= steps && i <= |before|
    ensures StateAt(start, steps, i) == StateAt(start, before, i)
    ensures i == |before| ==> StateAt(start, steps, i) == RunLane(start, before)
  {
    assert steps[..i] == before[..i];
    assert i == |before| ==> before[..i] == before;
  }

  lemma {:induction false} SameAllowed(start: Lane, steps: seq<Step>, before: seq<Step>, i: nat, allowed: (Lane, Step) -> bool)
    requires before <= steps && i < |before|
    ensures AllowedAt(start, steps, i, allowed) == AllowedAt(start, before, i, allowed)
  {
    SameStates(start, steps, before, i);
  }

  lemma {:induction false} LastAllowed(start: Lane, steps: seq<Step>, before: seq<Step>, allowed: (Lane, Step) -> bool)
    requires before <= steps && |steps| == |before| + 1
    ensures AllowedAt(start, steps, |before|, allowed) == allowed(RunLane(start, before), steps[|before|])
  {
    SameStates(start, steps, before, |before|);
  }

  lemma {:induction false} LastStep(start: Lane, steps: seq<Step>, allowed: (Lane, Step) -> bool)
    requires steps != []
    ensures var before := steps[..|steps| - 1];
      AllSteps(start, steps, allowed) == (AllSteps(start, before, allowed) && allowed(RunLane(start, before), steps[|steps| - 1]))
  {
    var before := steps[..|steps| - 1];
    forall i | 0 <= i < |before| ensures AllowedAt(start, steps, i, allowed) == AllowedAt(start, before, i, allowed) {
      SameAllowed(start, steps, before, i, allowed);
    }
    LastAllowed(start, steps, before, allowed);
  }

  /** First occurrences are in outbox order after a run exactly if no poll of it left a gap. */
  lemma {:induction false} OrderIff(profile: Profile, eventId: Id, now: Time, steps: seq<Step>)
    ensures var start := Start(profile, eventId, now);
      Staged(RunLane(start, steps).log, RunLane(start, steps).core.outbox) <==> AllSteps(start, steps, Orderly)
  {
    if steps != [] {
      var start, before := Start(profile, eventId, now), steps[..|steps| - 1];
      OrderIff(profile, eventId, now, before);
      LastStep(start, steps, Orderly);
      RunSane(profile, eventId, now, before);
      StepStagedIff(RunLane(start, before), steps[|steps| - 1]);
    }
  }

  lemma {:induction false} RunInOrder(profile: Profile, eventId: Id, now: Time, steps: seq<Step>)
    requires AllSteps(Start(profile, eventId, now), steps, Orderly)
    ensures LaneSane(RunLane(Start(profile, eventId, now), steps)) && InOrder(RunLane(Start(profile, eventId, now), steps))
  {
    var start := Start(profile, eventId, now);
    if steps == [] {
      StartSane(profile, eventId, now);
    } else {
      LastStep(start, steps, Orderly);
      RunInOrder(profile, eventId, now, steps[..|steps| - 1]);
      StepKeepsOrder(RunLane(start, steps[..|steps| - 1]), steps[|steps| - 1]);
    }
  }

  // ---------- Marks ----------

  /** In order, and every marked row was shown: no event is lost between outbox and log. */
  ghost predicate NothingLost(l: Lane) {
    Staged(l.log, l.core.outbox) && l.published <= High(l.log, l.core.outbox)
  }

  /** Orderly, and marks are committed only if every new record's send was accepted. */
  predicate Faithful(l: Lane, s: Step) {
    && Orderly(l, s)
    && (s.Poll? && Enabled(l, s) && s.marked ==> NewAccepted(High(l.log, l.core.outbox), l.published, s.accepted))
  }

  lemma {:induction false} PollLosesNothingIff(l: Lane, accepted: seq<bool>, marked: bool)
    requires LaneSane(l) && Enabled(l, Poll(accepted, marked))
    ensures NothingLost(PollNext(l, accepted, marked)) <==> NothingLost(l) && Faithful(l, Poll(accepted, marked))
  {
    var outbox, h := l.core.outbox, High(l.log, l.core.outbox);
    var after := PollNext(l, accepted, marked);
    PollStagedIff(l, accepted, marked);
    if Staged(after.log, outbox) {
      SendStagedIff(l.log, outbox, l.published, accepted);
      PollFront(h, l.published, accepted, High(after.log, outbox), marked);
    }
  }

  lemma PollFront(h: nat, from: nat, accepted: seq<bool>, front: nat, marked: bool)
    requires Front(h, from, accepted, front)
    ensures (if marked then from + |accepted| else from) <= front
       <==> from <= h && (marked ==> NewAccepted(h, from, accepted))
  {
    if from <= h { MarksWithinIff(h, from, accepted, front); }
  }

  lemma {:induction false} StepLosesNothingIff(l: Lane, s: Step)
    requires LaneSane(l)
    ensures NothingLost(Next(l, s)) <==> NothingLost(l) && Faithful(l, s)
  {
    match s
    case Commit(tx) => CommitKeepsOrder(l, tx);
    case Poll(accepted, marked) => if Enabled(l, s) { PollLosesNothingIff(l, accepted, marked); }
    case _ =>
  }

  /** No marked event is missing after a run exactly if every poll of it was faithful. */
  lemma {:induction false} NothingLostIff(profile: Profile, eventId: Id, now: Time, steps: seq<Step>)
    ensures var start := Start(profile, eventId, now);
      NothingLost(RunLane(start, steps)) <==> AllSteps(start, steps, Faithful)
  {
    if steps != [] {
      var start, before := Start(profile, eventId, now), steps[..|steps| - 1];
      NothingLostIff(profile, eventId, now, before);
      LastStep(start, steps, Faithful);
      RunSane(profile, eventId, now, before);
      StepLosesNothingIff(RunLane(start, before), steps[|steps| - 1]);
    }
  }

  // ---------- The consumer's loop takes these steps ----------

  /** The messages of this merchant from the committed offset on. */
  predicate Ahead(l: Lane, messages: seq<TopicMessage>) {
    l.committed + |messages| <= |l.log| && forall i :: 0 <= i < |messages| ==> messages[i] == Valid(l.log[l.committed + i])
  }

  function Reads(envs: seq<Env>): seq<Step> {
    seq(|envs|, i requires 0 <= i < |envs| => Consume(envs[i], true))
  }

  /** One more message of the loop is one more step of the lane. */
  lemma ReadIsLoop(l: Lane, env: Env, ack: bool)
    requires l.position < |l.log| && ack && l.position == l.committed
    ensures var m, after := Valid(l.log[l.position]), ConsumeNext(l, env, ack);
      && after.consumer == Process(l.consumer, m, env) && after.log == l.log && after.position == after.committed
      && after.committed == if Crashed(l.consumer, m, env) then l.committed else l.committed + 1
  {
  }

  /** The lane is where a run of the loop left it. */
  predicate LoopedTo(l: Lane, p: Progress, after: Lane) {
    after.consumer == p.consumer && after.log == l.log && after.position == after.committed == l.committed + p.committed
  }

  /** A run of the consumer's loop from the committed offset is a run of the lane: one step for each message
      that it processed. */
  lemma {:induction false} LoopIsLane(l: Lane, messages: seq<TopicMessage>, envs: seq<Env>)
    requires l.position == l.committed && Ahead(l, messages) && |envs| == |messages|
    ensures var p := Loop(l.consumer, messages, envs); LoopedTo(l, p, RunLane(l, Reads(envs[..p.processed])))
  {
    if envs != [] {
      var n := |envs| - 1;
      var q := Loop(l.consumer, messages[..n], envs[..n]);
      LoopIsLane(l, messages[..n], envs[..n]);
      if q.committed < q.processed {
        assert envs[..n][..q.processed] == envs[..q.processed];
      } else {
        assert envs[..n][..n] == envs[..n] && envs[..n + 1] == envs;
        LoopStep(l, messages, envs, n, q, RunLane(l, Reads(envs[..n])));
      }
    }
  }

  lemma {:induction false} LoopStep(l: Lane, messages: seq<TopicMessage>, envs: seq<Env>, n: nat, q: Progress, before: Lane)
    requires Ahead(l, messages) && |envs| == |messages| == n + 1
    requires before == RunLane(l, Reads(envs[..n])) && LoopedTo(l, q, before) && q.committed == q.processed == n
    ensures LoopedTo(l, Progress(Process(q.consumer, messages[n], envs[n]),
                                 if Crashed(q.consumer, messages[n], envs[n]) then n else n + 1, n + 1),
                     RunLane(l, Reads(envs)))
  {
    assert Reads(envs)[..n] == Reads(envs[..n]);
    ReadIsLoop(before, envs[n], true);
    assert RunLane(l, Reads(envs)) == ConsumeNext(before, envs[n], true);
  }
}
