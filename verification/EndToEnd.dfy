/** What the pipeline guarantees from a merchant's write tables to its read tables, over whole runs. */
module EndToEnd {
  import opened Domain
  import opened CoreTables
  import opened CoreInvariants
  import opened ReadTables
  import opened Projection
  import opened Replay
  import opened SyncConsumer
  import opened Staging
  import opened Pipeline

  // ---------- Handlers never fail on what the write side emits ----------

  predicate HandlerSucceeds(outbox: seq<Record>, i: nat)
    requires i < |outbox|
  {
    Sync(Provision(Replayed(outbox[..i]), outbox[i].event), outbox[i].event).Some?
  }

  /** No event of any history makes its handler raise, once those before it were applied. */
  lemma {:induction false} EveryHandlerSucceeds(profile: Profile, eventId: Id, now: Time, history: seq<Tx>, i: nat)
    requires i < |Run(Genesis(profile, eventId, now), history).outbox|
    ensures HandlerSucceeds(Run(Genesis(profile, eventId, now), history).outbox, i)
  {
    var start := Genesis(profile, eventId, now);
    if history == [] {
      assert start.outbox[..0] == [];
    } else {
      var before, tx := history[..|history| - 1], history[|history| - 1];
      var c, d := Run(start, before), Run(start, history);
      if Execute(c, tx).Ok? { OneEventEach(c, tx, d); }
      if i < |c.outbox| {
        EveryHandlerSucceeds(profile, eventId, now, before, i);
        assert c.outbox[..i] == d.outbox[..i];
      } else {
        NewestSucceeds(profile, eventId, now, before, tx);
      }
    }
  }

  lemma {:induction false} NewestSucceeds(profile: Profile, eventId: Id, now: Time, before: seq<Tx>, tx: Tx)
    requires Execute(Run(Genesis(profile, eventId, now), before), tx).Ok?
    ensures var c := Run(Genesis(profile, eventId, now), before);
      var d := Execute(c, tx).core;
      |c.outbox| < |d.outbox| && HandlerSucceeds(d.outbox, |c.outbox|)
  {
    var start := Genesis(profile, eventId, now);
    var c := Run(start, before);
    var d := Execute(c, tx).core;
    GenesisIsGood(profile, eventId, now);
    ReachableIsGood(start, before);
    ReplayInStep(profile, eventId, now, before);
    OneEventEach(c, tx, d);
    HandleInStep(Replayed(c.outbox), c, tx, d);
  }

  // ---------- What decides the fate of an event ----------

  /** The step takes a message whose event is not claimed yet, and claims it. */
  predicate Claims(l: Lane, s: Step) {
    s.Consume? && l.position < |l.log| && !s.env.CrashBeforeClaim? && l.log[l.position].id !in l.consumer.claims
  }

  function Claim(l: Lane, s: Step): Handled
    requires Claims(l, s)
  {
    Handled(l.log[l.position], FateOf(l.consumer.side, l.log[l.position].event, s.env))
  }

  lemma NextHandled(l: Lane, s: Step)
    ensures Next(l, s).handled == l.handled + (if Claims(l, s) then [Claim(l, s)] else [])
  {
    assert l.handled + [] == l.handled;
  }

  /** Step i of the run claims the event and settles its fate. */
  predicate DecidedAt(start: Lane, steps: seq<Step>, i: nat, h: Handled)
    requires i < |steps|
  {
    Claims(StateAt(start, steps, i), steps[i]) && h == Claim(StateAt(start, steps, i), steps[i])
  }

  ghost predicate Decided(start: Lane, steps: seq<Step>, h: Handled) {
    exists i :: 0 <= i < |steps| && DecidedAt(start, steps, i, h)
  }

  lemma {:induction false} DecidedLater(start: Lane, steps: seq<Step>, h: Handled)
    requires steps != []
    ensures var before, last := steps[..|steps| - 1], |steps| - 1;
      Decided(start, steps, h) == (Decided(start, before, h) || DecidedAt(start, steps, last, h))
  {
    var before, last := steps[..|steps| - 1], |steps| - 1;
    forall i | 0 <= i < last ensures DecidedAt(start, steps, i, h) == DecidedAt(start, before, i, h) {
      SameStates(start, steps, before, i);
    }
    if Decided(start, before, h) {
      var i :| 0 <= i < |before| && DecidedAt(start, before, i, h);
      assert DecidedAt(start, steps, i, h);
    }
    if Decided(start, steps, h) && !DecidedAt(start, steps, last, h) {
      var i :| 0 <= i < |steps| && DecidedAt(start, steps, i, h);
      assert DecidedAt(start, before, i, h);
    }
  }

  /** An event was handled with a certain fate exactly if some step claimed it in a state, and with a fault,
      that lead to that fate. */
  lemma {:induction false} FateIff(profile: Profile, eventId: Id, now: Time, steps: seq<Step>, h: Handled)
    ensures var start := Start(profile, eventId, now);
      h in RunLane(start, steps).handled <==> Decided(start, steps, h)
  {
    var start := Start(profile, eventId, now);
    if steps != [] {
      var before, last := steps[..|steps| - 1], |steps| - 1;
      FateIff(profile, eventId, now, before, h);
      DecidedLater(start, steps, h);
      NextHandled(RunLane(start, before), steps[last]);
      assert StateAt(start, steps, last) == RunLane(start, before);
    }
  }

  // ---------- When everything is applied ----------

  predicate AllApplied(handled: seq<Handled>) {
    forall i :: 0 <= i < |handled| ==> WasApplied(handled[i].fate)
  }

  /** A step that claims an event neither crashes before the handler nor raises in it. Faults on duplicates,
      crashes before the claim, lost acknowledgements, failing offset commits, rewinds and half-done polls
      may all happen. */
  predicate Harmless(l: Lane, s: Step) {
    Claims(l, s) ==> s.env.Clean? || s.env.CommitFault?
  }

  lemma {:induction false} AppliedIsReplayed(handled: seq<Handled>)
    requires AllApplied(handled)
    ensures SettledAll(handled) == Replayed(Records(handled))
  {
    if handled != [] {
      var before := handled[..|handled| - 1];
      AppliedIsReplayed(before);
      assert Records(handled)[..|handled| - 1] == Records(before);
    }
  }

  lemma AppliedExtends(handled: seq<Handled>, more: seq<Handled>)
    ensures AllApplied(handled + more) <==> AllApplied(handled) && AllApplied(more)
  {
    forall i | 0 <= i < |more| ensures (handled + more)[|handled| + i] == more[i] {}
    if AllApplied(handled + more) {
      forall i | 0 <= i < |handled| ensures WasApplied(handled[i].fate) { assert (handled + more)[i] == handled[i]; }
      forall i | 0 <= i < |more| ensures WasApplied(more[i].fate) { assert (handled + more)[|handled| + i] == more[i]; }
    }
  }

  lemma SucceedsThenApplied(s: ReadSide, e: Event, env: Env)
    requires Sync(Provision(s, e), e).Some? && !env.CrashBeforeClaim?
    ensures WasApplied(FateOf(s, e, env)) <==> env.Clean? || env.CommitFault?
  {
  }

  /** The handler of a claim that comes in order, after claims that were all applied, does not raise. */
  lemma {:induction false} ClaimSucceeds(l: Lane, s: Step)
    requires LaneSane(l) && InOrder(l) && AllApplied(l.handled) && Claims(l, s)
    requires forall i :: 0 <= i < |l.core.outbox| ==> HandlerSucceeds(l.core.outbox, i)
    ensures var e := l.log[l.position].event; Sync(Provision(l.consumer.side, e), e).Some?
  {
    ClaimIsNext(l);
    AppliedIsReplayed(l.handled);
    assert HandlerSucceeds(l.core.outbox, |l.handled|);
    assert Records(l.handled) == l.core.outbox[..|l.handled|];
  }

  lemma {:induction false} StepAppliesIff(l: Lane, s: Step)
    requires LaneSane(l) && InOrder(l)
    requires forall i :: 0 <= i < |l.core.outbox| ==> HandlerSucceeds(l.core.outbox, i)
    ensures AllApplied(Next(l, s).handled) <==> AllApplied(l.handled) && Harmless(l, s)
  {
    NextHandled(l, s);
    AppliedExtends(l.handled, if Claims(l, s) then [Claim(l, s)] else []);
    if Claims(l, s) && AllApplied(l.handled) {
      ClaimSucceeds(l, s);
      SucceedsThenApplied(l.consumer.side, l.log[l.position].event, s.env);
      assert [Claim(l, s)][0] == Claim(l, s);
    }
  }

  /** With polls that leave no gap, every claimed event is applied exactly if every claiming step is harmless. */
  lemma {:induction false} AllAppliedIff(profile: Profile, eventId: Id, now: Time, steps: seq<Step>)
    requires AllSteps(Start(profile, eventId, now), steps, Orderly)
    ensures var start := Start(profile, eventId, now);
      AllApplied(RunLane(start, steps).handled) <==> AllSteps(start, steps, Harmless)
  {
    if steps != [] {
      var start, before := Start(profile, eventId, now), steps[..|steps| - 1];
      var l := RunLane(start, before);
      LastStep(start, steps, Orderly);
      LastStep(start, steps, Harmless);
      AllAppliedIff(profile, eventId, now, before);
      RunInOrder(profile, eventId, now, before);
      RunSane(profile, eventId, now, before);
      forall i | 0 <= i < |l.core.outbox| ensures HandlerSucceeds(l.core.outbox, i) {
        EveryHandlerSucceeds(profile, eventId, now, l.history, i);
      }
      StepAppliesIff(l, steps[|steps| - 1]);
    }
  }

  /** After such a run, the next claim is applied if it is harmless. */
  lemma {:induction false} NextIsApplied(profile: Profile, eventId: Id, now: Time, steps: seq<Step>, s: Step)
    requires AllSteps(Start(profile, eventId, now), steps, Orderly)
    requires AllSteps(Start(profile, eventId, now), steps, Harmless)
    requires var l := RunLane(Start(profile, eventId, now), steps); Claims(l, s) && Harmless(l, s)
    ensures WasApplied(Claim(RunLane(Start(profile, eventId, now), steps), s).fate)
  {
    var l := RunLane(Start(profile, eventId, now), steps);
    AllAppliedIff(profile, eventId, now, steps);
    RunInOrder(profile, eventId, now, steps);
    RunSane(profile, eventId, now, steps);
    forall i | 0 <= i < |l.core.outbox| ensures HandlerSucceeds(l.core.outbox, i) {
      EveryHandlerSucceeds(profile, eventId, now, l.history, i);
    }
    ClaimSucceeds(l, s);
    SucceedsThenApplied(l.consumer.side, l.log[l.position].event, s.env);
  }

  /** In such a run an applied event is dead-lettered as well exactly if the step that claimed it had its
      offset commit fail. */
  lemma {:induction false} DeadLetteredToo(profile: Profile, eventId: Id, now: Time, steps: seq<Step>, r: Record)
    requires AllSteps(Start(profile, eventId, now), steps, Orderly)
    requires AllSteps(Start(profile, eventId, now), steps, Harmless)
    ensures var start := Start(profile, eventId, now);
      (Handled(r, AppliedAndDead) in RunLane(start, steps).handled)
        == (exists i :: 0 <= i < |steps| && ClaimsWithCommitFault(start, steps, i, r))
  {
    var start := Start(profile, eventId, now);
    FateIff(profile, eventId, now, steps, Handled(r, AppliedAndDead));
    forall i | 0 <= i < |steps|
      ensures ClaimsWithCommitFault(start, steps, i, r) <==> DecidedAt(start, steps, i, Handled(r, AppliedAndDead))
    {
      CommitFaultDecides(profile, eventId, now, steps, i, r);
    }
  }

  predicate ClaimsWithCommitFault(start: Lane, steps: seq<Step>, i: nat, r: Record)
    requires i < |steps|
  {
    var l, s := StateAt(start, steps, i), steps[i];
    Claims(l, s) && l.log[l.position] == r && s.env.CommitFault?
  }

  lemma {:induction false} CommitFaultDecides(profile: Profile, eventId: Id, now: Time, steps: seq<Step>, i: nat, r: Record)
    requires i < |steps| && AllSteps(Start(profile, eventId, now), steps, Orderly)
    requires AllSteps(Start(profile, eventId, now), steps, Harmless)
    ensures var start := Start(profile, eventId, now);
      ClaimsWithCommitFault(start, steps, i, r) <==> DecidedAt(start, steps, i, Handled(r, AppliedAndDead))
  {
    var start := Start(profile, eventId, now);
    var l, s := StateAt(start, steps, i), steps[i];
    AllStepsPrefix(start, steps, i, Orderly);
    AllStepsPrefix(start, steps, i, Harmless);
    AllAppliedIff(profile, eventId, now, steps[..i]);
    RunInOrder(profile, eventId, now, steps[..i]);
    RunSane(profile, eventId, now, steps[..i]);
    forall j | 0 <= j < |l.core.outbox| ensures HandlerSucceeds(l.core.outbox, j) {
      EveryHandlerSucceeds(profile, eventId, now, l.history, j);
    }
    if Claims(l, s) { ClaimSucceeds(l, s); }
  }

  lemma {:induction false} AllStepsPrefix(start: Lane, steps: seq<Step>, n: nat, allowed: (Lane, Step) -> bool)
    requires n <= |steps| && AllSteps(start, steps, allowed)
    ensures AllSteps(start, steps[..n], allowed)
  {
    forall i | 0 <= i < n ensures AllowedAt(start, steps[..n], i, allowed) {
      SameAllowed(start, steps, steps[..n], i, allowed);
    }
  }

  // ---------- From end to end ----------

  /** Prefix consistency: the read side is the handlers' fold over the first events of the outbox. */
  lemma {:induction false} ReadSideIsPrefixFold(profile: Profile, eventId: Id, now: Time, steps: seq<Step>)
    requires AllSteps(Start(profile, eventId, now), steps, Orderly)
    requires AllSteps(Start(profile, eventId, now), steps, Harmless)
    ensures var l := RunLane(Start(profile, eventId, now), steps);
      && |l.handled| <= |l.core.outbox|
      && l.consumer.side == Replayed(l.core.outbox[..|l.handled|])
      && l.consumer.claims == Ids(l.core.outbox[..|l.handled|])
  {
    var l := RunLane(Start(profile, eventId, now), steps);
    RunInOrder(profile, eventId, now, steps);
    AllAppliedIff(profile, eventId, now, steps);
    AppliedIsReplayed(l.handled);
    ClaimsArePrefix(l);
    assert Records(l.handled) == l.core.outbox[..|l.handled|];
  }

  /** The read tables are the recompute of a state the write tables were once in, or the event that creates
      the merchant was not handled yet. */
  ghost predicate ShowsPast(side: ReadSide, profile: Profile, eventId: Id, now: Time, history: seq<Tx>) {
    || side == NOTHING
    || exists k :: 0 <= k <= |history| && InStep(side, Run(Genesis(profile, eventId, now), history[..k]))
  }

  lemma {:induction false} PrefixShowsPast(profile: Profile, eventId: Id, now: Time, history: seq<Tx>, h: nat)
    requires h <= |Run(Genesis(profile, eventId, now), history).outbox|
    ensures ShowsPast(Replayed(Run(Genesis(profile, eventId, now), history).outbox[..h]), profile, eventId, now, history)
  {
    if h > 0 {
      ReadRefinesPast(profile, eventId, now, history, h);
    } else {
      assert Run(Genesis(profile, eventId, now), history).outbox[..h] == [];
    }
  }

  /** The read tables always equal the recompute of a state the write tables were once in. */
  lemma {:induction false} ReadSideIsPast(profile: Profile, eventId: Id, now: Time, steps: seq<Step>)
    requires AllSteps(Start(profile, eventId, now), steps, Orderly)
    requires AllSteps(Start(profile, eventId, now), steps, Harmless)
    ensures var l := RunLane(Start(profile, eventId, now), steps);
      && ShowsPast(l.consumer.side, profile, eventId, now, l.history)
      && (l.handled != [] ==> l.consumer.side != NOTHING)
  {
    var l := RunLane(Start(profile, eventId, now), steps);
    ReadSideIsPrefixFold(profile, eventId, now, steps);
    RunSane(profile, eventId, now, steps);
    PrefixShowsPast(profile, eventId, now, l.history, |l.handled|);
    if l.handled != [] { ReadRefinesPast(profile, eventId, now, l.history, |l.handled|); }
  }

  /** Once every row is published and every message was processed, the read tables are up to date. */
  lemma {:induction false} QuiescentIsCurrent(profile: Profile, eventId: Id, now: Time, steps: seq<Step>)
    requires AllSteps(Start(profile, eventId, now), steps, Faithful)
    requires AllSteps(Start(profile, eventId, now), steps, Harmless)
    requires var l := RunLane(Start(profile, eventId, now), steps);
      l.published == |l.core.outbox| && l.reach == |l.log|
    ensures var l := RunLane(Start(profile, eventId, now), steps); InStep(l.consumer.side, l.core)
  {
    var l := RunLane(Start(profile, eventId, now), steps);
    FaithfulIsOrderly(Start(profile, eventId, now), steps);
    RunSane(profile, eventId, now, steps);
    RunInOrder(profile, eventId, now, steps);
    NothingLostIff(profile, eventId, now, steps);
    ReadSideIsPrefixFold(profile, eventId, now, steps);
    ReplayInStep(profile, eventId, now, l.history);
    assert l.log[..l.reach] == l.log;
    assert l.core.outbox[..|l.handled|] == l.core.outbox;
  }

  lemma FaithfulIsOrderly(start: Lane, steps: seq<Step>)
    requires AllSteps(start, steps, Faithful)
    ensures AllSteps(start, steps, Orderly)
  {
    forall i | 0 <= i < |steps| ensures AllowedAt(start, steps, i, Orderly) {
      assert AllowedAt(start, steps, i, Faithful);
    }
  }

  // ---------- Every run, whatever the faults ----------

  function WithFate(handled: seq<Handled>, fates: set<Fate>): set<Id> {
    set i | 0 <= i < |handled| && handled[i].fate in fates :: handled[i].record.id
  }

  function Never(handled: seq<Handled>, f: Fate): bool {
    forall i :: 0 <= i < |handled| ==> handled[i].fate != f
  }

  const LOST: set<Fate> := {Lost(false), Lost(true)}
  const APPLIED: set<Fate> := {Applied, AppliedAndDead}

  lemma FatesPartition(handled: seq<Handled>)
    ensures Ids(Records(handled)) == WithFate(handled, APPLIED) + DeadIds(handled) + WithFate(handled, LOST)
  {
    var ids, all := Ids(Records(handled)), WithFate(handled, APPLIED) + DeadIds(handled) + WithFate(handled, LOST);
    forall i | 0 <= i < |handled| ensures handled[i].record.id in all && handled[i].record.id in ids {
      assert Records(handled)[i].id == handled[i].record.id;
      assert handled[i].fate in APPLIED || WasDeadLettered(handled[i].fate) || handled[i].fate in LOST;
    }
    forall id | id in ids ensures id in all {
      var i :| 0 <= i < |handled| && Records(handled)[i].id == id;
      assert handled[i].record.id in all;
    }
  }

  lemma OneFateEach(handled: seq<Handled>)
    requires UniqueIds(Records(handled))
    ensures WithFate(handled, APPLIED) * DeadIds(handled) == WithFate(handled, {AppliedAndDead})
    ensures WithFate(handled, LOST) !! WithFate(handled, APPLIED) + DeadIds(handled)
  {
    forall i, j | 0 <= i < |handled| && 0 <= j < |handled| && handled[i].record.id == handled[j].record.id
      ensures i == j
    {
      assert Records(handled)[i].id == Records(handled)[j].id;
    }
  }

  /** Claim discipline, for every run, with rejected sends and any fault: each claim is an outbox event that was
      handled once; it was applied, dead-lettered or lost, and of these at most the first two are both true.
      Without gaps, the claims are the first events of the outbox, handled in order. */
  lemma {:induction false} ClaimDiscipline(profile: Profile, eventId: Id, now: Time, steps: seq<Step>)
    ensures var l := RunLane(Start(profile, eventId, now), steps);
      && UniqueIds(Records(l.handled)) && (forall i :: 0 <= i < |l.handled| ==> l.handled[i].record in l.core.outbox)
      && (AllSteps(Start(profile, eventId, now), steps, Orderly) ==> Records(l.handled) <= l.core.outbox)
      && var applied, dead, lost := WithFate(l.handled, APPLIED), l.consumer.dead.Keys, WithFate(l.handled, LOST);
      && l.consumer.claims == applied + dead + lost
      && lost !! applied + dead && applied * dead == WithFate(l.handled, {AppliedAndDead})
  {
    var l := RunLane(Start(profile, eventId, now), steps);
    RunSane(profile, eventId, now, steps);
    FatesPartition(l.handled);
    OneFateEach(l.handled);
    if AllSteps(Start(profile, eventId, now), steps, Orderly) { RunInOrder(profile, eventId, now, steps); }
  }

  /** Which faults a step may bring. */
  predicate Spares(s: Step, f: Fate) {
    match f
    case Lost(schemaMade) => s.Consume? ==> s.env != CrashInClaim(schemaMade)
    case AppliedAndDead => s.Consume? ==> !s.env.CommitFault?
    case _ => false
  }

  lemma {:induction false} FatesFollowSteps(start: Lane, steps: seq<Step>, f: Fate)
    requires Never(start.handled, f) && forall i :: 0 <= i < |steps| ==> Spares(steps[i], f)
    ensures Never(RunLane(start, steps).handled, f)
  {
    if steps != [] { FatesFollowSteps(start, steps[..|steps| - 1], f); }
  }

  /** With no crash in the claim window and no failing offset commit, the claimed ids are the disjoint
      union of the applied and the dead-lettered ones. */
  lemma {:induction false} AppliedOrDead(profile: Profile, eventId: Id, now: Time, steps: seq<Step>)
    requires forall i :: 0 <= i < |steps| ==> steps[i].Consume? ==> !steps[i].env.CrashInClaim? && !steps[i].env.CommitFault?
    ensures var l := RunLane(Start(profile, eventId, now), steps);
      && l.consumer.claims == WithFate(l.handled, APPLIED) + l.consumer.dead.Keys
      && WithFate(l.handled, APPLIED) !! l.consumer.dead.Keys
  {
    var start := Start(profile, eventId, now);
    ClaimDiscipline(profile, eventId, now, steps);
    FatesFollowSteps(start, steps, Lost(false));
    FatesFollowSteps(start, steps, Lost(true));
    FatesFollowSteps(start, steps, AppliedAndDead);
    var handled := RunLane(start, steps).handled;
    assert WithFate(handled, LOST) == {} && WithFate(handled, {AppliedAndDead}) == {};
  }

  lemma {:induction false} HandledGrows(l: Lane, steps: seq<Step>)
    ensures l.handled <= RunLane(l, steps).handled
  {
    if steps != [] { HandledGrows(l, steps[..|steps| - 1]); }
  }

  lemma {:induction false} RunContinues(l: Lane, first: seq<Step>, more: seq<Step>)
    ensures RunLane(l, first + more) == RunLane(RunLane(l, first), more)
  {
    if more == [] {
      assert first + more == first;
    } else {
      RunContinues(l, first, more[..|more| - 1]);
      assert (first + more)[..|first + more| - 1] == first + more[..|more| - 1];
    }
  }

  /** A fate is final: redelivery never gives a claimed event a second chance. */
  lemma {:induction false} FatesAreFinal(profile: Profile, eventId: Id, now: Time, first: seq<Step>, more: seq<Step>, i: nat, j: nat)
    requires i < |RunLane(Start(profile, eventId, now), first).handled|
    requires j < |RunLane(Start(profile, eventId, now), first + more).handled|
    ensures var was := RunLane(Start(profile, eventId, now), first).handled[i];
      var later := RunLane(Start(profile, eventId, now), first + more).handled;
      later[j].record.id == was.record.id ==> j == i && later[j] == was
  {
    var start := Start(profile, eventId, now);
    RunContinues(start, first, more);
    HandledGrows(RunLane(start, first), more);
    ClaimDiscipline(profile, eventId, now, first + more);
    var later := RunLane(start, first + more).handled;
    assert Records(later)[i].id == later[i].record.id && Records(later)[j].id == later[j].record.id;
  }

  // ---------- What one crash in the claim window can do ----------

  lemma {:induction false} CreatedOnlyOnce(profile: Profile, eventId: Id, now: Time, history: seq<Tx>, i: nat)
    requires 0 < i < |Run(Genesis(profile, eventId, now), history).outbox|
    ensures !Run(Genesis(profile, eventId, now), history).outbox[i].event.MerchantCreated?
  {
    var start := Genesis(profile, eventId, now);
    if history != [] {
      var before, tx := history[..|history| - 1], history[|history| - 1];
      var c := Run(start, before);
      var o := Execute(c, tx);
      if o.Ok? { OneEventEach(c, tx, o.core); }
      if i < |c.outbox| {
        CreatedOnlyOnce(profile, eventId, now, before, i);
      } else {
        var Does(d, e) := EffectOf(c, tx.command, tx.now);
        MerchantEvents(c, tx.command, tx.now, d, e);
      }
    }
  }

  lemma {:induction false} FirstRecord(profile: Profile, eventId: Id, now: Time, history: seq<Tx>)
    ensures var es := Run(Genesis(profile, eventId, now), history).outbox;
      |es| > 0 && es[0] == Record(eventId, MerchantCreated(profile), now)
  {
    if history != [] {
      FirstRecord(profile, eventId, now, history[..|history| - 1]);
      CommitAppends(Run(Genesis(profile, eventId, now), history[..|history| - 1]), history[|history| - 1]);
    }
  }

  lemma {:induction false} StaysEmpty(handled: seq<Handled>)
    requires handled != [] && handled[0].fate == Lost(false)
    requires forall i :: 0 < i < |handled| ==> !handled[i].record.event.MerchantCreated?
    ensures SettledAll(handled) == NOTHING
  {
    if |handled| > 1 {
      StaysEmpty(handled[..|handled| - 1]);
    } else {
      assert handled[..0] == [];
    }
  }

  lemma {:induction false} SendOne(outbox: seq<Record>, from: nat)
    requires from < |outbox|
    ensures SentOf(outbox, from, [true]) == [outbox[from]]
  {
    assert [true][..0] == [];
  }

  /** If that crash hits the merchant's first event, the read side of the merchant stays empty for ever,
      whatever is committed, sent and consumed afterwards. */
  lemma {:induction false} LostMerchantStaysLost(profile: Profile, eventId: Id, now: Time, steps: seq<Step>)
    ensures var start := Start(profile, eventId, now);
      RunLane(start, [Poll([true], true), Consume(CrashInClaim(false), false)] + steps).consumer.side == NOTHING
  {
    var start := Start(profile, eventId, now);
    var fatal := [Poll([true], true), Consume(CrashInClaim(false), false)];
    assert fatal[..1] == [Poll([true], true)] && fatal[..1][..0] == [];
    var polled := Next(start, Poll([true], true));
    assert RunLane(start, fatal[..1]) == polled;
    SendOne(start.core.outbox, 0);
    assert polled.log == start.core.outbox;
    var crashed := RunLane(start, fatal);
    assert crashed == ConsumeNext(polled, CrashInClaim(false), false);
    assert |crashed.handled| == 1 && crashed.handled[0].fate == Lost(false);
    RunContinues(start, fatal, steps);
    HandledGrows(crashed, steps);
    RunSane(profile, eventId, now, fatal + steps);
    var l := RunLane(start, fatal + steps);
    forall i | 0 < i < |l.handled| ensures !l.handled[i].record.event.MerchantCreated? {
      var k :| 0 <= k < |l.core.outbox| && l.core.outbox[k] == l.handled[i].record;
      assert Records(l.handled)[0].id != Records(l.handled)[i].id;
      FirstRecord(profile, eventId, now, l.history);
      if k > 0 { CreatedOnlyOnce(profile, eventId, now, l.history, k); }
    }
    StaysEmpty(l.handled);
  }
}
