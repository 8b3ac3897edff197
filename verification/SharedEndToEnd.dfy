/** The guarantees from end to end, for all merchants on one outbox, one topic and one read database. */
module SharedEndToEnd {
  import opened Domain
  import opened CoreTables
  import opened CoreInvariants
  import opened ReadTables
  import opened Replay
  import opened SyncConsumer
  import opened Outbox
  import opened Staging
  import opened Interleaving
  import opened SharedSystem
  import opened SystemBooks
  import opened Simulation
  import Pipeline
  import EndToEnd

  datatype Origin = Origin(profile: Profile, eventId: Id, now: Time)

  /** How the merchant was created. */
  ghost function Birth(actions: seq<Action>, m: Id): Option<Origin> {
    if actions == [] then None
    else
      var before, last := actions[..|actions| - 1], actions[|actions| - 1];
      if m in RunSystem(before).cores then Birth(before, m)
      else if last.Create? && last.merchant == m && Enabled(RunSystem(before), last) then
        Some(Origin(last.profile, last.eventId, last.now))
      else None
  }

  /** The steps that the merchant's lane has taken since. */
  ghost function Local(actions: seq<Action>, m: Id): seq<Pipeline.Step> {
    if actions == [] then []
    else
      var before := actions[..|actions| - 1];
      var s := RunSystem(before);
      if m !in s.homes || m !in s.cores then []
      else
        var step := LocalStep(s, actions[|actions| - 1], m);
        Local(before, m) + (if step.Some? then [step.value] else [])
  }

  function Started(o: Origin): Pipeline.Lane { Pipeline.Start(o.profile, o.eventId, o.now) }

  ghost function LaneOf(actions: seq<Action>, m: Id): Pipeline.Lane
    requires Birth(actions, m).Some?
  {
    Pipeline.RunLane(Started(Birth(actions, m).value), Local(actions, m))
  }

  lemma {:induction false} RunAppend(l: Pipeline.Lane, steps: seq<Pipeline.Step>, step: Option<Pipeline.Step>)
    ensures Pipeline.RunLane(l, steps + (if step.Some? then [step.value] else [])) == Moved(Pipeline.RunLane(l, steps), step)
  {
    if step.Some? {
      assert (steps + [step.value])[..|steps|] == steps;
    } else {
      assert steps + [] == steps;
    }
  }

  lemma {:induction false} SystemSound(actions: seq<Action>)
    ensures Sound(RunSystem(actions))
  {
    if actions != [] {
      SystemSound(actions[..|actions| - 1]);
      ActionSound(RunSystem(actions[..|actions| - 1]), actions[|actions| - 1]);
    }
  }

  /** Merchants come only by creation, and stay. */
  lemma {:induction false} MerchantsStay(s: System, a: Action, m: Id)
    requires Sound(s)
    ensures m in s.cores ==> m in Next(s, a).cores
    ensures m !in s.cores && m in Next(s, a).cores ==> a.Create? && a.merchant == m && Enabled(s, a)
  {
  }

  /** For every run of the shared system, every merchant's part of it is a run of that merchant's lane. */
  lemma {:induction false} Simulated(actions: seq<Action>, m: Id)
    requires m in RunSystem(actions).cores
    ensures Birth(actions, m).Some? && Sim(RunSystem(actions), m, LaneOf(actions, m))
  {
    var before, a := actions[..|actions| - 1], actions[|actions| - 1];
    var s := RunSystem(before);
    SystemSound(before);
    MerchantsStay(s, a, m);
    if m in s.cores {
      Simulated(before, m);
      ActionSimulates(s, a, m, LaneOf(before, m));
      RunAppend(Started(Birth(before, m).value), Local(before, m), LocalStep(s, a, m));
    } else {
      SimBirth(s, m, a.profile, a.home, a.eventId, a.now);
      assert Local(actions, m) == [];
    }
  }

  // ---------- What is asked of a run ----------

  /** No send raises. */
  predicate Accepting(a: Action) { a.Publish? ==> AllAccepted(a.accepted) }

  predicate NewClaim(s: System, a: Action) {
    a.Read? && OffsetsOf(s, a.partition).position < |LogOf(s, a.partition)| && !a.env.CrashBeforeClaim?
      && MessageAt(s, a.partition).record.id !in s.claims
  }

  /** A read that claims an event neither crashes before the handler nor raises in it. */
  predicate HarmlessRead(s: System, a: Action) {
    NewClaim(s, a) ==> a.env.Clean? || a.env.CommitFault?
  }

  ghost predicate AllHarmless(actions: seq<Action>) {
    forall i :: 0 <= i < |actions| ==> Accepting(actions[i]) && HarmlessRead(RunSystem(actions[..i]), actions[i])
  }

  lemma {:induction false} HarmlessPrefix(actions: seq<Action>)
    requires actions != [] && AllHarmless(actions)
    ensures var before := actions[..|actions| - 1];
      AllHarmless(before) && Accepting(actions[|before|]) && HarmlessRead(RunSystem(before), actions[|before|])
  {
    var before := actions[..|actions| - 1];
    forall i | 0 <= i < |before| ensures Accepting(before[i]) && HarmlessRead(RunSystem(before[..i]), before[i]) {
      assert before[..i] == actions[..i];
    }
  }

  lemma {:induction false} FlagsAccepted(rows: seq<Row>, k: nat, accepted: seq<bool>, m: Id)
    requires k + |accepted| <= |rows| && AllAccepted(accepted)
    ensures AllAccepted(FlagsOf(rows, k, accepted, m))
  {
    if accepted != [] { FlagsAccepted(rows, k, accepted[..|accepted| - 1], m); }
  }

  lemma AcceptedIsFaithful(h: nat, from: nat, flags: seq<bool>)
    requires AllAccepted(flags) && from <= h
    ensures GapFree(h, from, flags) && NewAccepted(h, from, flags)
  {
    forall j | 0 <= j < |flags| ensures ClosedAt(h, from, flags, j) {}
  }

  /** The lane's step is then harmless and faithful too. */
  lemma {:induction false} LocalIsGood(s: System, a: Action, m: Id, l: Pipeline.Lane)
    requires Sound(s) && Sim(s, m, l) && Accepting(a) && HarmlessRead(s, a) && Pipeline.NothingLost(l)
    requires LocalStep(s, a, m).Some?
    ensures Pipeline.Faithful(l, LocalStep(s, a, m).value) && EndToEnd.Harmless(l, LocalStep(s, a, m).value)
  {
    match a
    case Publish(batch, accepted, stop) =>
      var n := Tried(batch, stop);
      FlagsAccepted(s.rows, s.front, accepted[..n], m);
      AcceptedIsFaithful(Staging.High(l.log, l.core.outbox), l.published, FlagsOf(s.rows, s.front, accepted[..n], m));
    case Read(k, env, ack) => ReadIsHarmless(s, k, env, ack, m, l);
    case _ =>
  }

  lemma {:induction false} ReadIsHarmless(s: System, k: nat, env: Env, ack: bool, m: Id, l: Pipeline.Lane)
    requires Sound(s) && Sim(s, m, l) && HarmlessRead(s, Read(k, env, ack)) && Enabled(s, Read(k, env, ack))
    requires LocalStep(s, Read(k, env, ack), m).Some?
    ensures var step := LocalStep(s, Read(k, env, ack), m).value;
      Pipeline.Faithful(l, step) && EndToEnd.Harmless(l, step)
  {
    if MessageAt(s, k).merchant == m {
      MessageReadable(s, k);
      ReadOwnOffsets(s, AfterReading(s, k, env, ack), k, env, ack, m, l);
      SameClaim(s, MessageAt(s, k), m, l);
    }
  }

  lemma {:induction false} LocalAllGood(actions: seq<Action>, m: Id)
    requires AllHarmless(actions) && m in RunSystem(actions).cores
    ensures Birth(actions, m).Some?
    ensures Pipeline.AllSteps(Started(Birth(actions, m).value), Local(actions, m), Pipeline.Faithful)
    ensures Pipeline.AllSteps(Started(Birth(actions, m).value), Local(actions, m), EndToEnd.Harmless)
  {
    var before, a := actions[..|actions| - 1], actions[|actions| - 1];
    var s := RunSystem(before);
    HarmlessPrefix(actions);
    SystemSound(before);
    MerchantsStay(s, a, m);
    Simulated(actions, m);
    if m in s.cores {
      LocalAllGood(before, m);
      Simulated(before, m);
      LocalNext(before, s, a, m, Birth(before, m).value, LocalStep(s, a, m));
    } else {
      assert Local(actions, m) == [];
    }
  }

  lemma {:induction false} LocalNext(before: seq<Action>, s: System, a: Action, m: Id, o: Origin, step: Option<Pipeline.Step>)
    requires s == RunSystem(before) && Sound(s) && Birth(before, m) == Some(o) && Sim(s, m, LaneOf(before, m))
    requires Accepting(a) && HarmlessRead(s, a) && step == LocalStep(s, a, m)
    requires Pipeline.AllSteps(Started(o), Local(before, m), Pipeline.Faithful)
    requires Pipeline.AllSteps(Started(o), Local(before, m), EndToEnd.Harmless)
    ensures var steps := Local(before, m) + (if step.Some? then [step.value] else []);
      Pipeline.AllSteps(Started(o), steps, Pipeline.Faithful) && Pipeline.AllSteps(Started(o), steps, EndToEnd.Harmless)
  {
    var local := Local(before, m);
    var steps := local + (if step.Some? then [step.value] else []);
    if step.Some? {
      Pipeline.NothingLostIff(o.profile, o.eventId, o.now, local);
      LocalIsGood(s, a, m, LaneOf(before, m));
      assert steps[..|steps| - 1] == local;
      Pipeline.LastStep(Started(o), steps, Pipeline.Faithful);
      Pipeline.LastStep(Started(o), steps, EndToEnd.Harmless);
    } else {
      assert steps == local;
    }
  }

  // ---------- The guarantees ----------

  /** In every run without a raised send and without a fault in the claim window, and for every merchant: the
      merchant's read tables equal the recompute of a state its write tables were once in. */
  lemma {:induction false} EveryMerchantShowsPast(actions: seq<Action>, m: Id)
    requires AllHarmless(actions) && m in RunSystem(actions).cores
    ensures Birth(actions, m).Some? && m in RunSystem(actions).homes
    ensures var s, o, history := RunSystem(actions), Birth(actions, m).value, LaneOf(actions, m).history;
      && s.cores[m] == Run(Genesis(o.profile, o.eventId, o.now), history)
      && EndToEnd.ShowsPast(Slice(s.db, m, s.homes[m].schema), o.profile, o.eventId, o.now, history)
  {
    Simulated(actions, m);
    LocalAllGood(actions, m);
    var o := Birth(actions, m).value;
    EndToEnd.FaithfulIsOrderly(Started(o), Local(actions, m));
    EndToEnd.ReadSideIsPast(o.profile, o.eventId, o.now, Local(actions, m));
    Pipeline.RunSane(o.profile, o.eventId, o.now, Local(actions, m));
  }

  /** Once every row is marked and every message of its partition was processed, a merchant's read tables are
      up to date. */
  lemma {:induction false} QuietMerchantIsCurrent(actions: seq<Action>, m: Id)
    requires AllHarmless(actions) && m in RunSystem(actions).cores && m in RunSystem(actions).homes
    requires var s := RunSystem(actions);
      && s.front == |s.rows|
      && OffsetsOf(s, s.homes[m].partition).reach == |LogOf(s, s.homes[m].partition)|
    ensures var s := RunSystem(actions); InStep(Slice(s.db, m, s.homes[m].schema), s.cores[m])
  {
    var s := RunSystem(actions);
    Simulated(actions, m);
    LocalAllGood(actions, m);
    var o, l, log := Birth(actions, m).value, LaneOf(actions, m), LogOf(s, s.homes[m].partition);
    assert s.rows[..s.front] == s.rows && log[..|log|] == log;
    KeyOnPartition(s.topic, s.homes, m);
    EndToEnd.QuiescentIsCurrent(o.profile, o.eventId, o.now, Local(actions, m));
  }

  // ---------- One merchant after another ----------

  function MessagesOf(handled: seq<Entry>): seq<Message> {
    seq(|handled|, i requires 0 <= i < |handled| => handled[i].message)
  }

  ghost function Names(homes: map<Id, Home>): map<Id, string> { map m | m in homes :: homes[m].schema }

  lemma DeliverNext(db: Database, handled: seq<Entry>, e: Entry, after: Database)
    requires db == DeliverAll(MessagesOf(handled)) && after == Deliver(db, e.message)
    ensures after == DeliverAll(MessagesOf(handled + [e]))
  {
    var messages := MessagesOf(handled + [e]);
    assert messages[..|messages| - 1] == MessagesOf(handled);
  }

  lemma AppliedIsDelivered(db: Database, x: Message, f: Fate)
    requires WasApplied(f)
    ensures Stored(db, x.merchant, x.schema, Settle(Slice(db, x.merchant, x.schema), x.record.event, f)) == Deliver(db, x)
  {
  }

  /** A claim in such a run is applied. */
  lemma {:induction false} ClaimIsApplied(actions: seq<Action>, k: nat, env: Env, ack: bool)
    requires AllHarmless(actions) && HarmlessRead(RunSystem(actions), Read(k, env, ack))
    requires var s := RunSystem(actions);
      && OffsetsOf(s, k).position < |LogOf(s, k)| && !env.CrashBeforeClaim? && MessageAt(s, k).record.id !in s.claims
    ensures var s := RunSystem(actions); WasApplied(FateAt(s, MessageAt(s, k), env))
  {
    var s := RunSystem(actions);
    SystemSound(actions);
    MessageReadable(s, k);
    var x := MessageAt(s, k);
    var m := x.merchant;
    Simulated(actions, m);
    LocalAllGood(actions, m);
    var o, l := Birth(actions, m).value, LaneOf(actions, m);
    ReadOwnOffsets(s, AfterReading(s, k, env, ack), k, env, ack, m, l);
    SameClaim(s, x, m, l);
    EndToEnd.FaithfulIsOrderly(Started(o), Local(actions, m));
    EndToEnd.NextIsApplied(o.profile, o.eventId, o.now, Local(actions, m), Pipeline.Consume(env, ack));
  }

  lemma {:induction false} DbIsDelivered(actions: seq<Action>)
    requires AllHarmless(actions)
    ensures var s := RunSystem(actions); s.db == DeliverAll(MessagesOf(s.handled))
  {
    if actions != [] {
      var before, a := actions[..|actions| - 1], actions[|actions| - 1];
      var s := RunSystem(before);
      HarmlessPrefix(actions);
      DbIsDelivered(before);
      if NewClaim(s, a) {
        var x := MessageAt(s, a.partition);
        ClaimIsApplied(before, a.partition, a.env, a.ack);
        AppliedIsDelivered(s.db, x, FateAt(s, x, a.env));
        DeliverNext(s.db, s.handled, Entry(x, FateAt(s, x, a.env)), AfterClaim(s, x, a.env).db);
      }
    }
  }

  /** In such a run the read database is the one that processing the claimed events merchant by merchant
      would have given, whatever order the partitions were read in. */
  lemma {:induction false} ReadDatabaseIsOneByOne(actions: seq<Action>, merchants: seq<Id>)
    requires AllHarmless(actions)
    requires forall i, j :: 0 <= i < j < |merchants| ==> merchants[i] != merchants[j]
    requires forall m :: m in RunSystem(actions).cores ==> m in merchants
    ensures var s := RunSystem(actions); s.db == DeliverAll(OneByOne(MessagesOf(s.handled), merchants))
  {
    var s := RunSystem(actions);
    SystemSound(actions);
    DbIsDelivered(actions);
    forall i | 0 <= i < |s.handled| ensures RoutedHome(s.handled[i].message, s.homes) {}
    MergeIsOneByOne(MessagesOf(s.handled), Names(s.homes), merchants);
  }
}
