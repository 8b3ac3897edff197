/** What a fault leaves behind: of an event that was not applied, nothing but the empty tables of its merchant. */
module Faults {
  import opened Domain
  import opened CoreTables
  import opened ReadTables
  import opened Replay
  import opened SyncConsumer
  import opened Pipeline
  import opened EndToEnd

  // ---------- One message ----------

  /** No row of any table is there or has changed, except that the tables may have been created, empty. */
  predicate Untouched(was: ReadSide, now: ReadSide, e: Event) {
    && now.mirror == was.mirror && (was.tables.Some? ==> now.tables == was.tables)
    && (now.tables == was.tables
         || (e.MerchantCreated? && now.tables == Some(Tables(map[], map[], map[], map[], map[]))))
  }

  /** A message that is claimed: an exception in the handler, or a crash before it, leaves the tables untouched;
      the exception stores the event, the crash does not. */
  lemma FaultIsUntouched(c: Consumer, r: Record, env: Env)
    requires r.id !in c.claims && (env.HandlerFault? || env.CrashInClaim?)
    ensures var d := Process(c, Valid(r), env);
      && d.claims == c.claims + {r.id} && Untouched(c.side, d.side, r.event)
      && (env.CrashInClaim? ==> d.dead == c.dead)
      && (env.HandlerFault? ==> d.dead.Keys == c.dead.Keys + {r.id} && (r.id !in c.dead ==> d.dead[r.id] == r.event))
      && (forall id :: id in c.dead ==> id in d.dead && d.dead[id] == c.dead[id])
  {
  }

  /** A message whose event is claimed already, or that cannot be read, changes nothing at all. */
  lemma RepeatIsNothing(c: Consumer, m: TopicMessage, env: Env)
    requires m.Malformed? || m.record.id in c.claims
    ensures Process(c, m, env) == c
  {
  }

  // ---------- Whole runs ----------

  /** The records that were applied, in the order in which they were handled. */
  function AppliedOf(handled: seq<Handled>): seq<Record> {
    if handled == [] then []
    else
      var last := handled[|handled| - 1];
      AppliedOf(handled[..|handled| - 1]) + (if WasApplied(last.fate) then [last.record] else [])
  }

  /** The handlers' fold over some records, from some read side. */
  function Fold(s: ReadSide, records: seq<Record>): ReadSide {
    if records == [] then s
    else Handle(Fold(s, records[..|records| - 1]), records[|records| - 1].event)
  }

  /** The created event was not applied, but the merchant's schema was made for it. */
  predicate SchemaLeft(handled: seq<Handled>) {
    exists i :: 0 <= i < |handled| && LeavesSchema(handled[i])
  }

  predicate LeavesSchema(h: Handled) { h.record.event.MerchantCreated? && (h.fate == Dead || h.fate == Lost(true)) }

  function Leftover(handled: seq<Handled>): ReadSide {
    ReadSide(None, if SchemaLeft(handled) then Some(NO_TABLES) else None)
  }

  /** Each applied event was one that its handler could deal with. */
  predicate Sound(handled: seq<Handled>) {
    forall i :: 0 <= i < |handled| && WasApplied(handled[i].fate) ==> SoundAt(handled, i)
  }

  predicate SoundAt(handled: seq<Handled>, i: nat)
    requires i < |handled|
  {
    var e := handled[i].record.event;
    Sync(Provision(SettledAll(handled[..i]), e), e).Some?
  }

  lemma {:induction false} SoundExtends(handled: seq<Handled>, h: Handled)
    requires Sound(handled)
    requires WasApplied(h.fate) ==> Sync(Provision(SettledAll(handled), h.record.event), h.record.event).Some?
    ensures Sound(handled + [h])
  {
    var more := handled + [h];
    forall i | 0 <= i < |more| && WasApplied(more[i].fate) ensures SoundAt(more, i) {
      if i < |handled| {
        assert more[..i] == handled[..i] && SoundAt(handled, i);
      } else {
        assert more[..i] == handled;
      }
    }
  }

  lemma {:induction false} RunIsSound(profile: Profile, eventId: Id, now: Time, steps: seq<Step>)
    ensures Sound(RunLane(Start(profile, eventId, now), steps).handled)
  {
    if steps != [] {
      var before, last := steps[..|steps| - 1], steps[|steps| - 1];
      RunIsSound(profile, eventId, now, before);
      RunSane(profile, eventId, now, before);
      var l := RunLane(Start(profile, eventId, now), before);
      NextHandled(l, last);
      if Claims(l, last) { SoundExtends(l.handled, Claim(l, last)); }
    }
  }

  function Provisioned(s: ReadSide): ReadSide {
    if s.tables == None then s.(tables := Some(NO_TABLES)) else s
  }

  lemma HandleProvisioned(s: ReadSide, e: Event)
    requires Sync(Provision(s, e), e).Some?
    ensures Handle(Provisioned(s), e) == Provisioned(Handle(s, e))
  {
  }

  lemma {:induction false} FoldsMore(handled: seq<Handled>, s: ReadSide)
    requires handled != []
    ensures var before, last := handled[..|handled| - 1], handled[|handled| - 1];
      Fold(s, AppliedOf(handled))
        == if WasApplied(last.fate) then Handle(Fold(s, AppliedOf(before)), last.record.event) else Fold(s, AppliedOf(before))
  {
    var before, last := handled[..|handled| - 1], handled[|handled| - 1];
    assert (AppliedOf(before) + [last.record])[..|AppliedOf(before)|] == AppliedOf(before);
    assert AppliedOf(before) + [] == AppliedOf(before);
  }

  lemma {:induction false} LeftMore(handled: seq<Handled>)
    requires handled != []
    ensures SchemaLeft(handled) <==> SchemaLeft(handled[..|handled| - 1]) || LeavesSchema(handled[|handled| - 1])
  {
    var before := handled[..|handled| - 1];
    if SchemaLeft(before) {
      var i :| 0 <= i < |before| && LeavesSchema(before[i]);
      assert LeavesSchema(handled[i]);
    }
    if SchemaLeft(handled) && !LeavesSchema(handled[|handled| - 1]) {
      var i :| 0 <= i < |handled| && LeavesSchema(handled[i]);
      assert LeavesSchema(before[i]);
    }
  }

  lemma SoundBefore(handled: seq<Handled>)
    requires Sound(handled) && handled != []
    ensures Sound(handled[..|handled| - 1])
    ensures WasApplied(handled[|handled| - 1].fate) ==> SoundAt(handled, |handled| - 1)
  {
    var before := handled[..|handled| - 1];
    forall i | 0 <= i < |before| && WasApplied(before[i].fate) ensures SoundAt(before, i) {
      assert SoundAt(handled, i) && handled[..i] == before[..i];
    }
  }

  lemma SettleOne(s: ReadSide, h: Handled)
    requires WasApplied(h.fate) ==> Sync(Provision(s, h.record.event), h.record.event).Some?
    ensures Settle(s, h.record.event, h.fate)
      == if WasApplied(h.fate) then Handle(s, h.record.event) else if LeavesSchema(h) then Provisioned(s) else s
    ensures Provisioned(Settle(s, h.record.event, h.fate))
      == if WasApplied(h.fate) then Handle(Provisioned(s), h.record.event) else Provisioned(s)
  {
    if WasApplied(h.fate) { HandleProvisioned(s, h.record.event); }
  }

  lemma {:induction false} SettledIsFold(handled: seq<Handled>)
    requires Sound(handled)
    ensures SettledAll(handled) == Fold(Leftover(handled), AppliedOf(handled))
    ensures Provisioned(SettledAll(handled)) == Fold(Provisioned(NOTHING), AppliedOf(handled))
  {
    if handled != [] {
      var before, last := handled[..|handled| - 1], handled[|handled| - 1];
      SoundBefore(handled);
      SettledIsFold(before);
      SettleOne(SettledAll(before), last);
      FoldsMore(handled, Leftover(handled));
      FoldsMore(handled, Provisioned(NOTHING));
      LeftMore(handled);
    }
  }

  /** After every run, whatever was rejected, crashed, raised or redelivered, the read side is the handlers' fold
      over exactly the applied events; the others have left at most the empty tables of the merchant. */
  lemma {:induction false} FaultsLeaveNoTrace(profile: Profile, eventId: Id, now: Time, steps: seq<Step>)
    ensures var l := RunLane(Start(profile, eventId, now), steps);
      l.consumer.side == Fold(Leftover(l.handled), AppliedOf(l.handled))
  {
    RunIsSound(profile, eventId, now, steps);
    RunSane(profile, eventId, now, steps);
    SettledIsFold(RunLane(Start(profile, eventId, now), steps).handled);
  }

  // ---------- The dead letters ----------

  predicate Letter(dead: map<Id, Event>, handled: seq<Handled>, i: nat)
    requires i < |handled|
  {
    handled[i].record.id in dead && dead[handled[i].record.id] == handled[i].record.event
  }

  predicate LettersSane(dead: map<Id, Event>, handled: seq<Handled>) {
    forall i :: 0 <= i < |handled| && WasDeadLettered(handled[i].fate) ==> Letter(dead, handled, i)
  }

  lemma {:induction false} LettersStep(l: Lane, s: Step)
    requires LaneSane(l) && LettersSane(l.consumer.dead, l.handled)
    ensures LettersSane(Next(l, s).consumer.dead, Next(l, s).handled)
  {
    NextHandled(l, s);
    var d := Next(l, s);
    if Claims(l, s) {
      forall i | 0 <= i < |d.handled| && WasDeadLettered(d.handled[i].fate) ensures Letter(d.consumer.dead, d.handled, i) {
        if i < |l.handled| { assert Letter(l.consumer.dead, l.handled, i); }
      }
    } else {
      assert d.handled == l.handled && d.consumer.dead == l.consumer.dead;
    }
  }

  /** After every run a dead letter holds the event of that id in the outbox. */
  lemma {:induction false} DeadLettersAreEvents(profile: Profile, eventId: Id, now: Time, steps: seq<Step>, id: Id)
    requires id in RunLane(Start(profile, eventId, now), steps).consumer.dead
    ensures var l := RunLane(Start(profile, eventId, now), steps);
      exists r :: r in l.core.outbox && r.id == id && r.event == l.consumer.dead[id]
  {
    var l := RunLane(Start(profile, eventId, now), steps);
    RunSane(profile, eventId, now, steps);
    RunLetters(profile, eventId, now, steps);
    var i :| 0 <= i < |l.handled| && WasDeadLettered(l.handled[i].fate) && l.handled[i].record.id == id;
    assert Letter(l.consumer.dead, l.handled, i);
  }

  lemma {:induction false} RunLetters(profile: Profile, eventId: Id, now: Time, steps: seq<Step>)
    ensures var l := RunLane(Start(profile, eventId, now), steps); LettersSane(l.consumer.dead, l.handled)
  {
    if steps != [] {
      var before := steps[..|steps| - 1];
      RunLetters(profile, eventId, now, before);
      RunSane(profile, eventId, now, before);
      LettersStep(RunLane(Start(profile, eventId, now), before), steps[|steps| - 1]);
    }
  }
}
