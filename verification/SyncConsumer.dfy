/** The consumer of the topic: claim, apply, dead-letter, commit the offset. */
module SyncConsumer {
  import opened Domain
  import opened ReadTables

  /** What the environment does to one message: nothing; an exception in the handler; an exception of the
      offset commit right after the handler; or a crash before the claim, or between claim and handler. */
  datatype Env = Clean | HandlerFault | CommitFault | CrashBeforeClaim | CrashInClaim(schemaMade: bool)

  /** What became of a claimed event. */
  datatype Fate = Applied | AppliedAndDead | Dead | Lost(schemaMade: bool)

  predicate WasApplied(f: Fate) { f == Applied || f == AppliedAndDead }
  predicate WasDeadLettered(f: Fate) { f == Dead || f == AppliedAndDead }

  datatype TopicMessage = Malformed | Valid(record: Record)

  datatype Consumer = Consumer(side: ReadSide, claims: set<Id>, dead: map<Id, Event>)

  function FateOf(s: ReadSide, e: Event, env: Env): Fate {
    if env.CrashInClaim? then Lost(env.schemaMade)
    else if env.HandlerFault? || Sync(Provision(s, e), e) == None then Dead
    else if env.CommitFault? then AppliedAndDead
    else Applied
  }

  /** The read side after an event met its fate. */
  function Settle(s: ReadSide, e: Event, f: Fate): ReadSide {
    var ready := Provision(s, e);
    match f
    case Lost(schemaMade) => if schemaMade then ready else s
    case Dead => ready
    case _ => var synced := Sync(ready, e); if synced.Some? then synced.value else ready
  }

  /** INSERT ... ON CONFLICT DO NOTHING. */
  function DeadLetter(dead: map<Id, Event>, id: Id, e: Event): map<Id, Event> {
    if id in dead then dead else dead[id := e]
  }

  /** The specification of what one message does. */
  function Process(c: Consumer, m: TopicMessage, env: Env): Consumer {
    if m.Malformed? || m.record.id in c.claims || env.CrashBeforeClaim? then c
    else
      var e := m.record.event;
      var f := FateOf(c.side, e, env);
      Consumer(Settle(c.side, e, f), c.claims + {m.record.id},
               if WasDeadLettered(f) then DeadLetter(c.dead, m.record.id, e) else c.dead)
  }

  predicate Crashes(env: Env) { env.CrashBeforeClaim? || env.CrashInClaim? }

  function StateOf(db: ReadDb): Consumer
    reads db
  {
    Consumer(db.Side(), db.processedEvents, db.deadLetters)
  }

  method InsertDeadLetter(db: ReadDb, id: Id, e: Event)
    modifies db`deadLetters
    ensures db.deadLetters == DeadLetter(old(db.deadLetters), id, e)
  {
    if id !in db.deadLetters { db.deadLetters := db.deadLetters[id := e]; }
  }

  /** Whether this message brings the process down. */
  predicate Crashed(c: Consumer, m: TopicMessage, env: Env) {
    m.Valid? && (env.CrashBeforeClaim? || (m.record.id !in c.claims && env.CrashInClaim?))
  }

  /** The body of the message loop. `crashed` means the process died and must start again. */
  method ProcessMessage(db: ReadDb, m: TopicMessage, env: Env) returns (crashed: bool)
    modifies db
    ensures StateOf(db) == Process(old(StateOf(db)), m, env)
    ensures crashed == Crashed(old(StateOf(db)), m, env)
  {
    if m.Malformed? { return false; }
    if env.CrashBeforeClaim? { return true; }
    var claimed := db.TryClaimEvent(m.record.id);
    assert m.record.id in old(db.processedEvents) ==> db.processedEvents == old(db.processedEvents);
    if !claimed { return false; }
    var e := m.record.event;
    if env == CrashInClaim(false) { return true; }
    if e.MerchantCreated? { db.EnsureMerchantSchema(); }
    assert db.Side() == Provision(old(db.Side()), e);
    if env == CrashInClaim(true) { return true; }
    var ok := db.SyncEvent(e, env.HandlerFault?);
    if !ok || env.CommitFault? { InsertDeadLetter(db, m.record.id, e); }
    return false;
  }

  /** How far a run of the loop came: what it processed, and how much of that it committed. */
  datatype Progress = Progress(consumer: Consumer, committed: nat, processed: nat)

  /** A run of the loop over a stretch of the log: it stops at a crash, and does not commit that message. */
  function Loop(c: Consumer, messages: seq<TopicMessage>, envs: seq<Env>): (p: Progress)
    requires |envs| == |messages|
    ensures p.committed <= p.processed <= |messages| && p.processed <= p.committed + 1
    ensures p.processed == p.committed ==> p.processed == |messages|
  {
    if messages == [] then Progress(c, 0, 0)
    else
      var n := |messages| - 1;
      var p := Loop(c, messages[..n], envs[..n]);
      if p.committed < p.processed then p
      else
        Progress(Process(p.consumer, messages[n], envs[n]),
                 if Crashed(p.consumer, messages[n], envs[n]) then n else n + 1, n + 1)
  }

  /** After a crash nothing more of the stretch is read. */
  lemma {:induction false} CrashEndsLoop(c: Consumer, messages: seq<TopicMessage>, envs: seq<Env>, n: nat)
    requires |envs| == |messages| && n <= |messages|
    requires var p := Loop(c, messages[..n], envs[..n]); p.committed < p.processed
    ensures Loop(c, messages, envs) == Loop(c, messages[..n], envs[..n])
  {
    if n < |messages| {
      var last := |messages| - 1;
      assert messages[..last][..n] == messages[..n] && envs[..last][..n] == envs[..n];
      CrashEndsLoop(c, messages[..last], envs[..last], n);
    } else {
      assert messages[..n] == messages && envs[..n] == envs;
    }
  }

  /** Consumes from the committed offset; the offset moves past a message only after its processing. */
  method ConsumeFrom(db: ReadDb, log: seq<TopicMessage>, offset: nat, envs: seq<Env>)
    returns (committed: nat, processed: nat)
    requires offset <= |log| && |envs| == |log| - offset
    modifies db
    ensures offset <= committed <= processed <= |log|
    ensures Loop(old(StateOf(db)), log[offset..], envs) == Progress(StateOf(db), committed - offset, processed - offset)
  {
    committed, processed := offset, offset;
    while committed < |log|
      invariant offset <= committed == processed <= |log|
      invariant Loop(old(StateOf(db)), log[offset..][..processed - offset], envs[..processed - offset])
             == Progress(StateOf(db), committed - offset, processed - offset)
    {
      ghost var n := processed - offset;
      assert log[offset..][..n + 1][..n] == log[offset..][..n] && envs[..n + 1][..n] == envs[..n];
      var crashed := ProcessMessage(db, log[committed], envs[committed - offset]);
      processed := committed + 1;
      if crashed {
        CrashEndsLoop(old(StateOf(db)), log[offset..], envs, n + 1);
        return;
      }
      committed := processed;
    }
    assert log[offset..][..|envs|] == log[offset..] && envs[..|envs|] == envs;
  }
}
