/** Webhook delivery: the first dispatch, the retry chain, and the dead-letter queue. */
module WebhookRetry {
  import opened Domain

  const MAX_RETRIES: nat := 6

  /** Base delays in seconds, by the number of the attempt to come. */
  function BaseDelay(attempt: nat): nat {
    match attempt
    case 2 => 30
    case 3 => 300
    case 4 => 1800
    case 5 => 7200
    case _ => 86400
  }

  /** With a jitter of up to a fifth either way, cut to whole seconds. */
  function RetryDelay(attempt: nat, jitter: real): int {
    var x := BaseDelay(attempt) as real * jitter;
    if x >= 0.0 then x.Floor else -(-x).Floor
  }

  predicate IsJitter(jitter: real) { 0.8 <= jitter <= 1.2 }

  datatype DeliveryStatus = Delivered | DeliveryFailed | DeadLettered
  datatype Response = Answered(code: int) | Raised
  datatype Reason = MaxRetriesExceeded(attempts: nat) | EndpointNotActive

  datatype Delivery = Delivery(endpoint: Id, event: Id, status: DeliveryStatus, attempts: nat,
                               lastCode: Option<int>, nextRetryAt: Option<Time>)
  datatype DlqEntry = DlqEntry(endpoint: Id, event: Id, reason: Reason, maxAttempts: nat)
  datatype Post = Post(endpoint: Id, event: Id)

  /** `active`: the endpoints whose status is active. `posts`: every HTTP request made. */
  datatype Store = Store(active: set<Id>, deliveries: map<Id, Delivery>, dlq: map<Id, DlqEntry>, posts: seq<Post>)

  predicate Accepted(r: Response) { r.Answered? && 200 <= r.code < 300 }

  function CodeOf(r: Response): Option<int> { if r.Answered? then Some(r.code) else None }

  function Dispatched(s: Store, id: Id, endpoint: Id, event: Id, r: Response): Store {
    var status := if Accepted(r) then Delivered else DeliveryFailed;
    s.(deliveries := s.deliveries[id := Delivery(endpoint, event, status, 1, CodeOf(r), None)],
       posts := s.posts + [Post(endpoint, event)])
  }

  function MovedToDlq(s: Store, id: Id, reason: Reason, dlqId: Id): Store {
    if id !in s.deliveries then s
    else
      var d := s.deliveries[id];
      s.(dlq := s.dlq[dlqId := DlqEntry(d.endpoint, d.event, reason, d.attempts)],
         deliveries := s.deliveries[id := d.(status := DeadLettered)])
  }

  /** What the surroundings supply to one run of the retry job. */
  datatype Env = Env(active: set<Id>, response: Response, jitter: real, dlqId: Id, now: Time)

  const SECOND: Time := 1_000_000

  /** One run of the retry job: the new store, and the delay after which it is to run again, if it is. */
  function Retried(s: Store, id: Id, env: Env): (Store, Option<int>) {
    if id !in s.deliveries then (s, None)
    else
      var d := s.deliveries[id];
      var attempt := d.attempts + 1;
      if attempt > MAX_RETRIES then (MovedToDlq(s, id, MaxRetriesExceeded(d.attempts), env.dlqId), None)
      else if d.endpoint !in s.active then (MovedToDlq(s, id, EndpointNotActive, env.dlqId), None)
      else
        var posts, code := s.posts + [Post(d.endpoint, d.event)], CodeOf(env.response);
        if Accepted(env.response) then
          (s.(deliveries := s.deliveries[id := d.(status := Delivered, attempts := attempt, lastCode := code)],
              posts := posts), None)
        else
          var delay := RetryDelay(attempt + 1, env.jitter);
          var row := d.(attempts := attempt, lastCode := code, nextRetryAt := Some(env.now + delay * SECOND));
          (s.(deliveries := s.deliveries[id := row], posts := posts), Some(delay))
  }

  class WebhookStore {
    var active: set<Id>
    var deliveries: map<Id, Delivery>
    var dlq: map<Id, DlqEntry>
    var posts: seq<Post>

    function Contents(): Store
      reads this
    {
      Store(active, deliveries, dlq, posts)
    }

    constructor ()
      ensures Contents() == Store({}, map[], map[], [])
    {
      active, deliveries, dlq, posts := {}, map[], map[], [];
    }

    /** One HTTP request to the endpoint. */
    method Deliver(endpoint: Id, event: Id, response: Response) returns (status: DeliveryStatus)
      modifies this`posts
      ensures posts == old(posts) + [Post(endpoint, event)]
      ensures status == if Accepted(response) then Delivered else DeliveryFailed
    {
      posts := posts + [Post(endpoint, event)];
      if response.Answered? && 200 <= response.code < 300 {
        status := Delivered;
      } else {
        status := DeliveryFailed;
      }
    }

    method DispatchWebhook(id: Id, endpoint: Id, event: Id, response: Response)
      modifies this
      ensures Contents() == Dispatched(old(Contents()), id, endpoint, event, response)
    {
      var status := Deliver(endpoint, event, response);
      deliveries := deliveries[id := Delivery(endpoint, event, status, 1, CodeOf(response), None)];
    }

    method MoveToDlq(id: Id, reason: Reason, dlqId: Id)
      modifies this
      ensures Contents() == MovedToDlq(old(Contents()), id, reason, dlqId)
    {
      if id !in deliveries { return; }
      var d := deliveries[id];
      dlq := dlq[dlqId := DlqEntry(d.endpoint, d.event, reason, d.attempts)];
      deliveries := deliveries[id := d.(status := DeadLettered)];
    }

    method RetryDelivery(id: Id, env: Env) returns (again: Option<int>)
      modifies this
      ensures (Contents(), again) == Retried(old(Contents()), id, env)
    {
      if id !in deliveries { return None; }
      var attempt := deliveries[id].attempts + 1;
      if attempt > MAX_RETRIES {
        MoveToDlq(id, MaxRetriesExceeded(deliveries[id].attempts), env.dlqId);
        return None;
      }
      if deliveries[id].endpoint !in active {
        MoveToDlq(id, EndpointNotActive, env.dlqId);
        return None;
      }
      var status := Deliver(deliveries[id].endpoint, deliveries[id].event, env.response);
      if status == Delivered {
        deliveries := deliveries[id :=
          deliveries[id].(status := Delivered, attempts := attempt, lastCode := CodeOf(env.response))];
        return None;
      }
      var delay := RetryDelay(attempt + 1, env.jitter);
      deliveries := deliveries[id :=
        deliveries[id].(attempts := attempt, lastCode := CodeOf(env.response), nextRetryAt := Some(env.now + delay * SECOND))];
      return Some(delay);
    }

    /** A manual retry of a dead-letter entry: a request that is accepted removes the entry, and only that. */
    method DlqRetry(dlqId: Id, response: Response)
      modifies this`dlq, this`posts
      ensures var known := dlqId in old(dlq) && old(dlq)[dlqId].endpoint in active;
        && posts == (if known then old(posts) + [Post(old(dlq)[dlqId].endpoint, old(dlq)[dlqId].event)] else old(posts))
        && dlq == (if known && Accepted(response) then old(dlq) - {dlqId} else old(dlq))
    {
      if dlqId !in dlq { return; }
      var entry := dlq[dlqId];
      if entry.endpoint !in active { return; }
      var status := Deliver(entry.endpoint, entry.event, response);
      if status == Delivered { dlq := dlq - {dlqId}; }
    }
  }

  // ---------- A whole chain ----------

  /** How a chain went: the store, whether it is over, how often the job ran, and the delays added up. */
  datatype Chain = Chain(store: Store, over: bool, runs: nat, backoff: int)

  /** The chain on one delivery, for as long as it keeps rescheduling itself. Before each run the set of
      active endpoints may be anything. */
  function RunChain(s: Store, id: Id, envs: seq<Env>): Chain {
    if envs == [] then Chain(s, false, 0, 0)
    else
      var c := RunChain(s, id, envs[..|envs| - 1]);
      if c.over then c
      else
        var env := envs[|envs| - 1];
        var (after, again) := Retried(c.store.(active := env.active), id, env);
        Chain(after, again == None, c.runs + 1, c.backoff + Coalesce(again, 0))
  }

  /** The base delays before attempts 3, 4, ... of a chain that rescheduled itself n times. */
  function BaseTotal(n: nat): nat { if n == 0 then 0 else BaseTotal(n - 1) + BaseDelay(n + 2) }

  /** A jitter of a fifth, on whole sums: the truncation never leaves the range. */
  predicate WithinJitter(backoff: int, base: nat) { 4 * base <= 5 * backoff <= 6 * base }

  function Copies(p: Post, n: nat): seq<Post> { seq(n, i => p) }

  /** Nothing but this delivery's row has changed among the deliveries, and each attempt was one request. */
  predicate Frame(c: Store, s: Store, id: Id) {
    && id in s.deliveries && id in c.deliveries
    && var d, was := c.deliveries[id], s.deliveries[id];
    && d.endpoint == was.endpoint && d.event == was.event && was.attempts <= d.attempts <= MAX_RETRIES
    && c.deliveries == s.deliveries[id := d]
    && c.posts == s.posts + Copies(Post(d.endpoint, d.event), d.attempts - was.attempts)
  }

  predicate Waiting(c: Chain, s: Store, id: Id)
    requires Frame(c.store, s, id)
  {
    var d := c.store.deliveries[id];
    && !c.over && d.status == DeliveryFailed && d.attempts == 1 + c.runs
    && c.store.dlq == s.dlq && WithinJitter(c.backoff, BaseTotal(c.runs))
  }

  predicate EndedDelivered(c: Chain, s: Store, id: Id)
    requires Frame(c.store, s, id)
  {
    var d := c.store.deliveries[id];
    && c.over && c.runs > 0 && d.status == Delivered && d.attempts == 1 + c.runs
    && c.store.dlq == s.dlq && WithinJitter(c.backoff, BaseTotal(c.runs - 1))
  }

  predicate EndedDead(c: Chain, s: Store, id: Id)
    requires Frame(c.store, s, id)
  {
    var d := c.store.deliveries[id];
    && c.over && c.runs > 0 && d.status == DeadLettered && d.attempts == c.runs
    && OneNewEntry(c.store.dlq, s.dlq, d) && WithinJitter(c.backoff, BaseTotal(c.runs - 1))
  }

  function EntryOf(d: Delivery): DlqEntry {
    DlqEntry(d.endpoint, d.event,
             if d.attempts == MAX_RETRIES then MaxRetriesExceeded(MAX_RETRIES) else EndpointNotActive, d.attempts)
  }

  /** Exactly one entry was added to the queue: the delivery's. */
  predicate OneNewEntry(dlq: map<Id, DlqEntry>, was: map<Id, DlqEntry>, d: Delivery) {
    exists x :: x in dlq && x !in was && dlq == was[x := EntryOf(d)]
  }

  predicate Fresh(s: Store, id: Id) {
    id in s.deliveries && s.deliveries[id].status == DeliveryFailed && s.deliveries[id].attempts == 1
  }

  predicate EnvOk(env: Env, s: Store) { IsJitter(env.jitter) && env.dlqId !in s.dlq }

  lemma DelayBounds(attempt: nat, jitter: real)
    requires IsJitter(jitter)
    ensures WithinJitter(RetryDelay(attempt, jitter), BaseDelay(attempt))
  {
    var base := BaseDelay(attempt);
    var x := base as real * jitter;
    assert base as real * 0.8 <= x <= base as real * 1.2;
    assert base % 5 == 0;
    var fifth := base / 5;
    assert (4 * fifth) as real <= x <= (6 * fifth) as real;
    FloorWithin(x, 4 * fifth, 6 * fifth);
    var delay := RetryDelay(attempt, jitter);
    assert delay == x.Floor;
    assert 4 * fifth <= delay <= 6 * fifth && base == 5 * fifth;
  }

  lemma FloorWithin(x: real, low: nat, high: nat)
    requires low as real <= x <= high as real
    ensures low <= x.Floor <= high
  {
  }

  lemma OneMoreCopy(p: Post, n: nat)
    ensures Copies(p, n) + [p] == Copies(p, n + 1)
  {
  }

  ghost predicate ChainState(c: Chain, s: Store, id: Id) {
    && Frame(c.store, s, id)
    && (Waiting(c, s, id) || EndedDelivered(c, s, id) || EndedDead(c, s, id))
  }

  lemma RunKeepsFrame(c: Store, s: Store, id: Id, env: Env)
    requires Frame(c, s, id)
    ensures Frame(Retried(c.(active := env.active), id, env).0, s, id)
  {
    var d, was := c.deliveries[id], s.deliveries[id];
    OneMoreCopy(Post(d.endpoint, d.event), d.attempts - was.attempts);
  }

  /** One more run of a waiting chain. */
  lemma RunStep(c: Chain, s: Store, id: Id, env: Env)
    requires Frame(c.store, s, id) && Waiting(c, s, id) && EnvOk(env, s)
    ensures var (after, again) := Retried(c.store.(active := env.active), id, env);
      ChainState(Chain(after, again == None, c.runs + 1, c.backoff + Coalesce(again, 0)), s, id)
  {
    var (after, again) := Retried(c.store.(active := env.active), id, env);
    RunKeepsFrame(c.store, s, id, env);
    var d := c.store.deliveries[id];
    if d.attempts == MAX_RETRIES || d.endpoint !in env.active {
      assert after.dlq == s.dlq[env.dlqId := EntryOf(after.deliveries[id])];
    } else if !Accepted(env.response) {
      DelayBounds(d.attempts + 2, env.jitter);
    }
  }

  /** However the endpoint and its answers change, a chain is waiting, has delivered with no dead letter, or
      has ended with exactly one; attempts never exceed the maximum and each is one request. */
  lemma {:induction false} ChainIsSound(s: Store, id: Id, envs: seq<Env>)
    requires Fresh(s, id) && forall i :: 0 <= i < |envs| ==> EnvOk(envs[i], s)
    ensures ChainState(RunChain(s, id, envs), s, id)
  {
    if envs == [] {
      assert s.posts + Copies(Post(s.deliveries[id].endpoint, s.deliveries[id].event), 0) == s.posts;
    } else {
      var c := RunChain(s, id, envs[..|envs| - 1]);
      ChainIsSound(s, id, envs[..|envs| - 1]);
      if !c.over { RunStep(c, s, id, envs[|envs| - 1]); }
    }
  }

  lemma {:induction false} RunsCount(s: Store, id: Id, envs: seq<Env>)
    ensures var c := RunChain(s, id, envs); c.runs <= |envs| && (!c.over ==> c.runs == |envs|)
  {
    if envs != [] { RunsCount(s, id, envs[..|envs| - 1]); }
  }

  /** From a first dispatch that was not accepted, the chain is over after at most as many runs as the maximum;
      `attempts` counts all requests, the first one too. */
  lemma {:induction false} ChainTerminates(before: Store, id: Id, endpoint: Id, event: Id, first: Response, envs: seq<Env>)
    requires !Accepted(first) && |envs| >= MAX_RETRIES
    requires forall i :: 0 <= i < |envs| ==> EnvOk(envs[i], before)
    ensures var s := Dispatched(before, id, endpoint, event, first);
      var c := RunChain(s, id, envs);
      && Frame(c.store, s, id) && (EndedDelivered(c, s, id) || EndedDead(c, s, id))
      && c.runs <= MAX_RETRIES
      && c.store.posts == before.posts + Copies(Post(endpoint, event), c.store.deliveries[id].attempts)
  {
    var s := Dispatched(before, id, endpoint, event, first);
    var c := RunChain(s, id, envs);
    ChainIsSound(s, id, envs);
    RunsCount(s, id, envs);
    AllRequests(before.posts, Post(endpoint, event), c.store.deliveries[id].attempts);
  }

  lemma AllRequests(posts: seq<Post>, p: Post, n: nat)
    requires n > 0
    ensures posts + [p] + Copies(p, n - 1) == posts + Copies(p, n)
  {
  }

  /** A chain that used up its attempts waited between four and six fifths of 182100 seconds. */
  lemma {:induction false} ExhaustedBackoff(s: Store, id: Id, envs: seq<Env>)
    requires Fresh(s, id) && forall i :: 0 <= i < |envs| ==> EnvOk(envs[i], s)
    requires var c := RunChain(s, id, envs);
      c.over && id in c.store.deliveries && c.store.deliveries[id].status == DeadLettered
        && c.store.deliveries[id].attempts == MAX_RETRIES
    ensures 145_680 <= RunChain(s, id, envs).backoff <= 218_520
  {
    ChainIsSound(s, id, envs);
    assert BaseTotal(5) == 182_100 by {
      assert BaseTotal(2) == 2_100;
      assert BaseTotal(4) == 95_700;
    }
  }

  // ---------- When the next run is due ----------

  /** The seconds between a refused attempt and the next run of the job, by the number of the attempt. */
  predicate InSlot(attempt: nat, delay: int) {
    match attempt
    case 2 => 240 <= delay <= 360
    case 3 => 1_440 <= delay <= 2_160
    case 4 => 5_760 <= delay <= 8_640
    case 5 => 69_120 <= delay <= 103_680
    case 6 => 69_120 <= delay <= 103_680
    case _ => false
  }

  lemma DelaySlots(attempt: nat, jitter: real)
    requires 2 <= attempt <= 6 && IsJitter(jitter)
    ensures InSlot(attempt, RetryDelay(attempt + 1, jitter))
  {
    DelayBounds(attempt + 1, jitter);
  }

  /** Before a first retry the delay would be half a minute. */
  lemma FirstDelay(jitter: real)
    requires IsJitter(jitter)
    ensures 24 <= RetryDelay(2, jitter) <= 36
  {
    DelayBounds(2, jitter);
  }

  /** One run that reschedules itself: when, and what the row says about it. */
  predicate Rescheduled(was: Delivery, row: Delivery, env: Env, delay: int) {
    && row.attempts == was.attempts + 1 && InSlot(row.attempts, delay)
    && row.nextRetryAt == Some(env.now + delay * 1_000_000)
    && row.lastCode == (if env.response.Answered? then Some(env.response.code) else None)
  }

  lemma {:induction false} RunReschedules(c: Store, s: Store, id: Id, env: Env)
    requires id in c.deliveries && 1 <= c.deliveries[id].attempts && EnvOk(env, s)
    requires Retried(c.(active := env.active), id, env).1.Some?
    ensures var (after, again) := Retried(c.(active := env.active), id, env);
      id in after.deliveries && Rescheduled(c.deliveries[id], after.deliveries[id], env, again.value)
  {
    DelaySlots(c.deliveries[id].attempts + 1, env.jitter);
  }

  /** In every chain, for every run that leaves it waiting: the delay added lies in the slot of the attempt it
      made, and the row names the time of the next run. */
  lemma {:induction false} ChainSchedule(s: Store, id: Id, envs: seq<Env>)
    requires Fresh(s, id) && (forall i :: 0 <= i < |envs| ==> EnvOk(envs[i], s)) && envs != []
    requires !RunChain(s, id, envs).over
    ensures var before, after := RunChain(s, id, envs[..|envs| - 1]), RunChain(s, id, envs);
      && id in before.store.deliveries && id in after.store.deliveries
      && Rescheduled(before.store.deliveries[id], after.store.deliveries[id], envs[|envs| - 1],
                     after.backoff - before.backoff)
  {
    var before := RunChain(s, id, envs[..|envs| - 1]);
    ChainIsSound(s, id, envs[..|envs| - 1]);
    RunReschedules(before.store, s, id, envs[|envs| - 1]);
  }

  /** A first dispatch: one request, and a row that says how it was answered; nothing else changes. */
  lemma DispatchAnswered(s: Store, id: Id, endpoint: Id, event: Id, r: Response)
    ensures var d := Dispatched(s, id, endpoint, event, r);
      && d.posts == s.posts + [Post(endpoint, event)] && d.dlq == s.dlq && d.active == s.active
      && d.deliveries.Keys == s.deliveries.Keys + {id}
      && (forall x :: x in s.deliveries && x != id ==> d.deliveries[x] == s.deliveries[x])
      && d.deliveries[id].endpoint == endpoint && d.deliveries[id].event == event && d.deliveries[id].attempts == 1
      && d.deliveries[id].status == (if r.Answered? && 200 <= r.code <= 299 then Delivered else DeliveryFailed)
      && d.deliveries[id].lastCode == (if r.Answered? then Some(r.code) else None)
      && d.deliveries[id].nextRetryAt == None
  {
  }

  /** A run that is accepted keeps the code of its answer and is the last. */
  lemma RunAccepted(c: Store, id: Id, env: Env)
    requires id in c.deliveries && c.deliveries[id].attempts <= 5 && c.deliveries[id].endpoint in env.active
    requires env.response.Answered? && 200 <= env.response.code <= 299
    ensures var (after, again) := Retried(c.(active := env.active), id, env);
      && again == None && id in after.deliveries && after.dlq == c.dlq
      && after.deliveries[id].status == Delivered && after.deliveries[id].lastCode == Some(env.response.code)
      && after.deliveries[id].attempts == c.deliveries[id].attempts + 1
  {
  }

  // ---------- Which way a chain ends ----------

  /** The answers that count as delivered. */
  predicate Is2xx(r: Response) { r.Answered? && 200 <= r.code <= 299 }

  /** Run i is the first to be accepted, within the maximum, and the endpoint was active up to it. */
  predicate AcceptedAt(envs: seq<Env>, endpoint: Id, i: nat) {
    && i < |envs| && i < 5 && Is2xx(envs[i].response)
    && (forall j :: 0 <= j <= i ==> endpoint in envs[j].active)
    && (forall j :: 0 <= j < i ==> !Is2xx(envs[j].response))
  }

  predicate AllRefused(envs: seq<Env>, endpoint: Id) {
    |envs| <= 5 && forall j :: 0 <= j < |envs| ==> endpoint in envs[j].active && !Is2xx(envs[j].response)
  }

  /** A chain is delivered exactly if some run in time is accepted while the endpoint has stayed active. */
  lemma {:induction false} DeliveredIff(s: Store, id: Id, envs: seq<Env>)
    requires Fresh(s, id) && forall i :: 0 <= i < |envs| ==> EnvOk(envs[i], s)
    ensures var c := RunChain(s, id, envs);
      var endpoint := s.deliveries[id].endpoint;
      && id in c.store.deliveries
      && (c.over && c.store.deliveries[id].status == Delivered <==> exists i :: AcceptedAt(envs, endpoint, i))
      && (!c.over <==> AllRefused(envs, endpoint))
  {
    if envs != [] {
      var before, env, endpoint := envs[..|envs| - 1], envs[|envs| - 1], s.deliveries[id].endpoint;
      var c := RunChain(s, id, before);
      DeliveredIff(s, id, before);
      ChainIsSound(s, id, before);
      RunsCount(s, id, before);
      if c.over {
        LaterRunsDoNotMatter(envs, before, endpoint);
      } else {
        OnlyLastRunMatters(envs, endpoint);
      }
    }
  }

  lemma LaterRunsDoNotMatter(envs: seq<Env>, before: seq<Env>, endpoint: Id)
    requires envs != [] && before == envs[..|envs| - 1] && !AllRefused(before, endpoint)
    ensures !AllRefused(envs, endpoint)
    ensures (exists i :: AcceptedAt(envs, endpoint, i)) <==> (exists i :: AcceptedAt(before, endpoint, i))
  {
    forall i | AcceptedAt(before, endpoint, i) ensures AcceptedAt(envs, endpoint, i) {
      forall j | 0 <= j <= i ensures envs[j] == before[j] {}
    }
    forall i | AcceptedAt(envs, endpoint, i) ensures AcceptedAt(before, endpoint, i) {
      if i == |envs| - 1 {
        forall j | 0 <= j < |before| ensures endpoint in before[j].active && !Is2xx(before[j].response) {
          assert envs[j] == before[j];
        }
      } else {
        forall j | 0 <= j <= i ensures envs[j] == before[j] {}
      }
    }
  }

  lemma OnlyLastRunMatters(envs: seq<Env>, endpoint: Id)
    requires envs != [] && AllRefused(envs[..|envs| - 1], endpoint)
    ensures var env := envs[|envs| - 1];
      && (AllRefused(envs, endpoint) <==> |envs| <= 5 && endpoint in env.active && !Is2xx(env.response))
      && ((exists i :: AcceptedAt(envs, endpoint, i)) <==> |envs| <= 5 && endpoint in env.active && Is2xx(env.response))
  {
    var before, n := envs[..|envs| - 1], |envs| - 1;
    forall j | 0 <= j < n ensures endpoint in envs[j].active && !Is2xx(envs[j].response) {
      assert envs[j] == before[j];
    }
    if n < 5 && endpoint in envs[n].active && Is2xx(envs[n].response) {
      assert AcceptedAt(envs, endpoint, n);
    }
  }
}
