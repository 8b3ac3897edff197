/** The sliding-window rate limiter: a sorted set of attempt times with a time to live. */
module RateLimiter {
  import opened Domain

  datatype Key = ConsumerKey(consumer: string) | OauthKey(client: string)

  /** A sorted set, as a score for each member, and when its key expires. */
  datatype Window = Window(entries: map<Id, Time>, expiresAt: Time)

  datatype Limits = Limits(requests: int, seconds: int)

  datatype Verdict = Verdict(allowed: bool, limit: int, remaining: int, resetAt: int, retryAfter: Option<int>)

  datatype Report = Report(limit: int, callsMade: nat, callsRemaining: int, windowStart: Time, windowEnd: Time, resetAt: int)

  const SECOND: Time := 1_000_000
  const OAUTH_SECONDS: int := 60
  const NO_WINDOW := Window(map[], 0)

  /** Whole seconds, towards zero. */
  function Truncate(x: Time): int { if x >= 0 then x / SECOND else -(-x / SECOND) }

  function Max(a: int, b: int): int { if a < b then b else a }

  /** The entries of a key that has not expired. */
  function Live(s: Window, now: Time): map<Id, Time> { if now < s.expiresAt then s.entries else map[] }

  /** Removes the scores from 0 up to and including `cutoff`. */
  function Pruned(entries: map<Id, Time>, cutoff: Time): map<Id, Time> {
    map m | m in entries && !(0 <= entries[m] <= cutoff) :: entries[m]
  }

  predicate IsOldest(entries: map<Id, Time>, t: Time) {
    t in entries.Values && forall m :: m in entries ==> t <= entries[m]
  }

  /** The lowest score. */
  function Oldest(entries: map<Id, Time>): (t: Time)
    requires entries != map[]
    ensures IsOldest(entries, t)
  {
    OldestExists(entries);
    var t :| IsOldest(entries, t);
    t
  }

  lemma {:induction false} OldestExists(entries: map<Id, Time>)
    requires entries != map[]
    ensures exists t :: IsOldest(entries, t)
    decreases |entries|
  {
    var m :| m in entries;
    var rest := entries - {m};
    assert rest.Keys == entries.Keys - {m};
    if rest == map[] {
      forall k | k in entries ensures k == m { assert k != m ==> k in rest; }
      assert IsOldest(entries, entries[m]);
    } else {
      OldestExists(rest);
      var t :| IsOldest(rest, t);
      forall k | k in entries && k != m ensures t <= entries[k] { assert k in rest; }
      assert IsOldest(entries, if entries[m] < t then entries[m] else t);
    }
  }

  /** What a read at `now` still counts. */
  function Counted(s: Window, now: Time, w: Time): map<Id, Time> { Pruned(Live(s, now), now - w) }

  function Attempted(s: Window, member: Id, now: Time, w: Time): Window {
    Window(Counted(s, now, w)[member := now], now + w)
  }

  function Looked(s: Window, now: Time, w: Time): Window {
    s.(entries := Counted(s, now, w))
  }

  function Answer(s: Window, now: Time, max: int, w: Time, retryAfter: int): Verdict {
    var count, resetAt := |Counted(s, now, w)|, Truncate(now + w);
    if count >= max then Verdict(false, max, 0, resetAt, Some(retryAfter))
    else Verdict(true, max, Max(0, max - count - 1), resetAt, None)
  }

  /** Until the oldest entry leaves the window, in whole seconds, and at least one. */
  function RetryAfter(s: Window, member: Id, now: Time, w: Time): (wait: int)
    ensures 1 <= wait
  {
    var live := Live(Attempted(s, member, now, w), now);
    Max(Truncate(if live != map[] then Oldest(live) + w - now else w), 1)
  }

  /** The verdict of `check_rate_limit`. */
  function Decision(s: Window, member: Id, now: Time, max: int, w: Time): Verdict {
    Answer(s, now, max, w, RetryAfter(s, member, now, w))
  }

  class RateLimiter {
    var windows: map<Key, Window>

    constructor ()
      ensures windows == map[]
    {
      windows := map[];
    }

    function At(k: Key): Window
      reads this
    {
      if k in windows then windows[k] else NO_WINDOW
    }

    /** One atomic pipeline: prune, count, add, expire. */
    method RecordAttempt(key: Key, member: Id, now: Time, seconds: int) returns (count: nat)
      modifies this
      ensures count == |Counted(old(At(key)), now, seconds * SECOND)|
      ensures windows == old(windows)[key := Attempted(old(At(key)), member, now, seconds * SECOND)]
    {
      var kept := Pruned(Live(At(key), now), now - seconds * SECOND);
      count := |kept|;
      windows := windows[key := Window(kept[member := now], now + seconds * SECOND)];
    }

    method CheckRateLimit(consumer: string, limits: Limits, member: Id, now: Time) returns (v: Verdict)
      modifies this
      ensures var k, s, w := ConsumerKey(consumer), old(At(ConsumerKey(consumer))), limits.seconds * SECOND;
        && windows == old(windows)[k := Attempted(s, member, now, w)]
        && v == Decision(s, member, now, limits.requests, w)
    {
      var k := ConsumerKey(consumer);
      var count := RecordAttempt(k, member, now, limits.seconds);
      var resetAt := Truncate(now + limits.seconds * SECOND);
      if count >= limits.requests {
        var live := Live(windows[k], now);
        var wait := limits.seconds;
        if live != map[] { wait := Truncate(Oldest(live) + limits.seconds * SECOND - now); }
        return Verdict(false, limits.requests, 0, resetAt, Some(Max(wait, 1)));
      }
      return Verdict(true, limits.requests, Max(0, limits.requests - count - 1), resetAt, None);
    }

    method GetRateLimitStatus(consumer: string, limits: Limits, now: Time) returns (r: Report)
      modifies this
      ensures var k, s, w := ConsumerKey(consumer), old(At(ConsumerKey(consumer))), limits.seconds * SECOND;
        && windows == old(windows)[k := Looked(s, now, w)]
        && r.callsMade == |Counted(s, now, w)| && r.limit == limits.requests
        && r.callsRemaining == Max(0, limits.requests - r.callsMade)
        && (if Counted(s, now, w) == map[] then r.windowStart == now else IsOldest(Counted(s, now, w), r.windowStart))
        && r.windowEnd == r.windowStart + w && r.resetAt == Truncate(r.windowEnd)
    {
      var k := ConsumerKey(consumer);
      var kept := Pruned(Live(At(k), now), now - limits.seconds * SECOND);
      windows := windows[k := At(k).(entries := kept)];
      var start := if kept != map[] then Oldest(kept) else now;
      var end := start + limits.seconds * SECOND;
      return Report(limits.requests, |kept|, Max(0, limits.requests - |kept|), start, end, Truncate(end));
    }

    method CheckOauthRateLimit(client: string, requests: int, member: Id, now: Time) returns (v: Verdict)
      modifies this
      ensures var k, s, w := OauthKey(client), old(At(OauthKey(client))), OAUTH_SECONDS * SECOND;
        && windows == old(windows)[k := Attempted(s, member, now, w)]
        && v == Answer(s, now, requests, w, OAUTH_SECONDS)
    {
      var count := RecordAttempt(OauthKey(client), member, now, OAUTH_SECONDS);
      var resetAt := Truncate(now + OAUTH_SECONDS * SECOND);
      if count >= requests {
        return Verdict(false, requests, 0, resetAt, Some(Max(1, OAUTH_SECONDS)));
      }
      return Verdict(true, requests, Max(0, requests - count - 1), resetAt, None);
    }
  }

  // ---------- One key over a whole history ----------

  datatype Op = Attempt(member: Id, at: Time) | Look(at: Time)

  function Stepped(s: Window, op: Op, w: Time): Window {
    if op.Attempt? then Attempted(s, op.member, op.at, w) else Looked(s, op.at, w)
  }

  function After(ops: seq<Op>, w: Time): Window {
    if ops == [] then NO_WINDOW else Stepped(After(ops[..|ops| - 1], w), ops[|ops| - 1], w)
  }

  /** The full history: when each attempt was made, whether it was allowed or not. */
  function Attempts(ops: seq<Op>): map<Id, Time> {
    if ops == [] then map[]
    else
      var before, op := Attempts(ops[..|ops| - 1]), ops[|ops| - 1];
      if op.Attempt? then before[op.member := op.at] else before
  }

  function Allows(s: Window, max: int, w: Time, now: Time): bool {
    |Counted(s, now, w)| < max
  }

  /** The attempts that were allowed. */
  function Allowed(ops: seq<Op>, max: int, w: Time): map<Id, Time> {
    if ops == [] then map[]
    else
      var before, op := ops[..|ops| - 1], ops[|ops| - 1];
      if op.Attempt? && Allows(After(before, w), max, w, op.at) then Allowed(before, max, w)[op.member := op.at]
      else Allowed(before, max, w)
  }

  /** A positive clock that never runs backwards, read last at or before `now`, and members that are new. */
  predicate Clock(ops: seq<Op>, now: Time) {
    if ops == [] then 0 <= now
    else
      var before, op := ops[..|ops| - 1], ops[|ops| - 1];
      op.at <= now && Clock(before, op.at) && (op.Attempt? ==> op.member !in Attempts(before))
  }

  /** The simple form: a filter over a history. */
  function Recent(times: map<Id, Time>, cutoff: Time): map<Id, Time> {
    map m | m in times && cutoff < times[m] :: times[m]
  }

  predicate Within(times: map<Id, Time>, now: Time) { forall m :: m in times ==> 0 <= times[m] <= now }

  lemma {:induction false} AttemptsWithin(ops: seq<Op>, now: Time)
    requires Clock(ops, now)
    ensures 0 <= now && Within(Attempts(ops), now)
  {
    if ops != [] { AttemptsWithin(ops[..|ops| - 1], ops[|ops| - 1].at); }
  }

  lemma {:induction false} ClockLater(ops: seq<Op>, now: Time, later: Time)
    requires Clock(ops, now) && now <= later
    ensures Clock(ops, later)
  {
  }

  lemma StepCounted(s: Window, history: map<Id, Time>, op: Op, w: Time, now: Time)
    requires 0 <= op.at <= now && Within(history, op.at) && (op.Attempt? ==> op.member !in history)
    requires Counted(s, op.at, w) == Recent(history, op.at - w)
    requires op.Look? ==> Counted(s, now, w) == Recent(history, now - w)
    ensures Counted(Stepped(s, op, w), now, w)
         == Recent(if op.Attempt? then history[op.member := op.at] else history, now - w)
  {
    if op.Look? {
      assert now < s.expiresAt ==> Pruned(Recent(history, op.at - w), now - w) == Recent(history, now - w);
    }
  }

  /** At any later time the set, pruned, is what the whole history says, expired or not. */
  lemma {:induction false} CountedIsRecent(ops: seq<Op>, w: Time, now: Time)
    requires Clock(ops, now)
    ensures Counted(After(ops, w), now, w) == Recent(Attempts(ops), now - w)
  {
    if ops != [] {
      var before, op := ops[..|ops| - 1], ops[|ops| - 1];
      AttemptsWithin(before, op.at);
      CountedIsRecent(before, w, op.at);
      ClockLater(before, op.at, now);
      CountedIsRecent(before, w, now);
      StepCounted(After(before, w), Attempts(before), op, w, now);
    }
  }

  /** Right after an attempt the stored set is exactly the attempts of the last window, this one included. */
  lemma {:induction false} SetIsWindow(ops: seq<Op>, member: Id, w: Time, now: Time)
    requires Clock(ops, now) && 0 < w
    ensures Live(Attempted(After(ops, w), member, now, w), now) == Recent(Attempts(ops)[member := now], now - w)
  {
    CountedIsRecent(ops, w, now);
  }

  /** The decision, from the history alone: status reads and expiry play no part in it. */
  lemma {:induction false} AllowedIff(ops: seq<Op>, member: Id, max: int, w: Time, now: Time)
    requires Clock(ops, now)
    ensures Allows(After(ops, w), max, w, now) <==> |Recent(Attempts(ops), now - w)| < max
    ensures Decision(After(ops, w), member, now, max, w).allowed <==> Allows(After(ops, w), max, w, now)
  {
    CountedIsRecent(ops, w, now);
  }

  /** `remaining` is the limit less all attempts of the window, this one included; after a rejection it is 0. */
  lemma {:induction false} RemainingIsExact(ops: seq<Op>, member: Id, max: int, w: Time, now: Time)
    requires Clock(ops, now) && 0 < w && member !in Attempts(ops)
    ensures var left := max - |Recent(Attempts(ops)[member := now], now - w)|;
      Decision(After(ops, w), member, now, max, w).remaining == if left < 0 then 0 else left
  {
    CountedIsRecent(ops, w, now);
    RecentGrows(Attempts(ops), member, now, now - w);
  }

  /** Status reads never change a verdict. */
  lemma {:induction false} LooksAreHarmless(ops: seq<Op>, others: seq<Op>, member: Id, max: int, w: Time, now: Time)
    requires Clock(ops, now) && Clock(others, now) && Attempts(ops) == Attempts(others)
    ensures Decision(After(ops, w), member, now, max, w) == Decision(After(others, w), member, now, max, w)
  {
    CountedIsRecent(ops, w, now);
    CountedIsRecent(others, w, now);
    SameCountSameDecision(After(ops, w), After(others, w), member, now, max, w);
  }

  lemma SameCountSameDecision(s1: Window, s2: Window, member: Id, now: Time, max: int, w: Time)
    requires Counted(s1, now, w) == Counted(s2, now, w)
    ensures Decision(s1, member, now, max, w) == Decision(s2, member, now, max, w)
  {
  }

  /** A window of silence makes the next attempt succeed, if any attempt can. */
  lemma {:induction false} SilenceHelps(ops: seq<Op>, max: int, w: Time, last: Time, now: Time)
    requires Clock(ops, now) && 0 < max && Within(Attempts(ops), last) && last + w <= now
    ensures Allows(After(ops, w), max, w, now)
  {
    CountedIsRecent(ops, w, now);
    assert Recent(Attempts(ops), now - w) == map[];
  }

  // ---------- What a verdict says ----------

  /** The number of whole seconds in a time that is not negative. */
  lemma WholeSeconds(x: Time)
    requires 0 <= x
    ensures Truncate(x) * 1_000_000 <= x < (Truncate(x) + 1) * 1_000_000
  {
  }

  lemma {:induction false} VerdictTimes(s: Window, member: Id, now: Time, max: int, w: Time, left: Time)
    requires var live := Live(Attempted(s, member, now, w), now); live != map[] && IsOldest(live, now + left - w)
    requires 0 <= left && 0 <= now + w
    ensures var v := Decision(s, member, now, max, w);
      && v.limit == max && v.resetAt * 1_000_000 <= now + w < (v.resetAt + 1) * 1_000_000
      && (v.allowed <==> v.retryAfter == None)
      && (!v.allowed ==>
           && v.remaining == 0
           && (if left < 1_000_000 then v.retryAfter == Some(1)
               else v.retryAfter.value * 1_000_000 <= left < (v.retryAfter.value + 1) * 1_000_000))
  {
    WholeSeconds(left);
    WholeSeconds(now + w);
  }

  /** A rejection names the time until the oldest attempt of the window leaves it, in whole seconds and at least
      one, and every verdict names the end of a window that starts now. */
  lemma {:induction false} VerdictFromHistory(ops: seq<Op>, member: Id, max: int, seconds: int, now: Time, oldest: Time)
    requires Clock(ops, now) && 0 < seconds && member !in Attempts(ops)
    requires IsOldest(Recent(Attempts(ops)[member := now], now - seconds * 1_000_000), oldest)
    ensures var w, left := seconds * 1_000_000, oldest + seconds * 1_000_000 - now;
      var v := Decision(After(ops, w), member, now, max, w);
      && v.limit == max && v.resetAt * 1_000_000 <= now + w < (v.resetAt + 1) * 1_000_000
      && (v.allowed <==> v.retryAfter == None)
      && (!v.allowed ==>
           && v.remaining == 0
           && (if left < 1_000_000 then v.retryAfter == Some(1)
               else v.retryAfter.value * 1_000_000 <= left < (v.retryAfter.value + 1) * 1_000_000))
  {
    var w := seconds * 1_000_000;
    SetIsWindow(ops, member, w, now);
    AttemptsWithin(ops, now);
    VerdictTimes(After(ops, w), member, now, max, w, oldest + w - now);
  }

  /** The OAuth limiter asks for a minute, always. */
  lemma OauthVerdict(s: Window, now: Time, max: int)
    requires 0 <= now
    ensures var w := OAUTH_SECONDS * SECOND;
      var v := Answer(s, now, max, w, OAUTH_SECONDS);
      && w == 60_000_000 && v.limit == max
      && v.resetAt * 1_000_000 <= now + 60_000_000 < (v.resetAt + 1) * 1_000_000
      && (if v.allowed then v.retryAfter == None else v.retryAfter == Some(60))
  {
    WholeSeconds(now + 60_000_000);
  }

  /** A window of silence lets the key expire. */
  lemma KeyExpires(s: Window, member: Id, now: Time, w: Time, later: Time)
    requires now + w <= later
    ensures Live(Attempted(s, member, now, w), later) == map[]
  {
  }

  // ---------- The limit itself ----------

  /** The times that lie in (from, to]. */
  function Between(times: map<Id, Time>, from: Time, to: Time): map<Id, Time> {
    map m | m in times && from < times[m] <= to :: times[m]
  }

  lemma {:induction false} SubsetIsSmaller<T>(a: set<T>, b: set<T>)
    requires a <= b
    ensures |a| <= |b|
  {
    if a != {} {
      var x :| x in a;
      SubsetIsSmaller(a - {x}, b - {x});
    }
  }

  lemma {:induction false} AllowedAreAttempts(ops: seq<Op>, max: int, w: Time, now: Time)
    requires Clock(ops, now)
    ensures forall m :: m in Allowed(ops, max, w) ==> m in Attempts(ops) && Attempts(ops)[m] == Allowed(ops, max, w)[m]
  {
    if ops != [] { AllowedAreAttempts(ops[..|ops| - 1], max, w, ops[|ops| - 1].at); }
  }

  /** Before an allowed request there is room on every interval that it is the last of. */
  lemma {:induction false} RoomForOne(ops: seq<Op>, max: int, w: Time, at: Time, from: Time)
    requires Clock(ops, at) && Allows(After(ops, w), max, w, at) && at - w <= from
    ensures |Between(Allowed(ops, max, w), from, from + w)| < max
  {
    var some, all := Between(Allowed(ops, max, w), from, from + w), Recent(Attempts(ops), at - w);
    CountedIsRecent(ops, w, at);
    AllowedAreAttempts(ops, max, w, at);
    SubsetIsSmaller(some.Keys, all.Keys);
    assert |some| == |some.Keys| && |all| == |all.Keys|;
  }

  lemma OneMore(times: map<Id, Time>, m: Id, at: Time, from: Time, to: Time)
    requires m !in times
    ensures |Between(times[m := at], from, to)| == |Between(times, from, to)| + (if from < at <= to then 1 else 0)
  {
    var was := Between(times, from, to);
    assert Between(times[m := at], from, to) == if from < at <= to then was[m := at] else was;
  }

  /** No half-open interval as long as the window holds more allowed requests than the limit. */
  lemma {:induction false} NeverAboveLimit(ops: seq<Op>, max: int, w: Time, now: Time, from: Time)
    requires Clock(ops, now)
    ensures |Between(Allowed(ops, max, w), from, from + w)| <= Max(max, 0)
  {
    if ops != [] {
      var before, op := ops[..|ops| - 1], ops[|ops| - 1];
      NeverAboveLimit(before, max, w, op.at, from);
      if op.Attempt? && Allows(After(before, w), max, w, op.at) {
        AllowedAreAttempts(before, max, w, op.at);
        OneMore(Allowed(before, max, w), op.member, op.at, from, from + w);
        if from < op.at <= from + w { RoomForOne(before, max, w, op.at, from); }
      }
    }
  }

  // ---------- When to retry ----------

  predicate Distinct(times: map<Id, Time>) { forall m, n :: m in times && n in times && times[m] == times[n] ==> m == n }

  lemma RecentGrows(history: map<Id, Time>, member: Id, now: Time, was: Time)
    requires member !in history && was < now
    ensures |Recent(history[member := now], was)| == |Recent(history, was)| + 1
  {
    assert Recent(history[member := now], was) == Recent(history, was)[member := now];
  }

  /** What is left of the counted attempts at a later time. */
  lemma LeaversLeave(times: map<Id, Time>, was: Time, cutoff: Time)
    requires was <= cutoff
    ensures |Recent(times, cutoff)| == |Recent(times, was)| - |Between(times, was, cutoff)|
  {
    var live, left, gone := Recent(times, was), Recent(times, cutoff), Between(times, was, cutoff);
    assert live.Keys == left.Keys + gone.Keys && left.Keys !! gone.Keys;
    assert |live| == |live.Keys| && |left| == |left.Keys| && |gone| == |gone.Keys|;
  }

  /** After an attempt at `now`, allowed or not, a retry with nothing in between is allowed exactly if enough of
      the attempts counted at `now` have left the window: the attempt itself takes a place too. */
  lemma {:induction false} RetryAllowedIff(ops: seq<Op>, member: Id, max: int, w: Time, now: Time, later: Time)
    requires Clock(ops, now) && member !in Attempts(ops) && now <= later < now + w
    ensures Allows(After(ops + [Attempt(member, now)], w), max, w, later)
       <==> |Between(Attempts(ops), now - w, later - w)| >= |Recent(Attempts(ops), now - w)| + 2 - max
  {
    var more := ops + [Attempt(member, now)];
    assert more[..|ops|] == ops;
    CountedIsRecent(more, w, later);
    RecentGrows(Attempts(ops), member, now, later - w);
    LeaversLeave(Attempts(ops), now - w, later - w);
  }

  /** A whole window later any positive limit allows it. */
  lemma {:induction false} RetryAfterWindow(ops: seq<Op>, member: Id, max: int, w: Time, now: Time, later: Time)
    requires Clock(ops, now) && member !in Attempts(ops) && now <= later && now + w <= later
    ensures Allows(After(ops + [Attempt(member, now)], w), max, w, later) <==> 0 < max
  {
    var more := ops + [Attempt(member, now)];
    assert more[..|ops|] == ops;
    AttemptsWithin(ops, now);
    CountedIsRecent(more, w, later);
    assert Recent(Attempts(more), later - w) == map[];
  }

  /** So waiting for any time is enough exactly if, by then, enough of the counted attempts have left, or the
      wait is the whole window. */
  lemma {:induction false} WaitSufficesIff(ops: seq<Op>, member: Id, max: int, w: Time, now: Time, waited: Time)
    requires Clock(ops, now) && member !in Attempts(ops) && 0 <= waited
    ensures Allows(After(ops + [Attempt(member, now)], w), max, w, now + waited)
       <==> if waited < w
            then |Between(Attempts(ops), now - w, now + waited - w)| >= |Recent(Attempts(ops), now - w)| + 2 - max
            else 0 < max
  {
    if waited < w {
      RetryAllowedIff(ops, member, max, w, now, now + waited);
    } else {
      RetryAfterWindow(ops, member, max, w, now, now + waited);
    }
  }

  /** In particular for exactly as long as the limiter says. */
  lemma {:induction false} RetryAfterSufficesIff(ops: seq<Op>, member: Id, max: int, w: Time, now: Time, waited: Time)
    requires Clock(ops, now) && member !in Attempts(ops)
    requires waited == RetryAfter(After(ops, w), member, now, w) * SECOND
    ensures Allows(After(ops + [Attempt(member, now)], w), max, w, now + waited)
       <==> if waited < w
            then |Between(Attempts(ops), now - w, now + waited - w)| >= |Recent(Attempts(ops), now - w)| + 2 - max
            else 0 < max
  {
    WaitSufficesIff(ops, member, max, w, now, waited);
  }

  /** At distinct times at most one attempt has left when the oldest one just leaves. */
  lemma OneLeaves(times: map<Id, Time>, member: Id, now: Time, was: Time, cutoff: Time)
    requires member !in times && Distinct(times[member := now]) && was <= cutoff < now
    requires var live := Recent(times[member := now], was); live != map[] && cutoff <= Oldest(live)
    ensures |Between(times, was, cutoff)| <= 1
  {
    var live, gone := Recent(times[member := now], was), Between(times, was, cutoff);
    if gone != map[] {
      var x :| x in gone;
      forall y | y in gone ensures y == x {
        assert x in live && y in live && times[member := now][x] == times[x] && times[member := now][y] == times[y];
      }
      assert gone.Keys == {x};
      assert |gone| == |gone.Keys|;
    }
  }

  lemma WaitEndsWithOldest(s: Window, member: Id, now: Time, w: Time, live: map<Id, Time>)
    requires live == Live(Attempted(s, member, now, w), now) && live != map[] && Oldest(live) + w - now >= SECOND
    ensures RetryAfter(s, member, now, w) * SECOND <= Oldest(live) + w - now
  {
  }

  /** If the oldest entry is this attempt, there was no other. */
  lemma NothingBefore(times: map<Id, Time>, member: Id, now: Time, was: Time)
    requires member !in times && Distinct(times[member := now]) && Within(times, now) && was < now
    requires var live := Recent(times[member := now], was); live != map[] && now <= Oldest(live)
    ensures Recent(times, was) == map[]
  {
    var all := times[member := now];
    var live := Recent(all, was);
    forall x | x in times ensures times[x] <= was {
      assert all[x] == times[x] && all[member] == now;
      assert was < times[x] ==> x in live;
    }
  }

  /** Until the oldest entry just leaves, too few attempts have left. */
  lemma TooFewLeave(times: map<Id, Time>, member: Id, max: int, w: Time, now: Time, waited: Time, live: map<Id, Time>)
    requires 0 < w && 0 <= waited && member !in times && Distinct(times[member := now]) && Within(times, now)
    requires live == Recent(times[member := now], now - w) && live != map[] && waited <= Oldest(live) + w - now
    requires max <= |Recent(times, now - w)|
    ensures waited < w ==> |Between(times, now - w, now + waited - w)| < |Recent(times, now - w)| + 2 - max
    ensures w <= waited ==> max <= 0
  {
    if waited < w {
      OneLeaves(times, member, now, now - w, now + waited - w);
    } else {
      NothingBefore(times, member, now, now - w);
    }
  }

  lemma {:induction false} NoRoomYet(ops: seq<Op>, member: Id, max: int, w: Time, now: Time, waited: Time, live: map<Id, Time>)
    requires Clock(ops, now) && 0 < w && member !in Attempts(ops) && 0 <= waited
    requires Distinct(Attempts(ops)[member := now]) && max <= |Recent(Attempts(ops), now - w)|
    requires live == Recent(Attempts(ops)[member := now], now - w) && live != map[] && waited <= Oldest(live) + w - now
    ensures !Allows(After(ops + [Attempt(member, now)], w), max, w, now + waited)
  {
    AttemptsWithin(ops, now);
    TooFewLeave(Attempts(ops), member, max, w, now, waited, live);
    WaitSufficesIff(ops, member, max, w, now, waited);
  }

  /** Hence with attempts at distinct times, whoever was rejected and waits for exactly as long as the rejection
      says is rejected again, if the oldest entry had a second or more to live. */
  lemma {:induction false} RetryAfterIsTooShort(ops: seq<Op>, member: Id, max: int, w: Time, now: Time, wait: int)
    requires Clock(ops, now) && 0 < w && member !in Attempts(ops)
    requires Distinct(Attempts(ops)[member := now]) && !Allows(After(ops, w), max, w, now)
    requires wait == RetryAfter(After(ops, w), member, now, w)
    requires var live := Recent(Attempts(ops)[member := now], now - w);
      live != map[] && Oldest(live) + w - now >= SECOND
    ensures !Allows(After(ops + [Attempt(member, now)], w), max, w, now + wait * SECOND)
  {
    var live := Recent(Attempts(ops)[member := now], now - w);
    CountedIsRecent(ops, w, now);
    SetIsWindow(ops, member, w, now);
    WaitEndsWithOldest(After(ops, w), member, now, w, live);
    NoRoomYet(ops, member, max, w, now, wait * SECOND, live);
  }

  /** Waiting for a whole window, as the OAuth limiter asks, is enough. */
  lemma {:induction false} OauthRetrySucceeds(ops: seq<Op>, member: Id, max: int, now: Time)
    requires Clock(ops, now) && 0 < max && member !in Attempts(ops)
    ensures var w := OAUTH_SECONDS * SECOND;
      Allows(After(ops + [Attempt(member, now)], w), max, w, now + w)
  {
    var more := ops + [Attempt(member, now)];
    assert more[..|ops|] == ops;
    AttemptsWithin(ops, now);
    SilenceHelps(more, max, OAUTH_SECONDS * SECOND, now, now + OAUTH_SECONDS * SECOND);
  }
}
