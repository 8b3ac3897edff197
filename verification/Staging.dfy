/** First occurrences on a log, against the order of an outbox. */
module Staging {
  import opened Domain
  import opened CoreInvariants

  /** How many outbox records the log has shown so far. */
  function High(log: seq<Record>, outbox: seq<Record>): nat {
    if log == [] then 0
    else
      var h := High(log[..|log| - 1], outbox);
      if h < |outbox| && log[|log| - 1] == outbox[h] then h + 1 else h
  }

  /** Every message is a record that was shown before, or the very next one. */
  predicate Staged(log: seq<Record>, outbox: seq<Record>) {
    log == [] || (
      && Staged(log[..|log| - 1], outbox)
      && High(log, outbox) <= |outbox| && log[|log| - 1] in outbox[..High(log, outbox)])
  }

  /** What a batch puts on the log: the records from `from` on whose send was accepted. */
  function SentOf(outbox: seq<Record>, from: nat, accepted: seq<bool>): seq<Record>
    requires from + |accepted| <= |outbox|
  {
    if accepted == [] then []
    else
      var n := |accepted| - 1;
      SentOf(outbox, from, accepted[..n]) + (if accepted[n] then [outbox[from + n]] else [])
  }

  lemma {:induction false} HighWithin(log: seq<Record>, outbox: seq<Record>)
    ensures High(log, outbox) <= |outbox|
  {
    if log != [] { HighWithin(log[..|log| - 1], outbox); }
  }

  lemma {:induction false} StagedPrefix(log: seq<Record>, outbox: seq<Record>, n: nat)
    requires Staged(log, outbox) && n <= |log|
    ensures Staged(log[..n], outbox) && High(log[..n], outbox) <= High(log, outbox)
  {
    if n == |log| {
      assert log[..n] == log;
    } else {
      var before := log[..|log| - 1];
      StagedPrefix(before, outbox, n);
      assert before[..n] == log[..n];
    }
  }

  // ---------- One message ----------

  lemma {:induction false} HighAfter(log: seq<Record>, outbox: seq<Record>, r: Record)
    ensures var h := High(log, outbox);
      High(log + [r], outbox) == if h < |outbox| && r == outbox[h] then h + 1 else h
  {
    assert (log + [r])[..|log + [r]| - 1] == log;
  }

  lemma {:induction false} StagedAfter(log: seq<Record>, outbox: seq<Record>, r: Record)
    requires Staged(log, outbox)
    ensures High(log, outbox) <= |outbox|
    ensures var h := High(log, outbox);
      Staged(log + [r], outbox) <==> r in outbox[..h] || (h < |outbox| && r == outbox[h])
  {
    HighWithin(log, outbox);
    HighAfter(log, outbox, r);
    assert (log + [r])[..|log + [r]| - 1] == log;
  }

  /** A record may follow exactly if it is at or before the front. */
  lemma {:induction false} MessageStagedIff(log: seq<Record>, outbox: seq<Record>, q: nat)
    requires Staged(log, outbox) && UniqueIds(outbox) && q < |outbox|
    ensures var h := High(log, outbox);
      && (Staged(log + [outbox[q]], outbox) <==> q <= h)
      && High(log + [outbox[q]], outbox) == if q == h then h + 1 else h
  {
    var h := High(log, outbox);
    StagedAfter(log, outbox, outbox[q]);
    HighAfter(log, outbox, outbox[q]);
    ShownIff(outbox, h, q);
  }

  lemma ShownIff(outbox: seq<Record>, h: nat, q: nat)
    requires UniqueIds(outbox) && h <= |outbox| && q < |outbox|
    ensures outbox[q] in outbox[..h] <==> q < h
    ensures h < |outbox| ==> (outbox[q] == outbox[h] <==> q == h)
  {
    if q < h { assert outbox[..h][q] == outbox[q]; }
  }

  lemma {:induction false} OneMoreMessage(outbox: seq<Record>, from: nat, accepted: seq<bool>, log: seq<Record>)
    requires accepted != [] && from + |accepted| <= |outbox|
    ensures var n := |accepted| - 1;
      log + SentOf(outbox, from, accepted)
        == (log + SentOf(outbox, from, accepted[..n])) + (if accepted[n] then [outbox[from + n]] else [])
  {
  }

  // ---------- A whole batch ----------

  /** Nothing between the front and this position was left out. */
  predicate ClosedAt(h: nat, from: nat, accepted: seq<bool>, j: nat)
    requires j < |accepted|
  {
    accepted[j] && h <= from + j ==> h >= from && forall i :: h - from <= i < j ==> accepted[i]
  }

  /** No accepted send lies behind a new record that was not accepted. */
  predicate GapFree(h: nat, from: nat, accepted: seq<bool>) {
    forall j :: 0 <= j < |accepted| ==> ClosedAt(h, from, accepted, j)
  }

  /** Where the front is after a batch without a gap: behind the first new record that was not accepted. */
  predicate Front(h: nat, from: nat, accepted: seq<bool>, front: nat) {
    && h <= front
    && (h < front ==> from <= h && front <= from + |accepted|)
    && (forall i :: 0 <= i < |accepted| && h <= from + i < front ==> accepted[i])
    && (from <= front < from + |accepted| ==> !accepted[front - from])
  }

  lemma GapFreePrefix(h: nat, from: nat, accepted: seq<bool>, n: nat)
    requires n + 1 == |accepted|
    ensures GapFree(h, from, accepted) <==> GapFree(h, from, accepted[..n]) && ClosedAt(h, from, accepted, n)
  {
    if GapFree(h, from, accepted[..n]) && ClosedAt(h, from, accepted, n) {
      forall j | 0 <= j < |accepted| ensures ClosedAt(h, from, accepted, j) {
        if j < n { assert ClosedAt(h, from, accepted[..n], j); }
      }
    }
    if GapFree(h, from, accepted) {
      forall j | 0 <= j < n ensures ClosedAt(h, from, accepted[..n], j) { assert ClosedAt(h, from, accepted, j); }
    }
  }

  /** At the last position: closed exactly if it is not beyond the front, */
  lemma ClosedIff(h: nat, from: nat, accepted: seq<bool>, n: nat, front: nat)
    requires n + 1 == |accepted| && Front(h, from, accepted[..n], front) && accepted[n]
    ensures ClosedAt(h, from, accepted, n) <==> from + n <= front
  {
    var before := accepted[..n];
    if h <= from + n && from <= h {
      if from + n <= front {
        forall i | h - from <= i < n ensures accepted[i] { assert before[i] == accepted[i]; }
      } else if from <= front {
        assert !before[front - from];
      }
    }
  }

  /** which then moves past it, if it was the front. */
  lemma FrontMoves(h: nat, from: nat, accepted: seq<bool>, n: nat, front: nat)
    requires n + 1 == |accepted| && Front(h, from, accepted[..n], front) && (accepted[n] ==> from + n <= front)
    ensures Front(h, from, accepted, if accepted[n] && from + n == front then front + 1 else front)
  {
    var before := accepted[..n];
    assert forall i :: 0 <= i < n ==> before[i] == accepted[i];
  }

  /** The order survives a batch exactly if there is no gap; then the front is where it should be. */
  predicate BatchOutcome(after: seq<Record>, outbox: seq<Record>, h: nat, from: nat, accepted: seq<bool>) {
    && (Staged(after, outbox) <==> GapFree(h, from, accepted))
    && (Staged(after, outbox) ==> Front(h, from, accepted, High(after, outbox)))
  }

  /** What a batch with rejected sends does to the order. */
  lemma {:induction false} SendStagedIff(log: seq<Record>, outbox: seq<Record>, from: nat, accepted: seq<bool>)
    requires Staged(log, outbox) && UniqueIds(outbox) && from + |accepted| <= |outbox|
    ensures BatchOutcome(log + SentOf(outbox, from, accepted), outbox, High(log, outbox), from, accepted)
  {
    var h, after := High(log, outbox), log + SentOf(outbox, from, accepted);
    if accepted == [] {
      assert after == log;
    } else {
      var n := |accepted| - 1;
      var sent := log + SentOf(outbox, from, accepted[..n]);
      SendStagedIff(log, outbox, from, accepted[..n]);
      OneMoreMessage(outbox, from, accepted, log);
      BatchStep(sent, after, outbox, h, from, accepted, n);
    }
  }

  lemma {:induction false} BatchStep(sent: seq<Record>, after: seq<Record>, outbox: seq<Record>, h: nat, from: nat,
                                     accepted: seq<bool>, n: nat)
    requires n + 1 == |accepted| && UniqueIds(outbox) && from + |accepted| <= |outbox|
    requires BatchOutcome(sent, outbox, h, from, accepted[..n])
    requires after == sent + (if accepted[n] then [outbox[from + n]] else [])
    ensures BatchOutcome(after, outbox, h, from, accepted)
  {
    GapFreePrefix(h, from, accepted, n);
    SendStep(sent, outbox, from, accepted, n, h);
  }

  lemma {:induction false} SendStep(sent: seq<Record>, outbox: seq<Record>, from: nat, accepted: seq<bool>, n: nat, h: nat)
    requires n + 1 == |accepted| && UniqueIds(outbox) && from + |accepted| <= |outbox|
    requires Staged(sent, outbox) ==> Front(h, from, accepted[..n], High(sent, outbox))
    ensures var after := sent + (if accepted[n] then [outbox[from + n]] else []);
      && (Staged(after, outbox) <==> Staged(sent, outbox) && ClosedAt(h, from, accepted, n))
      && (Staged(after, outbox) ==> Front(h, from, accepted, High(after, outbox)))
  {
    if !accepted[n] {
      assert sent + [] == sent;
      if Staged(sent, outbox) { FrontMoves(h, from, accepted, n, High(sent, outbox)); }
    } else if Staged(sent, outbox) {
      var front := High(sent, outbox);
      MessageStagedIff(sent, outbox, from + n);
      ClosedIff(h, from, accepted, n, front);
      if from + n <= front { FrontMoves(h, from, accepted, n, front); }
    } else {
      NotStagedAgain(sent, outbox, [outbox[from + n]]);
    }
  }

  /** A log out of order stays out of order, */
  lemma {:induction false} NotStagedAgain(log: seq<Record>, outbox: seq<Record>, more: seq<Record>)
    requires !Staged(log, outbox)
    ensures !Staged(log + more, outbox)
  {
    assert (log + more)[..|log|] == log;
    if Staged(log + more, outbox) { StagedPrefix(log + more, outbox, |log|); }
  }

  /** also when the outbox grows, by a record nobody has seen. */
  lemma {:induction false} GrowthKeepsStaged(log: seq<Record>, outbox: seq<Record>, r: Record)
    requires r !in outbox && r !in log
    ensures High(log, outbox + [r]) == High(log, outbox) <= |outbox|
    ensures Staged(log, outbox + [r]) <==> Staged(log, outbox)
  {
    HighWithin(log, outbox);
    if log != [] {
      var before := log[..|log| - 1];
      GrowthKeepsStaged(before, outbox, r);
      assert log[|log| - 1] != r;
      var h := High(log, outbox);
      assert outbox[..h] == (outbox + [r])[..h];
    }
  }

  /** A batch whose rows are then marked: the marks stay within what was shown exactly if no new send raised. */
  predicate NewAccepted(h: nat, from: nat, accepted: seq<bool>) {
    forall j :: 0 <= j < |accepted| && h <= from + j ==> accepted[j]
  }

  lemma MarksWithinIff(h: nat, from: nat, accepted: seq<bool>, front: nat)
    requires from <= h && Front(h, from, accepted, front)
    ensures from + |accepted| <= front <==> NewAccepted(h, from, accepted)
  {
    if from + |accepted| > front { assert !accepted[front - from]; }
  }

  // ---------- Reading a log in order ----------

  lemma {:induction false} MessageShown(log: seq<Record>, outbox: seq<Record>, n: nat)
    requires Staged(log, outbox) && n < |log|
    ensures var h := High(log[..n], outbox);
      && h <= |outbox| && (log[n] in outbox[..h] || (h < |outbox| && log[n] == outbox[h]))
      && High(log[..n + 1], outbox) == if h < |outbox| && log[n] == outbox[h] then h + 1 else h
  {
    StagedPrefix(log, outbox, n);
    StagedPrefix(log, outbox, n + 1);
    assert log[..n + 1] == log[..n] + [log[n]];
    StagedAfter(log[..n], outbox, log[n]);
    HighAfter(log[..n], outbox, log[n]);
  }

  lemma ShownHasId(outbox: seq<Record>, h: nat, r: Record)
    requires h <= |outbox| && r in outbox[..h]
    ensures r.id in Ids(outbox[..h])
  {
    var i :| 0 <= i < h && outbox[..h][i] == r;
  }

  /** Behind `reach` everything has been shown. */
  lemma {:induction false} BehindIsShown(log: seq<Record>, outbox: seq<Record>, reach: nat, n: nat)
    requires Staged(log, outbox) && n < reach <= |log|
    ensures High(log[..reach], outbox) <= |outbox| && log[n].id in Ids(outbox[..High(log[..reach], outbox)])
  {
    StagedPrefix(log, outbox, reach);
    HighWithin(log[..reach], outbox);
    MessageShown(log[..reach], outbox, n);
    StagedPrefix(log[..reach], outbox, n + 1);
    ShownHasId(outbox, High(log[..reach], outbox), log[n]);
  }

  /** At `reach` there is a duplicate, or the next record of the outbox. */
  lemma {:induction false} AtReach(log: seq<Record>, outbox: seq<Record>, reach: nat)
    requires Staged(log, outbox) && UniqueIds(outbox) && reach < |log|
    ensures var h, after := High(log[..reach], outbox), High(log[..reach + 1], outbox);
      && h <= |outbox| && after <= |outbox|
      && (log[reach].id in Ids(outbox[..h]) ==> after == h)
      && (log[reach].id !in Ids(outbox[..h]) ==> h < |outbox| && log[reach] == outbox[h] && after == h + 1)
  {
    MessageShown(log, outbox, reach);
    var h := High(log[..reach], outbox);
    if log[reach] in outbox[..h] { ShownHasId(outbox, h, log[reach]); }
  }

  /** A message that does not belong to the prefix processed so far is the next record of the outbox. */
  lemma {:induction false} UnseenIsNext(log: seq<Record>, outbox: seq<Record>, reach: nat, position: nat, h: nat)
    requires Staged(log, outbox) && UniqueIds(outbox) && position <= reach <= |log| && position < |log|
    requires h == High(log[..reach], outbox) <= |outbox| && log[position].id !in Ids(outbox[..h])
    ensures position == reach && h < |outbox| && log[position] == outbox[h] && High(log[..reach + 1], outbox) == h + 1
  {
    if position < reach { BehindIsShown(log, outbox, reach, position); }
    AtReach(log, outbox, reach);
  }
}
