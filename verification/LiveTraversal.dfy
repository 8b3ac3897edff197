/** Paging through the write side's payments while transactions commit. */
module LiveTraversal {
  import opened Domain
  import opened CoreTables
  import opened Pagination

  predicate NotAfter(c: Core, time: Time) { forall p :: p in c.payments ==> c.payments[p].updatedAt <= time }

  /** A row keeps what a filter without a status looks at. */
  predicate SameRow(was: Payment, row: Payment) {
    was.via == row.via && was.createdAt == row.createdAt && was.updatedAt <= row.updatedAt
  }

  /** A row stays, with its key or with a new time, which is that of the transaction. */
  ghost predicate KeyMoved(c: Core, d: Core, now: Time, p: Id) {
    && (p in d.payments ==> d.payments[p].updatedAt <= now)
    && (p in c.payments ==>
         p in d.payments && SameRow(c.payments[p], d.payments[p])
           && (d.payments[p].updatedAt == c.payments[p].updatedAt || d.payments[p].updatedAt == now))
  }

  lemma EffectMovesKey(c: Core, command: Command, now: Time, p: Id)
    requires EffectOf(c, command, now).Does? && NotAfter(c, now)
    ensures KeyMoved(c, EffectOf(c, command, now).core, now, p)
  {
  }

  /** What a commit does to one payment's key. */
  lemma CommitMovesKey(c: Core, tx: Tx, p: Id)
    requires Execute(c, tx).Ok? && NotAfter(c, tx.now)
    ensures KeyMoved(c, Execute(c, tx).core, tx.now, p)
  {
    EffectMovesKey(c, tx.command, tx.now, p);
  }

  lemma CommitNotAfter(c: Core, tx: Tx)
    requires Execute(c, tx).Ok? && NotAfter(c, tx.now)
    ensures NotAfter(Execute(c, tx).core, tx.now)
  {
    var d := Execute(c, tx).core;
    forall p | p in d.payments ensures d.payments[p].updatedAt <= tx.now { CommitMovesKey(c, tx, p); }
  }

  lemma {:induction false} AllNotAfter(start: Core, history: seq<Tx>, from: Time, time: Time)
    requires NotAfter(start, from) && Increasing(from, history) && from <= time
    requires forall i :: 0 <= i < |history| ==> history[i].now <= time
    ensures NotAfter(Run(start, history), time)
  {
    if history != [] {
      var before, tx := history[..|history| - 1], history[|history| - 1];
      AllNotAfter(start, before, from, tx.now);
      var c := Run(start, before);
      if Execute(c, tx).Ok? { CommitNotAfter(c, tx); }
    }
  }

  /** From one point of a history to a later one, keys only move to times after everything seen before. */
  lemma {:induction false} HistoryMoves(start: Core, history: seq<Tx>, from: Time, a: nat, b: nat, p: Id)
    requires NotAfter(start, from) && Increasing(from, history) && a <= b <= |history|
    requires p in Run(start, history[..a]).payments
    ensures var was, now := Run(start, history[..a]).payments, Run(start, history[..b]).payments;
      && p in now && SameRow(was[p], now[p])
      && (now[p].updatedAt == was[p].updatedAt || LaterThanAll(was, now[p].updatedAt))
  {
    if a < b {
      HistoryMoves(start, history, from, a, b - 1, p);
      var c, tx := Run(start, history[..b - 1]), history[b - 1];
      assert history[..b][..b - 1] == history[..b - 1];
      OlderThanNext(start, history, from, a, b - 1);
      OlderThanNext(start, history, from, b - 1, b - 1);
      if Execute(c, tx).Ok? { CommitMovesKey(c, tx, p); }
    }
  }

  lemma {:induction false} OlderThanNext(start: Core, history: seq<Tx>, from: Time, a: nat, b: nat)
    requires NotAfter(start, from) && Increasing(from, history) && a <= b < |history|
    ensures LaterThanAll(Run(start, history[..a]).payments, history[b].now)
    ensures NotAfter(Run(start, history[..a]), history[b].now)
  {
    AllNotAfter(start, history[..a], from, history[b].now - 1);
  }

  /** The tables that the fetches see: the k-th one after the first `cuts[k]` transactions. */
  function Seen(start: Core, history: seq<Tx>, cuts: seq<nat>): seq<Table>
    requires forall i :: 0 <= i < |cuts| ==> cuts[i] <= |history|
  {
    seq(|cuts|, i requires 0 <= i < |cuts| => Run(start, history[..cuts[i]]).payments)
  }

  ghost predicate Cuts(history: seq<Tx>, cuts: seq<nat>) {
    && (forall i :: 0 <= i < |cuts| ==> cuts[i] <= |history|)
    && (forall i, j :: 0 <= i <= j < |cuts| ==> cuts[i] <= cuts[j])
  }

  lemma SeenMoves(start: Core, history: seq<Tx>, from: Time, cuts: seq<nat>)
    requires NotAfter(start, from) && Increasing(from, history) && Cuts(history, cuts)
    ensures AllMove(Seen(start, history, cuts))
  {
    var tables := Seen(start, history, cuts);
    forall i | 0 <= i < |tables| - 1 ensures MovesAt(tables, i) {
      forall p | p in tables[i]
        ensures p in tables[i + 1]
          && (tables[i + 1][p].updatedAt == tables[i][p].updatedAt || LaterThanAll(tables[i], tables[i + 1][p].updatedAt))
      {
        HistoryMoves(start, history, from, cuts[i], cuts[i + 1], p);
      }
    }
  }

  lemma KeepsMatching(start: Core, history: seq<Tx>, from: Time, cuts: seq<nat>, f: Filter, p: Id)
    requires NotAfter(start, from) && Increasing(from, history) && Cuts(history, cuts) && cuts != [] && f.status == None
    requires p in Seen(start, history, cuts)[0] && Matches(f, Seen(start, history, cuts)[0][p])
    ensures AlwaysMatches(Seen(start, history, cuts), f, p)
  {
    var tables := Seen(start, history, cuts);
    forall i | 0 <= i < |tables| ensures p in tables[i] && Matches(f, tables[i][p]) {
      HistoryMoves(start, history, from, cuts[0], cuts[i], p);
    }
  }

  /** While the merchant's transactions go on, at increasing times, a traversal that comes to an end has
      returned every payment that was there when it began and kept matching the filter. */
  lemma {:induction false} NoPaymentSkipped(profile: Profile, eventId: Id, now: Time, history: seq<Tx>, cuts: seq<nat>,
                                            pages: seq<Page>, f: Filter, limit: nat, p: Id)
    requires Increasing(now, history) && Cuts(history, cuts) && 0 < limit
    requires var tables := Seen(Genesis(profile, eventId, now), history, cuts);
      Session(tables, pages, f, limit) && AlwaysMatches(tables, f, p)
    ensures Returned(pages, p)
  {
    SeenMoves(Genesis(profile, eventId, now), history, now, cuts);
    NoRowSkipped(Seen(Genesis(profile, eventId, now), history, cuts), pages, f, limit, p);
  }

  /** Without a status in the filter it is enough that the payment matched when the traversal began. */
  lemma {:induction false} NoPaymentSkippedFromStart(profile: Profile, eventId: Id, now: Time, history: seq<Tx>,
                                                     cuts: seq<nat>, pages: seq<Page>, f: Filter, limit: nat, p: Id)
    requires Increasing(now, history) && Cuts(history, cuts) && f.status == None && 0 < limit
    requires var tables := Seen(Genesis(profile, eventId, now), history, cuts);
      Session(tables, pages, f, limit) && p in tables[0] && Matches(f, tables[0][p])
    ensures Returned(pages, p)
  {
    KeepsMatching(Genesis(profile, eventId, now), history, now, cuts, f, p);
    NoPaymentSkipped(profile, eventId, now, history, cuts, pages, f, limit, p);
  }
}
