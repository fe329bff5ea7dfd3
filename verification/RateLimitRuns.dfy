/**
 The rate limit over serial runs with a monotone clock.
 */
module RateLimitRuns {
  import Money
  import opened Schema
  import opened OrderRules
  import opened Runs

  // ---- The log over runs ----

  // The user and kind whose rate a successful event uses up, and when.
  function Logged(limit: int, db: Db, e: Event): Option<Operation> {
    match e
    case CreateCall(c) =>
      if CreateOutcome(limit, db, c).result.Ok? then Some(Operation(c.user, CREATE_ORDER, c.at.started)) else None
    case UpdateCall(u) =>
      if UpdateOutcome(limit, db, u).result.Ok? then Some(Operation(u.caller, UPDATE_ORDER, u.at.started)) else None
    case _ => None
  }

  // Successful Creates and Updates append one entry; failed ones and all other events none.
  lemma StepLogs(limit: int, w: World, e: Event)
    ensures Step(limit, w, e).db.ops == w.db.ops + (match Logged(limit, w.db, e) case Some(op) => [op] case None => [])
  {
    assert w.db.ops + [] == w.db.ops;
  }

  lemma LoggedWasNotLimited(limit: int, w: World, e: Event)
    requires Legal(w, e) && Logged(limit, w.db, e).Some?
    ensures var op := Logged(limit, w.db, e).value;
            && w.clock <= op.at <= Step(limit, w, e).clock
            && forall i :: 0 <= i < |w.db.ops| && Matches(w.db.ops[i], op.user, op.kind) ==>
                 op.at - w.db.ops[i].at >= limit
  {
    var op := Logged(limit, w.db, e).value;
    LastOperationIsLatest(w.db.ops, op.user, op.kind);
  }

  // Entries of one user and kind are at least the limit apart, and none is in the future.
  ghost predicate Spaced(limit: int, ops: seq<Operation>) {
    forall i, j :: 0 <= i < j < |ops| && Matches(ops[j], ops[i].user, ops[i].kind) ==> ops[j].at - ops[i].at >= limit
  }

  lemma StepKeepsSpacing(limit: int, w: World, e: Event)
    requires Legal(w, e) && Spaced(limit, w.db.ops)
    ensures Spaced(limit, Step(limit, w, e).db.ops)
  {
    StepLogs(limit, w, e);
    if Logged(limit, w.db, e).Some? {
      LoggedWasNotLimited(limit, w, e);
    }
  }

  lemma {:induction false} RunKeepsSpacing(limit: int, w: World, events: seq<Event>)
    requires LegalRun(limit, w, events) && Spaced(limit, w.db.ops)
    ensures Spaced(limit, Run(limit, w, events).db.ops)
  {
    if events != [] {
      LegalPrefix(limit, w, events);
      RunKeepsSpacing(limit, w, events[..|events| - 1]);
      StepKeepsSpacing(limit, Run(limit, w, events[..|events| - 1]), events[|events| - 1]);
    }
  }

  lemma {:induction false} LogOnlyGrows(limit: int, w: World, events: seq<Event>, i: nat)
    requires i <= |events|
    ensures Run(limit, w, events[..i]).db.ops <= Run(limit, w, events).db.ops
    decreases |events|
  {
    if i == |events| {
      assert events[..i] == events;
    } else {
      var before := events[..|events| - 1];
      assert before[..i] == events[..i];
      LogOnlyGrows(limit, w, before, i);
      StepLogs(limit, Run(limit, w, before), events[|events| - 1]);
    }
  }

  // Two successful Creates by one user, or Updates by one caller, are at least the limit apart.
  lemma SuccessesAreSpaced(limit: int, w: World, events: seq<Event>, i: nat, j: nat)
    requires LegalRun(limit, w, events) && i < j < |events|
    requires Logged(limit, Run(limit, w, events[..i]).db, events[i]).Some?
    requires Logged(limit, Run(limit, w, events[..j]).db, events[j]).Some?
    requires var a, b := Logged(limit, Run(limit, w, events[..i]).db, events[i]).value,
        Logged(limit, Run(limit, w, events[..j]).db, events[j]).value;
             a.user == b.user && a.kind == b.kind
    ensures Logged(limit, Run(limit, w, events[..j]).db, events[j]).value.at
          - Logged(limit, Run(limit, w, events[..i]).db, events[i]).value.at >= limit
  {
    EntryStays(limit, w, events, i, j);
    LoggedWasNotLimited(limit, Run(limit, w, events[..j]), events[j]);
  }

  // The entry of a successful call is still in the log later on.
  lemma EntryStays(limit: int, w: World, events: seq<Event>, i: nat, j: nat)
    requires i < j <= |events| && Logged(limit, Run(limit, w, events[..i]).db, events[i]).Some?
    ensures var n, ops := |Run(limit, w, events[..i]).db.ops|, Run(limit, w, events[..j]).db.ops;
            n < |ops| && ops[n] == Logged(limit, Run(limit, w, events[..i]).db, events[i]).value
  {
    var first := Run(limit, w, events[..i]);
    StepLogs(limit, first, events[i]);
    assert events[..i + 1][..i] == events[..i];
    assert events[..j][..i + 1] == events[..i + 1];
    LogOnlyGrows(limit, w, events[..j], i + 1);
    assert Run(limit, w, events[..i + 1]) == Step(limit, first, events[i]);
  }

  // ---- Windows ----

  predicate InWindowOf(op: Operation, user: UserId, kind: OperationType, from: Time, length: int) {
    Matches(op, user, kind) && from <= op.at <= from + length
  }

  function CountIn(ops: seq<Operation>, user: UserId, kind: OperationType, from: Time, length: int): nat {
    if ops == [] then 0
    else
      var earlier, last := ops[..|ops| - 1], ops[|ops| - 1];
      CountIn(earlier, user, kind, from, length) + (if InWindowOf(last, user, kind, from, length) then 1 else 0)
  }

  // The k-th entry of a window lies at least (k - 1) limits after its start.
  lemma {:induction false} LatestInWindow(limit: int, ops: seq<Operation>, user: UserId, kind: OperationType,
      from: Time, length: int)
    requires Spaced(limit, ops)
    ensures var n := CountIn(ops, user, kind, from, length);
            n > 0 ==> exists i ::
              0 <= i < |ops| && InWindowOf(ops[i], user, kind, from, length) && ops[i].at >= from + (n - 1) * limit
  {
    if ops != [] {
      var last := |ops| - 1;
      var n := CountIn(ops[..last], user, kind, from, length);
      LatestInWindow(limit, ops[..last], user, kind, from, length);
      if n > 0 {
        var i :| 0 <= i < last && InWindowOf(ops[..last][i], user, kind, from, length)
            && ops[..last][i].at >= from + (n - 1) * limit;
        assert InWindowOf(ops[i], user, kind, from, length);
      }
      if InWindowOf(ops[last], user, kind, from, length) {
        assert CountIn(ops, user, kind, from, length) == n + 1;
        OneMore(n, limit);
        assert ops[last].at >= from + n * limit;
      }
    }
  }

  lemma OneMore(n: nat, limit: int)
    ensures n * limit == (n - 1) * limit + limit
  {
  }

  lemma DivideBound(n: nat, limit: int, length: int)
    requires limit > 0 && n * limit <= length
    ensures n <= length / limit
  {
    var q := length / limit;
    OneMore(q + 1, limit);
    if q + 1 <= n {
      Money.MulMonotone(q + 1, n, limit);
    }
  }

  lemma WindowBound(limit: int, ops: seq<Operation>, user: UserId, kind: OperationType, from: Time, length: int)
    requires Spaced(limit, ops) && limit > 0 && length >= 0
    ensures CountIn(ops, user, kind, from, length) <= length / limit + 1
  {
    var n := CountIn(ops, user, kind, from, length);
    LatestInWindow(limit, ops, user, kind, from, length);
    if n > 0 {
      var i :| 0 <= i < |ops| && InWindowOf(ops[i], user, kind, from, length) && ops[i].at >= from + (n - 1) * limit;
      DivideBound(n - 1, limit, length);
    }
  }

  // One if this event succeeds as such a call within the window.
  function NewInWindow(limit: int, db: Db, e: Event, user: UserId, kind: OperationType, from: Time, length: int): nat {
    var op := Logged(limit, db, e);
    if op.Some? && InWindowOf(op.value, user, kind, from, length) then 1 else 0
  }

  // Successful calls of one kind by one user whose transactions start in the window.
  function SuccessesIn(limit: int, w: World, events: seq<Event>, user: UserId, kind: OperationType, from: Time,
      length: int): nat {
    if events == [] then 0
    else
      var before := events[..|events| - 1];
      SuccessesIn(limit, w, before, user, kind, from, length)
      + NewInWindow(limit, Run(limit, w, before).db, events[|events| - 1], user, kind, from, length)
  }

  lemma StepCounts(limit: int, w: World, e: Event, user: UserId, kind: OperationType, from: Time, length: int)
    ensures CountIn(Step(limit, w, e).db.ops, user, kind, from, length)
         == CountIn(w.db.ops, user, kind, from, length) + NewInWindow(limit, w.db, e, user, kind, from, length)
  {
    StepLogs(limit, w, e);
    if Logged(limit, w.db, e).Some? {
      CountOneMore(w.db.ops, Logged(limit, w.db, e).value, user, kind, from, length);
    } else {
      assert w.db.ops + [] == w.db.ops;
    }
  }

  lemma CountOneMore(ops: seq<Operation>, op: Operation, user: UserId, kind: OperationType, from: Time, length: int)
    ensures CountIn(ops + [op], user, kind, from, length)
         == CountIn(ops, user, kind, from, length) + (if InWindowOf(op, user, kind, from, length) then 1 else 0)
  {
    assert (ops + [op])[..|ops|] == ops;
  }

  lemma {:induction false} LogCountsSuccesses(limit: int, w: World, events: seq<Event>, user: UserId,
      kind: OperationType, from: Time, length: int)
    ensures CountIn(Run(limit, w, events).db.ops, user, kind, from, length)
         == CountIn(w.db.ops, user, kind, from, length) + SuccessesIn(limit, w, events, user, kind, from, length)
  {
    if events != [] {
      var before := events[..|events| - 1];
      LogCountsSuccesses(limit, w, before, user, kind, from, length);
      StepCounts(limit, Run(limit, w, before), events[|events| - 1], user, kind, from, length);
    }
  }

  // At most floor(length / limit) + 1 successful Creates (or Updates) per user fit in a window.
  lemma SuccessesPerWindow(limit: int, w: World, events: seq<Event>, user: UserId, kind: OperationType, from: Time,
      length: int)
    requires LegalRun(limit, w, events) && Spaced(limit, w.db.ops) && limit > 0 && length >= 0
    ensures SuccessesIn(limit, w, events, user, kind, from, length) <= length / limit + 1
  {
    RunKeepsSpacing(limit, w, events);
    LogCountsSuccesses(limit, w, events, user, kind, from, length);
    WindowBound(limit, Run(limit, w, events).db.ops, user, kind, from, length);
  }
}
