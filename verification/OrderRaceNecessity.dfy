/** Reachable late fills and overfills when callers keep to less, and the exact conditions. */
module OrderRaceNecessity {
  import opened Wrappers
  import opened Sums
  import LedgerAdmits
  import LedgerGuards
  import opened OrderRaces
  import opened OrderRaceLaws

  lemma StartReachable(callers: Callers)
    ensures Reachable(callers, Start)
  {
    assert RunSteps(callers, Start, []) == Start;
  }

  lemma StepReaches(callers: Callers, s: State, step: Step, t: State)
    requires Reachable(callers, s) && Next(callers, s, step) == Some(t)
    ensures Reachable(callers, t)
  {
    hide Next;
    var steps :| RunSteps(callers, Start, steps) == s;
    assert (steps + [step])[..|steps|] == steps;
    assert RunSteps(callers, Start, steps + [step]) == t;
  }

  const Accept := Mark(LedgerGuards.Created, LedgerGuards.Accepted, 0.0)
  const Part := Mark(LedgerGuards.Accepted, LedgerGuards.PartiallyFilled, 2.0)
  const Cancel := Mark(LedgerGuards.PartiallyFilled, LedgerGuards.Cancelled, 2.0)

  function Writer(marks: seq<Mark>): Transaction {
    Transaction(marks, [], {}, false, Writing)
  }

  /** A transaction with a fill of 2, booked in an account, at some point of its commit. */
  function Filler(account: AccountId, at: Phase): Transaction {
    Transaction([], [Fill(account, 2.0)], {account}, false, at)
  }

  /** The order is accepted and declared filled up to 2; no fill is recorded yet. */
  lemma Declared(callers: Callers)
    requires !callers.lock
    ensures Reachable(callers, State([Accept, Part], [], [], map[]))
  {
    hide Reachable, Total;
    StartReachable(callers);
    var s0 := State([], [], [], map[1 := Writer([])]);
    assert Put(Start, 1, Writer([])) == s0;
    StepReaches(callers, Start, Step(1, Begin), s0);
    var s1 := State([], [], [], map[1 := Writer([Accept])]);
    assert Put(s0, 1, Writer([Accept])) == s1 && [] + [Accept] == [Accept];
    StepReaches(callers, s0, Step(1, AppendMark(Accept)), s1);
    var s2 := State([], [], [], map[1 := Writer([Accept, Part])]);
    assert Put(s1, 1, Writer([Accept, Part])) == s2 && [Accept] + [Part] == [Accept, Part];
    StepReaches(callers, s1, Step(1, AppendMark(Part)), s2);
    var s3 := State([Accept, Part], [], [], map[]);
    assert CommitOf(s2, 1) == s3;
    StepReaches(callers, s2, Step(1, Commit), s3);
  }

  lemma TotalOfOne(account: AccountId)
    ensures Total([Fill(account, 2.0)]) == 2.0
  {
    var fills := [Fill(account, 2.0)];
    assert fills[..0] == [] && Sum(fills, QuantityOf) == Sum(fills[..0], QuantityOf) + QuantityOf(fills[0]);
  }

  /** A fresh transaction inserts a fill of 2 and books it, in an account no other transaction is booking. */
  lemma FillWritten(callers: Callers, s: State, x: Id, account: AccountId)
    requires Reachable(callers, s) && !callers.lock && (callers.oneAccount ==> account == Own) && x !in s.active
    requires forall y | y in s.active :: account !in s.active[y].booked
    ensures Reachable(callers, Put(s, x, Filler(account, Writing)))
  {
    hide Reachable, RunSteps, Total;
    var f := Fill(account, 2.0);
    var s0 := Put(s, x, Writer([]));
    StepReaches(callers, s, Step(x, Begin), s0);
    var s1 := Put(s, x, Transaction([], [f], {}, false, Writing));
    assert Put(s0, x, Transaction([], [f], {}, false, Writing)) == s1 && [] + [f] == [f];
    StepReaches(callers, s0, Step(x, InsertFill(f)), s1);
    assert {} + {account} == {account};
    assert Put(s1, x, Filler(account, Writing)) == Put(s, x, Filler(account, Writing));
    StepReaches(callers, s1, Step(x, PostJournal(account)), Put(s, x, Filler(account, Writing)));
  }

  /** Its deferred check finds the declared 2 and the fill of 2. */
  lemma FillChecked(callers: Callers, s: State, x: Id, account: AccountId)
    requires Reachable(callers, s) && !callers.lock && (callers.oneAccount ==> account == Own) && x !in s.active
    requires s.log == [Accept, Part] && s.fills == []
    requires forall y | y in s.active :: account !in s.active[y].booked
    ensures Reachable(callers, Put(s, x, Filler(account, Checked)))
  {
    hide Reachable, RunSteps, Total;
    var s0 := Put(s, x, Filler(account, Writing));
    FillWritten(callers, s, x, account);
    var s1 := Put(s, x, Filler(account, LatestRead(Some(Part))));
    assert s.log + [] == s.log;
    assert Put(s0, x, Filler(account, LatestRead(Some(Part)))) == s1;
    StepReaches(callers, s0, Step(x, ReadLatest), s1);
    TotalOfOne(account);
    assert s.fills + [Fill(account, 2.0)] == [Fill(account, 2.0)];
    assert Put(s1, x, Filler(account, Checked)) == Put(s, x, Filler(account, Checked));
    StepReaches(callers, s1, Step(x, ReadTotal), Put(s, x, Filler(account, Checked)));
  }

  /** Between a fill's check and its commit, another transaction starts to cancel the order. */
  lemma CancelWritten(callers: Callers)
    requires !callers.lock
    ensures Reachable(callers, State([Accept, Part], [], [], map[1 := Writer([Cancel]), 2 := Filler(Own, Checked)]))
  {
    hide Reachable, RunSteps, Total;
    var s0, filler := State([Accept, Part], [], [], map[]), Filler(Own, Checked);
    Declared(callers);
    FillChecked(callers, s0, 2, Own);
    var s1 := State([Accept, Part], [], [], map[2 := filler]);
    assert Put(s0, 2, filler) == s1;
    var s2 := State([Accept, Part], [], [], map[1 := Writer([]), 2 := filler]);
    assert Put(s1, 1, Writer([])) == s2;
    StepReaches(callers, s1, Step(1, Begin), s2);
    var s3 := State([Accept, Part], [], [], map[1 := Writer([Cancel]), 2 := filler]);
    assert Put(s2, 1, Writer([Cancel])) == s3 && [] + [Cancel] == [Cancel] && [Accept, Part] + [] == [Accept, Part];
    StepReaches(callers, s2, Step(1, AppendMark(Cancel)), s3);
  }

  /** Without the lock the cancellation commits first, and then the fill. */
  lemma LateFill(callers: Callers) returns (bad: State)
    requires !callers.lock
    ensures Reachable(callers, bad) && !NoFillAfterEnd(bad)
  {
    hide Reachable, RunSteps, Total, Follows, Journaled;
    CancelWritten(callers);
    var s0 := State([Accept, Part], [], [], map[1 := Writer([Cancel]), 2 := Filler(Own, Checked)]);
    var s1 := State([Accept, Part, Cancel], [], [], map[2 := Filler(Own, Checked)]);
    assert CommitOf(s0, 1) == s1 by {
      assert [Accept, Part] + [Cancel] == [Accept, Part, Cancel] && s0.active - {1} == s1.active;
    }
    StepReaches(callers, s0, Step(1, Commit), s1);
    bad := CommitOf(s1, 2);
    StepReaches(callers, s1, Step(2, Commit), bad);
    assert bad.log[2] == Cancel && bad.after[0] == 3;
  }

  /** Two fills of 2 in different accounts each match the declared 2, and both commit. */
  lemma DoubleFill(callers: Callers) returns (bad: State)
    requires !callers.lock && !callers.oneAccount
    ensures Reachable(callers, bad) && !NotOverfilled(bad)
  {
    hide Reachable, RunSteps;
    var s0 := State([Accept, Part], [], [], map[]);
    Declared(callers);
    FillChecked(callers, s0, 1, 0);
    var s1 := Put(s0, 1, Filler(0, Checked));
    FillChecked(callers, s1, 2, 1);
    var s2 := Put(s1, 2, Filler(1, Checked));
    var s3 := CommitOf(s2, 1);
    StepReaches(callers, s2, Step(1, Commit), s3);
    bad := CommitOf(s3, 2);
    StepReaches(callers, s3, Step(2, Commit), bad);
    var one, two := [Fill(0, 2.0)], [Fill(0, 2.0), Fill(1, 2.0)];
    TotalOfOne(0);
    assert two[..1] == one && Total(two) == Total(one) + 2.0;
    assert bad.fills == two && bad.log == [Accept, Part];
  }

  /** Fills never follow the order's end, in every reachable state, exactly when writers lock the account first. */
  lemma EndIsSafeExactly(callers: Callers)
    ensures (forall s | Reachable(callers, s) :: NoFillAfterEnd(s)) <==> callers.lock
  {
    hide NoFillAfterEnd, NotOverfilled, RunSteps;
    if callers.lock {
      forall s | Reachable(callers, s) ensures NoFillAfterEnd(s) {
        var steps :| RunSteps(callers, Start, steps) == s;
        LockedRun(callers, steps);
      }
    } else {
      var bad := LateFill(callers);
    }
  }

  /** An order is never overfilled exactly when writers lock the account or all its fills are in one account. */
  lemma FillIsSafeExactly(callers: Callers)
    ensures (forall s | Reachable(callers, s) :: NotOverfilled(s)) <==> callers.lock || callers.oneAccount
  {
    hide NoFillAfterEnd, NotOverfilled, RunSteps;
    if callers.lock || callers.oneAccount {
      forall s | Reachable(callers, s) ensures NotOverfilled(s) {
        var steps :| RunSteps(callers, Start, steps) == s;
        if callers.lock {
          LockedRun(callers, steps);
        } else {
          BookedRun(callers, steps);
        }
      }
    } else {
      var bad := DoubleFill(callers);
    }
  }

  // What goes through, however callers behave and whatever else is in progress

  /** The order's legal next event. */
  ghost predicate NextMark(log: seq<Mark>, m: Mark) {
    && (m.from, m.to) in LedgerAdmits.Steps
    && if log == [] then m.from == LedgerGuards.Created
       else m.from == log[|log| - 1].to && log[|log| - 1].cumulative <= m.cumulative
  }

  /** No other transaction holds the account or is writing to the order's log. */
  ghost predicate OrderFree(s: State) {
    forall y | y in s.active :: !s.active[y].holds && s.active[y].marks == []
  }

  lemma MarkWritten(callers: Callers, s: State, x: Id, m: Mark)
    requires Reachable(callers, s) && x !in s.active && OrderFree(s) && NextMark(s.log, m)
    ensures Reachable(callers, Put(s, x, Transaction([m], [], {}, true, Writing)))
  {
    hide Reachable, RunSteps, Total, LedgerGuards.Allowed;
    LedgerAdmits.StepsAllowed(m.from, m.to);
    var s0 := Put(s, x, Transaction([], [], {}, false, Writing));
    StepReaches(callers, s, Step(x, Begin), s0);
    var s1 := Put(s, x, Transaction([], [], {}, true, Writing));
    assert Put(s0, x, Transaction([], [], {}, true, Writing)) == s1;
    StepReaches(callers, s0, Step(x, LockAccount), s1);
    var s2 := Put(s, x, Transaction([m], [], {}, true, Writing));
    assert s.log + [] == s.log && [] + [m] == [m] && Put(s1, x, Transaction([m], [], {}, true, Writing)) == s2;
    StepReaches(callers, s1, Step(x, AppendMark(m)), s2);
  }

  /** The legal next event of an order nobody is writing to commits. */
  lemma MarkGoesThrough(callers: Callers, s: State, x: Id, m: Mark)
    requires Reachable(callers, s) && x !in s.active && OrderFree(s) && NextMark(s.log, m)
    ensures Reachable(callers, State(s.log + [m], s.fills, s.after, s.active))
  {
    hide Reachable, RunSteps, Total, NextMark;
    MarkWritten(callers, s, x, m);
    var s0, t := Put(s, x, Transaction([m], [], {}, true, Writing)), State(s.log + [m], s.fills, s.after, s.active);
    assert s0.active - {x} == s.active && s.fills + [] == s.fills;
    assert CommitOf(s0, x) == t;
    StepReaches(callers, s0, Step(x, Commit), t);
  }

  lemma FillBooked(callers: Callers, s: State, x: Id, m: Mark, fill: Fill)
    requires Reachable(callers, Put(s, x, Transaction([m], [], {}, true, Writing))) && x !in s.active
    requires forall y | y in s.active :: fill.account !in s.active[y].booked
    requires callers.oneAccount ==> fill.account == Own
    ensures Reachable(callers, Put(s, x, Transaction([m], [fill], {fill.account}, true, Writing)))
  {
    hide Reachable, RunSteps, Total;
    var s0 := Put(s, x, Transaction([m], [], {}, true, Writing));
    var s1 := Put(s, x, Transaction([m], [fill], {}, true, Writing));
    assert [] + [fill] == [fill] && Put(s0, x, Transaction([m], [fill], {}, true, Writing)) == s1;
    StepReaches(callers, s0, Step(x, InsertFill(fill)), s1);
    var s2 := Put(s, x, Transaction([m], [fill], {fill.account}, true, Writing));
    assert {} + {fill.account} == {fill.account};
    assert Put(s1, x, Transaction([m], [fill], {fill.account}, true, Writing)) == s2;
    StepReaches(callers, s1, Step(x, PostJournal(fill.account)), s2);
  }

  lemma TotalAfter(fills: seq<Fill>, fill: Fill)
    ensures Total(fills + [fill]) == Sum(fills, (f: Fill) => f.quantity) + fill.quantity
  {
    SumPush(fills, fill, QuantityOf);
    SumPointwise(fills, fills, QuantityOf, (f: Fill) => f.quantity);
  }

  /** A fill event that declares what the fills then add up to commits together with its fill and journal row. */
  lemma FillGoesThrough(callers: Callers, s: State, x: Id, m: Mark, fill: Fill)
    requires Reachable(callers, s) && x !in s.active && OrderFree(s) && NextMark(s.log, m)
    requires forall y | y in s.active :: fill.account !in s.active[y].booked
    requires callers.oneAccount ==> fill.account == Own
    requires m.to == LedgerGuards.PartiallyFilled || m.to == LedgerGuards.Filled
    requires m.cumulative == Sum(s.fills, (f: Fill) => f.quantity) + fill.quantity
    ensures Reachable(callers, State(s.log + [m], s.fills + [fill], s.after + [|s.log| + 1], s.active))
  {
    hide Reachable, RunSteps, Total, NextMark, OrderFree;
    MarkWritten(callers, s, x, m);
    FillBooked(callers, s, x, m, fill);
    TotalAfter(s.fills, fill);
    var s0 := Put(s, x, Transaction([m], [fill], {fill.account}, true, Writing));
    var s1 := Put(s, x, Transaction([m], [fill], {fill.account}, true, LatestRead(Some(m))));
    assert Put(s0, x, Transaction([m], [fill], {fill.account}, true, LatestRead(Some(m)))) == s1;
    StepReaches(callers, s0, Step(x, ReadLatest), s1);
    var s2 := Put(s, x, Transaction([m], [fill], {fill.account}, true, Checked));
    assert Put(s1, x, Transaction([m], [fill], {fill.account}, true, Checked)) == s2;
    StepReaches(callers, s1, Step(x, ReadTotal), s2);
    var t := State(s.log + [m], s.fills + [fill], s.after + [|s.log| + 1], s.active);
    assert s2.active - {x} == s.active && CommitOf(s2, x) == t;
    StepReaches(callers, s2, Step(x, Commit), t);
  }
}
