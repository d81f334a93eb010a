/**
 When fills are safe over every interleaving. The journal chain alone keeps the fills of one account from
 overfilling an order; only the account lock keeps them from following its end.
 */
module OrderRaceLaws {
  import LedgerLaws
  import opened OrderRaces

  ghost predicate LegalLog(log: seq<Mark>) {
    forall n: nat | n < |log| :: Follows(log[..n], log[n])
  }

  lemma LegalGrows(log: seq<Mark>, m: Mark)
    requires LegalLog(log) && Follows(log, m)
    ensures LegalLog(log + [m])
  {
    hide Follows;
    forall n: nat | n < |log + [m]| ensures Follows((log + [m])[..n], (log + [m])[n]) {
      if n < |log| {
        assert (log + [m])[..n] == log[..n];
      } else {
        assert (log + [m])[..n] == log;
      }
    }
  }

  /** Nothing follows a final status. */
  lemma FinalIsLast(log: seq<Mark>, k: nat)
    requires LegalLog(log) && k + 1 < |log|
    ensures !LedgerLaws.Final(log[k].to)
  {
    assert Follows(log[..k + 1], log[k + 1]);
    assert log[..k + 1][k] == log[k];
  }

  lemma {:induction false} CumulativeRises(log: seq<Mark>, k: nat)
    requires LegalLog(log) && k < |log|
    ensures log[k].cumulative <= log[|log| - 1].cumulative
    decreases |log| - k
  {
    if k + 1 < |log| {
      assert Follows(log[..k + 1], log[k + 1]);
      assert log[..k + 1][k] == log[k];
      CumulativeRises(log, k + 1);
    }
  }

  // ---------- callers that lock the account ----------

  ghost predicate Idle(t: Transaction) {
    t.marks == [] && t.fills == [] && t.at.Writing?
  }

  /** What a transaction has read is still so, and only the lock's holder has written to the order. */
  ghost predicate LockedTx(log: seq<Mark>, fills: seq<Fill>, t: Transaction) {
    && (Idle(t) || t.holds)
    && LegalLog(log + t.marks)
    && match t.at
       case Writing => true
       case LatestRead(latest) => latest == Latest(log + t.marks)
       case Checked => Agrees(Latest(log + t.marks), Total(fills + t.fills))
  }

  ghost predicate LockedInv(s: State) {
    && LegalLog(s.log) && NoFillAfterEnd(s) && NotOverfilled(s)
    && (forall x | x in s.active :: LockedTx(s.log, s.fills, s.active[x]))
    && (forall x, y | x in s.active && y in s.active && x != y :: !(s.active[x].holds && s.active[y].holds))
  }

  /** A commit with fills: its check is still true, so the total agrees and the order has not ended. */
  lemma FillCommitAgrees(s: State, x: Id)
    requires LockedInv(s) && x in s.active && s.active[x].at.Checked?
    ensures var u := CommitOf(s, x);
            && u.log != [] && Total(u.fills) == u.log[|u.log| - 1].cumulative
            && (forall k | 0 <= k < |u.log| :: !LedgerLaws.Final(u.log[k].to))
  {
    hide NoFillAfterEnd, NotOverfilled, Total, LegalLog;
    assert LockedTx(s.log, s.fills, s.active[x]);
    var log := s.log + s.active[x].marks;
    forall k: nat | k < |log| ensures !LedgerLaws.Final(log[k].to) {
      if k + 1 < |log| {
        FinalIsLast(log, k);
      }
    }
  }

  lemma LockedCommitSafe(s: State, x: Id)
    requires LockedInv(s) && x in s.active && (s.active[x].at.Checked? || Idle(s.active[x].(marks := [])))
    ensures var u := CommitOf(s, x); LegalLog(u.log) && NoFillAfterEnd(u) && NotOverfilled(u)
  {
    hide Total, LegalLog;
    var t, u := s.active[x], CommitOf(s, x);
    assert LockedTx(s.log, s.fills, t);
    if t.at.Checked? {
      FillCommitAgrees(s, x);
      forall i | 0 <= i < |u.after| ensures u.after[i] <= |u.log| {
        assert u.after[i] == if i < |s.after| then s.after[i] else |u.log|;
      }
    } else {
      assert u.fills == s.fills && u.after == s.after;
      if s.fills != [] {
        CumulativeRises(u.log, |s.log| - 1);
      }
    }
  }

  lemma LockedCommit(s: State, x: Id)
    requires LockedInv(s) && x in s.active && (s.active[x].at.Checked? || Idle(s.active[x].(marks := [])))
    ensures LockedInv(CommitOf(s, x))
  {
    LockedCommitSafe(s, x);
    hide Total, LegalLog, NoFillAfterEnd, NotOverfilled, Agrees;
    var t, u := s.active[x], CommitOf(s, x);
    assert LockedTx(s.log, s.fills, t);
    forall y | y in u.active ensures LockedTx(u.log, u.fills, u.active[y]) {
      assert LockedTx(s.log, s.fills, s.active[y]);
      if t.holds {
        assert Idle(s.active[y]);
        assert u.log + [] == u.log;
      } else {
        assert u.log == s.log && u.fills == s.fills;
      }
    }
  }

  lemma LockedPut(s: State, x: Id, t: Transaction)
    requires LockedInv(s) && LockedTx(s.log, s.fills, t)
    requires t.holds ==> forall y | y in s.active && y != x :: !s.active[y].holds
    ensures LockedInv(Put(s, x, t))
  {
    hide Total, LegalLog, LockedTx;
  }

  lemma LockedAbort(s: State, x: Id)
    requires LockedInv(s)
    ensures LockedInv(Abort(s, x))
  {
    hide Total, LegalLog, LockedTx;
  }

  lemma LockedBegin(s: State, x: Id)
    requires LockedInv(s)
    ensures LockedInv(Put(s, x, Transaction([], [], {}, false, Writing)))
  {
    hide Total;
    assert s.log + [] == s.log;
    LockedPut(s, x, Transaction([], [], {}, false, Writing));
  }

  lemma LockedAppend(s: State, x: Id, m: Mark)
    requires LockedInv(s) && x in s.active && s.active[x].at.Writing? && s.active[x].holds
    requires Follows(s.log + s.active[x].marks, m)
    ensures LockedInv(Put(s, x, s.active[x].(marks := s.active[x].marks + [m])))
  {
    hide Total, LegalLog, Follows, NoFillAfterEnd, NotOverfilled;
    var t := s.active[x];
    assert LockedTx(s.log, s.fills, t);
    LegalGrows(s.log + t.marks, m);
    assert s.log + (t.marks + [m]) == s.log + t.marks + [m];
    LockedPut(s, x, t.(marks := t.marks + [m]));
  }

  /** Steps that change one transaction and nothing of its order events. */
  predicate OwnStep(a: Action) {
    a.LockAccount? || a.InsertFill? || a.PostJournal? || a.ReadLatest? || a.ReadTotal?
  }

  lemma LockedOwnStep(callers: Callers, s: State, step: Step)
    requires callers.lock && LockedInv(s) && Next(callers, s, step).Some? && step.tx in s.active && OwnStep(step.action)
    ensures LockedInv(Next(callers, s, step).value)
  {
    hide Total, LegalLog, NoFillAfterEnd, NotOverfilled, Journaled;
    var x := step.tx;
    var t, u := s.active[x], Next(callers, s, step).value;
    assert LockedTx(s.log, s.fills, t);
    LockedAbort(s, x);
    if u != Abort(s, x) {
      LockedPut(s, x, u.active[x]);
    }
  }

  /** With the lock, every step of every transaction keeps the order safe. */
  lemma LockedNext(callers: Callers, s: State, step: Step)
    requires callers.lock && LockedInv(s) && Next(callers, s, step).Some?
    ensures LockedInv(Next(callers, s, step).value)
  {
    hide LockedInv, Follows, Agrees, Total, Journaled;
    var x := step.tx;
    match step.action
    case Begin => LockedBegin(s, x);
    case AppendMark(m) =>
      LockedAbort(s, x);
      if Follows(s.log + s.active[x].marks, m) {
        LockedAppend(s, x, m);
      }
    case Commit => LockedCommit(s, x);
    case Rollback => LockedAbort(s, x);
    case LockAccount => LockedOwnStep(callers, s, step);
    case InsertFill(_) => LockedOwnStep(callers, s, step);
    case PostJournal(_) => LockedOwnStep(callers, s, step);
    case ReadLatest => LockedOwnStep(callers, s, step);
    case ReadTotal => LockedOwnStep(callers, s, step);
  }

  lemma {:induction false} LockedRun(callers: Callers, steps: seq<Step>)
    requires callers.lock
    ensures LockedInv(RunSteps(callers, Start, steps))
  {
    hide Next;
    if steps != [] {
      var n := |steps| - 1;
      LockedRun(callers, steps[..n]);
      var before := RunSteps(callers, Start, steps[..n]);
      if Next(callers, before, steps[n]).Some? {
        LockedNext(callers, before, steps[n]);
      }
    }
  }

  // ---------- fills in one account, without the lock ----------

  /** The latest event may have moved on since it was read, but only upwards. */
  ghost predicate Covered(log: seq<Mark>, amount: real) {
    log != [] && amount <= log[|log| - 1].cumulative
  }

  ghost predicate BookedTx(log: seq<Mark>, fills: seq<Fill>, t: Transaction) {
    && LegalLog(log + t.marks)
    && (forall f | f in t.fills :: f.account == Own)
    && (!t.at.Writing? ==> t.fills != [] && Own in t.booked)
    && match t.at
       case Writing => true
       case LatestRead(latest) => latest.Some? ==> Covered(log + t.marks, latest.value.cumulative)
       case Checked => Covered(log + t.marks, Total(fills + t.fills))
  }

  /** One writer of order events at a time, one writer of an account's journal at a time. */
  ghost predicate Apart(a: Transaction, b: Transaction) {
    (a.marks == [] || b.marks == []) && a.booked !! b.booked
  }

  ghost predicate BookedInv(s: State) {
    && LegalLog(s.log) && NotOverfilled(s)
    && (forall x | x in s.active :: BookedTx(s.log, s.fills, s.active[x]))
    && (forall x, y | x in s.active && y in s.active && x != y :: Apart(s.active[x], s.active[y]))
  }

  lemma CoveredLater(log: seq<Mark>, more: seq<Mark>, amount: real)
    requires Covered(log, amount) && LegalLog(log + more)
    ensures Covered(log + more, amount)
  {
    hide LegalLog;
    CumulativeRises(log + more, |log| - 1);
  }

  lemma BookedCommitSafe(s: State, x: Id)
    requires BookedInv(s) && x in s.active && (s.active[x].at.Checked? || s.active[x].fills == [])
    ensures LegalLog(CommitOf(s, x).log) && NotOverfilled(CommitOf(s, x))
  {
    hide Total, LegalLog;
    var t := s.active[x];
    assert BookedTx(s.log, s.fills, t);
    if t.fills == [] {
      assert s.fills + t.fills == s.fills;
      if s.fills != [] {
        CoveredLater(s.log, t.marks, Total(s.fills));
      }
    }
  }

  /** What a commit leaves of another transaction's reads. */
  lemma BookedOther(s: State, x: Id, y: Id)
    requires BookedInv(s) && x in s.active && y in s.active && x != y
    requires s.active[x].at.Checked? || s.active[x].fills == []
    ensures BookedTx(CommitOf(s, x).log, CommitOf(s, x).fills, s.active[y])
  {
    hide Total, LegalLog, NotOverfilled, Covered;
    var t, o, u := s.active[x], s.active[y], CommitOf(s, x);
    assert BookedTx(s.log, s.fills, t) && BookedTx(s.log, s.fills, o) && Apart(t, o);
    if t.marks == [] {
      assert u.log == s.log;
    } else {
      assert u.log + o.marks == u.log && s.log + o.marks == s.log;
      if o.at.LatestRead? && o.at.latest.Some? {
        CoveredLater(s.log, t.marks, o.at.latest.value.cumulative);
      } else if o.at.Checked? {
        CoveredLater(s.log, t.marks, Total(s.fills + o.fills));
      }
    }
    if t.fills == [] {
      assert u.fills == s.fills;
    } else {
      assert o.at.Writing?;
    }
  }

  lemma BookedCommit(s: State, x: Id)
    requires BookedInv(s) && x in s.active && (s.active[x].at.Checked? || s.active[x].fills == [])
    ensures BookedInv(CommitOf(s, x))
  {
    BookedCommitSafe(s, x);
    hide Total, LegalLog, NotOverfilled, BookedTx, Apart;
    var u := CommitOf(s, x);
    forall y | y in u.active ensures BookedTx(u.log, u.fills, u.active[y]) {
      BookedOther(s, x, y);
    }
  }

  lemma BookedPut(s: State, x: Id, t: Transaction)
    requires BookedInv(s) && BookedTx(s.log, s.fills, t)
    requires forall y | y in s.active && y != x :: Apart(t, s.active[y])
    ensures BookedInv(Put(s, x, t))
  {
    hide Total, LegalLog, BookedTx;
    var u := Put(s, x, t);
    forall y, z | y in u.active && z in u.active && y != z ensures Apart(u.active[y], u.active[z]) {
      if y == x {
        assert Apart(t, s.active[z]);
      } else if z == x {
        assert Apart(t, s.active[y]);
      }
    }
  }

  lemma BookedAbort(s: State, x: Id)
    requires BookedInv(s)
    ensures BookedInv(Abort(s, x))
  {
    hide Total, LegalLog, BookedTx, Apart;
  }

  lemma BookedBegin(s: State, x: Id)
    requires BookedInv(s)
    ensures BookedInv(Put(s, x, Transaction([], [], {}, false, Writing)))
  {
    hide Total;
    assert s.log + [] == s.log;
    BookedPut(s, x, Transaction([], [], {}, false, Writing));
  }

  lemma BookedAppend(s: State, x: Id, m: Mark)
    requires BookedInv(s) && x in s.active && s.active[x].at.Writing?
    requires forall y | y in s.active && y != x :: s.active[y].marks == []
    requires Follows(s.log + s.active[x].marks, m)
    ensures BookedInv(Put(s, x, s.active[x].(marks := s.active[x].marks + [m])))
  {
    hide Total, LegalLog, Follows, NotOverfilled;
    var t := s.active[x];
    assert BookedTx(s.log, s.fills, t);
    LegalGrows(s.log + t.marks, m);
    assert s.log + (t.marks + [m]) == s.log + t.marks + [m];
    forall y | y in s.active && y != x ensures Apart(t.(marks := t.marks + [m]), s.active[y]) {
      assert Apart(t, s.active[y]);
    }
    BookedPut(s, x, t.(marks := t.marks + [m]));
  }

  lemma LatestCovers(log: seq<Mark>)
    ensures Latest(log).Some? ==> Covered(log, Latest(log).value.cumulative)
  {
  }

  lemma BookedOwnStep(callers: Callers, s: State, step: Step)
    requires callers.oneAccount && BookedInv(s) && Next(callers, s, step).Some? && step.tx in s.active && OwnStep(step.action)
    ensures BookedInv(Next(callers, s, step).value)
  {
    hide Total, LegalLog, NotOverfilled, Covered, Latest;
    var x := step.tx;
    var t, u := s.active[x], Next(callers, s, step).value;
    assert BookedTx(s.log, s.fills, t);
    LatestCovers(s.log + t.marks);
    BookedAbort(s, x);
    if u != Abort(s, x) {
      if step.action.ReadLatest? {
        assert t.fills[0] in t.fills;
      }
      forall y | y in s.active && y != x ensures Apart(u.active[x], s.active[y]) {
        assert Apart(t, s.active[y]);
      }
      BookedPut(s, x, u.active[x]);
    }
  }

  /** With all fills in one account, the journal chain alone keeps the order from being overfilled. */
  lemma BookedNext(callers: Callers, s: State, step: Step)
    requires callers.oneAccount && BookedInv(s) && Next(callers, s, step).Some?
    ensures BookedInv(Next(callers, s, step).value)
  {
    hide BookedInv, Follows, Agrees, Total, Journaled;
    var x := step.tx;
    match step.action
    case Begin => BookedBegin(s, x);
    case AppendMark(m) =>
      BookedAbort(s, x);
      if Follows(s.log + s.active[x].marks, m) {
        BookedAppend(s, x, m);
      }
    case Commit => BookedCommit(s, x);
    case Rollback => BookedAbort(s, x);
    case LockAccount => BookedOwnStep(callers, s, step);
    case InsertFill(_) => BookedOwnStep(callers, s, step);
    case PostJournal(_) => BookedOwnStep(callers, s, step);
    case ReadLatest => BookedOwnStep(callers, s, step);
    case ReadTotal => BookedOwnStep(callers, s, step);
  }

  lemma {:induction false} BookedRun(callers: Callers, steps: seq<Step>)
    requires callers.oneAccount
    ensures BookedInv(RunSteps(callers, Start, steps))
  {
    hide Next;
    if steps != [] {
      var n := |steps| - 1;
      BookedRun(callers, steps[..n]);
      var before := RunSteps(callers, Start, steps[..n]);
      if Next(callers, before, steps[n]).Some? {
        BookedNext(callers, before, steps[n]);
      }
    }
  }
}
