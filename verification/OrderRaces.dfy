/**
 Fills of one order under concurrency. At READ COMMITTED the deferred fill check reads the latest order
 event and the sum of the fills in two unlocked queries, and its transaction commits some time later.
 The guards mention one order at a time, so the model follows the rows of one order, with the journal
 rows its fills need.
 */
module OrderRaces {
  import opened Wrappers
  import opened Sums
  import LedgerGuards

  type Id = int
  type AccountId = int

  /** An order event, without the hash link and the time that `Chain` covers. */
  datatype Mark = Mark(from: LedgerGuards.Status, to: LedgerGuards.Status, cumulative: real)

  datatype Fill = Fill(account: AccountId, quantity: real)

  /** Where a transaction stands: writing, or inside the deferred check that COMMIT runs. */
  datatype Phase = Writing | LatestRead(latest: Option<Mark>) | Checked

  /** `booked` are the accounts it has journal rows for, `holds` whether it locked the order's account row. */
  datatype Transaction = Transaction(marks: seq<Mark>, fills: seq<Fill>, booked: set<AccountId>, holds: bool, at: Phase)

  /** `after[i]` is the number of order events committed when fill `i` was committed. */
  datatype State = State(log: seq<Mark>, fills: seq<Fill>, after: seq<nat>, active: map<Id, Transaction>)

  const Start := State([], [], [], map[])

  /** The account of the order intent. */
  const Own: AccountId := 0

  /**
   What callers keep to beyond the guards: whoever writes to the order first locks the row of its account,
   until the end; every fill is in the order's own account.
   */
  datatype Callers = Callers(lock: bool, oneAccount: bool)

  datatype Action =
    | Begin
    | LockAccount
    | AppendMark(mark: Mark)
    | InsertFill(fill: Fill)
    | PostJournal(account: AccountId)
    | ReadLatest
    | ReadTotal
    | Commit
    | Rollback

  datatype Step = Step(tx: Id, action: Action)

  function QuantityOf(fill: Fill): real { fill.quantity }

  function Total(fills: seq<Fill>): real { Sum(fills, QuantityOf) }

  function Latest(log: seq<Mark>): Option<Mark> {
    if log == [] then None else Some(log[|log| - 1])
  }

  /** The order trigger's condition on the next event. */
  predicate Follows(log: seq<Mark>, m: Mark) {
    && LedgerGuards.Allowed(m.from, m.to)
    && if log == [] then m.from == LedgerGuards.Created
       else m.from == log[|log| - 1].to && log[|log| - 1].cumulative <= m.cumulative
  }

  /** Every fill has its journal row, of the same account, in the same transaction. */
  predicate Journaled(t: Transaction) {
    forall f | f in t.fills :: f.account in t.booked
  }

  /** The deferred check's condition on what its two queries returned. */
  predicate Agrees(latest: Option<Mark>, total: real) {
    && latest.Some? && (latest.value.to.PartiallyFilled? || latest.value.to.Filled?)
    && latest.value.cumulative == total
  }

  function Put(s: State, x: Id, t: Transaction): State {
    s.(active := s.active[x := t])
  }

  function Abort(s: State, x: Id): State {
    s.(active := s.active - {x})
  }

  function CommitOf(s: State, x: Id): State
    requires x in s.active
  {
    var t := s.active[x];
    var log := s.log + t.marks;
    State(log, s.fills + t.fills, s.after + seq(|t.fills|, _ => |log|), s.active - {x})
  }

  predicate MayWrite(callers: Callers, t: Transaction) {
    t.at.Writing? && (callers.lock ==> t.holds)
  }

  /** One step of one transaction; `None` when it has to wait or is out of turn. */
  function Next(callers: Callers, s: State, step: Step): Option<State> {
    var x := step.tx;
    if step.action.Begin? then
      if x in s.active then None else Some(Put(s, x, Transaction([], [], {}, false, Writing)))
    else if x !in s.active then None
    else
      var t := s.active[x];
      match step.action
      case LockAccount =>
        if !t.at.Writing? || exists y | y in s.active :: y != x && s.active[y].holds then None
        else Some(Put(s, x, t.(holds := true)))
      case AppendMark(m) =>
        // The chain trigger locks the latest event and the sequence number is unique: one writer at a time.
        if !MayWrite(callers, t) || exists y | y in s.active :: y != x && s.active[y].marks != [] then None
        else if !Follows(s.log + t.marks, m) then Some(Abort(s, x))
        else Some(Put(s, x, t.(marks := t.marks + [m])))
      case InsertFill(fill) =>
        if !MayWrite(callers, t) || (callers.oneAccount && fill.account != Own) then None
        else Some(Put(s, x, t.(fills := t.fills + [fill])))
      case PostJournal(account) =>
        // The journal is a chain per account, so one transaction at a time has uncommitted rows of an account.
        if !t.at.Writing? || exists y | y in s.active :: y != x && account in s.active[y].booked then None
        else Some(Put(s, x, t.(booked := t.booked + {account})))
      case ReadLatest =>
        if !t.at.Writing? || t.fills == [] then None
        else if !Journaled(t) then Some(Abort(s, x))
        else Some(Put(s, x, t.(at := LatestRead(Latest(s.log + t.marks)))))
      case ReadTotal =>
        if !t.at.LatestRead? then None
        else if !Agrees(t.at.latest, Total(s.fills + t.fills)) then Some(Abort(s, x))
        else Some(Put(s, x, t.(at := Checked)))
      case Commit =>
        if t.at.Checked? || (t.at.Writing? && t.fills == []) then Some(CommitOf(s, x)) else None
      case Rollback => Some(Abort(s, x))
      case Begin => None
  }

  function RunSteps(callers: Callers, s: State, steps: seq<Step>): State {
    if steps == [] then s
    else
      var n := |steps| - 1;
      var before := RunSteps(callers, s, steps[..n]);
      var next := Next(callers, before, steps[n]);
      if next.Some? then next.value else before
  }

  ghost predicate Reachable(callers: Callers, s: State) {
    exists steps :: RunSteps(callers, Start, steps) == s
  }

  /** No fill was committed once a cancelled, expired or rejected event had been. */
  ghost predicate NoFillAfterEnd(s: State) {
    && |s.after| == |s.fills|
    && forall i | 0 <= i < |s.after| ::
         && s.after[i] <= |s.log|
         && forall k | 0 <= k < s.after[i] ::
              s.log[k].to !in {LedgerGuards.Cancelled, LedgerGuards.Expired, LedgerGuards.Rejected}
  }

  /** The fills stay within the latest cumulative quantity. */
  ghost predicate NotOverfilled(s: State) {
    s.fills != [] ==> s.log != [] && Total(s.fills) <= s.log[|s.log| - 1].cumulative
  }
}
