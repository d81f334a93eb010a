/**
 One account's row and event log under READ COMMITTED. The UPDATE locks the row until its transaction
 ends; the event trigger reads the row's sequence without a lock, then the latest event, and only then is
 the event inserted; other transactions may commit between any two of these.
 */
module AccountRaces {
  import opened Wrappers
  import opened Sql
  import opened Chain
  import opened AccountGuards

  type Id = int

  /** Where a transaction stands inside the event trigger or inside its commit. */
  datatype Phase =
    | Writing
    | SequenceRead(event: Event<Note>)
    | PriorRead(event: Event<Note>)
    | Checked

  /** `row`, `events` and `due` are what the transaction has written; `holds` is the row lock. */
  datatype Transaction = Transaction(
    row: Option<Account>, events: seq<Event<Note>>, due: seq<Account>, holds: bool, at: Phase)

  datatype State = State(row: Option<Account>, log: seq<Event<Note>>, active: map<Id, Transaction>)

  const Start := State(None, [], map[])
  const Fresh := Transaction(None, [], [], false, Writing)

  datatype Action =
    | Begin
    | Open(genesis: Account, now: int)
    | Advance(renamed: bool, advanced: Account, now: int)
    | BeginEvent(event: Event<Note>)
    | ReadPrior
    | InsertEvent
    | Check
    | Commit
    | Rollback

  datatype Step = Step(tx: Id, action: Action)

  function RowOf(s: State, t: Transaction): Option<Account> {
    if t.row.Some? then t.row else s.row
  }

  function LogOf(s: State, t: Transaction): seq<Event<Note>> {
    s.log + t.events
  }

  function Put(s: State, x: Id, t: Transaction): State {
    s.(active := s.active[x := t])
  }

  function Abort(s: State, x: Id): State {
    s.(active := s.active - {x})
  }

  predicate HeldByOther(s: State, x: Id) {
    exists y | y in s.active :: y != x && s.active[y].holds
  }

  function AdvanceStep(s: State, x: Id, renamed: bool, row: Account, now: int): Option<State>
    requires x in s.active
  {
    var t := s.active[x];
    var held := RowOf(s, t);
    if HeldByOther(s, x) then None
    else if held.None? then Some(s)
    else if renamed || AdvanceInvalid("", held.value, "", row) || !RowChecks(row) then Some(Abort(s, x))
    else
      var stored := row.(updatedAt := now);
      Some(Put(s, x, t.(row := Some(stored), due := t.due + [stored], holds := true)))
  }

  /** The condition of the chain trigger, with the CHECKs, on what its second query sees. */
  predicate Continues(log: seq<Event<Note>>, e: Event<Note>) {
    Admitted(log, e, False, Less(Some(e.at), TimeOf(Latest(log))))
  }

  predicate Numbered(log: seq<Event<Note>>, sequence: int) {
    exists e | e in log :: e.sequence == sequence
  }

  predicate PendingElsewhere(s: State, x: Id, sequence: int) {
    exists y | y in s.active :: y != x && Numbered(s.active[y].events, sequence)
  }

  /** The deferred trigger for one queued row version. */
  predicate Matched(log: seq<Event<Note>>, row: Account) {
    exists e | e in log :: e.sequence == row.aggregate && e.at == row.updatedAt
  }

  /**
   One step of one transaction; `None` when it has to wait or is out of turn. `unique` says whether the
   unique key on (account, sequence) exists.
   */
  function Next(unique: bool, s: State, step: Step): Option<State> {
    var x := step.tx;
    if step.action.Begin? then
      if x in s.active then None else Some(Put(s, x, Fresh))
    else if x !in s.active then None
    else
      var t := s.active[x];
      match step.action
      case Open(row, now) =>
        if !t.at.Writing? || HeldByOther(s, x) then None
        else if RowOf(s, t).Some? || GenesisInvalid(row) || !RowChecks(row) then Some(Abort(s, x))
        else Some(Put(s, x, t.(row := Some(row.(createdAt := now, updatedAt := now)), holds := true)))
      case Advance(renamed, row, now) =>
        if t.at.Writing? then AdvanceStep(s, x, renamed, row, now) else None
      case BeginEvent(e) =>
        if !t.at.Writing? then None
        else if RowOf(s, t).None? || e.sequence != RowOf(s, t).value.aggregate then Some(Abort(s, x))
        else Some(Put(s, x, t.(at := SequenceRead(e))))
      case ReadPrior =>
        if !t.at.SequenceRead? then None
        else if !Continues(LogOf(s, t), t.at.event) then Some(Abort(s, x))
        else Some(Put(s, x, t.(at := PriorRead(t.at.event))))
      case InsertEvent =>
        if !t.at.PriorRead? || (unique && PendingElsewhere(s, x, t.at.event.sequence)) then None
        else if unique && Numbered(LogOf(s, t), t.at.event.sequence) then Some(Abort(s, x))
        else Some(Put(s, x, t.(events := t.events + [t.at.event], at := Writing)))
      case Check =>
        // One query per queued row; the log only grows, so passing each at its own time is passing all at the last.
        if !t.at.Writing? then None
        else if exists row | row in t.due :: !Matched(LogOf(s, t), row) then Some(Abort(s, x))
        else Some(Put(s, x, t.(at := Checked)))
      case Commit =>
        if t.at.Checked? then Some(State(RowOf(s, t), LogOf(s, t), s.active - {x})) else None
      case Rollback => Some(Abort(s, x))
      case Begin => None
  }

  function RunSteps(unique: bool, s: State, steps: seq<Step>): State {
    if steps == [] then s
    else
      var n := |steps| - 1;
      var before := RunSteps(unique, s, steps[..n]);
      var next := Next(unique, before, steps[n]);
      if next.Some? then next.value else before
  }

  /** Events exactly 1 .. aggregate_sequence, hash-linked, in time order, the last at the row's update time. */
  ghost predicate LogExact(row: Option<Account>, log: seq<Event<Note>>) {
    && ChainOk(log) && InOrder(log)
    && if row.None? then log == [] else CountersOk(row.value) && Caught(log, row.value)
  }
}
