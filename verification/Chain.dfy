/**
 The hash chain that the account, reservation, order, journal and strategy logs share:
 a BEFORE INSERT trigger comparing with the latest row, and a CHECK on the shape of one row.
 */
module Chain {
  import opened Wrappers
  import opened Sql

  datatype Event<B> = Event(sequence: int, previous: Option<Hash>, hash: Hash, at: int, body: B)

  /** `order by sequence desc limit 1`. */
  function Latest<B>(rows: seq<Event<B>>): (latest: Option<Event<B>>)
    ensures latest.None? <==> rows == []
    ensures latest.Some? ==> latest.value in rows
    ensures latest.Some? ==> forall e | e in rows :: e.sequence <= latest.value.sequence
  {
    if rows == [] then None
    else
      var n := |rows| - 1;
      var rest := Latest(rows[..n]);
      assert rows == rows[..n] + [rows[n]];
      if rest.Some? && rest.value.sequence > rows[n].sequence then rest else Some(rows[n])
  }

  function SequenceAfter<B>(prior: Option<Event<B>>): Option<int> {
    if prior.Some? then Some(prior.value.sequence + 1) else None
  }

  function HashOf<B>(prior: Option<Event<B>>): Option<Hash> {
    if prior.Some? then Some(prior.value.hash) else None
  }

  function TimeOf<B>(prior: Option<Event<B>>): Option<int> {
    if prior.Some? then Some(prior.value.at) else None
  }

  /** The trigger's condition; `genesis` and `step` are the conditions a particular table adds. */
  function ChainBroken<B>(prior: Option<Event<B>>, e: Event<B>, genesis: Truth, step: Truth): Truth {
    if e.sequence == 1 then
      Or(Of(prior.Some?), Or(Of(e.previous.Some?), genesis))
    else
      Or(Of(prior.None?),
         Or(NotEqual(Some(e.sequence), SequenceAfter(prior)),
            Or(NotEqual(e.previous, HashOf(prior)), step)))
  }

  /** `(sequence = 1 and previous is null) or (sequence > 1 and previous is not null)`. */
  function ChainShape<B>(e: Event<B>): Truth {
    Or(And(Of(e.sequence == 1), Of(e.previous.None?)), And(Of(e.sequence > 1), Of(e.previous.Some?)))
  }

  predicate Admitted<B>(rows: seq<Event<B>>, e: Event<B>, genesis: Truth, step: Truth) {
    && !Raises(ChainBroken(Latest(rows), e, genesis, step))
    && Passes(Of(e.sequence > 0))
    && Passes(ChainShape(e))
  }

  /** The hash that row number `i + 1` must name; NULL for the first row only. */
  function HashBefore<B>(rows: seq<Event<B>>, i: nat): (previous: Option<Hash>)
    requires i <= |rows|
  {
    if i == 0 then None else Some(rows[i - 1].hash)
  }

  /** Numbered 1, 2, 3 …, each row naming the hash of the row before it and never NULL. */
  ghost predicate ChainOk<B>(rows: seq<Event<B>>) {
    forall i | 0 <= i < |rows| ::
      && rows[i].sequence == i + 1
      && rows[i].previous == HashBefore(rows, i)
  }

  ghost predicate InOrder<B>(rows: seq<Event<B>>) {
    forall i, j | 0 <= i < j < |rows| :: rows[i].at <= rows[j].at
  }

  lemma LatestIsLast<B>(rows: seq<Event<B>>)
    requires ChainOk(rows) && rows != []
    ensures Latest(rows) == Some(rows[|rows| - 1])
  {
    var latest := Latest(rows).value;
    assert rows[|rows| - 1] in rows;
    var i :| 0 <= i < |rows| && rows[i] == latest;
    assert rows[i].sequence == i + 1;
  }

  lemma HashesKept<B>(rows: seq<Event<B>>, e: Event<B>)
    ensures forall i: nat | i <= |rows| :: HashBefore(rows + [e], i) == HashBefore(rows, i)
  {
  }

  lemma ChainGrows<B>(rows: seq<Event<B>>, e: Event<B>)
    requires ChainOk(rows)
    ensures ChainOk(rows + [e]) <==> e.sequence == |rows| + 1 && e.previous == HashBefore(rows, |rows|)
  {
    hide HashBefore;
    var grown := rows + [e];
    HashesKept(rows, e);
    assert grown[|rows|] == e;
    if e.sequence == |rows| + 1 && e.previous == HashBefore(rows, |rows|) {
      forall i | 0 <= i < |rows| ensures grown[i] == rows[i] && rows[i].sequence == i + 1 {
      }
      assert ChainOk(grown);
    }
  }

  /** The trigger's condition in two-valued terms: only the comparison with NULL leaves a gap. */
  lemma TriggerMeans<B>(prior: Option<Event<B>>, e: Event<B>, genesis: Truth, step: Truth)
    ensures !Raises(ChainBroken(prior, e, genesis, step)) <==>
      if e.sequence == 1 then prior.None? && e.previous.None? && !Raises(genesis)
      else && prior.Some? && e.sequence == prior.value.sequence + 1
           && (e.previous.None? || e.previous == Some(prior.value.hash)) && !Raises(step)
  {
  }

  lemma LatestNumber<B>(rows: seq<Event<B>>)
    requires ChainOk(rows)
    ensures Latest(rows).None? <==> rows == []
    ensures rows != [] ==> Latest(rows) == Some(rows[|rows| - 1]) && rows[|rows| - 1].sequence == |rows|
  {
    if rows != [] {
      LatestIsLast(rows);
    }
  }

  /** What an accepted row does to a chain, and which table-specific conditions it met. */
  lemma AdmittedExtends<B>(rows: seq<Event<B>>, e: Event<B>, genesis: Truth, step: Truth)
    requires ChainOk(rows) && Admitted(rows, e, genesis, step)
    ensures ChainOk(rows + [e]) && e.sequence == |rows| + 1
    ensures rows == [] ==> !Raises(genesis)
    ensures rows != [] ==> !Raises(step) && Latest(rows) == Some(rows[|rows| - 1])
  {
    hide Latest, ChainBroken, ChainOk, Raises;
    LatestNumber(rows);
    TriggerMeans(Latest(rows), e, genesis, step);
    ChainGrows(rows, e);
  }

  /** Trigger and CHECKs together admit exactly the next link. */
  lemma AdmittedExactly<B>(rows: seq<Event<B>>, e: Event<B>, genesis: Truth, step: Truth)
    requires ChainOk(rows)
    ensures Admitted(rows, e, genesis, step) <==>
      && e.sequence == |rows| + 1
      && e.previous == HashBefore(rows, |rows|)
      && !Raises(if rows == [] then genesis else step)
  {
    hide Latest, ChainBroken, ChainOk, Raises;
    LatestNumber(rows);
    TriggerMeans(Latest(rows), e, genesis, step);
  }

  /** A row the trigger lets pass continues the chain exactly when the CHECK on its shape passes. */
  lemma ShapeDecides<B>(rows: seq<Event<B>>, e: Event<B>, genesis: Truth, step: Truth)
    requires ChainOk(rows) && !Raises(ChainBroken(Latest(rows), e, genesis, step))
    ensures ChainOk(rows + [e]) <==> Passes(ChainShape(e))
  {
    hide Latest, ChainBroken, ChainOk, Raises;
    LatestNumber(rows);
    TriggerMeans(Latest(rows), e, genesis, step);
    ChainGrows(rows, e);
  }

  /** The trigger alone lets a NULL previous hash through: `NULL <> hash` is unknown. */
  lemma TriggerAdmitsNull<B>(rows: seq<Event<B>>, hash: Hash, at: int, body: B)
    requires ChainOk(rows) && rows != []
    ensures var e := Event(|rows| + 1, None, hash, at, body);
            !Raises(ChainBroken(Latest(rows), e, False, False)) && !ChainOk(rows + [e])
  {
    hide Latest, ChainBroken, ChainOk;
    var e := Event(|rows| + 1, None, hash, at, body);
    LatestNumber(rows);
    TriggerMeans(Latest(rows), e, False, False);
    ChainGrows(rows, e);
  }

  /** A chain read off row by row. */
  lemma ChainLinks<B>(rows: seq<Event<B>>)
    requires ChainOk(rows)
    ensures forall i | 0 <= i < |rows| :: rows[i].sequence == i + 1
    ensures forall i, j | 0 <= i && j == i + 1 && j < |rows| :: rows[j].previous == Some(rows[i].hash)
    ensures rows != [] ==> rows[0].previous == None
  {
    forall i, j | 0 <= i && j == i + 1 && j < |rows| ensures rows[j].previous == Some(rows[i].hash) {
      assert rows[j].previous == HashBefore(rows, j);
    }
  }

  /** In a chain the row with a sequence number is found at its place. */
  lemma FoundAtNumber<B>(rows: seq<Event<B>>, e: Event<B>)
    requires ChainOk(rows) && e in rows
    ensures 1 <= e.sequence <= |rows| && rows[e.sequence - 1] == e
  {
    var i :| 0 <= i < |rows| && rows[i] == e;
    assert rows[i].sequence == i + 1;
  }

  lemma TimeExtends<B>(rows: seq<Event<B>>, e: Event<B>)
    requires InOrder(rows)
    requires rows != [] ==> rows[|rows| - 1].at <= e.at
    ensures InOrder(rows + [e])
  {
    forall i | 0 <= i < |rows| ensures rows[i].at <= e.at {
      assert rows[i].at <= rows[|rows| - 1].at;
    }
  }
}
