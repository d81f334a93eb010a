/** Sums over the whole ledger: the trial balance, and fills counted against journal transactions. */
module TrialBalance {
  import opened Sql
  import opened LedgerGuards
  import opened LedgerLaws

  /** Debits minus credits in one commodity over every posting of the given transactions. */
  function NetOver(postings: seq<Entry<TransactionId, Posting>>, ids: set<TransactionId>, commodity: string): real {
    if postings == [] then 0.0
    else
      var n := |postings| - 1;
      NetOver(postings[..n], ids, commodity)
      + if postings[n].key in ids && postings[n].row.commodity == commodity then Signed(postings[n].row) else 0.0
  }

  function TransactionsOf(t: Tables, account: AccountId): set<TransactionId> {
    set j | j in t.journals && j.key == account :: j.row.body.id
  }

  lemma NetAppend(ps: seq<Posting>, p: Posting, commodity: string)
    ensures Net(ps + [p], commodity) == Net(ps, commodity) + if p.commodity == commodity then Signed(p) else 0.0
  {
    assert (ps + [p])[..|ps|] == ps;
  }

  lemma {:induction false} NetEmpty(postings: seq<Entry<TransactionId, Posting>>, commodity: string)
    ensures NetOver(postings, {}, commodity) == 0.0
  {
    if postings != [] {
      NetEmpty(postings[..|postings| - 1], commodity);
    }
  }

  /** One transaction's share of the sum is the net of its own postings. */
  lemma {:induction false} NetWithout(
    postings: seq<Entry<TransactionId, Posting>>, ids: set<TransactionId>, id: TransactionId, commodity: string)
    requires id in ids
    ensures NetOver(postings, ids, commodity) ==
            NetOver(postings, ids - {id}, commodity) + Net(Select(postings, id), commodity)
  {
    if postings != [] {
      var n := |postings| - 1;
      NetWithout(postings[..n], ids, id, commodity);
      assert postings == postings[..n] + [postings[n]];
      SelectAppend(postings[..n], postings[n], id);
      NetAppend(Select(postings[..n], id), postings[n].row, commodity);
    }
  }

  /** Any collection of balanced transactions is balanced as a whole. */
  lemma {:induction false} NetOfBalanced(
    postings: seq<Entry<TransactionId, Posting>>, ids: set<TransactionId>, commodity: string)
    requires forall id | id in ids :: Net(Select(postings, id), commodity) == 0.0
    ensures NetOver(postings, ids, commodity) == 0.0
    decreases |ids|
  {
    if ids == {} {
      NetEmpty(postings, commodity);
    } else {
      var id :| id in ids;
      NetOfBalanced(postings, ids - {id}, commodity);
      NetWithout(postings, ids, id, commodity);
    }
  }

  /** In every committed ledger, each account's debits equal its credits in every commodity. */
  lemma TrialBalanceIsZero(t: Tables, account: AccountId, commodity: string)
    requires Books(t)
    ensures NetOver(t.postings, TransactionsOf(t, account), commodity) == 0.0
  {
    hide Structure, Paired, NotOverfilled, Select, Net, NetOver;
    forall id | id in TransactionsOf(t, account) ensures Net(Select(t.postings, id), commodity) == 0.0 {
      var j :| j in t.journals && j.row.body.id == id;
      assert Balanced(t, j.row.body);
      assert GroupBalanced(Select(t.postings, id), commodity);
    }
    NetOfBalanced(t.postings, TransactionsOf(t, account), commodity);
  }

  function FillIds(t: Tables): (ids: seq<FillId>)
    ensures |ids| == |t.fills| && forall i | 0 <= i < |ids| :: ids[i] == t.fills[i].id
  {
    seq(|t.fills|, i requires 0 <= i < |t.fills| => t.fills[i].id)
  }

  function JournalFills(t: Tables): (ids: seq<FillId>)
    ensures |ids| == |t.journals| && forall i | 0 <= i < |ids| :: ids[i] == t.journals[i].row.body.fill
  {
    seq(|t.journals|, i requires 0 <= i < |t.journals| => t.journals[i].row.body.fill)
  }

  lemma {:induction false} DistinctMultiset<T>(xs: seq<T>, x: T)
    requires forall i, j | 0 <= i < j < |xs| :: xs[i] != xs[j]
    ensures multiset(xs)[x] == if x in xs then 1 else 0
  {
    if xs != [] {
      var n := |xs| - 1;
      DistinctMultiset(xs[..n], x);
      assert xs == xs[..n] + [xs[n]];
    }
  }

  /** The journal books exactly the fills: the two id columns are permutations of each other. */
  lemma FillsAreJournaled(t: Tables)
    requires Books(t)
    ensures multiset(FillIds(t)) == multiset(JournalFills(t))
    ensures |t.fills| == |t.journals|
  {
    hide NotOverfilled, Balanced, OrderLogs, JournalLogs, PostingsOwned;
    var ids, booked := FillIds(t), JournalFills(t);
    forall x: FillId ensures multiset(ids)[x] == multiset(booked)[x] {
      DistinctMultiset(ids, x);
      DistinctMultiset(booked, x);
      SameIds(t, x);
    }
    assert |multiset(ids)| == |ids| && |multiset(booked)| == |booked|;
  }

  lemma FillIsBooked(t: Tables, x: FillId)
    requires FillsBooked(t) && x in FillIds(t)
    ensures x in JournalFills(t)
  {
    hide FillIds, JournalFills;
    var i :| 0 <= i < |t.fills| && FillIds(t)[i] == x;
    assert t.fills[i] in t.fills;
    var j :| j in t.journals && Pairs(j, t.fills[i]);
    var k :| 0 <= k < |t.journals| && t.journals[k] == j;
    assert JournalFills(t)[k] == x;
  }

  lemma BookedIsFill(t: Tables, x: FillId)
    requires JournalsSourced(t) && x in JournalFills(t)
    ensures x in FillIds(t)
  {
    hide FillIds, JournalFills;
    var k :| 0 <= k < |t.journals| && JournalFills(t)[k] == x;
    assert t.journals[k] in t.journals;
    var f :| f in t.fills && Pairs(t.journals[k], f);
    var i :| 0 <= i < |t.fills| && t.fills[i] == f;
    assert FillIds(t)[i] == x;
  }

  lemma SameIds(t: Tables, x: FillId)
    requires Paired(t)
    ensures x in FillIds(t) <==> x in JournalFills(t)
  {
    hide FillsBooked, JournalsSourced, FillIds, JournalFills;
    if x in FillIds(t) {
      FillIsBooked(t, x);
    }
    if x in JournalFills(t) {
      BookedIsFill(t, x);
    }
  }
}
