/**
 * The tables that finalization uses: `internal/storage/sqlstore/accounting.go`,
 * `internal/storage/accounting.go`, and the job and spend statements of
 * `internal/storage/sqlstore/responses.go` and `internal/storage/sqlstore/apikeys.go`.
 */
module AccountingStore {
  import opened Deployments
  import opened Accounting
  import Decimals

  /** A row of `request_accounting`: its state column guards the stored record. */
  datatype AccountingRow = AccountingRow(state: RecordState, record: Record)

  /** A row of `usage_logs`. Flush rows only repeat what other rows already say. */
  datatype LogRow = UsageRow(accounting: nat, key: Option<int>, cost: nat) | FlushRow(owner: int, total: nat)

  datatype Job = Job(accounting: nat, status: string)

  datatype JobUpdate = JobUpdate(job: nat, status: string)

  datatype Db = Db(records: map<nat, AccountingRow>, rows: seq<LogRow>, jobs: map<nat, Job>)

  predicate IsTerminal(status: string)
  {
    status == "completed" || status == "failed" || status == "cancelled" || status == "incomplete"
  }

  /** An amount in units of 10^-36; no amount counts as zero. */
  function Owed(amount: Option<string>): nat
  {
    if amount.None? then 0
    else
      var units := Decimals.ParseUnits(amount.value);
      if units.None? then 0 else units.value
  }

  /** The usage row of a record; a request without attempts gets none. */
  function Entry(r: Record): Option<LogRow>
  {
    if r.attempts == [] then None else Some(UsageRow(r.id, r.key, Owed(r.cost.amount)))
  }

  predicate IsFinal(db: Db, id: nat)
  {
    id in db.records && db.records[id].state == Final
  }

  function Put(db: Db, r: Record): Db
  {
    if r.id !in db.records then db.(records := db.records[r.id := AccountingRow(r.state, r)])
    else if db.records[r.id].state == Provisional then
      db.(records := db.records[r.id := AccountingRow(Provisional, r)])
    else db
  }

  function Updated(jobs: map<nat, Job>, update: JobUpdate): map<nat, Job>
  {
    if update.job in jobs then jobs[update.job := jobs[update.job].(status := update.status)] else jobs
  }

  /** The effect of a committed finalization: everything at once, and only while not final. */
  function Finalized(db: Db, r: Record, entry: Option<LogRow>, job: Option<JobUpdate>): Db
  {
    if IsFinal(db, r.id) then db
    else
      Db(db.records[r.id := AccountingRow(Final, r)],
         if entry.Some? then db.rows + [entry.value] else db.rows,
         if job.Some? then Updated(db.jobs, job.value) else db.jobs)
  }

  // ---------- Spend ----------

  function Spend(totals: map<int, nat>, k: int): nat
  {
    if k in totals then totals[k] else 0
  }

  /** What a usage row adds to the spend of a key. */
  function Share(row: LogRow, k: int): nat
  {
    if row.UsageRow? && row.key == Some(k) then row.cost else 0
  }

  /** The summed cost of the usage rows of a key. */
  function Logged(rows: seq<LogRow>, k: int): nat
  {
    if rows == [] then 0 else Logged(rows[..|rows| - 1], k) + Share(rows[|rows| - 1], k)
  }

  lemma LoggedSnoc(rows: seq<LogRow>, row: LogRow, k: int)
    ensures Logged(rows + [row], k) == Logged(rows, k) + Share(row, k)
  {
    assert (rows + [row])[..|rows|] == rows;
  }

  /** What is read back at a start: the sums of the keys that have usage rows. */
  function Loaded(rows: seq<LogRow>): map<int, nat>
  {
    if rows == [] then map[]
    else
      var row := rows[|rows| - 1];
      var before := Loaded(rows[..|rows| - 1]);
      if row.UsageRow? && row.key.Some? then before[row.key.value := Spend(before, row.key.value) + row.cost]
      else before
  }

  lemma {:induction false} LoadedIsLogged(rows: seq<LogRow>, k: int)
    ensures Spend(Loaded(rows), k) == Logged(rows, k)
    ensures k in Loaded(rows) <==> exists row | row in rows :: row.UsageRow? && row.key == Some(k)
  {
    if rows != [] {
      var front, last := rows[..|rows| - 1], rows[|rows| - 1];
      assert rows == front + [last];
      LoadedIsLogged(front, k);
    }
  }

  /** The statement at which a transaction breaks off. */
  datatype Fault = NoFault | AtBegin | AtInsert | AtUpdate | AtLog | AtJob | AtCommit

  /** Whether the transaction gets as far as that statement. */
  predicate Breaks(db: Db, id: nat, logs: bool, updates: bool, fault: Fault)
  {
    match fault
    case NoFault => false
    case AtBegin => true
    case AtInsert => true
    case AtUpdate => true
    case AtLog => !IsFinal(db, id) && logs
    case AtJob => !IsFinal(db, id) && updates
    case AtCommit => !IsFinal(db, id)
  }

  class Store {
    var records: map<nat, AccountingRow>
    var rows: seq<LogRow>
    var jobs: map<nat, Job>

    ghost function Contents(): Db
      reads this
    {
      Db(records, rows, jobs)
    }

    constructor (db: Db)
      ensures Contents() == db
    {
      records, rows, jobs := db.records, db.rows, db.jobs;
    }

    method PutAccounting(r: Record)
      modifies this
      ensures Contents() == Put(old(Contents()), r)
    {
      if r.id !in records {
        records := records[r.id := AccountingRow(r.state, r)];
      } else if records[r.id].state == Provisional {
        records := records[r.id := records[r.id].(record := r)];
      }
    }

    method GetAccounting(id: nat) returns (r: Option<Record>)
      ensures r == if id in records then Some(records[id].record) else None
    {
      r := None;
      if id in records {
        r := Some(records[id].record);
      }
    }

    /**
     * One transaction: make sure there is a row, finalize it if it is still provisional, and then
     * add the usage row and update the job. Any fault undoes everything, and losing the race
     * changes nothing.
     */
    method FinalizeAccounting(r: Record, entry: Option<LogRow>, job: Option<JobUpdate>, fault: Fault)
      returns (won: bool, failed: bool)
      modifies this
      ensures failed == Breaks(old(Contents()), r.id, entry.Some?, job.Some?, fault)
      ensures failed ==> !won && Contents() == old(Contents())
      ensures !failed ==> won == !IsFinal(old(Contents()), r.id)
      ensures !failed ==> Contents() == Finalized(old(Contents()), r, entry, job)
    {
      won, failed := false, true;
      if fault == AtBegin {
        return;
      }
      var newRecords, newRows, newJobs := records, rows, jobs;
      if fault == AtInsert {
        return;
      }
      if r.id !in newRecords {
        newRecords := newRecords[r.id := AccountingRow(Provisional, r)];
      }
      if fault == AtUpdate {
        return;
      }
      var affected := 0;
      if newRecords[r.id].state == Provisional {
        newRecords := newRecords[r.id := AccountingRow(Final, r)];
        affected := 1;
      }
      if affected == 0 {
        return false, false;
      }
      if entry.Some? {
        if fault == AtLog {
          return;
        }
        newRows := newRows + [entry.value];
      }
      if job.Some? {
        if fault == AtJob {
          return;
        }
        newJobs := Updated(newJobs, job.value);
      }
      if fault == AtCommit {
        return;
      }
      records, rows, jobs := newRecords, newRows, newJobs;
      won, failed := true, false;
    }

    method CreateResponsesJob(id: nat, accounting: nat, status: string)
      modifies this
      ensures Contents() == old(Contents()).(jobs := if id in old(jobs) then old(jobs)
                                                     else old(jobs)[id := Job(accounting, status)])
    {
      if id !in jobs {
        jobs := jobs[id := Job(accounting, status)];
      }
    }

    /** There is no test of the old status here. */
    method UpdateResponsesJob(update: JobUpdate)
      modifies this
      ensures Contents() == old(Contents()).(jobs := Updated(old(jobs), update))
    {
      if update.job in jobs {
        jobs := jobs[update.job := Job(jobs[update.job].accounting, update.status)];
      }
    }

    method FlushKeySpend(key: int, total: nat)
      modifies this
      ensures Contents() == old(Contents()).(rows := old(rows) + [FlushRow(key, total)])
    {
      rows := rows + [FlushRow(key, total)];
    }

    /** The summed cost of each key's usage rows; flush rows are left out. */
    method GetKeySpendTotals() returns (totals: map<int, nat>)
      ensures totals == Loaded(rows)
      ensures forall k :: Spend(totals, k) == Logged(rows, k)
    {
      totals := map[];
      for n := 0 to |rows|
        invariant totals == Loaded(rows[..n])
      {
        var row := rows[n];
        assert rows[..n + 1][..n] == rows[..n];
        if row.UsageRow? && row.key.Some? {
          totals := totals[row.key.value := Spend(totals, row.key.value) + row.cost];
        }
      }
      assert rows[..|rows|] == rows;
      forall k {
        LoadedIsLogged(rows, k);
      }
    }
  }
}

/** `internal/keystore/spend.go`: the running total of every key, in memory. */
module SpendTotals {
  import opened Deployments
  import opened AccountingStore

  lemma SomeElement(s: set<int>)
    ensures s == {} || exists k :: k in s
  {
    assert (forall k: int :: k !in s) ==> s == {};
  }

  class SpendAccumulator {
    var totals: map<int, nat>

    constructor ()
      ensures totals == map[]
    {
      totals := map[];
    }

    /** Takes over what is logged; a total that no usage row speaks of stays. */
    method InitFromStorage(store: Store, unreadable: bool) returns (failed: bool)
      modifies this
      ensures failed == unreadable
      ensures totals == if failed then old(totals) else old(totals) + Loaded(store.rows)
      ensures !failed && old(totals) == map[] ==> forall k :: Spend(totals, k) == Logged(store.rows, k)
    {
      if unreadable {
        return true;
      }
      var loaded := store.GetKeySpendTotals();
      totals := totals + loaded;
      failed := false;
    }

    method Credit(key: int, cost: nat)
      modifies this
      ensures totals == old(totals)[key := Spend(old(totals), key) + cost]
    {
      if key !in totals {
        totals := totals[key := 0];
      }
      totals := totals[key := totals[key] + cost];
    }

    method CurrentSpend(key: int) returns (total: nat)
      ensures total == Spend(totals, key)
    {
      total := 0;
      if key in totals {
        total := totals[key];
      }
    }

    /** Writes the totals as flush rows, in any order and even if some writes fail. */
    method FlushToStorage(store: Store, failing: set<int>) returns (failed: bool, ghost added: seq<LogRow>)
      modifies store
      ensures totals == old(totals)
      ensures failed == exists k | k in totals && totals[k] > 0 :: k in failing
      ensures store.records == old(store.records) && store.jobs == old(store.jobs)
      ensures store.rows == old(store.rows) + added
      ensures forall row | row in added :: Snapshotted(totals, failing, row)
      ensures forall k | k in totals && totals[k] > 0 && k !in failing :: FlushRow(k, totals[k]) in added
      ensures forall i, j | 0 <= i < j < |added| :: added[i] != added[j]
    {
      failed, added := false, [];
      var keys: set<int> := totals.Keys;
      while keys != {}
        invariant keys <= totals.Keys
        invariant failed == exists k | k in totals && totals[k] > 0 && k !in keys :: k in failing
        invariant store.records == old(store.records) && store.jobs == old(store.jobs)
        invariant store.rows == old(store.rows) + added
        invariant forall row | row in added :: Snapshotted(totals, failing, row) && row.owner !in keys
        invariant forall i, j | 0 <= i < j < |added| :: added[i] != added[j]
        invariant forall k | k in totals && totals[k] > 0 && k !in failing && k !in keys ::
                    FlushRow(k, totals[k]) in added
        decreases |keys|
      {
        SomeElement(keys);
        var k: int :| k in keys;
        keys := keys - {k};
        if totals[k] > 0 {
          if k in failing {
            failed := true;
          } else {
            store.FlushKeySpend(k, totals[k]);
            added := added + [FlushRow(k, totals[k])];
          }
        }
      }
    }
  }

  predicate Snapshotted(totals: map<int, nat>, failing: set<int>, row: LogRow)
  {
    row.FlushRow? && row.owner in totals && row.owner !in failing && row.total == totals[row.owner] > 0
  }

  /** However many flush rows are added, the logged spend of every key stays what it was. */
  lemma {:induction false} FlushRowsDoNotCount(rows: seq<LogRow>, added: seq<LogRow>, k: int)
    requires forall row | row in added :: row.FlushRow?
    ensures Logged(rows + added, k) == Logged(rows, k)
  {
    if added == [] {
      assert rows + added == rows;
    } else {
      var front, last := added[..|added| - 1], added[|added| - 1];
      assert last in added && rows + added == rows + front + [last];
      FlushRowsDoNotCount(rows, front, k);
      LoggedSnoc(rows + front, last, k);
    }
  }
}
